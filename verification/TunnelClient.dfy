/** The client end of a KNXnet/IP tunnel (src/backend/eibnettunnel.cpp). */
module TunnelClient {
  import opened KnxTypes
  import opened Datagrams
  import opened Emi

  /** mod: 0 not connected, 1 idle, 2 waiting for the acknowledgement of `out`. */
  datatype Client = Client(
    channel: int,
    mod: nat,
    sno: byte,
    rno: byte,
    retry: nat,
    out: Bytes,
    trigger: bool)

  /** What one callback does: the new state, the datagrams sent, the cEMI frames accepted, the
      L_Data frames handed to the router, and whether the router is asked for the next frame. */
  datatype Effect = Effect(
    state: Client,
    sends: seq<Datagram>,
    accepted: seq<Bytes>,
    up: seq<LData>,
    next: bool)

  function Quiet(s: Client): Effect {
    Effect(s, [], [], [], false)
  }

  /** start(): ask for a connection. What an earlier session left in the buffer is dropped; its
      numbers and its retry counter are not. */
  function Opening(s: Client): Client {
    s.(out := [])
  }

  /** CONNECTION_RESPONSE. The retry counter is left alone. */
  function Connected(s: Client, channel: int): Effect {
    if s.mod != 0 then Quiet(s)
    else Quiet(s.(channel := channel, mod := 1, sno := 0, rno := 0, trigger := true))
  }

  function Restart(s: Client): Effect {
    if s.mod == 0 then Quiet(s)
    else Effect(s.(mod := 0), if s.channel != -1 then [DisconnectRequest(s.channel)] else [], [], [], false)
  }

  /** At least five ahead. A number below the expected one gets 0x100 added, which its eight bits
      drop again, so the two are compared as plain numbers. */
  predicate FarAhead(seqno: byte, rno: byte) {
    seqno as int >= rno as int + 5
  }

  /** An in-sequence tunnel request: acknowledge it and look at its message code. */
  function Accept(s: Client, seqno: byte, cemi: Bytes): Effect
    requires |cemi| >= 2
  {
    var s1 := s.(rno := Next(s.rno));
    var ack := [TunnelAck(s.channel, seqno, E_NO_ERROR)];
    if cemi[0] == L_DATA_CON then
      Effect(if s.mod == 3 then s1.(mod := 1, trigger := true) else s1, ack, [cemi], [], false)
    else if cemi[0] == L_DATA_IND && FromCemi(cemi).Some? then
      Effect(s1, ack, [cemi], [FromCemi(cemi).value], false)
    else
      Effect(s1, ack, [cemi], [], false)
  }

  /** TUNNEL_REQUEST. */
  function OnRequest(s: Client, channel: int, seqno: byte, cemi: Bytes): Effect {
    if s.mod == 0 || |cemi| < 2 || channel != s.channel then Quiet(s)
    else if Next(seqno) == s.rno then
      Effect(s, [TunnelAck(s.channel, seqno, E_NO_ERROR)], [], [], false)
    else if seqno != s.rno then
      if FarAhead(seqno, s.rno) then Restart(s) else Quiet(s)
    else Accept(s, seqno, cemi)
  }

  /** TUNNEL_RESPONSE. */
  function OnAck(s: Client, channel: int, seqno: byte, status: byte): Effect {
    if s.mod == 0 || channel != s.channel || seqno != s.sno || status != 0 || s.mod != 2 then Quiet(s)
    else Effect(s.(sno := Next(s.sno), out := [], mod := 1, trigger := true, retry := 0), [], [], [], true)
  }

  function SendLData(s: Client, cemi: Bytes): Effect {
    Quiet(s.(out := cemi, trigger := true))
  }

  function OnTrigger(s: Client): Effect {
    if s.mod != 1 || s.out == [] then Quiet(s.(trigger := false))
    else Effect(s.(trigger := false, mod := 2), [TunnelRequest(s.channel, s.sno, s.out)], [], [], false)
  }

  /** The retransmission timer. Giving up clears `out` and disconnects, and then falls through
      to the same last line as a retry: mode 1, with the sequence number not advanced. */
  function OnTimeout(s: Client): Effect {
    if s.mod != 2 then Quiet(s)
    else if s.retry > 3 then
      var e := Restart(s.(retry := s.retry + 1, out := []));
      e.(state := e.state.(mod := 1, trigger := true))
    else Quiet(s.(retry := s.retry + 1, mod := 1, trigger := true))
  }

  predicate GivesUp(s: Client) {
    s.mod == 2 && s.retry > 3
  }

  /** The driver object. `sent`, `accepted`, `up` and `nexts` record its calls outwards. */
  class EibNetIpTunnel {
    var channel: int
    var mod: nat
    var sno: byte
    var rno: byte
    var retry: nat
    var out: Bytes
    var trigger: bool

    var sent: seq<Datagram>
    var accepted: seq<Bytes>
    var up: seq<LData>
    var nexts: nat

    function State(): Client
      reads this
    {
      Client(channel, mod, sno, rno, retry, out, trigger)
    }

    ghost predicate Shows(e: Effect, sent0: seq<Datagram>, accepted0: seq<Bytes>, up0: seq<LData>, nexts0: nat)
      reads this
    {
      && State() == e.state
      && sent == sent0 + e.sends
      && accepted == accepted0 + e.accepted
      && up == up0 + e.up
      && nexts == nexts0 + (if e.next then 1 else 0)
    }

    constructor ()
      ensures State() == Client(-1, 0, 0, 0, 0, [], false)
      ensures sent == [] && accepted == [] && up == [] && nexts == 0
    {
      channel, mod, sno, rno, retry, out, trigger := -1, 0, 0, 0, 0, [], false;
      sent, accepted, up, nexts := [], [], [], 0;
    }

    method Start()
      modifies this
      ensures Shows(Quiet(Opening(old(State()))), old(sent), old(accepted), old(up), old(nexts))
    {
      out := [];
    }

    method ConnectionResponse(ch: int)
      modifies this
      ensures Shows(Connected(old(State()), ch), old(sent), old(accepted), old(up), old(nexts))
    {
      if mod != 0 {
        return;
      }
      channel := ch;
      mod := 1;
      trigger := true;
      sno := 0;
      rno := 0;
    }

    method DoRestart()
      modifies this
      ensures Shows(Restart(old(State())), old(sent), old(accepted), old(up), old(nexts))
    {
      if mod == 0 {
        return;
      }
      if channel != -1 {
        sent := sent + [DisconnectRequest(channel)];
      }
      mod := 0;
    }

    method ReadTunnelRequest(ch: int, seqno: byte, cemi: Bytes)
      modifies this
      ensures Shows(OnRequest(old(State()), ch, seqno, cemi), old(sent), old(accepted), old(up), old(nexts))
    {
      if mod == 0 || |cemi| < 2 || ch != channel {
        return;
      }
      if (seqno as int + 1) % 256 == rno {
        sent := sent + [TunnelAck(channel, seqno, E_NO_ERROR)];
        return;
      }
      if seqno != rno {
        var number := seqno;
        if number < rno {
          number := (number as int + 0x100) % 0x100;
        }
        if number as int >= rno as int + 5 {
          DoRestart();
        }
        return;
      }
      rno := if rno == 0xff then 0 else rno + 1;
      sent := sent + [TunnelAck(channel, seqno, E_NO_ERROR)];
      accepted := accepted + [cemi];
      if cemi[0] == L_DATA_CON {
        if mod == 3 {
          mod := 1;
          trigger := true;
        }
        return;
      }
      if cemi[0] == L_DATA_IND {
        var c := FromCemi(cemi);
        if c.Some? {
          up := up + [c.value];
        }
      }
    }

    method ReadTunnelAck(ch: int, seqno: byte, status: byte)
      modifies this
      ensures Shows(OnAck(old(State()), ch, seqno, status), old(sent), old(accepted), old(up), old(nexts))
    {
      if mod == 0 || ch != channel || seqno != sno || status != 0 {
        return;
      }
      if mod == 2 {
        sno := if sno == 0xff then 0 else sno + 1;
        out := [];
        nexts := nexts + 1;
        mod := 1;
        trigger := true;
        retry := 0;
      }
    }

    method Send(l: LData)
      requires out == [] && CemiEncodable(l)
      modifies this
      ensures Shows(SendLData(old(State()), ToCemi(L_DATA_REQ, l)), old(sent), old(accepted), old(up), old(nexts))
    {
      out := ToCemi(L_DATA_REQ, l);
      trigger := true;
    }

    method TriggerCallback()
      modifies this
      ensures Shows(OnTrigger(old(State())), old(sent), old(accepted), old(up), old(nexts))
    {
      trigger := false;
      if mod != 1 || |out| == 0 {
        return;
      }
      sent := sent + [TunnelRequest(channel, sno, out)];
      mod := 2;
    }

    method TimeoutCallback()
      modifies this
      ensures Shows(OnTimeout(old(State())), old(sent), old(accepted), old(up), old(nexts))
    {
      if mod != 2 {
        return;
      }
      retry := retry + 1;
      if retry - 1 > 3 {
        out := [];
        DoRestart();
      }
      mod := 1;
      trigger := true;
    }
  }
}
