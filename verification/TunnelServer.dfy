/** The server end of a KNXnet/IP tunnel: ConnState (src/libserver/eibnetserver.cpp). */
module TunnelServer {
  import opened KnxTypes
  import opened Datagrams
  import opened Emi

  datatype ConnType = Standard | BusMonitor

  /** `trigger` is the pending asynchronous wake-up, `timer` the running retransmission timer. */
  datatype Conn = Conn(
    kind: ConnType,
    channel: int,
    address: Address,
    sno: byte,
    rno: byte,
    retries: nat,
    doSendNext: bool,
    out: seq<Bytes>,
    trigger: bool,
    timer: bool,
    stopped: bool)

  /** As for the client; `queued` lists the frames put on the outgoing queue. */
  datatype Effect = Effect(
    state: Conn,
    sends: seq<Datagram>,
    accepted: seq<Bytes>,
    up: seq<LData>,
    queued: seq<Bytes>,
    next: bool)

  function Quiet(s: Conn): Effect {
    Effect(s, [], [], [], [], false)
  }

  function Opened(kind: ConnType, channel: int, address: Address): Conn {
    Conn(kind, channel, address, 0, 0, 0, false, [], false, false, false)
  }

  /** Queue a frame. Nothing is sent while a transmission is outstanding; a stopped connection's
      wake-up has been switched off. */
  function Put(s: Conn, cemi: Bytes): Conn {
    s.(out := s.out + [cemi], trigger := s.trigger || (s.retries == 0 && !s.stopped))
  }

  function SendLData(s: Conn, l: LData): Effect
    requires CemiEncodable(l)
  {
    if s.kind != Standard then Quiet(s)
    else
      var cemi := ToCemi(L_DATA_IND, l);
      Effect(Put(s.(doSendNext := true), cemi), [], [], [], [cemi], false)
  }

  function Stop(s: Conn): Conn {
    s.(retries := 0, timer := false, trigger := false, stopped := true, address := 0)
  }

  function OnTrigger(s: Conn): Effect {
    if s.out == [] then Quiet(s.(trigger := false))
    else Effect(s.(trigger := false, retries := s.retries + 1, timer := true),
                [TunnelRequest(s.channel, s.sno, s.out[0])], [], [], [], false)
  }

  /** The retransmission timer: once more, or drop the frame and the connection. */
  function OnTimeout(s: Conn): Effect
    requires s.out != []
  {
    var s1 := s.(retries := s.retries + 1, timer := false);
    if s1.retries <= 2 then Quiet(s1.(trigger := true))
    else Quiet(Stop(s1.(out := s.out[1..])))
  }

  function WithSource(l: LData, a: Address): LData {
    if l.source == 0 then l.(source := a) else l
  }

  /** TUNNEL_REQUEST. The confirmation is encoded again, so its payload must fit. */
  function OnRequest(s: Conn, seqno: byte, cemi: Bytes): Effect
    requires |cemi| >= 2
    requires FromCemi(cemi).Some? ==> CemiEncodable(FromCemi(cemi).value)
  {
    if Next(seqno) == s.rno then
      Effect(s, [TunnelAck(s.channel, seqno, E_NO_ERROR)], [], [], [], false)
    else if seqno != s.rno then Quiet(s)
    else
      var s1 := s.(rno := Next(s.rno));
      var parsed := FromCemi(cemi);
      if s.kind != Standard || parsed.None? then
        Effect(s1, [TunnelAck(s.channel, seqno, E_TUNNELING_LAYER)], [cemi], [], [], false)
      else
        var ack := [TunnelAck(s.channel, seqno, E_NO_ERROR)];
        var up := if cemi[0] == L_DATA_REQ || cemi[0] == L_DATA_IND
                  then [WithSource(parsed.value, s.address)] else [];
        if cemi[0] == L_DATA_REQ then
          var con := ToCemi(L_DATA_CON, parsed.value);
          Effect(Put(s1, con), ack, [cemi], up, [con], false)
        else Effect(s1, ack, [cemi], up, [], false)
  }

  /** TUNNEL_RESPONSE. */
  function OnAck(s: Conn, seqno: byte, status: byte): Effect
    requires s.retries != 0 ==> s.out != []
  {
    if seqno != s.sno || status != 0 || s.retries == 0 then Quiet(s)
    else
      var s1 := s.(sno := Next(s.sno), out := s.out[1..], timer := false, retries := 0);
      if s1.out != [] then Quiet(s1.(trigger := true))
      else if s1.doSendNext then Effect(s1.(doSendNext := false), [], [], [], [], true)
      else Quiet(s1)
  }

  /** The connection's own bookkeeping, which every callback keeps. */
  ghost predicate Valid(s: Conn) {
    && s.retries <= 3
    && (s.retries != 0 ==> s.out != [])
    && (s.timer ==> s.retries == 1 || s.retries == 3)
    && (s.trigger ==> s.retries == 0 || s.retries == 2)
    && (s.stopped ==> s.retries == 0 && !s.trigger && !s.timer)
    && (s.doSendNext && !s.stopped ==> s.out != [])
    && (s.out != [] && !s.stopped ==> s.trigger || s.timer)
  }

  /** A tunnel request only ever appends to the queue, and leaves the sending side as it was. */
  lemma RequestKeepsValid(s: Conn, seqno: byte, cemi: Bytes)
    requires Valid(s) && |cemi| >= 2
    requires FromCemi(cemi).Some? ==> CemiEncodable(FromCemi(cemi).value)
    ensures var e := OnRequest(s, seqno, cemi);
      && Valid(e.state)
      && e.state.out == s.out + e.queued
      && e.state == s.(rno := e.state.rno, out := e.state.out, trigger := e.state.trigger)
      && (forall x | x in e.queued :: |x| >= 2)
  {
    hide FromCemi, ToCemi;
  }

  /** The receiving side: a repetition of the last frame is acknowledged again, the expected frame
      is taken and acknowledged with some status, anything else is ignored. */
  lemma RequestIsReceived(s: Conn, seqno: byte, cemi: Bytes)
    requires |cemi| >= 2
    requires FromCemi(cemi).Some? ==> CemiEncodable(FromCemi(cemi).value)
    ensures var e := OnRequest(s, seqno, cemi);
      if Next(seqno) == s.rno then
        e.state.rno == s.rno && e.accepted == [] && e.sends == [TunnelAck(s.channel, seqno, E_NO_ERROR)]
      else if seqno != s.rno then e.state.rno == s.rno && e.accepted == [] && e.sends == []
      else
        && e.state.rno == Next(s.rno) && e.accepted == [cemi]
        && (e.sends == [TunnelAck(s.channel, seqno, E_NO_ERROR)] ||
            e.sends == [TunnelAck(s.channel, seqno, E_TUNNELING_LAYER)])
  {
    hide FromCemi, ToCemi;
  }

  /** A request never changes what kind of connection this is. */
  lemma RequestKind(s: Conn, seqno: byte, cemi: Bytes)
    requires |cemi| >= 2
    requires FromCemi(cemi).Some? ==> CemiEncodable(FromCemi(cemi).value)
    ensures OnRequest(s, seqno, cemi).state.kind == s.kind
  {
    hide FromCemi, ToCemi;
  }

  /** Stopping is for good: the address is given back, no timer and no wake-up is left, and neither a request
      nor an acknowledgement that still arrives starts one. */
  lemma StoppedForGood(s: Conn, seqno: byte, cemi: Bytes, status: byte)
    requires Valid(s) && |cemi| >= 2
    requires FromCemi(cemi).Some? ==> CemiEncodable(FromCemi(cemi).value)
    ensures var t := Stop(s);
      && t.stopped && t.address == 0 && !t.trigger && !t.timer && t.retries == 0 && t.out == s.out && Valid(t)
    ensures s.stopped ==> OnAck(s, seqno, status) == Quiet(s)
    ensures var r := OnRequest(s, seqno, cemi).state;
      s.stopped ==> r.stopped && !r.trigger && !r.timer && r.retries == 0
  {
    RequestKeepsValid(s, seqno, cemi);
    hide OnRequest, FromCemi;
  }

  /** Only an acknowledgement is followed by a request for more. */
  lemma OnlyAcksAskForMore(s: Conn, l: LData, seqno: byte, cemi: Bytes)
    requires CemiEncodable(l) && |cemi| >= 2
    requires FromCemi(cemi).Some? ==> CemiEncodable(FromCemi(cemi).value)
    ensures !SendLData(s, l).next && !OnTrigger(s).next && !OnRequest(s, seqno, cemi).next
    ensures s.out != [] ==> !OnTimeout(s).next
  {
    hide FromCemi, ToCemi;
  }

  /** A frame from above is appended and has to be confirmed; nothing else changes. */
  lemma SendKeepsValid(s: Conn, l: LData)
    requires Valid(s) && s.kind == Standard && CemiEncodable(l)
    ensures var e := SendLData(s, l);
      && e.queued == [ToCemi(L_DATA_IND, l)] && |e.queued[0]| >= 2
      && e.state == s.(out := s.out + e.queued, trigger := e.state.trigger, doSendNext := true)
      && Valid(e.state)
  {
    assert |ToCemi(L_DATA_IND, l)| >= 2;
    hide ToCemi;
  }

  class ConnState {
    const kind: ConnType
    const channel: int
    var address: Address
    var sno: byte
    var rno: byte
    var retries: nat
    var doSendNext: bool
    var out: seq<Bytes>
    var trigger: bool
    var timer: bool
    var stopped: bool

    var sent: seq<Datagram>
    var accepted: seq<Bytes>
    var up: seq<LData>
    var nexts: nat

    function State(): Conn
      reads this
    {
      Conn(kind, channel, address, sno, rno, retries, doSendNext, out, trigger, timer, stopped)
    }

    ghost predicate Shows(e: Effect, sent0: seq<Datagram>, accepted0: seq<Bytes>, up0: seq<LData>, nexts0: nat)
      reads this
    {
      && State() == e.state
      && sent == sent0 + e.sends
      && accepted == accepted0 + e.accepted
      && up == up0 + e.up
      && nexts == nexts0 + (if e.next then 1 else 0)
    }

    constructor (k: ConnType, ch: int, a: Address)
      ensures State() == Opened(k, ch, a) && Valid(State())
      ensures sent == [] && accepted == [] && up == [] && nexts == 0
    {
      kind, channel, address, sno, rno, retries, doSendNext := k, ch, a, 0, 0, 0, false;
      out, trigger, timer, stopped := [], false, false, false;
      sent, accepted, up, nexts := [], [], [], 0;
    }

    method Enqueue(cemi: Bytes)
      modifies `out, `trigger
      ensures State() == Put(old(State()), cemi)
    {
      out := out + [cemi];
      if retries == 0 && !stopped {
        trigger := true;
      }
    }

    method Send(l: LData)
      requires Valid(State()) && !doSendNext && CemiEncodable(l)
      modifies this
      ensures Valid(State())
      ensures Shows(SendLData(old(State()), l), old(sent), old(accepted), old(up), old(nexts))
    {
      if kind == Standard {
        doSendNext := true;
        Enqueue(ToCemi(L_DATA_IND, l));
      }
    }

    method SendTimeoutCallback()
      requires Valid(State()) && timer
      modifies this
      ensures Valid(State())
      ensures Shows(OnTimeout(old(State())), old(sent), old(accepted), old(up), old(nexts))
    {
      timer := false;
      retries := retries + 1;
      if retries <= 2 {
        trigger := true;
        return;
      }
      out := out[1..];
      DoStop();
    }

    method SendTriggerCallback()
      requires Valid(State()) && trigger
      modifies this
      ensures Valid(State())
      ensures Shows(OnTrigger(old(State())), old(sent), old(accepted), old(up), old(nexts))
    {
      trigger := false;
      if |out| == 0 {
        return;
      }
      retries := retries + 1;
      timer := true;
      sent := sent + [TunnelRequest(channel, sno, out[0])];
    }

    method DoStop()
      modifies this
      ensures State() == Stop(old(State()))
      ensures sent == old(sent) && accepted == old(accepted) && up == old(up) && nexts == old(nexts)
    {
      timer := false;
      trigger := false;
      retries := 0;
      address := 0;
      stopped := true;
    }

    /** What an accepted request asks for, and the status it is acknowledged with. */
    method Consume(cemi: Bytes) returns (status: byte)
      requires |cemi| >= 2
      requires FromCemi(cemi).Some? ==> CemiEncodable(FromCemi(cemi).value)
      modifies `out, `trigger, `up
      ensures if kind != Standard || FromCemi(cemi).None? then
                status == E_TUNNELING_LAYER && State() == old(State()) && up == old(up)
              else
                var l := FromCemi(cemi).value;
                && status == E_NO_ERROR
                && State() == (if cemi[0] == L_DATA_REQ then Put(old(State()), ToCemi(L_DATA_CON, l)) else old(State()))
                && up == old(up) + if cemi[0] == L_DATA_REQ || cemi[0] == L_DATA_IND then [WithSource(l, address)] else []
    {
      hide FromCemi, ToCemi;
      if kind != Standard {
        return E_TUNNELING_LAYER;
      }
      var c := FromCemi(cemi);
      if c.None? {
        return E_TUNNELING_LAYER;
      }
      if cemi[0] == L_DATA_REQ {
        Enqueue(ToCemi(L_DATA_CON, c.value));
      }
      if cemi[0] == L_DATA_REQ || cemi[0] == L_DATA_IND {
        up := up + [WithSource(c.value, address)];
      }
      return E_NO_ERROR;
    }

    method TunnelRequested(seqno: byte, cemi: Bytes)
      requires Valid(State()) && |cemi| >= 2
      requires FromCemi(cemi).Some? ==> CemiEncodable(FromCemi(cemi).value)
      modifies this
      ensures Valid(State())
      ensures Shows(OnRequest(old(State()), seqno, cemi), old(sent), old(accepted), old(up), old(nexts))
    {
      hide FromCemi, ToCemi;
      if rno == (seqno as int + 1) % 256 {
        sent := sent + [TunnelAck(channel, seqno, E_NO_ERROR)];
        return;
      }
      if rno != seqno {
        return;
      }
      var status := Consume(cemi);
      rno := if rno == 0xff then 0 else rno + 1;
      accepted := accepted + [cemi];
      sent := sent + [TunnelAck(channel, seqno, status)];
    }

    method TunnelAcked(seqno: byte, status: byte)
      requires Valid(State())
      modifies this
      ensures Valid(State())
      ensures Shows(OnAck(old(State()), seqno, status), old(sent), old(accepted), old(up), old(nexts))
    {
      if sno != seqno || status != 0 || retries == 0 {
        return;
      }
      sno := if sno == 0xff then 0 else sno + 1;
      out := out[1..];
      timer := false;
      retries := 0;
      if |out| != 0 {
        trigger := true;
      } else if doSendNext {
        doSendNext := false;
        nexts := nexts + 1;
      }
    }
  }
}
