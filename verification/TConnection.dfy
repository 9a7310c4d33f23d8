/** The connection-oriented transport layer: T_Connection (src/libserver/layer4.cpp). */
module TConnection {
  import opened KnxTypes
  import opened Tpdu

  /** mode: 0 closed, 1 idle, 2 waiting for the acknowledgement of `current`. */
  datatype Conn = Conn(
    mode: nat,
    sendno: Serno,
    recvno: Serno,
    repcount: nat,
    current: Bytes,
    queue: seq<Bytes>)

  /** The new state, the TPDUs sent and what the application is given; an empty array tells the
      application that the connection is closed. */
  datatype Effect = Effect(state: Conn, sends: seq<Pdu>, app: seq<Bytes>)

  function Quiet(s: Conn): Effect {
    Effect(s, [], [])
  }

  function Next(n: Serno): Serno {
    (n + 1) % 16
  }

  /** The state SendConnect establishes. */
  function Connected(queue: seq<Bytes>): Conn {
    Conn(1, 0, 0, 0, [], queue)
  }

  function Stop(s: Conn): Effect {
    Effect(s.(mode := 0), [Disconnect], [[]])
  }

  function SendCheck(s: Conn): Effect {
    if s.mode != 1 then Quiet(s)
    else if s.queue == [] then Quiet(s.(repcount := 0))
    else Effect(s.(repcount := 0, current := s.queue[0], queue := s.queue[1..], mode := 2),
                [DataConnected(s.sendno, s.queue[0])], [])
  }

  /** An APDU from the application. */
  function RecvData(s: Conn, apdu: Bytes): Effect {
    SendCheck(s.(queue := s.queue + [apdu]))
  }

  function Resend(s: Conn): Effect {
    Effect(s.(repcount := s.repcount + 1), [DataConnected(s.sendno, s.current)], [])
  }

  /** A packet from the bus. Data is taken whatever the mode. */
  function OnPacket(s: Conn, c: Bytes): Effect {
    match FromPacket(c)
    case Disconnect => Stop(s)
    case Connect => Stop(s)
    case DataConnected(n, data) =>
      if n == s.recvno then Effect(s.(recvno := Next(s.recvno)), [Ack(s.recvno)], [Mask(data)])
      else if Next(n) == s.recvno then Effect(s, [Ack(n)], [])
      else Stop(s)
    case Nack(n) =>
      if n != s.sendno || s.repcount >= 3 || s.mode != 2 then Stop(s) else Resend(s)
    case Ack(n) =>
      if n != s.sendno || s.mode != 2 then Stop(s)
      else SendCheck(s.(mode := 1, sendno := Next(s.sendno)))
    case _ => Quiet(s)
  }

  function OnTimer(s: Conn): Effect {
    if s.mode == 2 && s.repcount < 3 then Resend(s) else Stop(s)
  }

  /** What a connection that waits sends when nothing comes back, until it closes. */
  function Insists(s: Conn): seq<Pdu>
    requires s.mode == 2
    decreases 4 - s.repcount
  {
    var f := OnTimer(s);
    if f.state.mode != 2 then f.sends else f.sends + Insists(f.state)
  }

  /** An APDU that nobody acknowledges is transmitted four times in all, always with the same number,
      and then the connection is closed and the application told. */
  lemma SentFourTimes(s: Conn)
    requires s.mode == 1 && s.queue != []
    ensures var f := SendCheck(s);
      var p := DataConnected(s.sendno, s.queue[0]);
      f.state.mode == 2 && f.sends + Insists(f.state) == [p, p, p, p, Disconnect]
    ensures var last := SendCheck(s).state.(repcount := 3);
      OnTimer(last).state.mode == 0 && OnTimer(last).app == [[]]
  {
    var s0 := SendCheck(s).state;
    var s1, s2, s3 := s0.(repcount := 1), s0.(repcount := 2), s0.(repcount := 3);
    assert Insists(s3) == [Disconnect];
    assert Insists(s2) == OnTimer(s2).sends + Insists(s3);
    assert Insists(s1) == OnTimer(s1).sends + Insists(s2);
  }

  /** The same when the peer refuses (true) or the timer fires (false), by turns of any kind. */
  function Repeats(s: Conn, refused: seq<bool>): seq<Pdu>
    decreases |refused|
  {
    if refused == [] then []
    else
      var f := if refused[0] then OnPacket(s, ToPacket(Nack(s.sendno))) else OnTimer(s);
      f.sends + Repeats(f.state, refused[1..])
  }

  lemma OneRepeat(s: Conn, refused: bool)
    requires s.mode == 2
    ensures (if refused then OnPacket(s, ToPacket(Nack(s.sendno))) else OnTimer(s)) ==
      if s.repcount < 3 then Effect(s.(repcount := s.repcount + 1), [DataConnected(s.sendno, s.current)], [])
      else Effect(s.(mode := 0), [Disconnect], [[]])
  {
    RoundTrip(Nack(s.sendno));
    hide FromPacket, ToPacket;
  }

  /** Refusals and timeouts share the budget: in whatever order they come, there are three
      repetitions, and then the connection is closed. */
  lemma ThreeRepetitions(s: Conn, refused: seq<bool>)
    requires s.mode == 2 && s.repcount == 0 && |refused| == 4
    ensures var p := DataConnected(s.sendno, s.current); Repeats(s, refused) == [p, p, p, Disconnect]
  {
    hide OnPacket, OnTimer;
    var p := DataConnected(s.sendno, s.current);
    var s1, s2, s3 := s.(repcount := 1), s.(repcount := 2), s.(repcount := 3);
    OneRepeat(s, refused[0]);
    OneRepeat(s1, refused[1]);
    OneRepeat(s2, refused[2]);
    OneRepeat(s3, refused[3]);
    var r1 := refused[1..];
    var r2 := r1[1..];
    var r3 := r2[1..];
    assert r3[1..] == [] && r3[0] == refused[3] && r2[0] == refused[2] && r1[0] == refused[1];
    assert Repeats(s3.(mode := 0), []) == [];
    assert Repeats(s3, r3) == [Disconnect];
    assert Repeats(s2, r2) == [p] + Repeats(s3, r3);
    assert Repeats(s1, r1) == [p] + Repeats(s2, r2);
  }

  /** `k` copies of one packet arrive. */
  function Copies(s: Conn, c: Bytes, k: nat): Effect {
    if k == 0 then Quiet(s)
    else
      var e := Copies(s, c, k - 1);
      var f := OnPacket(e.state, c);
      Effect(f.state, e.sends + f.sends, e.app + f.app)
  }

  /** When acknowledgements get lost, every copy of an APDU is acknowledged, with a number that ends the
      sender's wait, and the application is given the APDU once. */
  lemma {:induction false} EveryCopyIsAcknowledged(a: Conn, b: Conn, k: nat)
    requires a.mode == 2 && a.current != [] && b.recvno == a.sendno && k > 0
    ensures var e := Copies(b, ToPacket(DataConnected(a.sendno, a.current)), k);
      && e.state == b.(recvno := Next(b.recvno))
      && e.sends == seq(k, i => Ack(a.sendno)) && e.app == [Mask(a.current)]
    ensures var f := OnPacket(a, ToPacket(Ack(a.sendno)));
      f.state.sendno == Next(a.sendno) && f.state.mode == (if a.queue == [] then 1 else 2) && f.app == []
    decreases k
  {
    RoundTrip(DataConnected(a.sendno, a.current));
    RoundTrip(Ack(a.sendno));
    hide FromPacket, ToPacket, Mask;
    var c := ToPacket(DataConnected(a.sendno, a.current));
    if k == 1 {
      assert Copies(b, c, 0) == Quiet(b);
      var none: seq<Pdu> := [];
      assert none + [Ack(a.sendno)] == [Ack(a.sendno)] == seq(1, i => Ack(a.sendno));
    } else {
      EveryCopyIsAcknowledged(a, b, k - 1);
      assert seq(k, i => Ack(a.sendno)) == seq(k - 1, i => Ack(a.sendno)) + [Ack(a.sendno)];
      assert [Mask(a.current)] + [] == [Mask(a.current)];
    }
  }

  /** The object; `sent` and `app` record its calls outwards. */
  class TConn {
    var mode: nat
    var sendno: Serno
    var recvno: Serno
    var repcount: nat
    var current: Bytes
    var queue: seq<Bytes>
    var sent: seq<Pdu>
    var app: seq<Bytes>

    function State(): Conn
      reads this
    {
      Conn(mode, sendno, recvno, repcount, current, queue)
    }

    ghost predicate Shows(e: Effect, sent0: seq<Pdu>, app0: seq<Bytes>)
      reads this
    {
      State() == e.state && sent == sent0 + e.sends && app == app0 + e.app
    }

    constructor ()
      ensures State() == Conn(0, 0, 0, 0, [], []) && sent == [] && app == []
    {
      mode, sendno, recvno, repcount, current, queue, sent, app := 0, 0, 0, 0, [], [], [], [];
    }

    method SendConnect()
      modifies this
      ensures State() == Connected(old(queue)).(current := old(current))
      ensures sent == old(sent) + [Connect] && app == old(app)
    {
      mode := 1;
      sendno := 0;
      recvno := 0;
      repcount := 0;
      sent := sent + [Connect];
    }

    method DoStop()
      modifies this
      ensures Shows(Stop(old(State())), old(sent), old(app))
    {
      mode := 0;
      sent := sent + [Disconnect];
      app := app + [[]];
    }

    method DoSendCheck()
      modifies this
      ensures Shows(SendCheck(old(State())), old(sent), old(app))
    {
      if mode != 1 {
        return;
      }
      repcount := 0;
      if |queue| == 0 {
        return;
      }
      current := queue[0];
      queue := queue[1..];
      sent := sent + [DataConnected(sendno, current)];
      mode := 2;
    }

    method ReceiveData(apdu: Bytes)
      modifies this
      ensures Shows(RecvData(old(State()), apdu), old(sent), old(app))
    {
      queue := queue + [apdu];
      DoSendCheck();
    }

    method SendLData(c: Bytes)
      modifies this
      ensures Shows(OnPacket(old(State()), c), old(sent), old(app))
    {
      hide FromPacket;
      match FromPacket(c)
      case Disconnect =>
        DoStop();
      case Connect =>
        DoStop();
      case DataConnected(n, data) =>
        if n != recvno && n != (recvno as int - 1) % 16 {
          DoStop();
        } else if n == recvno {
          app := app + [Mask(data)];
          sent := sent + [Ack(recvno)];
          recvno := (recvno as int + 1) % 16;
        } else {
          sent := sent + [Ack(n)];
        }
      case Nack(n) =>
        if n != sendno {
          DoStop();
        } else if repcount >= 3 || mode != 2 {
          DoStop();
        } else {
          repcount := repcount + 1;
          sent := sent + [DataConnected(sendno, current)];
        }
      case Ack(n) =>
        if n != sendno {
          DoStop();
        } else if mode != 2 {
          DoStop();
        } else {
          mode := 1;
          sendno := (sendno as int + 1) % 16;
          DoSendCheck();
        }
      case _ =>
    }

    method TimerCallback()
      modifies this
      ensures Shows(OnTimer(old(State())), old(sent), old(app))
    {
      if mode == 2 && repcount < 3 {
        repcount := repcount + 1;
        sent := sent + [DataConnected(sendno, current)];
      } else {
        DoStop();
      }
    }
  }
}
