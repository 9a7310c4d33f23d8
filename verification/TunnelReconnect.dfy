/** A tunnel session on the channel of an earlier one. The server hands a new connection the lowest
    free channel, both ends count from 0 again, and datagrams are told apart by channel and number
    only, so what the network still holds of the old session can arrive in the new one
    (src/libserver/eibnetserver.cpp, src/backend/eibnettunnel.cpp). */
module TunnelReconnect {
  import opened KnxTypes
  import opened Lpdu
  import opened Datagrams
  import opened Emi
  import C = TunnelClient
  import S = TunnelServer
  import T = TunnelSession
  import P = TunnelProgress
  import W = StopAndWait

  /** What is left of the old session in either direction: requests by number and contents, and the
      numbers of acknowledgements. It can arrive until its direction of the new session has moved on
      by more than `life` frames. */
  datatype Old = Old(
    requestsUp: set<(byte, Bytes)>,
    acksUp: set<byte>,
    requestsDown: set<(byte, Bytes)>,
    acksDown: set<byte>,
    life: nat)

  /** Requests that parse, as an old session has sent them. */
  ghost predicate WellSent(o: Old) {
    && (forall r | r in o.requestsUp :: T.Sendable(r.1))
    && (forall r | r in o.requestsDown :: |r.1| >= 2)
  }

  datatype Event =
    | New(e: T.Event)
    | OldRequestToServer(number: byte, cemi: Bytes)
    | OldAckToClient(number: byte)
    | OldRequestToClient(number: byte, cemi: Bytes)
    | OldAckToServer(number: byte)

  ghost predicate Enabled(o: Old, s: T.Session, e: Event) {
    s.open &&
    match e
    case New(f) => T.Enabled(s, f)
    case OldRequestToServer(n, y) => (n, y) in o.requestsUp && s.up.acked <= o.life
    case OldAckToClient(n) => n in o.acksUp && s.up.acked <= o.life
    case OldRequestToClient(n, y) => (n, y) in o.requestsDown && s.down.acked <= o.life
    case OldAckToServer(n) => n in o.acksDown && s.down.acked <= o.life
  }

  ghost predicate Ready(s: T.Session, e: Event) {
    match e
    case New(f) => T.Ready(s, f)
    case OldRequestToServer(_, y) => T.Sendable(y)
    case OldAckToServer(_) => s.server.retries != 0 ==> s.server.out != []
    case _ => true
  }

  /** The endpoints treat an old datagram as any other; it is stamped with the frame of the new
      session whose number it bears. */
  ghost function Step(s: T.Session, e: Event): T.Session
    requires Ready(s, e) && (e.New? ==> T.Enabled(s, e.e))
  {
    match e
    case New(f) => T.Step(s, f)
    case OldRequestToServer(n, y) => T.RequestAtServer(s, W.Packet(n, y, n))
    case OldAckToClient(n) => T.AckAtClient(s, n)
    case OldRequestToClient(n, y) => T.RequestAtClient(s, W.Packet(n, y, n))
    case OldAckToServer(n) => T.AckAtServer(s, n)
  }

  ghost function Run(o: Old, s: T.Session, events: seq<Event>): Option<T.Session>
    decreases |events|
  {
    if events == [] then Some(s)
    else if !Enabled(o, s, events[0]) then Run(o, s, events[1..])
    else if !Ready(s, events[0]) then None
    else Run(o, Step(s, events[0]), events[1..])
  }

  /** No callback precondition failed, and both directions are as they should be. */
  ghost predicate Good(r: Option<T.Session>) {
    r.Some? && W.Safe(T.Up(r.value)) && W.Safe(T.Down(r.value))
  }

  /** The numbers are out of the new session's reach while the datagrams live. */
  predicate Harmless(o: Old) {
    && (forall r | r in o.requestsUp + o.requestsDown :: r.0 as int >= o.life + 2)
    && (forall n | n in o.acksUp + o.acksDown :: n as int >= o.life + 1)
  }

  // ------------------------------------------------------------- out of reach

  /** An acknowledgement of number 255 sent before anything was delivered: a new receiver takes an
      old request of that number for a repetition of the frame before its first. */
  predicate Phantom(a: W.Receipt) {
    a.number == 255 && a.sentAt == 0
  }

  function Genuine(h: W.History<Bytes>): W.History<Bytes> {
    h.(receipts := set a | a in h.receipts && !Phantom(a))
  }

  /** The session without phantoms. */
  function Clean(s: T.Session): T.Session {
    s.(up := Genuine(s.up), down := Genuine(s.down))
  }

  ghost predicate Inv(s: T.Session) {
    T.Inv(Clean(s))
  }

  lemma GenuineAdds(h: W.History<Bytes>, a: W.Receipt)
    ensures Genuine(h.(receipts := h.receipts + {a})) ==
      if Phantom(a) then Genuine(h) else Genuine(h).(receipts := Genuine(h).receipts + {a})
  {
    var with := Genuine(h.(receipts := h.receipts + {a}));
    if Phantom(a) {
      assert with.receipts == Genuine(h).receipts;
    } else {
      assert with.receipts == Genuine(h).receipts + {a};
    }
  }

  /** No packet of the new session is answered by a phantom. */
  lemma AnswersCommute(h: W.History<Bytes>, channel: int, p: W.Packet<Bytes>, accepted: seq<Bytes>, sends: seq<Datagram>)
    requires |sends| == 1 && sends[0].TunnelAck? ==> !(sends[0].seqno == 255 && h.acked == 0)
    ensures Genuine(T.Answers(h, channel, p, accepted, sends)) == T.Answers(Genuine(h), channel, p, accepted, sends)
  {
    if |sends| == 1 && sends[0].TunnelAck? && sends[0].channel == channel && sends[0].status == 0 {
      GenuineAdds(h.(delivered := h.delivered + accepted), W.Receipt(sends[0].seqno, p.sentAt, h.acked));
    }
  }

  /** The client acknowledges the number it was sent and no other. */
  lemma ClientAcksNumber(c: C.Client, number: byte, cemi: Bytes)
    ensures var f := C.OnRequest(c, c.channel, number, cemi);
      |f.sends| == 1 && f.sends[0].TunnelAck? ==> f.sends[0].seqno == number
  {
    hide FromCemi, ToCemi;
  }

  /** A packet of the new session does not bear number 255 while nothing is acknowledged. */
  lemma FirstNumbers(h: W.State<Bytes>, p: W.Packet<Bytes>)
    requires W.Inv(T.MODULUS, h) && p in h.packets
    ensures h.acked == 0 ==> p.number != 255
  {
    assert W.PacketOk(T.MODULUS, h, p);
  }

  lemma RequestCommutes(s: T.Session, e: T.Event)
    requires Inv(s) && (e.RequestToServer? || e.RequestToClient?) && T.Enabled(s, e) && T.Ready(s, e)
    ensures T.Enabled(Clean(s), e) && T.Ready(Clean(s), e) && Clean(T.Step(s, e)) == T.Step(Clean(s), e)
  {
    hide FromCemi, ToCemi, W.Inv, T.ClientInv, T.ServerInv, S.OnRequest, C.OnRequest, T.Answers, Genuine;
    GenuineKeeps(s.up);
    GenuineKeeps(s.down);
    match e
    case RequestToServer(p) =>
      FirstNumbers(T.Up(Clean(s)), p);
      S.RequestIsReceived(s.server, p.number, p.payload);
      var f := S.OnRequest(s.server, p.number, p.payload);
      AnswersCommute(s.up, s.client.channel, p, f.accepted, f.sends);
      GenuineSubmits(s.down, f.queued);
    case RequestToClient(p) =>
      FirstNumbers(T.Down(Clean(s)), p);
      ClientAcksNumber(s.client, p.number, p.payload);
      var f := C.OnRequest(s.client, s.client.channel, p.number, p.payload);
      AnswersCommute(s.down, s.server.channel, p, f.accepted, f.sends);
  }

  lemma GenuineKeeps(h: W.History<Bytes>)
    ensures var g := Genuine(h);
      g == h.(receipts := g.receipts) && g.receipts <= h.receipts && forall a | a in h.receipts && !Phantom(a) :: a in g.receipts
  {
  }

  lemma GenuineSubmits(h: W.History<Bytes>, xs: seq<Bytes>)
    ensures Genuine(h.(submitted := h.submitted + xs)) == Genuine(h).(submitted := h.submitted + xs)
  {
  }

  /** An acknowledgement of another number changes nothing at either end. */
  lemma AckIgnored(s: T.Session, number: byte)
    ensures number != s.client.sno ==> T.AckAtClient(s, number) == s
    ensures number != s.server.sno && (s.server.retries != 0 ==> s.server.out != []) ==> T.AckAtServer(s, number) == s
  {
  }

  /** The sender has not come to a number above what it has completed. */
  lemma NotYet(h: W.State<Bytes>, life: nat, number: byte)
    requires W.Inv(T.MODULUS, h) && h.acked <= life && number as int >= life + 1
    ensures h.sno != number
  {
    W.Counters(T.MODULUS, h);
  }

  /** A phantom is never taken for an acknowledgement: its number comes up again when it is gone. */
  lemma PhantomIsIgnored(s: T.Session, e: T.Event)
    requires Inv(s) && T.Enabled(s, e)
    requires (e.AckToClient? || e.AckToServer?) && Phantom(e.a)
    ensures T.Ready(s, e) && T.Step(s, e) == s
  {
    hide W.Inv, FromCemi, ToCemi, T.AckAtClient, T.AckAtServer;
    AckIgnored(s, 255);
    if e.AckToClient? {
      NotYet(T.Up(Clean(s)), 254, 255);
    } else {
      NotYet(T.Down(Clean(s)), 254, 255);
    }
  }

  /** Everything else of the new session happens as if there were no phantoms. */
  lemma OtherCommutes(s: T.Session, e: T.Event)
    requires Inv(s) && T.Enabled(s, e) && !e.RequestToServer? && !e.RequestToClient?
    requires (e.AckToClient? || e.AckToServer?) ==> !Phantom(e.a)
    ensures T.Enabled(Clean(s), e)
    ensures T.Ready(Clean(s), e) ==> T.Ready(s, e) && Clean(T.Step(s, e)) == T.Step(Clean(s), e)
  {
    hide FromCemi, ToCemi, W.Inv, T.ClientInv, T.ServerInv;
  }

  lemma NewKeeps(s: T.Session, e: T.Event)
    requires Inv(s) && T.Enabled(s, e)
    ensures T.Ready(s, e) && Inv(T.Step(s, e))
  {
    hide FromCemi, ToCemi, T.Inv, T.Step;
    if (e.AckToClient? || e.AckToServer?) && Phantom(e.a) {
      PhantomIsIgnored(s, e);
    } else {
      T.InvReady(Clean(s), e);
      if e.RequestToServer? || e.RequestToClient? {
        RequestCommutes(s, e);
      } else {
        OtherCommutes(s, e);
      }
      T.StepKeepsInv(Clean(s), e);
    }
  }

  /** A request of another number than the expected one changes nothing at the server. */
  lemma ServerUnmoved(s: S.Conn, number: byte, cemi: Bytes)
    requires T.Sendable(cemi) && number != s.rno
    ensures var f := S.OnRequest(s, number, cemi);
      && f.state == s && f.accepted == [] && f.queued == []
      && f.sends == if Next(number) == s.rno then [TunnelAck(s.channel, number, E_NO_ERROR)] else []
  {
    hide FromCemi, ToCemi;
  }

  /** Nor at the client, unless it restarts. */
  lemma ClientUnmoved(c: C.Client, number: byte, cemi: Bytes)
    requires c.mod != 0 && |cemi| >= 2 && number != c.rno
    ensures var f := C.OnRequest(c, c.channel, number, cemi);
      && (f.state == c || f.state == c.(mod := 0)) && f.accepted == [] && !f.next
      && (if Next(number) == c.rno then f.state == c && f.sends == [TunnelAck(c.channel, number, E_NO_ERROR)]
          else f.sends == [] || (|f.sends| == 1 && f.sends[0].DisconnectRequest?))
  {
    hide FromCemi, ToCemi;
  }

  /** Out of reach: the receiver expects a smaller number, and if it takes the old one for a
      repetition, that is number 255 before its first frame. */
  lemma OutOfReach(h: W.State<Bytes>, life: nat, number: byte)
    requires W.Inv(T.MODULUS, h) && h.acked <= life && number as int >= life + 2
    ensures h.rno < number as int
    ensures (number as int + 1) % 256 == h.rno ==> number == 255 && h.acked == 0
  {
    W.Counters(T.MODULUS, h);
  }

  lemma ClosedKeeps(s: T.Session)
    requires T.Inv(s)
    ensures T.Inv(s.(client := s.client.(mod := 0), open := false))
  {
    hide FromCemi, ToCemi, W.Inv;
    var t := s.(client := s.client.(mod := 0), open := false);
    assert T.Up(t) == T.Up(s) && T.Down(t) == T.Down(s);
  }

  lemma OldRequestKeeps(o: Old, s: T.Session, e: Event)
    requires Inv(s) && Harmless(o) && WellSent(o) && Enabled(o, s, e)
    requires e.OldRequestToServer? || e.OldRequestToClient?
    ensures Ready(s, e) && Inv(Step(s, e))
  {
    hide FromCemi, ToCemi, W.Inv, T.ServerInv, S.OnRequest, C.OnRequest, Genuine;
    GenuineKeeps(s.up);
    GenuineKeeps(s.down);
    var n, y := e.number, e.cemi;
    var p := W.Packet(n, y, n);
    if e.OldRequestToServer? {
      assert (n, y) in o.requestsUp + o.requestsDown;
      OutOfReach(T.Up(Clean(s)), o.life, n);
      ServerUnmoved(s.server, n, y);
      GenuineAdds(s.up, W.Receipt(n, n, s.up.acked));
      Same(s.up);
      Same(s.down);
      assert Clean(Step(s, e)) == Clean(s);
    } else {
      assert (n, y) in o.requestsUp + o.requestsDown;
      OutOfReach(T.Down(Clean(s)), o.life, n);
      ClientUnmoved(s.client, n, y);
      GenuineAdds(s.down, W.Receipt(n, n, s.down.acked));
      Same(s.down);
      var t := Clean(Step(s, e));
      ClosedKeeps(Clean(s));
      assert t == Clean(s) || t == Clean(s).(client := s.client.(mod := 0), open := false);
    }
  }

  lemma Same(h: W.History<Bytes>)
    ensures h.(delivered := h.delivered + []) == h && h.(submitted := h.submitted + []) == h
  {
    assert h.delivered + [] == h.delivered && h.submitted + [] == h.submitted;
  }

  lemma OldAckKeeps(o: Old, s: T.Session, e: Event)
    requires Inv(s) && Harmless(o) && Enabled(o, s, e) && (e.OldAckToClient? || e.OldAckToServer?)
    ensures Ready(s, e) && Step(s, e) == s
  {
    hide W.Inv, FromCemi, ToCemi, T.AckAtClient, T.AckAtServer;
    assert e.number in o.acksUp + o.acksDown;
    AckIgnored(s, e.number);
    if e.OldAckToClient? {
      NotYet(T.Up(Clean(s)), o.life, e.number);
    } else {
      NotYet(T.Down(Clean(s)), o.life, e.number);
    }
  }

  lemma StepKeepsInv(o: Old, s: T.Session, e: Event)
    requires Inv(s) && Harmless(o) && WellSent(o) && Enabled(o, s, e)
    ensures Ready(s, e) && Inv(Step(s, e))
  {
    hide Inv, T.Step, T.Ready, Harmless;
    match e
    case New(f) => NewKeeps(s, f);
    case OldRequestToServer(_, _) => OldRequestKeeps(o, s, e);
    case OldRequestToClient(_, _) => OldRequestKeeps(o, s, e);
    case OldAckToClient(_) => OldAckKeeps(o, s, e);
    case OldAckToServer(_) => OldAckKeeps(o, s, e);
  }

  lemma {:induction false} RunKeepsInv(o: Old, s: T.Session, events: seq<Event>)
    requires Inv(s) && Harmless(o) && WellSent(o)
    ensures Run(o, s, events).Some? && Inv(Run(o, s, events).value)
    decreases |events|
  {
    hide Inv, Harmless, Ready, Step;
    if events != [] {
      if Enabled(o, s, events[0]) {
        StepKeepsInv(o, s, events[0]);
        RunKeepsInv(o, Step(s, events[0]), events[1..]);
      } else {
        RunKeepsInv(o, s, events[1..]);
      }
    }
  }

  // ------------------------------------------------------------- within reach

  lemma {:induction false} RunConcat(o: Old, s: T.Session, a: seq<Event>, b: seq<Event>)
    ensures Run(o, s, a + b) == (match Run(o, s, a) case None => None case Some(t) => Run(o, t, b))
    decreases |a|
  {
    hide Ready, Step;
    if a == [] {
      assert a + b == b;
    } else {
      assert (a + b)[1..] == a[1..] + b;
      if !Enabled(o, s, a[0]) {
        RunConcat(o, s, a[1..], b);
      } else if Ready(s, a[0]) {
        RunConcat(o, Step(s, a[0]), a[1..], b);
      }
    }
  }

  function News(events: seq<T.Event>): (r: seq<Event>)
    ensures |r| == |events|
  {
    if events == [] then [] else [New(events[0])] + News(events[1..])
  }

  /** A run of the new session alone. */
  lemma {:induction false} NewsRun(o: Old, s: T.Session, events: seq<T.Event>)
    ensures Run(o, s, News(events)) == T.Run(s, events)
    decreases |events|
  {
    hide T.Step, T.Ready;
    if events != [] {
      assert News(events)[1..] == News(events[1..]) && News(events)[0] == New(events[0]);
      if T.Enabled(s, events[0]) {
        if T.Ready(s, events[0]) {
          NewsRun(o, T.Step(s, events[0]), events[1..]);
        }
      } else {
        NewsRun(o, s, events[1..]);
      }
    }
  }

  /** An old datagram after a run of the new session. */
  lemma OldAtEnd(o: Old, s: T.Session, events: seq<T.Event>, e: Event)
    requires T.Run(s, events).Some? && Enabled(o, T.Run(s, events).value, e) && Ready(T.Run(s, events).value, e)
    ensures Run(o, s, News(events) + [e]) == Some(Step(T.Run(s, events).value, e))
  {
    hide Step, T.Run;
    NewsRun(o, s, events);
    RunConcat(o, s, News(events), [e]);
    assert [e][1..] == [];
  }

  /** A frame with which the new session can be moved on. */
  const FRAME := LData(Low, false, true, true, Group, 1, 1, 6, [0])

  /** `n` of them. */
  function Frames(n: nat): (ls: seq<LData>)
    ensures |ls| == n && P.AllSound(ls)
  {
    seq(n, i => FRAME)
  }

  /** One frame more than there were is delivered. */
  lemma ServerTakesOld(s: T.Session, n: byte, y: Bytes)
    requires T.Sendable(y) && s.server.rno == n && |s.up.delivered| == |s.up.submitted|
    ensures !Good(Some(T.RequestAtServer(s, W.Packet(n, y, n))))
  {
    S.RequestIsReceived(s.server, n, y);
    hide FromCemi, ToCemi, S.OnRequest;
  }

  /** `k` rounds and one more frame transmitted. */
  ghost function UpSent(k: nat): seq<T.Event> {
    P.UpRounds(Frames(k)) + P.UpSend(FRAME)
  }

  lemma UpSentRuns(s: T.Session, k: nat)
    requires P.UpSettled(s, [])
    ensures var r := T.Run(s, UpSent(k));
      r.Some? && P.UpSent(r.value, P.AllEncoded(L_DATA_REQ, Frames(k)), P.Encoded(L_DATA_REQ, FRAME), false)
  {
    hide P.UpSettled, P.UpSent, P.UpSend, P.UpRounds, P.Encoded, Frames, T.Run;
    P.UpRoundsRun(s, Frames(k));
    P.UpSendRuns(T.Run(s, P.UpRounds(Frames(k))).value, P.AllEncoded(L_DATA_REQ, Frames(k)), FRAME);
    T.RunConcat(s, P.UpRounds(Frames(k)), P.UpSend(FRAME));
  }

  /** And delivered. */
  ghost function UpAhead(k: nat): seq<T.Event> {
    UpSent(k) + [P.UpDeliver(k, P.Encoded(L_DATA_REQ, FRAME))]
  }

  lemma UpAheadRuns(s: T.Session, k: nat)
    requires P.UpSettled(s, [])
    ensures var r := T.Run(s, UpAhead(k));
      r.Some? && P.UpSent(r.value, P.AllEncoded(L_DATA_REQ, Frames(k)), P.Encoded(L_DATA_REQ, FRAME), true)
  {
    hide P.UpSettled, P.UpSent, UpSent, P.UpDeliver, P.Encoded, T.Run;
    UpSentRuns(s, k);
    P.UpDeliverRuns(T.Run(s, UpSent(k)).value, P.AllEncoded(L_DATA_REQ, Frames(k)), FRAME);
    T.RunConcat(s, UpSent(k), [P.UpDeliver(k, P.Encoded(L_DATA_REQ, FRAME))]);
  }

  /** A request whose number comes up while it lives is taken for a frame that was never sent. */
  lemma OldRequestUpBreaks(o: Old, c: C.Client, channel: int, address: Address, n: byte, y: Bytes)
    requires c.mod == 0 && (n, y) in o.requestsUp && T.Sendable(y) && n as int <= o.life + 1
    ensures exists events :: !Good(Run(o, T.Start(c, channel, address), events))
  {
    hide Run, T.Run, UpAhead, Good, T.Sendable, S.OnRequest, P.Encoded;
    var s0 := T.Start(c, channel, address);
    var e := OldRequestToServer(n, y);
    var events := if n == 0 then [] else UpAhead(n - 1);
    P.NoEvents(s0);
    if n > 0 {
      UpAheadRuns(s0, n - 1);
    }
    var s1 := T.Run(s0, events).value;
    ServerTakesOld(s1, n, y);
    OldAtEnd(o, s0, events, e);
    assert !Good(Run(o, s0, News(events) + [e]));
  }

  /** An acknowledgement whose number comes up while it lives confirms a frame that was lost. */
  lemma OldAckUpBreaks(o: Old, c: C.Client, channel: int, address: Address, n: byte)
    requires c.mod == 0 && n in o.acksUp && n as int <= o.life
    ensures exists events :: !Good(Run(o, T.Start(c, channel, address), events))
  {
    hide Run, T.Run, FromCemi, ToCemi, UpSent, P.Encoded;
    var s0 := T.Start(c, channel, address);
    UpSentRuns(s0, n);
    OldAtEnd(o, s0, UpSent(n), OldAckToClient(n));
    assert !Good(Run(o, s0, News(UpSent(n)) + [OldAckToClient(n)]));
  }

  // ------------------------------------------------------------- the other direction

  lemma ClientTakesOld(s: T.Session, n: byte, y: Bytes)
    requires |y| >= 2 && s.client.mod == 1 && s.client.rno == n && |s.down.delivered| == |s.down.submitted|
    ensures !Good(Some(T.RequestAtClient(s, W.Packet(n, y, n))))
  {
    P.ClientTakes(s.client, y);
    hide FromCemi, ToCemi, C.OnRequest;
  }

  ghost function DownSent(k: nat): seq<T.Event> {
    P.DownRounds(Frames(k)) + P.DownSend(FRAME)
  }

  lemma DownSentRuns(s: T.Session, k: nat)
    requires P.DownSettled(s, [])
    ensures var r := T.Run(s, DownSent(k));
      r.Some? && P.DownSent(r.value, P.AllEncoded(L_DATA_IND, Frames(k)), P.Encoded(L_DATA_IND, FRAME), false)
  {
    hide P.DownSettled, P.DownSent, P.DownSend, P.DownRounds, P.Encoded, Frames, T.Run;
    P.DownRoundsRun(s, Frames(k));
    P.DownSendRuns(T.Run(s, P.DownRounds(Frames(k))).value, P.AllEncoded(L_DATA_IND, Frames(k)), FRAME);
    T.RunConcat(s, P.DownRounds(Frames(k)), P.DownSend(FRAME));
  }

  ghost function DownAhead(k: nat): seq<T.Event> {
    DownSent(k) + [P.DownDeliver(k, P.Encoded(L_DATA_IND, FRAME))]
  }

  lemma DownAheadRuns(s: T.Session, k: nat)
    requires P.DownSettled(s, [])
    ensures var r := T.Run(s, DownAhead(k));
      r.Some? && P.DownSent(r.value, P.AllEncoded(L_DATA_IND, Frames(k)), P.Encoded(L_DATA_IND, FRAME), true)
  {
    P.SoundIsSendable(FRAME);
    hide P.DownSettled, P.DownSent, DownSent, P.DownDeliver, P.Encoded, T.Run;
    DownSentRuns(s, k);
    P.DownDeliverRuns(T.Run(s, DownSent(k)).value, P.AllEncoded(L_DATA_IND, Frames(k)), P.Encoded(L_DATA_IND, FRAME));
    T.RunConcat(s, DownSent(k), [P.DownDeliver(k, P.Encoded(L_DATA_IND, FRAME))]);
  }

  lemma OldRequestDownBreaks(o: Old, c: C.Client, channel: int, address: Address, n: byte, y: Bytes)
    requires c.mod == 0 && (n, y) in o.requestsDown && |y| >= 2 && n as int <= o.life + 1
    ensures exists events :: !Good(Run(o, T.Start(c, channel, address), events))
  {
    hide Run, T.Run, DownAhead, Good, C.OnRequest, P.Encoded;
    var s0 := T.Start(c, channel, address);
    var e := OldRequestToClient(n, y);
    var events := if n == 0 then [] else DownAhead(n - 1);
    P.NoEvents(s0);
    if n > 0 {
      DownAheadRuns(s0, n - 1);
    }
    var s1 := T.Run(s0, events).value;
    ClientTakesOld(s1, n, y);
    OldAtEnd(o, s0, events, e);
    assert !Good(Run(o, s0, News(events) + [e]));
  }

  lemma OldAckDownBreaks(o: Old, c: C.Client, channel: int, address: Address, n: byte)
    requires c.mod == 0 && n in o.acksDown && n as int <= o.life
    ensures exists events :: !Good(Run(o, T.Start(c, channel, address), events))
  {
    hide Run, T.Run, FromCemi, ToCemi, DownSent, P.Encoded;
    var s0 := T.Start(c, channel, address);
    DownSentRuns(s0, n);
    OldAtEnd(o, s0, DownSent(n), OldAckToServer(n));
    assert !Good(Run(o, s0, News(DownSent(n)) + [OldAckToServer(n)]));
  }

  // ------------------------------------------------------------- the exact condition

  /** A new session on the old channel is as good as any, in all its runs, if and only if every
      request left of the old one bears a number at least two above the frames the new session
      completes while it can still arrive, and every acknowledgement one at least one above. */
  lemma ReconnectIffHarmless(o: Old, c: C.Client, channel: int, address: Address)
    requires WellSent(o) && c.mod == 0
    ensures (forall events :: Good(Run(o, T.Start(c, channel, address), events))) <==> Harmless(o)
  {
    hide Run, Good;
    if Harmless(o) {
      forall events
        ensures Good(Run(o, T.Start(c, channel, address), events))
      {
        AllGood(o, c, channel, address, events);
      }
    } else if r :| r in o.requestsUp && r.0 as int < o.life + 2 {
      OldRequestUpBreaks(o, c, channel, address, r.0, r.1);
    } else if r :| r in o.requestsDown && r.0 as int < o.life + 2 {
      OldRequestDownBreaks(o, c, channel, address, r.0, r.1);
    } else if n :| n in o.acksUp && n as int < o.life + 1 {
      OldAckUpBreaks(o, c, channel, address, n);
    } else {
      var n :| n in o.acksDown && n as int < o.life + 1;
      OldAckDownBreaks(o, c, channel, address, n);
    }
  }

  lemma AllGood(o: Old, c: C.Client, channel: int, address: Address, events: seq<Event>)
    requires c.mod == 0 && WellSent(o) && Harmless(o)
    ensures Good(Run(o, T.Start(c, channel, address), events))
  {
    var s := T.Start(c, channel, address);
    T.StartInv(c, channel, address);
    assert Clean(s) == s;
    hide Run, Harmless, FromCemi, ToCemi;
    RunKeepsInv(o, s, events);
    var t := Run(o, s, events).value;
    W.Counters(T.MODULUS, T.Up(Clean(t)));
    W.Counters(T.MODULUS, T.Down(Clean(t)));
  }
}
