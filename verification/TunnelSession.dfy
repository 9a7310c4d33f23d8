/** A tunnel session: one client, one server connection and the network between them
    (src/backend/eibnettunnel.cpp, src/libserver/eibnetserver.cpp).

    The session is open from the connection response until the client restarts or gives up. */
module TunnelSession {
  import opened KnxTypes
  import opened Lpdu
  import opened Datagrams
  import opened Emi
  import C = TunnelClient
  import S = TunnelServer
  import W = StopAndWait

  const MODULUS: nat := 256
  const MAX_AGE: nat := 254

  datatype Session = Session(
    client: C.Client,
    server: S.Conn,
    up: W.History<Bytes>,
    down: W.History<Bytes>,
    open: bool,
    tries: nat,         // transmissions of the client's current frame
    headTries: nat,     // transmissions of the frame at the head of the server's queue
    serverSends: nat,   // calls of the server's send_L_Data
    serverNexts: nat,   // calls the server made to send_Next
    clientNexts: nat)   // calls the client made to send_Next

  datatype Event =
    | ClientSends(l: LData)
    | ClientTriggered
    | ClientTimesOut
    | ServerSends(l: LData)
    | ServerTriggered
    | ServerTimesOut
    | RequestToServer(p: W.Packet<Bytes>)
    | AckToClient(a: W.Receipt)
    | RequestToClient(p: W.Packet<Bytes>)
    | AckToServer(a: W.Receipt)

  /** The client-to-server direction as a run of the generic protocol. */
  function Up(s: Session): W.State<Bytes> {
    W.View(s.client.sno, s.server.rno, s.up)
  }

  function Down(s: Session): W.State<Bytes> {
    W.View(s.server.sno, s.client.rno, s.down)
  }

  /** A client that is not connected, whatever earlier sessions left in it, opens a session: the
      server accepts, and the connection response arrives. */
  function Start(c: C.Client, channel: int, address: Address): Session
    requires c.mod == 0
  {
    Session(C.Connected(C.Opening(c), channel).state, S.Opened(S.Standard, channel, address),
            W.NoHistory(), W.NoHistory(), true, 0, 0, 0, 0, 0)
  }

  /** What the environment may do. The network may deliver anything ever sent, as often as it
      likes, until the sender has moved on by more than MAX_AGE frames. */
  ghost predicate Enabled(s: Session, e: Event) {
    s.open &&
    match e
    case ClientSends(l) => s.client.out == [] && WellFormed(l) && |l.data| < 0xff
    case ClientTriggered => s.client.trigger
    case ClientTimesOut => true
    case ServerSends(l) => !s.server.doSendNext && !s.server.stopped && WellFormed(l) && |l.data| < 0xff
    case ServerTriggered => s.server.trigger
    case ServerTimesOut => s.server.timer
    case RequestToServer(p) => p in s.up.packets && s.up.acked <= p.sentAt + MAX_AGE
    case AckToClient(a) => a in s.up.receipts && s.up.acked <= a.sentAt + MAX_AGE
    case RequestToClient(p) => p in s.down.packets && s.down.acked <= p.sentAt + MAX_AGE
    case AckToServer(a) => a in s.down.receipts && s.down.acked <= a.sentAt + MAX_AGE
  }

  /** A cEMI frame an endpoint can parse without failing one of the encoder's assertions. */
  ghost predicate Sendable(x: Bytes) {
    |x| >= 2 && (FromCemi(x).Some? ==> CemiEncodable(FromCemi(x).value))
  }

  /** The callback's own preconditions: numbers fit their fields, a queue that is read is not
      empty, a frame that is encoded again fits. A run that breaks one has no next state. */
  ghost predicate Ready(s: Session, e: Event) {
    match e
    case ServerTimesOut => s.server.out != []
    case RequestToServer(p) => p.number < 256 && Sendable(p.payload)
    case AckToClient(a) => a.number < 256
    case RequestToClient(p) => p.number < 256
    case AckToServer(a) => a.number < 256 && (s.server.retries != 0 ==> s.server.out != [])
    case _ => true
  }

  /** A request was sent to the peer, which knows the session as `channel`. */
  function Requests(h: W.History<Bytes>, channel: int, sends: seq<Datagram>): W.History<Bytes> {
    if |sends| == 1 && sends[0].TunnelRequest? && sends[0].channel == channel then
      h.(packets := h.packets + {W.Packet(sends[0].seqno, sends[0].cemi, h.acked)})
    else h
  }

  /** The receiver took `accepted` out of packet `p` and answered the peer with `sends`. */
  function Answers(h: W.History<Bytes>, channel: int, p: W.Packet<Bytes>, accepted: seq<Bytes>, sends: seq<Datagram>): W.History<Bytes> {
    var h1 := h.(delivered := h.delivered + accepted);
    if |sends| == 1 && sends[0].TunnelAck? && sends[0].channel == channel && sends[0].status == 0 then
      h1.(receipts := h.receipts + {W.Receipt(sends[0].seqno, p.sentAt, h.acked)})
    else h1
  }

  ghost function RequestAtServer(s: Session, p: W.Packet<Bytes>): Session
    requires p.number < 256 && Sendable(p.payload)
  {
    var f := S.OnRequest(s.server, p.number, p.payload);
    s.(server := f.state, up := Answers(s.up, s.client.channel, p, f.accepted, f.sends),
       down := s.down.(submitted := s.down.submitted + f.queued))
  }

  /** The requests for more a callback of the client makes. */
  function Asked(f: C.Effect): nat {
    if f.next then 1 else 0
  }

  function AckAtClient(s: Session, number: byte): Session {
    var f := C.OnAck(s.client, s.client.channel, number, 0);
    s.(client := f.state, clientNexts := s.clientNexts + Asked(f),
       up := s.up.(acked := s.up.acked + (if f.next then 1 else 0)),
       tries := if f.next then 0 else s.tries)
  }

  function RequestAtClient(s: Session, p: W.Packet<Bytes>): Session
    requires p.number < 256
  {
    var f := C.OnRequest(s.client, s.client.channel, p.number, p.payload);
    s.(client := f.state, clientNexts := s.clientNexts + Asked(f),
       down := Answers(s.down, s.server.channel, p, f.accepted, f.sends), open := f.state.mod != 0)
  }

  function AckAtServer(s: Session, number: byte): Session
    requires s.server.retries != 0 ==> s.server.out != []
  {
    var f := S.OnAck(s.server, number, 0);
    var moved := f.state.sno != s.server.sno;
    s.(server := f.state,
       down := s.down.(acked := s.down.acked + (if moved then 1 else 0)),
       headTries := if moved then 0 else s.headTries,
       serverNexts := s.serverNexts + (if f.next then 1 else 0))
  }

  ghost function Step(s: Session, e: Event): Session
    requires Enabled(s, e) && Ready(s, e)
  {
    match e
    case ClientSends(l) =>
      var cemi := ToCemi(L_DATA_REQ, l);
      var f := C.SendLData(s.client, cemi);
      s.(client := f.state, clientNexts := s.clientNexts + Asked(f), up := s.up.(submitted := s.up.submitted + [cemi]))
    case ClientTriggered =>
      var f := C.OnTrigger(s.client);
      s.(client := f.state, clientNexts := s.clientNexts + Asked(f),
         up := Requests(s.up, s.server.channel, f.sends), tries := s.tries + |f.sends|)
    case ClientTimesOut =>
      var f := C.OnTimeout(s.client);
      s.(client := f.state, clientNexts := s.clientNexts + Asked(f), open := !C.GivesUp(s.client))
    case ServerSends(l) =>
      var f := S.SendLData(s.server, l);
      s.(server := f.state, down := s.down.(submitted := s.down.submitted + f.queued),
         serverSends := s.serverSends + 1)
    case ServerTriggered =>
      var f := S.OnTrigger(s.server);
      s.(server := f.state, down := Requests(s.down, s.client.channel, f.sends), headTries := s.headTries + |f.sends|)
    case ServerTimesOut => s.(server := S.OnTimeout(s.server).state)
    case RequestToServer(p) => RequestAtServer(s, p)
    case AckToClient(a) => AckAtClient(s, a.number)
    case RequestToClient(p) => RequestAtClient(s, p)
    case AckToServer(a) => AckAtServer(s, a.number)
  }

  // ------------------------------------------------------------- the invariant

  /** The client's buffer is the one submitted frame that is not acknowledged yet, and it was
      transmitted no more often than the retry counter says: once if an earlier session has used
      the counter up. A frame that waits to be transmitted has its wake-up pending. */
  ghost predicate ClientInv(s: Session) {
    && (s.client.mod == 1 || s.client.mod == 2)
    && (s.client.out == [] ==>
          s.client.mod == 1 && |s.up.submitted| == s.up.acked && s.tries == 0)
    && (s.client.out != [] ==>
          && |s.up.submitted| == s.up.acked + 1 && s.up.submitted[s.up.acked] == s.client.out
          && (s.client.mod == 1 ==> s.client.trigger)
          && s.tries <= (if s.client.retry <= 4 then s.client.retry else 0) + (if s.client.mod == 2 then 1 else 0))
  }

  /** Unless it has stopped, the server's queue holds exactly the frames put on it that are not
      acknowledged yet. */
  ghost predicate ServerInv(s: Session) {
    && S.Valid(s.server) && s.server.kind == S.Standard
    && (!s.server.stopped ==>
          && s.down.acked <= |s.down.submitted| && s.server.out == s.down.submitted[s.down.acked..]
          && s.headTries == (if s.server.retries == 0 then 0 else if s.server.retries <= 2 then 1 else 2))
    && s.headTries <= 2
    && s.serverNexts + (if s.server.doSendNext then 1 else 0) == s.serverSends
  }

  ghost predicate Inv(s: Session) {
    && W.Inv(MODULUS, Up(s)) && W.Inv(MODULUS, Down(s))
    && s.client.channel == s.server.channel
    && s.clientNexts == s.up.acked
    && (s.open ==> ClientInv(s))
    && s.tries <= 5
    && ServerInv(s)
    && (forall x | x in s.up.submitted :: Sendable(x))
    && (forall x | x in s.down.submitted :: |x| >= 2)
  }

  lemma StartInv(c: C.Client, channel: int, address: Address)
    requires c.mod == 0
    ensures Inv(Start(c, channel, address))
  {
  }

  /** No callback precondition ever fails. */
  lemma InvReady(s: Session, e: Event)
    requires Inv(s) && Enabled(s, e)
    ensures Ready(s, e)
  {
    match e
    case RequestToServer(p) =>
      assert W.PacketOk(MODULUS, Up(s), p);
      assert p.payload in s.up.submitted;
    case RequestToClient(p) => assert W.PacketOk(MODULUS, Down(s), p);
    case AckToClient(a) => assert W.ReceiptOk(MODULUS, Up(s), a);
    case AckToServer(a) => assert W.ReceiptOk(MODULUS, Down(s), a);
    case _ =>
  }

  lemma ClientSendsKeeps(s: Session, l: LData)
    requires Inv(s) && Enabled(s, ClientSends(l))
    ensures Inv(Step(s, ClientSends(l)))
  {
    var t := Step(s, ClientSends(l));
    var cemi := ToCemi(L_DATA_REQ, l);
    assert Sendable(cemi) by { CemiRoundTrip(L_DATA_REQ, l); }
    hide FromCemi, ToCemi, W.Inv;
    W.StepKeepsInv(MODULUS, MAX_AGE, Up(s), W.Submit(cemi));
    assert Up(t) == W.Apply(MODULUS, Up(s), W.Submit(cemi));
    assert Down(t) == Down(s);
  }

  lemma ClientTriggeredKeeps(s: Session)
    requires Inv(s) && Enabled(s, ClientTriggered)
    ensures Inv(Step(s, ClientTriggered))
  {
    hide FromCemi, ToCemi, W.Inv;
    var t := Step(s, ClientTriggered);
    assert Down(t) == Down(s);
    if s.client.mod == 1 && s.client.out != [] {
      W.StepKeepsInv(MODULUS, MAX_AGE, Up(s), W.Transmit);
      assert Up(t) == W.Apply(MODULUS, Up(s), W.Transmit);
    } else {
      assert Up(t) == Up(s);
    }
  }

  lemma ClientTimesOutKeeps(s: Session)
    requires Inv(s) && Enabled(s, ClientTimesOut)
    ensures Inv(Step(s, ClientTimesOut))
  {
    hide FromCemi, ToCemi, W.Inv;
    var t := Step(s, ClientTimesOut);
    assert Up(t) == Up(s) && Down(t) == Down(s);
  }

  lemma AckToClientKeeps(s: Session, a: W.Receipt)
    requires Inv(s) && Enabled(s, AckToClient(a)) && Ready(s, AckToClient(a))
    ensures Inv(Step(s, AckToClient(a)))
  {
    hide FromCemi, ToCemi, W.Inv;
    var t := Step(s, AckToClient(a));
    assert Down(t) == Down(s);
    if C.OnAck(s.client, s.client.channel, a.number, 0).next {
      W.StepKeepsInv(MODULUS, MAX_AGE, Up(s), W.Acknowledge(a));
      assert Up(t) == W.Apply(MODULUS, Up(s), W.Acknowledge(a));
    } else {
      assert Up(t) == Up(s);
    }
  }

  lemma RequestToServerKeeps(s: Session, p: W.Packet<Bytes>)
    requires Inv(s) && Enabled(s, RequestToServer(p)) && Ready(s, RequestToServer(p))
    ensures Inv(Step(s, RequestToServer(p)))
  {
    hide FromCemi, ToCemi, W.Inv;
    var t := Step(s, RequestToServer(p));
    var f := S.OnRequest(s.server, p.number, p.payload);
    S.RequestKeepsValid(s.server, p.number, p.payload);
    hide S.OnRequest, S.Valid;
    RequestAnswered(s, p);
    SubmitAll(Down(s), f.queued);
    assert Down(t) == Down(s).(submitted := s.down.submitted + f.queued);
    assert t.up.submitted == s.up.submitted;
  }

  /** Any number of frames may be submitted at once. */
  lemma SubmitAll(d: W.State<Bytes>, xs: seq<Bytes>)
    requires W.Inv(MODULUS, d)
    ensures W.Inv(MODULUS, d.(submitted := d.submitted + xs))
    decreases |xs|
  {
    if xs == [] {
      assert d.submitted + xs == d.submitted;
    } else {
      var d1 := W.Apply(MODULUS, d, W.Submit(xs[0]));
      W.StepKeepsInv(MODULUS, MAX_AGE, d, W.Submit(xs[0]));
      SubmitAll(d1, xs[1..]);
      assert d.submitted + xs == d1.submitted + xs[1..];
    }
  }

  /** The server's answer to a request is the generic receiver's, whatever the frame says. */
  lemma RequestAnswered(s: Session, p: W.Packet<Bytes>)
    requires Inv(s) && Enabled(s, RequestToServer(p)) && Ready(s, RequestToServer(p))
    ensures W.Inv(MODULUS, Up(Step(s, RequestToServer(p))))
  {
    hide FromCemi, ToCemi, W.Inv, S.OnRequest, S.Valid;
    S.RequestIsReceived(s.server, p.number, p.payload);
    var t := Step(s, RequestToServer(p));
    var u := W.Apply(MODULUS, Up(s), W.Deliver(p));
    W.StepKeepsInv(MODULUS, MAX_AGE, Up(s), W.Deliver(p));
    if Up(t) != u {
      assert Up(t) == u.(receipts := s.up.receipts);
      W.FewerReceipts(MODULUS, u, s.up.receipts);
    }
  }

  /** A frame put on the queue is one more frame submitted. */
  lemma ServerSendsShape(s: Session, l: LData)
    requires ServerInv(s) && Enabled(s, ServerSends(l))
    ensures var t, cemi := Step(s, ServerSends(l)), ToCemi(L_DATA_IND, l);
      && |cemi| >= 2 && S.Valid(t.server)
      && t == s.(server := t.server, down := s.down.(submitted := s.down.submitted + [cemi]), serverSends := s.serverSends + 1)
      && t.server == s.server.(out := s.server.out + [cemi], trigger := t.server.trigger, doSendNext := true)
  {
    S.SendKeepsValid(s.server, l);
    hide FromCemi, ToCemi, S.Valid, S.SendLData;
  }

  lemma ServerSendsBooks(s: Session, t: Session, cemi: Bytes)
    requires ServerInv(s) && !s.server.doSendNext && S.Valid(t.server)
    requires t == s.(server := t.server, down := s.down.(submitted := s.down.submitted + [cemi]), serverSends := s.serverSends + 1)
    requires t.server == s.server.(out := s.server.out + [cemi], trigger := t.server.trigger, doSendNext := true)
    ensures ServerInv(t)
  {
    hide S.Valid;
    if !s.server.stopped {
      Appended(s.down.submitted, cemi, s.down.acked);
    }
  }

  lemma Appended(all: seq<Bytes>, x: Bytes, k: nat)
    requires k <= |all|
    ensures (all + [x])[k..] == all[k..] + [x]
  {
  }

  lemma ServerSendsKeeps(s: Session, l: LData)
    requires Inv(s) && Enabled(s, ServerSends(l))
    ensures Inv(Step(s, ServerSends(l)))
  {
    hide FromCemi, ToCemi, W.Inv, ServerInv, Step, S.Valid;
    ServerSendsShape(s, l);
    ServerSendsBooks(s, Step(s, ServerSends(l)), ToCemi(L_DATA_IND, l));
    W.StepKeepsInv(MODULUS, MAX_AGE, Down(s), W.Submit(ToCemi(L_DATA_IND, l)));
  }

  lemma ServerTriggeredKeeps(s: Session)
    requires Inv(s) && Enabled(s, ServerTriggered)
    ensures Inv(Step(s, ServerTriggered))
  {
    hide FromCemi, ToCemi, W.Inv;
    var t := Step(s, ServerTriggered);
    assert Up(t) == Up(s);
    if s.server.out != [] {
      W.StepKeepsInv(MODULUS, MAX_AGE, Down(s), W.Transmit);
      assert Down(t) == W.Apply(MODULUS, Down(s), W.Transmit);
    } else {
      assert Down(t) == Down(s);
    }
  }

  lemma ServerTimesOutKeeps(s: Session)
    requires Inv(s) && Enabled(s, ServerTimesOut) && Ready(s, ServerTimesOut)
    ensures Inv(Step(s, ServerTimesOut))
  {
    hide FromCemi, ToCemi, W.Inv;
    var t := Step(s, ServerTimesOut);
    assert Up(t) == Up(s) && Down(t) == Down(s);
  }

  /** A request to an open client is a delivery of the generic protocol, and touches nothing else
      unless the client restarts. */
  lemma ClientAnswered(s: Session, p: W.Packet<Bytes>)
    requires Enabled(s, RequestToClient(p)) && Ready(s, RequestToClient(p)) && |p.payload| >= 2
    requires (s.client.mod == 1 || s.client.mod == 2) && s.client.channel == s.server.channel
    ensures var t := Step(s, RequestToClient(p));
      && Up(t) == Up(s) && Down(t) == W.Apply(MODULUS, Down(s), W.Deliver(p))
      && t.server == s.server && t.up == s.up && t.down.submitted == s.down.submitted && t.down.acked == s.down.acked
      && t.client.channel == s.client.channel && t.clientNexts == s.clientNexts && (t.open ==> t.client == s.client.(rno := t.client.rno))
  {
    hide FromCemi, ToCemi, W.Inv;
  }

  lemma RequestToClientKeeps(s: Session, p: W.Packet<Bytes>)
    requires Inv(s) && Enabled(s, RequestToClient(p)) && Ready(s, RequestToClient(p))
    ensures Inv(Step(s, RequestToClient(p)))
  {
    hide FromCemi, ToCemi, W.Inv, W.Apply, C.OnRequest, S.Valid;
    W.InFlight(MODULUS, Down(s));
    assert W.PacketOk(MODULUS, Down(s), p);
    assert p.payload in s.down.submitted;
    ClientAnswered(s, p);
    W.StepKeepsInv(MODULUS, MAX_AGE, Down(s), W.Deliver(p));
  }

  /** Numbers of a frame and of one `d - a` frames later, modulo 256. */
  lemma NumbersBehind(a: nat, d: nat)
    requires a <= d <= a + 255
    ensures (a + 1) % 256 == d % 256 <==> d == a + 1
    ensures a % 256 == d % 256 <==> d == a
    ensures a % 256 >= d % 256 + 5 <==> d % 256 < d - a <= 251
  {
  }

  /** A request that is two or more frames behind is ignored, and the session goes on, exactly if
      the expected number has not wrapped since it was sent, or if it is more than 251 frames
      behind: otherwise its number lies five or more above the expected one and the client
      restarts. */
  lemma StaleRequestRestarts(s: Session, p: W.Packet<Bytes>)
    requires Inv(s) && Enabled(s, RequestToClient(p)) && Ready(s, RequestToClient(p))
    ensures var t, behind := Step(s, RequestToClient(p)), |s.down.delivered| - p.sentAt;
      && 0 <= behind <= 255
      && (behind >= 2 && t.open ==> t == s)
      && (t.open <==> !(2 <= behind <= 251 && s.client.rno < behind))
  {
    hide FromCemi, ToCemi, W.Inv, ServerInv, C.OnRequest, Step;
    var d := |s.down.delivered|;
    W.InFlight(MODULUS, Down(s));
    W.Counters(MODULUS, Down(s));
    assert W.PacketOk(MODULUS, Down(s), p);
    assert p.payload in s.down.submitted;
    NumbersBehind(p.sentAt, d);
    RequestCases(s, p);
  }

  /** A request to an open client by its number. */
  lemma RequestCases(s: Session, p: W.Packet<Bytes>)
    requires Enabled(s, RequestToClient(p)) && Ready(s, RequestToClient(p)) && |p.payload| >= 2
    requires s.client.mod == 1 || s.client.mod == 2
    ensures var t := Step(s, RequestToClient(p));
      if p.number == s.client.rno || (p.number + 1) % 256 == s.client.rno then t.open
      else if p.number >= s.client.rno as int + 5 then !t.open
      else t == s
  {
    hide FromCemi, ToCemi;
  }

  lemma AckToServerKeeps(s: Session, a: W.Receipt)
    requires Inv(s) && Enabled(s, AckToServer(a)) && Ready(s, AckToServer(a))
    ensures Inv(Step(s, AckToServer(a)))
  {
    hide FromCemi, ToCemi, W.Inv;
    var t := Step(s, AckToServer(a));
    assert Up(t) == Up(s);
    if S.OnAck(s.server, a.number, 0).state.sno != s.server.sno {
      W.StepKeepsInv(MODULUS, MAX_AGE, Down(s), W.Acknowledge(a));
      assert Down(t) == W.Apply(MODULUS, Down(s), W.Acknowledge(a));
    } else {
      assert Down(t) == Down(s);
    }
  }

  lemma StepKeepsInv(s: Session, e: Event)
    requires Inv(s) && Enabled(s, e)
    ensures Ready(s, e) && Inv(Step(s, e))
  {
    hide FromCemi, ToCemi, W.Inv;
    InvReady(s, e);
    match e
    case ClientSends(l) => ClientSendsKeeps(s, l);
    case ClientTriggered => ClientTriggeredKeeps(s);
    case ClientTimesOut => ClientTimesOutKeeps(s);
    case ServerSends(l) => ServerSendsKeeps(s, l);
    case ServerTriggered => ServerTriggeredKeeps(s);
    case ServerTimesOut => ServerTimesOutKeeps(s);
    case RequestToServer(p) => RequestToServerKeeps(s, p);
    case AckToClient(a) => AckToClientKeeps(s, a);
    case RequestToClient(p) => RequestToClientKeeps(s, p);
    case AckToServer(a) => AckToServerKeeps(s, a);
  }

  // ------------------------------------------------------------- whole runs

  /** A run of the session; events the environment may not cause yet do nothing. The result is
      None if some callback's precondition failed. */
  ghost function Run(s: Session, events: seq<Event>): Option<Session>
    decreases |events|
  {
    if events == [] then Some(s)
    else if !Enabled(s, events[0]) then Run(s, events[1..])
    else if !Ready(s, events[0]) then None
    else Run(Step(s, events[0]), events[1..])
  }

  lemma {:induction false} RunKeepsInv(s: Session, events: seq<Event>)
    requires Inv(s)
    ensures Run(s, events).Some? && Inv(Run(s, events).value)
    decreases |events|
  {
    if events != [] {
      if Enabled(s, events[0]) {
        StepKeepsInv(s, events[0]);
        RunKeepsInv(Step(s, events[0]), events[1..]);
      } else {
        RunKeepsInv(s, events[1..]);
      }
    }
  }

  /** In every session a client opens, after whatever earlier sessions, and over every interleaving of sends, triggers, timeouts, losses, duplications,
      delays and reorderings: no callback precondition fails; what the server consumed is a prefix
      of what the client submitted and at most one frame ahead of what the client knows to be
      acknowledged, and likewise from server to client; the client transmits a frame at most five
      times, the server at most twice; the server asks for its next frame at most once per frame
      it was given, the client exactly once per frame acknowledged; and a frame the client is not
      waiting for has its wake-up pending. */
  lemma SessionIsSafe(c: C.Client, channel: int, address: Address, events: seq<Event>)
    requires c.mod == 0
    ensures var r := Run(Start(c, channel, address), events);
      && r.Some?
      && W.Safe(Up(r.value)) && W.Safe(Down(r.value))
      && r.value.tries <= 5
      && r.value.headTries <= 2
      && r.value.serverNexts <= r.value.serverSends <= r.value.serverNexts + 1
      && r.value.clientNexts == r.value.up.acked
      && (r.value.open && r.value.client.out != [] ==> r.value.client.mod == 2 || r.value.client.trigger)
  {
    hide FromCemi, ToCemi, C.OnAck, C.OnRequest, S.OnRequest, S.OnAck;
    StartInv(c, channel, address);
    RunKeepsInv(Start(c, channel, address), events);
  }

  /** The server asks for its next frame only when everything ever put on its queue has been
      acknowledged, and so has been accepted by the client. */
  lemma NextMeansDrained(s: Session, a: W.Receipt)
    requires Inv(s) && Enabled(s, AckToServer(a)) && Ready(s, AckToServer(a))
    requires Step(s, AckToServer(a)).serverNexts != s.serverNexts
    ensures var t := Step(s, AckToServer(a));
      && t.server.out == []
      && t.down.acked == |t.down.submitted|
      && t.down.delivered == t.down.submitted
  {
    hide FromCemi, ToCemi;
    var t := Step(s, AckToServer(a));
    AckToServerKeeps(s, a);
    assert t.server.out == t.down.submitted[t.down.acked..];
    assert W.Safe(Down(t));
  }

  /** What consumption means: the router gets the submitted frame (its priority exchanged by the
      codec, its missing source filled in) and a confirmation is queued for the client. */
  lemma ServerHandsUp(s: S.Conn, l: LData)
    requires s.kind == S.Standard && WellFormed(l) && |l.data| < 0xff
    ensures Sendable(ToCemi(L_DATA_REQ, l))
    ensures var r := Exchange(l).(repeated := false);
      var e := S.OnRequest(s, s.rno, ToCemi(L_DATA_REQ, l));
      && e.up == [S.WithSource(r, s.address)]
      && e.up == [r.(source := if l.source == 0 then s.address else l.source)]
      && e.queued == [ToCemi(L_DATA_CON, r)]
      && e.sends == [TunnelAck(s.channel, s.rno, E_NO_ERROR)]
  {
    hide FromCemi, ToCemi;
    CemiRoundTrip(L_DATA_REQ, l);
  }

  lemma ClientHandsUp(s: C.Client, l: LData)
    requires s.mod != 0 && WellFormed(l) && |l.data| < 0xff
    ensures var e := C.OnRequest(s, s.channel, s.rno, ToCemi(L_DATA_IND, l));
      e.up == [Exchange(l)] && e.sends == [TunnelAck(s.channel, s.rno, E_NO_ERROR)]
  {
    hide FromCemi, ToCemi;
    CemiRoundTrip(L_DATA_IND, l);
  }

  /** Nothing but an indication is handed up, and nothing that is not accepted. */
  lemma OnlyIndicationsGoUp(s: C.Client, channel: int, seqno: byte, cemi: Bytes)
    requires C.OnRequest(s, channel, seqno, cemi).up != []
    ensures channel == s.channel && seqno == s.rno && |cemi| >= 2 && cemi[0] == 0x29
    ensures C.OnRequest(s, channel, seqno, cemi).accepted == [cemi]
  {
    hide FromCemi, ToCemi;
  }

  /** The server hands up data requests and indications; only requests are confirmed. */
  lemma OnlyDataGoesUp(s: S.Conn, seqno: byte, cemi: Bytes)
    requires |cemi| >= 2 && (FromCemi(cemi).Some? ==> CemiEncodable(FromCemi(cemi).value))
    ensures var e := S.OnRequest(s, seqno, cemi);
      && (e.up != [] ==> seqno == s.rno && s.kind == S.Standard && (cemi[0] == 0x11 || cemi[0] == 0x29))
      && (e.queued != [] ==> seqno == s.rno && s.kind == S.Standard && cemi[0] == 0x11)
      && (e.accepted != [] <==> seqno == s.rno && Next(seqno) != s.rno)
  {
    hide FromCemi, ToCemi;
  }

  /** Why giving up has to end the session. The code goes on with the sequence number of the frame
      it abandoned, so the next frame `y` is acknowledged to the caller without being consumed
      exactly when the server had consumed the abandoned frame. */
  lemma AfterGivingUp(c: C.Client, s: S.Conn, y: Bytes)
    requires C.GivesUp(c) && c.channel == s.channel
    requires s.rno == c.sno || s.rno == Next(c.sno)
    requires y != [] && Sendable(y) && FromCemi(y).Some? && s.kind == S.Standard
    ensures var c1 := C.OnTimeout(c).state;
      var c2 := C.OnTrigger(C.SendLData(c1, y).state);
      && c1.out == []
      && c2.sends == [TunnelRequest(c.channel, c.sno, y)]
      && var f := S.OnRequest(s, c.sno, y);
         f.sends == [TunnelAck(c.channel, c.sno, E_NO_ERROR)]
         && C.OnAck(c2.state, c.channel, c.sno, E_NO_ERROR).next
         && (f.accepted == [] <==> s.rno == Next(c.sno))
  {
    hide FromCemi, ToCemi, W.Inv;
  }

  /** The client is waiting, its first frame transmitted `n + 1` times and consumed, and no
      acknowledgement has come through. */
  ghost predicate Unacknowledged(s: Session, n: nat, channel: int) {
    && s.open && s.client.mod == 2 && s.client.retry == n && s.client.out != [] && s.client.sno == 0
    && s.server.rno == 1 && s.server.kind == S.Standard && s.client.channel == channel == s.server.channel
  }

  /** One frame sent and consumed. */
  function FirstFrame(l: LData): seq<Event>
    requires WellFormed(l) && |l.data| < 0xff
  {
    [ClientSends(l), ClientTriggered, RequestToServer(W.Packet(0, ToCemi(L_DATA_REQ, l), 0))]
  }

  /** The timeout passes and the frame goes out again, `n` times. */
  function Timeouts(n: nat): seq<Event> {
    if n == 0 then [] else Timeouts(n - 1) + [ClientTimesOut, ClientTriggered]
  }

  lemma {:induction false} RunConcat(s: Session, a: seq<Event>, b: seq<Event>)
    ensures Run(s, a + b) == (match Run(s, a) case None => None case Some(t) => Run(t, b))
    decreases |a|
  {
    hide Enabled, Ready, Step;
    if a == [] {
      assert a + b == b;
    } else {
      assert (a + b)[1..] == a[1..] + b;
      if !Enabled(s, a[0]) {
        RunConcat(s, a[1..], b);
      } else if Ready(s, a[0]) {
        RunConcat(Step(s, a[0]), a[1..], b);
      }
    }
  }

  /** A run of one event. */
  lemma RunOne(s: Session, e: Event)
    requires Enabled(s, e) && Ready(s, e)
    ensures Run(s, [e]) == Some(Step(s, e))
  {
    hide Step;
    assert [e][1..] == [];
  }

  /** The client has transmitted its first frame, and nothing has happened at the server. */
  lemma FrameGoesOut(c: C.Client, channel: int, address: Address, l: LData)
    requires c.mod == 0 && WellFormed(l) && |l.data| < 0xff
    ensures var r := Run(Start(c, channel, address), [ClientSends(l), ClientTriggered]);
      && r.Some? && r.value.open && r.value.server == S.Opened(S.Standard, channel, address)
      && r.value.client == C.Client(channel, 2, 0, 0, c.retry, ToCemi(L_DATA_REQ, l), false)
      && W.Packet(0, ToCemi(L_DATA_REQ, l), 0) in r.value.up.packets && r.value.up.acked == 0
  {
    assert ToCemi(L_DATA_REQ, l) != [];
    hide FromCemi, ToCemi, Run;
    var s0 := Start(c, channel, address);
    var s1 := Step(s0, ClientSends(l));
    RunOne(s0, ClientSends(l));
    RunOne(s1, ClientTriggered);
    RunConcat(s0, [ClientSends(l)], [ClientTriggered]);
    assert [ClientSends(l), ClientTriggered] == [ClientSends(l)] + [ClientTriggered];
  }

  /** The server consumes the first frame. */
  lemma FrameComesIn(s: Session, channel: int, address: Address, cemi: Bytes)
    requires s.open && Sendable(cemi) && s.server == S.Opened(S.Standard, channel, address)
    requires s.client == C.Client(channel, 2, 0, 0, s.client.retry, cemi, false)
    requires W.Packet(0, cemi, 0) in s.up.packets && s.up.acked == 0
    ensures var r := Run(s, [RequestToServer(W.Packet(0, cemi, 0))]);
      r.Some? && Unacknowledged(r.value, s.client.retry, channel)
  {
    hide FromCemi, ToCemi, Run, S.OnRequest;
    RunOne(s, RequestToServer(W.Packet(0, cemi, 0)));
    S.RequestIsReceived(s.server, 0, cemi);
    S.RequestKeepsValid(s.server, 0, cemi);
  }

  lemma FirstFrameRuns(c: C.Client, channel: int, address: Address, l: LData)
    requires c.mod == 0 && WellFormed(l) && |l.data| < 0xff
    ensures var r := Run(Start(c, channel, address), FirstFrame(l)); r.Some? && Unacknowledged(r.value, c.retry, channel)
  {
    var cemi := ToCemi(L_DATA_REQ, l);
    CemiRoundTrip(L_DATA_REQ, l);
    assert Sendable(cemi);
    hide FromCemi, ToCemi, Run, Start, Unacknowledged, Sendable;
    FrameGoesOut(c, channel, address, l);
    var first, second := [ClientSends(l), ClientTriggered], [RequestToServer(W.Packet(0, cemi, 0))];
    FrameComesIn(Run(Start(c, channel, address), first).value, channel, address, cemi);
    RunConcat(Start(c, channel, address), first, second);
    assert FirstFrame(l) == first + second;
  }

  lemma TimeoutRuns(s: Session, n: nat, channel: int)
    requires Unacknowledged(s, n, channel) && n < 4
    ensures var r := Run(s, [ClientTimesOut, ClientTriggered]);
      r.Some? && Unacknowledged(r.value, n + 1, channel)
  {
    var t := Step(s, ClientTimesOut);
    RunOne(s, ClientTimesOut);
    RunOne(t, ClientTriggered);
    RunConcat(s, [ClientTimesOut], [ClientTriggered]);
    assert [ClientTimesOut, ClientTriggered] == [ClientTimesOut] + [ClientTriggered];
    hide Run;
  }

  lemma {:induction false} TimeoutsRun(s: Session, n: nat, channel: int)
    requires Unacknowledged(s, s.client.retry, channel) && (n == 0 || s.client.retry + n <= 4)
    ensures var r := Run(s, Timeouts(n)); r.Some? && Unacknowledged(r.value, s.client.retry + n, channel)
    decreases n
  {
    hide Unacknowledged;
    if n > 0 {
      TimeoutsRun(s, n - 1, channel);
      TimeoutRuns(Run(s, Timeouts(n - 1)).value, s.client.retry + n - 1, channel);
      RunConcat(s, Timeouts(n - 1), [ClientTimesOut, ClientTriggered]);
    }
  }

  /** That state is reached: one frame consumed, its acknowledgement lost, and as many repetitions
      as the retry counter still allows. At the next timeout the client gives up, and its next
      frame is confirmed without being consumed. */
  lemma GivingUpLosesTheNextFrame(c: C.Client, channel: int, address: Address, l: LData, y: Bytes)
    requires c.mod == 0 && WellFormed(l) && |l.data| < 0xff
    requires y != [] && Sendable(y) && FromCemi(y).Some?
    ensures var r := Run(Start(c, channel, address), FirstFrame(l) + Timeouts(if c.retry < 4 then 4 - c.retry else 0));
      && r.Some? && r.value.open && C.GivesUp(r.value.client)
      && var s := r.value;
         var d := C.OnTrigger(C.SendLData(C.OnTimeout(s.client).state, y).state);
         && d.sends == [TunnelRequest(channel, s.client.sno, y)]
         && var f := S.OnRequest(s.server, s.client.sno, y);
            && f.accepted == [] && f.sends == [TunnelAck(channel, s.client.sno, E_NO_ERROR)]
            && C.OnAck(d.state, channel, s.client.sno, E_NO_ERROR).next
  {
    hide Run, FromCemi, ToCemi;
    FirstFrameRuns(c, channel, address, l);
    var s := Run(Start(c, channel, address), FirstFrame(l)).value;
    var n := if c.retry < 4 then 4 - c.retry else 0;
    TimeoutsRun(s, n, channel);
    RunConcat(Start(c, channel, address), FirstFrame(l), Timeouts(n));
    var t := Run(s, Timeouts(n)).value;
    AfterGivingUp(t.client, t.server, y);
  }
}
