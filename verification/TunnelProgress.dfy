/** What a tunnel session delivers when nothing is lost: every frame handed to either end arrives at
    the other, in order, with one transmission and one acknowledgement each
    (src/backend/eibnettunnel.cpp, src/libserver/eibnetserver.cpp). */
module TunnelProgress {
  import opened KnxTypes
  import opened Lpdu
  import opened Datagrams
  import opened Emi
  import C = TunnelClient
  import S = TunnelServer
  import T = TunnelSession
  import W = StopAndWait

  /** A frame the drivers can be handed. */
  ghost predicate Sound(l: LData) {
    WellFormed(l) && |l.data| < 0xff
  }

  ghost predicate AllSound(ls: seq<LData>) {
    forall i | 0 <= i < |ls| :: Sound(ls[i])
  }

  ghost function Encoded(code: byte, l: LData): Bytes
    requires Sound(l)
  {
    ToCemi(code, l)
  }

  ghost function AllEncoded(code: byte, ls: seq<LData>): (r: seq<Bytes>)
    requires AllSound(ls)
    ensures |r| == |ls|
  {
    seq(|ls|, i requires 0 <= i < |ls| => Encoded(code, ls[i]))
  }

  lemma SoundIsSendable(l: LData)
    requires Sound(l)
    ensures |Encoded(L_DATA_REQ, l)| >= 2 && T.Sendable(Encoded(L_DATA_REQ, l))
    ensures |Encoded(L_DATA_IND, l)| >= 2
  {
    CemiRoundTrip(L_DATA_REQ, l);
  }

  lemma NoEvents(s: T.Session)
    ensures T.Run(s, []) == Some(s)
  {
  }

  // ------------------------------------------------------------- client to server

  /** The frames `xs` went from client to server and were acknowledged. */
  ghost predicate UpSettled(s: T.Session, xs: seq<Bytes>) {
    && s.open && s.client.channel == s.server.channel
    && s.client.mod == 1 && s.client.out == [] && s.server.kind == S.Standard
    && s.client.sno == s.server.rno == |xs| % 256
    && s.up.submitted == s.up.delivered == xs && s.up.acked == |xs|
    && s.tries == 0 && s.clientNexts == |xs| && (xs != [] ==> s.client.retry == 0)
  }

  /** And `y` is on its way: transmitted, and then consumed but not acknowledged. */
  ghost predicate UpSent(s: T.Session, xs: seq<Bytes>, y: Bytes, delivered: bool) {
    && s.open && s.client.channel == s.server.channel
    && s.client.mod == 2 && s.server.kind == S.Standard
    && s.client.sno == |xs| % 256 && s.server.rno == (if delivered then |xs| + 1 else |xs|) % 256
    && s.up.submitted == xs + [y] && s.up.delivered == (if delivered then xs + [y] else xs) && s.up.acked == |xs|
    && W.Packet(|xs| % 256, y, |xs|) in s.up.packets
    && (delivered ==> W.Receipt(|xs| % 256, |xs|, |xs|) in s.up.receipts)
    && s.tries == 1 && s.clientNexts == |xs|
  }

  function UpSend(l: LData): seq<T.Event> {
    [T.ClientSends(l)] + [T.ClientTriggered]
  }

  function UpDeliver(n: nat, y: Bytes): T.Event {
    T.RequestToServer(W.Packet(n % 256, y, n))
  }

  function UpAck(n: nat): T.Event {
    T.AckToClient(W.Receipt(n % 256, n, n))
  }

  lemma UpSendRuns(s: T.Session, xs: seq<Bytes>, l: LData)
    requires UpSettled(s, xs) && Sound(l)
    ensures T.Run(s, UpSend(l)).Some? && UpSent(T.Run(s, UpSend(l)).value, xs, Encoded(L_DATA_REQ, l), false)
  {
    SoundIsSendable(l);
    hide FromCemi, ToCemi, T.Run, T.Sendable;
    var s1 := T.Step(s, T.ClientSends(l));
    T.RunOne(s, T.ClientSends(l));
    T.RunOne(s1, T.ClientTriggered);
    T.RunConcat(s, [T.ClientSends(l)], [T.ClientTriggered]);
  }

  /** The expected request is taken and acknowledged. */
  lemma ServerTakes(c: S.Conn, l: LData)
    requires c.kind == S.Standard && Sound(l)
    ensures var y := Encoded(L_DATA_REQ, l);
      && |y| >= 2 && T.Sendable(y)
      && var f := S.OnRequest(c, c.rno, y);
         && f.state.rno == Next(c.rno) && f.state.kind == c.kind && f.state.channel == c.channel
         && f.accepted == [y] && f.sends == [TunnelAck(c.channel, c.rno, E_NO_ERROR)]
  {
    var y := Encoded(L_DATA_REQ, l);
    SoundIsSendable(l);
    T.ServerHandsUp(c, l);
    S.RequestIsReceived(c, c.rno, y);
    S.RequestKind(c, c.rno, y);
    hide S.OnRequest, ToCemi, FromCemi;
  }

  lemma UpDeliverRuns(s: T.Session, xs: seq<Bytes>, l: LData)
    requires Sound(l) && UpSent(s, xs, Encoded(L_DATA_REQ, l), false)
    ensures var r := T.Run(s, [UpDeliver(|xs|, Encoded(L_DATA_REQ, l))]);
      r.Some? && UpSent(r.value, xs, Encoded(L_DATA_REQ, l), true)
  {
    hide FromCemi, ToCemi, T.Run, S.OnRequest, Encoded, T.Sendable;
    ServerTakes(s.server, l);
    T.RunOne(s, UpDeliver(|xs|, Encoded(L_DATA_REQ, l)));
  }

  lemma UpAckRuns(s: T.Session, xs: seq<Bytes>, y: Bytes)
    requires UpSent(s, xs, y, true)
    ensures var r := T.Run(s, [UpAck(|xs|)]); r.Some? && UpSettled(r.value, xs + [y])
  {
    hide FromCemi, ToCemi, T.Run;
    T.RunOne(s, UpAck(|xs|));
  }

  ghost function UpRound(n: nat, l: LData): seq<T.Event>
    requires Sound(l)
  {
    UpSend(l) + [UpDeliver(n, Encoded(L_DATA_REQ, l))] + [UpAck(n)]
  }

  lemma UpRoundRuns(s: T.Session, xs: seq<Bytes>, l: LData)
    requires UpSettled(s, xs) && Sound(l)
    ensures var r := T.Run(s, UpRound(|xs|, l)); r.Some? && UpSettled(r.value, xs + [Encoded(L_DATA_REQ, l)])
  {
    hide UpSettled, UpSent, UpSend, UpDeliver, UpAck, Encoded, Sound, T.Run;
    var y := Encoded(L_DATA_REQ, l);
    var a, b, c := UpSend(l), [UpDeliver(|xs|, y)], [UpAck(|xs|)];
    UpSendRuns(s, xs, l);
    UpDeliverRuns(T.Run(s, a).value, xs, l);
    T.RunConcat(s, a, b);
    UpAckRuns(T.Run(s, a + b).value, xs, y);
    T.RunConcat(s, a + b, c);
  }

  /** Each frame sent, delivered and acknowledged before the next. */
  ghost function UpRounds(ls: seq<LData>): seq<T.Event>
    requires AllSound(ls)
    decreases |ls|
  {
    if ls == [] then [] else UpRounds(ls[..|ls| - 1]) + UpRound(|ls| - 1, ls[|ls| - 1])
  }

  lemma {:induction false} UpRoundsRun(s: T.Session, ls: seq<LData>)
    requires UpSettled(s, []) && AllSound(ls)
    ensures var r := T.Run(s, UpRounds(ls)); r.Some? && UpSettled(r.value, AllEncoded(L_DATA_REQ, ls))
    decreases |ls|
  {
    hide UpSettled, UpRound, Encoded, Sound, T.Run;
    if ls == [] {
      NoEvents(s);
      assert AllEncoded(L_DATA_REQ, ls) == [];
    } else {
      var front, l := ls[..|ls| - 1], ls[|ls| - 1];
      UpRoundsRun(s, front);
      UpRoundRuns(T.Run(s, UpRounds(front)).value, AllEncoded(L_DATA_REQ, front), l);
      T.RunConcat(s, UpRounds(front), UpRound(|front|, l));
      assert AllEncoded(L_DATA_REQ, ls) == AllEncoded(L_DATA_REQ, front) + [Encoded(L_DATA_REQ, l)];
    }
  }

  // ------------------------------------------------------------- server to client

  ghost predicate DownSettled(s: T.Session, xs: seq<Bytes>) {
    && s.open && s.client.channel == s.server.channel
    && s.client.mod == 1 && s.server.kind == S.Standard
    && !s.server.stopped && !s.server.doSendNext && s.server.out == [] && s.server.retries == 0
    && s.server.sno == s.client.rno == |xs| % 256
    && s.down.submitted == s.down.delivered == xs && s.down.acked == |xs|
    && s.headTries == 0 && s.serverNexts == s.serverSends == |xs|
  }

  ghost predicate DownSent(s: T.Session, xs: seq<Bytes>, y: Bytes, delivered: bool) {
    && s.open && s.client.channel == s.server.channel
    && s.client.mod == 1 && s.server.kind == S.Standard
    && !s.server.stopped && s.server.out == [y] && s.server.doSendNext && s.server.retries == 1
    && s.server.sno == |xs| % 256 && s.client.rno == (if delivered then |xs| + 1 else |xs|) % 256
    && s.down.submitted == xs + [y] && s.down.delivered == (if delivered then xs + [y] else xs) && s.down.acked == |xs|
    && W.Packet(|xs| % 256, y, |xs|) in s.down.packets
    && (delivered ==> W.Receipt(|xs| % 256, |xs|, |xs|) in s.down.receipts)
    && s.headTries == 1 && s.serverNexts == |xs| && s.serverSends == |xs| + 1
  }

  function DownSend(l: LData): seq<T.Event> {
    [T.ServerSends(l)] + [T.ServerTriggered]
  }

  function DownDeliver(n: nat, y: Bytes): T.Event {
    T.RequestToClient(W.Packet(n % 256, y, n))
  }

  function DownAck(n: nat): T.Event {
    T.AckToServer(W.Receipt(n % 256, n, n))
  }

  lemma DownSendRuns(s: T.Session, xs: seq<Bytes>, l: LData)
    requires DownSettled(s, xs) && Sound(l)
    ensures T.Run(s, DownSend(l)).Some? && DownSent(T.Run(s, DownSend(l)).value, xs, Encoded(L_DATA_IND, l), false)
  {
    SoundIsSendable(l);
    hide FromCemi, ToCemi, T.Run, T.Sendable;
    var s1 := T.Step(s, T.ServerSends(l));
    T.RunOne(s, T.ServerSends(l));
    T.RunOne(s1, T.ServerTriggered);
    T.RunConcat(s, [T.ServerSends(l)], [T.ServerTriggered]);
  }

  /** The expected request is taken and acknowledged. */
  lemma ClientTakes(c: C.Client, cemi: Bytes)
    requires c.mod == 1 && |cemi| >= 2
    ensures var f := C.OnRequest(c, c.channel, c.rno, cemi);
      && f.state == c.(rno := Next(c.rno)) && f.accepted == [cemi]
      && f.sends == [TunnelAck(c.channel, c.rno, E_NO_ERROR)]
  {
    hide FromCemi, ToCemi;
  }

  lemma DownDeliverRuns(s: T.Session, xs: seq<Bytes>, y: Bytes)
    requires DownSent(s, xs, y, false) && |y| >= 2
    ensures var r := T.Run(s, [DownDeliver(|xs|, y)]); r.Some? && DownSent(r.value, xs, y, true)
  {
    hide FromCemi, ToCemi, T.Run, C.OnRequest;
    ClientTakes(s.client, y);
    T.RunOne(s, DownDeliver(|xs|, y));
  }

  lemma DownAckRuns(s: T.Session, xs: seq<Bytes>, y: Bytes)
    requires DownSent(s, xs, y, true)
    ensures var r := T.Run(s, [DownAck(|xs|)]); r.Some? && DownSettled(r.value, xs + [y])
  {
    hide FromCemi, ToCemi, T.Run;
    T.RunOne(s, DownAck(|xs|));
  }

  ghost function DownRound(n: nat, l: LData): seq<T.Event>
    requires Sound(l)
  {
    DownSend(l) + [DownDeliver(n, Encoded(L_DATA_IND, l))] + [DownAck(n)]
  }

  lemma DownRoundRuns(s: T.Session, xs: seq<Bytes>, l: LData)
    requires DownSettled(s, xs) && Sound(l)
    ensures var r := T.Run(s, DownRound(|xs|, l)); r.Some? && DownSettled(r.value, xs + [Encoded(L_DATA_IND, l)])
  {
    SoundIsSendable(l);
    hide DownSettled, DownSent, DownSend, DownDeliver, DownAck, Encoded, Sound, T.Run;
    var y := Encoded(L_DATA_IND, l);
    var a, b, c := DownSend(l), [DownDeliver(|xs|, y)], [DownAck(|xs|)];
    DownSendRuns(s, xs, l);
    DownDeliverRuns(T.Run(s, a).value, xs, y);
    T.RunConcat(s, a, b);
    DownAckRuns(T.Run(s, a + b).value, xs, y);
    T.RunConcat(s, a + b, c);
  }

  ghost function DownRounds(ls: seq<LData>): seq<T.Event>
    requires AllSound(ls)
    decreases |ls|
  {
    if ls == [] then [] else DownRounds(ls[..|ls| - 1]) + DownRound(|ls| - 1, ls[|ls| - 1])
  }

  lemma {:induction false} DownRoundsRun(s: T.Session, ls: seq<LData>)
    requires DownSettled(s, []) && AllSound(ls)
    ensures var r := T.Run(s, DownRounds(ls)); r.Some? && DownSettled(r.value, AllEncoded(L_DATA_IND, ls))
    decreases |ls|
  {
    hide DownSettled, DownRound, Encoded, Sound, T.Run;
    if ls == [] {
      NoEvents(s);
      assert AllEncoded(L_DATA_IND, ls) == [];
    } else {
      var front, l := ls[..|ls| - 1], ls[|ls| - 1];
      DownRoundsRun(s, front);
      DownRoundRuns(T.Run(s, DownRounds(front)).value, AllEncoded(L_DATA_IND, front), l);
      T.RunConcat(s, DownRounds(front), DownRound(|front|, l));
      assert AllEncoded(L_DATA_IND, ls) == AllEncoded(L_DATA_IND, front) + [Encoded(L_DATA_IND, l)];
    }
  }

  // ------------------------------------------------------------- whole sessions

  /** When nothing is lost, all frames arrive: over any number of frames in either direction, from
      whatever an earlier session left in the client, each frame is transmitted once, consumed,
      acknowledged, and followed by one request for more. */
  lemma LosslessDelivers(c: C.Client, channel: int, address: Address, ls: seq<LData>)
    requires c.mod == 0 && AllSound(ls)
    ensures var r := T.Run(T.Start(c, channel, address), UpRounds(ls));
      r.Some? && UpSettled(r.value, AllEncoded(L_DATA_REQ, ls))
    ensures var r := T.Run(T.Start(c, channel, address), DownRounds(ls));
      r.Some? && DownSettled(r.value, AllEncoded(L_DATA_IND, ls))
  {
    hide T.Run, Encoded, Sound;
    UpRoundsRun(T.Start(c, channel, address), ls);
    DownRoundsRun(T.Start(c, channel, address), ls);
  }

  // ------------------------------------------------------------- no answer

  /** The client's datagrams when nothing comes back: transmit, wait, and again until it gives up. */
  function ClientInsists(s: C.Client): seq<Datagram>
    requires s.mod == 1 && s.out != []
    decreases 5 - s.retry
  {
    var f := C.OnTrigger(s);
    if C.GivesUp(f.state) then f.sends + C.OnTimeout(f.state).sends
    else f.sends + ClientInsists(C.OnTimeout(f.state).state)
  }

  /** An unanswered frame is transmitted exactly five times, less what the retry counter has used
      up before but at least once, always with the same number, and then the client disconnects. */
  lemma {:induction false} ClientInsistsExactly(s: C.Client)
    requires s.mod == 1 && s.out != []
    ensures var n := if s.retry < 4 then 5 - s.retry else 1;
      ClientInsists(s) == seq(n, i => TunnelRequest(s.channel, s.sno, s.out)) +
        (if s.channel != -1 then [DisconnectRequest(s.channel)] else [])
    decreases 5 - s.retry
  {
    var f := C.OnTrigger(s);
    var request := TunnelRequest(s.channel, s.sno, s.out);
    if C.GivesUp(f.state) {
      assert seq(1, i => request) == [request];
    } else {
      ClientInsistsExactly(C.OnTimeout(f.state).state);
      var n := 5 - s.retry;
      assert seq(n, i => request) == [request] + seq(n - 1, i => request);
    }
  }

  /** The retry counter outlives the session: after the client gave up, disconnected and connected again, it
      transmits its first frame once and gives up again. */
  lemma RetryCounterSurvives(c: C.Client, channel: int, y: Bytes)
    requires C.GivesUp(c) && channel != -1 && y != []
    ensures var ended := C.Restart(C.OnTimeout(c).state).state;
      && ended.mod == 0
      && var next := C.SendLData(C.Connected(C.Opening(ended), channel).state, y).state;
         && next.mod == 1 && next.out == y
         && ClientInsists(next) == [TunnelRequest(channel, 0, y), DisconnectRequest(channel)]
  {
    var ended := C.Restart(C.OnTimeout(c).state).state;
    var next := C.SendLData(C.Connected(C.Opening(ended), channel).state, y).state;
    ClientInsistsExactly(next);
    assert seq(1, i => TunnelRequest(channel, 0, y)) == [TunnelRequest(channel, 0, y)];
  }

  /** The server's: until it stops. */
  function ServerInsists(s: S.Conn): seq<Datagram>
    requires s.out != [] && !s.stopped
    decreases 4 - s.retries
  {
    var f := S.OnTrigger(s);
    var t := S.OnTimeout(f.state).state;
    if t.stopped then f.sends else f.sends + ServerInsists(t)
  }

  /** An unanswered frame of the server is transmitted exactly twice before it stops. */
  lemma ServerInsistsExactly(s: S.Conn)
    requires S.Valid(s) && s.out != [] && !s.stopped && s.retries == 0
    ensures ServerInsists(s) == [TunnelRequest(s.channel, s.sno, s.out[0]), TunnelRequest(s.channel, s.sno, s.out[0])]
    ensures var t := S.OnTimeout(S.OnTrigger(s).state).state;
      && t.trigger && !t.stopped
      && var u := S.OnTimeout(S.OnTrigger(t).state).state;
         u.stopped && u.out == s.out[1..] && u.retries == 0
  {
  }

  // ------------------------------------------------------------- lost acknowledgements

  /** `k` copies of one request arrive at the server. */
  ghost function AtServer(s: S.Conn, number: byte, cemi: Bytes, k: nat): S.Effect
    requires T.Sendable(cemi)
  {
    if k == 0 then S.Quiet(s)
    else
      var e := AtServer(s, number, cemi, k - 1);
      var f := S.OnRequest(e.state, number, cemi);
      S.Effect(f.state, e.sends + f.sends, e.accepted + f.accepted, e.up + f.up, e.queued + f.queued, false)
  }

  lemma RepetitionAtServer(s: S.Conn, number: byte, cemi: Bytes)
    requires T.Sendable(cemi) && Next(number) == s.rno
    ensures S.OnRequest(s, number, cemi) == S.Effect(s, [TunnelAck(s.channel, number, E_NO_ERROR)], [], [], [], false)
  {
    hide FromCemi, ToCemi;
  }

  lemma FirstAtServer(s: S.Conn, l: LData)
    requires s.kind == S.Standard && Sound(l)
    ensures T.Sendable(Encoded(L_DATA_REQ, l))
    ensures var r := Exchange(l).(repeated := false);
      var e := S.OnRequest(s, s.rno, Encoded(L_DATA_REQ, l));
      && e.state.rno == Next(s.rno) && e.state.channel == s.channel && e.sends == [TunnelAck(s.channel, s.rno, E_NO_ERROR)]
      && e.up == [S.WithSource(r, s.address)] && e.queued == [ToCemi(L_DATA_CON, r)]
  {
    hide S.OnRequest, ToCemi, FromCemi;
    ServerTakes(s, l);
    T.ServerHandsUp(s, l);
  }

  /** One copy more. */
  lemma OneMoreAtServer(s: S.Conn, number: byte, cemi: Bytes, k: nat)
    requires T.Sendable(cemi) && Next(number) == AtServer(s, number, cemi, k).state.rno
    ensures var e, f := AtServer(s, number, cemi, k), AtServer(s, number, cemi, k + 1);
      && f.state == e.state && f.up == e.up && f.queued == e.queued
      && f.sends == e.sends + [TunnelAck(e.state.channel, number, E_NO_ERROR)]
  {
    hide FromCemi, ToCemi, S.OnRequest, T.Sendable;
    RepetitionAtServer(AtServer(s, number, cemi, k).state, number, cemi);
  }

  lemma OneAtServer(s: S.Conn, number: byte, cemi: Bytes)
    requires T.Sendable(cemi)
    ensures var e, f := AtServer(s, number, cemi, 1), S.OnRequest(s, number, cemi);
      e.state == f.state && e.up == f.up && e.queued == f.queued && e.sends == f.sends
  {
    hide FromCemi, ToCemi, S.OnRequest, T.Sendable;
    assert AtServer(s, number, cemi, 0) == S.Quiet(s);
  }

  /** Every copy of a request is acknowledged, its frame reaches the router once and is confirmed once. */
  lemma {:induction false} ServerAcksEveryCopy(s: S.Conn, l: LData, k: nat)
    requires s.kind == S.Standard && Sound(l) && k > 0
    ensures T.Sendable(Encoded(L_DATA_REQ, l))
    ensures var r := Exchange(l).(repeated := false);
      var e := AtServer(s, s.rno, Encoded(L_DATA_REQ, l), k);
      && e.state.rno == Next(s.rno) && e.state.channel == s.channel
      && e.sends == seq(k, i => TunnelAck(s.channel, s.rno, E_NO_ERROR))
      && e.up == [S.WithSource(r, s.address)] && e.queued == [ToCemi(L_DATA_CON, r)]
    decreases k
  {
    hide FromCemi, ToCemi, S.OnRequest, T.Sendable, Encoded, AtServer, S.WithSource, Exchange;
    FirstAtServer(s, l);
    var y := Encoded(L_DATA_REQ, l);
    var ack := TunnelAck(s.channel, s.rno, E_NO_ERROR);
    if k == 1 {
      OneAtServer(s, s.rno, y);
      assert seq(1, i => ack) == [ack];
    } else {
      ServerAcksEveryCopy(s, l, k - 1);
      OneMoreAtServer(s, s.rno, y, k - 1);
      assert seq(k, i => ack) == seq(k - 1, i => ack) + [ack];
    }
  }

  /** `k` copies of one request arrive at the client. */
  function AtClient(c: C.Client, number: byte, cemi: Bytes, k: nat): C.Effect {
    if k == 0 then C.Quiet(c)
    else
      var e := AtClient(c, number, cemi, k - 1);
      var f := C.OnRequest(e.state, c.channel, number, cemi);
      C.Effect(f.state, e.sends + f.sends, e.accepted + f.accepted, e.up + f.up, false)
  }

  /** And the same at the client. */
  lemma {:induction false} ClientAcksEveryCopy(c: C.Client, l: LData, k: nat)
    requires (c.mod == 1 || c.mod == 2) && Sound(l) && k > 0
    ensures var e := AtClient(c, c.rno, Encoded(L_DATA_IND, l), k);
      && e.state == c.(rno := Next(c.rno))
      && e.sends == seq(k, i => TunnelAck(c.channel, c.rno, E_NO_ERROR))
      && e.up == [Exchange(l)]
    decreases k
  {
    SoundIsSendable(l);
    T.ClientHandsUp(c, l);
    var y := Encoded(L_DATA_IND, l);
    ClientStep(c, y);
    hide FromCemi, ToCemi, C.OnRequest, Encoded;
    var ack := TunnelAck(c.channel, c.rno, E_NO_ERROR);
    if k == 1 {
      assert AtClient(c, c.rno, y, 0) == C.Quiet(c);
      assert seq(1, i => ack) == [ack];
    } else {
      ClientAcksEveryCopy(c, l, k - 1);
      assert seq(k, i => ack) == seq(k - 1, i => ack) + [ack];
    }
  }

  lemma ClientStep(c: C.Client, cemi: Bytes)
    requires (c.mod == 1 || c.mod == 2) && |cemi| >= 2
    ensures C.OnRequest(c, c.channel, c.rno, cemi).state == c.(rno := Next(c.rno))
    ensures var d := c.(rno := Next(c.rno));
      C.OnRequest(d, c.channel, c.rno, cemi) == C.Effect(d, [TunnelAck(c.channel, c.rno, E_NO_ERROR)], [], [], false)
  {
    hide FromCemi, ToCemi;
  }

  /** A refusal, an answer on another channel or one to another frame does not end the wait. */
  lemma OthersAreIgnored(c: C.Client, s: S.Conn, channel: int, number: byte, status: byte)
    requires S.Valid(s)
    ensures status != 0 || number != c.sno || channel != c.channel ==>
      C.OnAck(c, channel, number, status) == C.Quiet(c)
    ensures status != 0 || number != s.sno ==> S.OnAck(s, number, status) == S.Quiet(s)
  {
  }
}
