/** Two transport-layer connections talking over a network that loses, duplicates, delays and
    reorders packets (src/libserver/layer4.cpp). */
module TransportSession {
  import opened KnxTypes
  import opened Tpdu
  import opened TConnection
  import W = StopAndWait

  const MODULUS: nat := 16
  const MAX_AGE: nat := 14

  /** Endpoints `a` and `b`, and the history of either direction. `tries` and `peerTries` count the
      transmissions of the APDU `a` and `b` are waiting to have acknowledged. */
  datatype Duplex = Duplex(
    a: Conn,
    b: Conn,
    ab: W.History<Bytes>,
    ba: W.History<Bytes>,
    tries: nat,
    peerTries: nat)

  datatype Event =
    | Queue(apdu: Bytes)
    | Timer
    | DataIn(p: W.Packet<Bytes>)
    | AckIn(r: W.Receipt)
    | Other(c: Bytes)

  function Swap(d: Duplex): Duplex {
    Duplex(d.b, d.a, d.ba, d.ab, d.peerTries, d.tries)
  }

  /** What SendConnect leaves: counters at 0, and whatever was queued or sent last before. */
  predicate IsFresh(c: Conn) {
    c == Connected(c.queue).(current := c.current) && [] !in c.queue
  }

  function Start(a: Conn, b: Conn): Duplex {
    Duplex(a, b, W.NoHistory().(submitted := Masks(a.queue)), W.NoHistory().(submitted := Masks(b.queue)), 0, 0)
  }

  function AB(d: Duplex): W.State<Bytes> {
    W.View(d.a.sendno, d.b.recvno, d.ab)
  }

  /** What can happen at `a`. Packets of the two kinds the protocol counts come from the peer and
      are at most MAX_AGE frames old; any other packet may come from anywhere. */
  predicate Enabled(d: Duplex, e: Event) {
    match e
    case Queue(apdu) => apdu != []
    case Timer => true
    case DataIn(p) => p in d.ba.packets && d.ba.acked <= p.sentAt + MAX_AGE
    case AckIn(r) => r in d.ab.receipts && d.ab.acked <= r.sentAt + MAX_AGE
    case Other(c) => !FromPacket(c).Ack? && !FromPacket(c).DataConnected?
  }

  predicate Ready(d: Duplex, e: Event) {
    match e
    case DataIn(p) => p.number < 16 && p.payload != []
    case AckIn(r) => r.number < 16
    case _ => true
  }

  predicate SendsData(sends: seq<Pdu>) {
    |sends| == 1 && sends[0].DataConnected?
  }

  function Sent(h: W.History<Bytes>, sends: seq<Pdu>): W.History<Bytes> {
    if SendsData(sends) then
      h.(packets := h.packets + {W.Packet(sends[0].serno, Mask(sends[0].data), h.acked)})
    else h
  }

  /** The APDUs given to the application, without the empty array that signals the end. */
  function Apdus(app: seq<Bytes>): seq<Bytes> {
    if app == [[]] then [] else app
  }

  function Answered(h: W.History<Bytes>, p: W.Packet<Bytes>, f: Effect): W.History<Bytes> {
    var h1 := h.(delivered := h.delivered + Apdus(f.app));
    if |f.sends| == 1 && f.sends[0].Ack? then
      h1.(receipts := h.receipts + {W.Receipt(f.sends[0].serno, p.sentAt, h.acked)})
    else h1
  }

  function StepA(d: Duplex, e: Event): Duplex
    requires Enabled(d, e) && Ready(d, e)
  {
    match e
    case Queue(apdu) =>
      var f := RecvData(d.a, apdu);
      d.(a := f.state, ab := Sent(d.ab.(submitted := d.ab.submitted + [Mask(apdu)]), f.sends),
         tries := if SendsData(f.sends) then 1 else d.tries)
    case Timer =>
      var f := OnTimer(d.a);
      d.(a := f.state, ab := Sent(d.ab, f.sends), tries := d.tries + (if SendsData(f.sends) then 1 else 0))
    case DataIn(p) =>
      var f := OnPacket(d.a, ToPacket(DataConnected(p.number, p.payload)));
      d.(a := f.state, ba := Answered(d.ba, p, f))
    case AckIn(r) =>
      var f := OnPacket(d.a, ToPacket(Ack(r.number)));
      var moved := f.state.sendno != d.a.sendno;
      var h := d.ab.(acked := d.ab.acked + (if moved then 1 else 0));
      d.(a := f.state, ab := Sent(h, f.sends),
         tries := if !moved then d.tries else if SendsData(f.sends) then 1 else 0)
    case Other(c) =>
      var f := OnPacket(d.a, c);
      d.(a := f.state, ab := Sent(d.ab, f.sends), tries := d.tries + (if SendsData(f.sends) then 1 else 0))
  }

  // ------------------------------------------------------------- the invariant

  function Masks(q: seq<Bytes>): (r: seq<Bytes>)
    ensures |r| == |q|
    ensures forall i | 0 <= i < |q| :: r[i] == Mask(q[i])
  {
    if q == [] then [] else [Mask(q[0])] + Masks(q[1..])
  }

  /** An APDU as it travels: not empty, its first byte reduced to two bits. */
  ghost predicate Masked(x: Bytes) {
    x != [] && Mask(x) == x
  }

  /** While it is open, an endpoint still holds exactly what it was given and has not been
      acknowledged, and its repeat counter knows how often the first of these was sent. */
  ghost predicate SenderInv(s: Conn, h: W.History<Bytes>, tries: nat) {
    && s.mode <= 2
    && (s.mode == 1 ==> h.acked <= |h.submitted| && h.submitted[h.acked..] == Masks(s.queue))
    && (s.mode == 2 ==>
          && h.acked < |h.submitted|
          && h.submitted[h.acked..] == Masks([s.current] + s.queue)
          && s.repcount <= 3 && tries == s.repcount + 1)
    && tries <= 4
    && (forall x | x in h.submitted :: Masked(x))
  }

  ghost predicate Inv(d: Duplex) {
    && W.Inv(MODULUS, AB(d)) && W.Inv(MODULUS, AB(Swap(d)))
    && SenderInv(d.a, d.ab, d.tries) && SenderInv(d.b, d.ba, d.peerTries)
  }

  lemma InvReady(d: Duplex, e: Event)
    requires Inv(d) && Enabled(d, e)
    ensures Ready(d, e)
  {
    match e
    case DataIn(p) =>
      assert W.PacketOk(MODULUS, AB(Swap(d)), p);
      assert p.payload in d.ba.submitted;
    case AckIn(r) => assert W.ReceiptOk(MODULUS, AB(d), r);
    case _ =>
  }

  lemma ResendKeeps(d: Duplex, t: Duplex)
    requires Inv(d) && d.a.mode == 2 && d.a.repcount < 3
    requires t == d.(a := Resend(d.a).state, ab := Sent(d.ab, Resend(d.a).sends), tries := d.tries + 1)
    ensures Inv(t)
  {
    hide W.Inv;
    assert d.ab.submitted[d.ab.acked..][0] == Mask(d.a.current);
    W.StepKeepsInv(MODULUS, MAX_AGE, AB(d), W.Transmit);
    assert AB(t) == W.Apply(MODULUS, AB(d), W.Transmit);
    assert AB(Swap(t)) == AB(Swap(d));
  }

  lemma StopKeeps(d: Duplex, t: Duplex)
    requires Inv(d) && t == d.(a := Stop(d.a).state)
    ensures Inv(t)
  {
    hide W.Inv;
    assert AB(t) == AB(d) && AB(Swap(t)) == AB(Swap(d));
  }

  /** Sending the next queued APDU. */
  lemma SendCheckKeeps(d: Duplex, t: Duplex)
    requires W.Inv(MODULUS, AB(d)) && W.Inv(MODULUS, AB(Swap(d)))
    requires SenderInv(d.b, d.ba, d.peerTries)
    requires d.a.mode == 1 && (forall x | x in d.ab.submitted :: Masked(x))
    requires d.ab.acked <= |d.ab.submitted| && d.ab.submitted[d.ab.acked..] == Masks(d.a.queue)
    requires var f := SendCheck(d.a);
      t == d.(a := f.state, ab := Sent(d.ab, f.sends), tries := if SendsData(f.sends) then 1 else 0)
    ensures Inv(t)
  {
    hide W.Inv, Mask, Masked, Masks;
    assert AB(Swap(t)) == AB(Swap(d));
    if d.a.queue != [] {
      assert d.ab.submitted[d.ab.acked..][0] == Mask(d.a.queue[0]);
      W.StepKeepsInv(MODULUS, MAX_AGE, AB(d), W.Transmit);
      assert AB(t) == W.Apply(MODULUS, AB(d), W.Transmit);
      assert [d.a.queue[0]] + d.a.queue[1..] == d.a.queue;
    } else {
      assert AB(t) == AB(d);
    }
  }

  /** One APDU more, on either side of the books. */
  lemma OneMore(all: seq<Bytes>, k: nat, q: seq<Bytes>, x: Bytes)
    requires k <= |all| && all[k..] == Masks(q)
    ensures (all + [Mask(x)])[k..] == Masks(q + [x])
  {
    assert (all + [Mask(x)])[k..] == all[k..] + [Mask(x)];
    assert Masks(q + [x]) == Masks(q) + [Mask(x)];
  }

  lemma QueuedMasked(all: seq<Bytes>, x: Bytes)
    requires x != [] && forall y | y in all :: Masked(y)
    ensures forall y | y in all + [Mask(x)] :: Masked(y)
  {
    assert Masked(Mask(x));
  }

  /** The books after an APDU was put on the queue, before it is looked at. */
  lemma QueuedInv(d: Duplex, d1: Duplex, apdu: Bytes)
    requires Inv(d) && apdu != []
    requires d1 == d.(a := d.a.(queue := d.a.queue + [apdu]), ab := d.ab.(submitted := d.ab.submitted + [Mask(apdu)]))
    ensures W.Inv(MODULUS, AB(d1)) && W.Inv(MODULUS, AB(Swap(d1)))
    ensures forall y | y in d1.ab.submitted :: Masked(y)
    ensures d.a.mode == 1 ==> d1.ab.acked <= |d1.ab.submitted| && d1.ab.submitted[d1.ab.acked..] == Masks(d1.a.queue)
    ensures d.a.mode == 2 ==>
      d1.ab.acked < |d1.ab.submitted| && d1.ab.submitted[d1.ab.acked..] == Masks([d1.a.current] + d1.a.queue)
  {
    hide W.Inv, Mask, Masked;
    W.StepKeepsInv(MODULUS, MAX_AGE, AB(d), W.Submit(Mask(apdu)));
    assert AB(Swap(d1)) == AB(Swap(d));
    QueuedMasked(d.ab.submitted, apdu);
    if d.a.mode == 1 {
      OneMore(d.ab.submitted, d.ab.acked, d.a.queue, apdu);
    } else if d.a.mode == 2 {
      OneMore(d.ab.submitted, d.ab.acked, [d.a.current] + d.a.queue, apdu);
      assert [d.a.current] + d.a.queue + [apdu] == [d.a.current] + (d.a.queue + [apdu]);
    }
  }

  lemma QueueKeeps(d: Duplex, apdu: Bytes)
    requires Inv(d) && Enabled(d, Queue(apdu))
    ensures Inv(StepA(d, Queue(apdu)))
  {
    hide W.Inv, Mask, Masked, Masks;
    var t := StepA(d, Queue(apdu));
    var d1 := d.(a := d.a.(queue := d.a.queue + [apdu]), ab := d.ab.(submitted := d.ab.submitted + [Mask(apdu)]));
    QueuedInv(d, d1, apdu);
    if d.a.mode == 1 {
      SendCheckKeeps(d1, t);
    } else {
      assert t == d1;
    }
  }

  /** A data packet is a delivery of the generic protocol, or ends the connection; the sending side
      of the endpoint plays no part. */
  lemma DataReceived(d: Duplex, p: W.Packet<Bytes>)
    requires Enabled(d, DataIn(p)) && Ready(d, DataIn(p)) && Masked(p.payload)
    ensures var t := StepA(d, DataIn(p));
      && t == d.(a := t.a, ba := t.ba) && t.ba.submitted == d.ba.submitted && t.ba.acked == d.ba.acked
      && (t.a == d.a.(recvno := t.a.recvno) || t.a == d.a.(mode := 0))
      && (AB(Swap(t)) == AB(Swap(d)) || AB(Swap(t)) == W.Apply(MODULUS, AB(Swap(d)), W.Deliver(p)))
  {
    RoundTrip(DataConnected(p.number, p.payload));
    hide FromPacket, ToPacket, W.Inv;
    var f := OnPacket(d.a, ToPacket(DataConnected(p.number, p.payload)));
    if f.state.mode == 0 && f.sends == [Disconnect] {
      assert AB(Swap(StepA(d, DataIn(p)))) == AB(Swap(d));
    }
  }

  lemma DataInKeeps(d: Duplex, p: W.Packet<Bytes>)
    requires Inv(d) && Enabled(d, DataIn(p)) && Ready(d, DataIn(p))
    ensures Inv(StepA(d, DataIn(p)))
  {
    hide FromPacket, ToPacket, W.Inv, StepA, Masks, Masked, Mask;
    var back := AB(Swap(d));
    W.InFlight(MODULUS, back);
    assert W.PacketOk(MODULUS, back, p);
    assert p.payload in d.ba.submitted;
    DataReceived(d, p);
    W.StepKeepsInv(MODULUS, MAX_AGE, back, W.Deliver(p));
    assert AB(StepA(d, DataIn(p))) == AB(d);
  }

  lemma AckInKeeps(d: Duplex, r: W.Receipt)
    requires Inv(d) && Enabled(d, AckIn(r)) && Ready(d, AckIn(r))
    ensures Inv(StepA(d, AckIn(r)))
  {
    var t := StepA(d, AckIn(r));
    RoundTrip(Ack(r.number));
    hide FromPacket, ToPacket, W.Inv;
    if r.number != d.a.sendno || d.a.mode != 2 {
      StopKeeps(d, t);
    } else {
      var d1 := d.(a := d.a.(mode := 1, sendno := Next(d.a.sendno)), ab := d.ab.(acked := d.ab.acked + 1));
      W.StepKeepsInv(MODULUS, MAX_AGE, AB(d), W.Acknowledge(r));
      assert AB(d1) == W.Apply(MODULUS, AB(d), W.Acknowledge(r));
      assert AB(Swap(d1)) == AB(Swap(d));
      assert d1.ab.submitted[d1.ab.acked..] == d.ab.submitted[d.ab.acked..][1..];
      assert ([d.a.current] + d.a.queue)[1..] == d.a.queue;
      SendCheckKeeps(d1, t);
    }
  }

  lemma OtherKeeps(d: Duplex, c: Bytes)
    requires Inv(d) && Enabled(d, Other(c))
    ensures Inv(StepA(d, Other(c)))
  {
    hide FromPacket, ToPacket, W.Inv;
    var t := StepA(d, Other(c));
    var f := OnPacket(d.a, c);
    if f == Resend(d.a) {
      ResendKeeps(d, t);
    } else if f == Stop(d.a) {
      StopKeeps(d, t);
    }
  }

  lemma StepAKeepsInv(d: Duplex, e: Event)
    requires Inv(d) && Enabled(d, e)
    ensures Ready(d, e) && Inv(StepA(d, e))
  {
    hide FromPacket, ToPacket, W.Inv;
    InvReady(d, e);
    match e
    case Queue(apdu) => QueueKeeps(d, apdu);
    case Timer =>
      if d.a.mode == 2 && d.a.repcount < 3 {
        ResendKeeps(d, StepA(d, e));
      } else {
        StopKeeps(d, StepA(d, e));
      }
    case DataIn(p) => DataInKeeps(d, p);
    case AckIn(r) => AckInKeeps(d, r);
    case Other(c) => OtherKeeps(d, c);
  }

  // ------------------------------------------------------------- whole runs

  /** A run; each event happens at `a` (true) or at `b` (false). */
  function Run(d: Duplex, events: seq<(bool, Event)>): Option<Duplex>
    decreases |events|
  {
    if events == [] then Some(d)
    else
      var (atA, e) := events[0];
      var d1 := if atA then d else Swap(d);
      if !Enabled(d1, e) then Run(d, events[1..])
      else if !Ready(d1, e) then None
      else Run(if atA then StepA(d1, e) else Swap(StepA(d1, e)), events[1..])
  }

  lemma {:induction false} RunKeepsInv(d: Duplex, events: seq<(bool, Event)>)
    requires Inv(d)
    ensures Run(d, events).Some? && Inv(Run(d, events).value)
    decreases |events|
  {
    hide FromPacket, ToPacket, OnPacket;
    if events != [] {
      var (atA, e) := events[0];
      var d1 := if atA then d else Swap(d);
      assert Inv(d1);
      if Enabled(d1, e) {
        StepAKeepsInv(d1, e);
        var t := StepA(d1, e);
        assert Inv(Swap(t));
        RunKeepsInv(if atA then t else Swap(t), events[1..]);
      } else {
        RunKeepsInv(d, events[1..]);
      }
    }
  }

  lemma MaskedOnce(q: seq<Bytes>)
    requires [] !in q
    ensures forall x | x in Masks(q) :: Masked(x)
  {
    forall x | x in Masks(q)
      ensures Masked(x)
    {
      var i :| 0 <= i < |q| && Masks(q)[i] == x;
      assert q[i] in q;
    }
  }

  lemma StartInv(a: Conn, b: Conn)
    requires IsFresh(a) && IsFresh(b)
    ensures Inv(Start(a, b))
  {
    MaskedOnce(a.queue);
    MaskedOnce(b.queue);
    assert Masks(a.queue)[0..] == Masks(a.queue) && Masks(b.queue)[0..] == Masks(b.queue);
  }

  /** In every run from the connected state, whatever either end had queued before, in both
      directions: the APDUs delivered are a prefix of those queued (first byte reduced to two bits)
      and at most one ahead of what the sender knows to be acknowledged, and the APDU being sent
      has been transmitted at most four times, repetitions after a NACK and after a timeout taken
      together. */
  lemma ConnectionIsSafe(a: Conn, b: Conn, events: seq<(bool, Event)>)
    requires IsFresh(a) && IsFresh(b)
    ensures var r := Run(Start(a, b), events);
      && r.Some?
      && W.Safe(AB(r.value)) && W.Safe(AB(Swap(r.value)))
      && r.value.tries <= 4 && r.value.peerTries <= 4
  {
    hide FromPacket, ToPacket, OnPacket;
    StartInv(a, b);
    RunKeepsInv(Start(a, b), events);
  }
}
