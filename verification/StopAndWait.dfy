/** Stop-and-wait transfer with sequence numbers modulo `m` over a network that loses, duplicates,
    delays and reorders datagrams.

    The tunnel (m = 256, both directions) and the transport-layer connection (m = 16) are proved
    to be runs of this protocol. Each datagram is stamped with the number of frames its sender had
    moved past when it was sent; the stamp is what the age bound talks about and no endpoint sees it. */
module StopAndWait {
  import opened Modulo

  datatype Packet<T> = Packet(number: nat, payload: T, sentAt: nat)

  datatype Receipt = Receipt(number: nat, frame: nat, sentAt: nat)

  /** The two counters the endpoints keep, and everything an observer has seen. */
  datatype State<T(==)> = State(
    sno: nat,
    rno: nat,
    submitted: seq<T>,
    acked: nat,
    delivered: seq<T>,
    packets: set<Packet<T>>,
    receipts: set<Receipt>)

  /** What an observer of one direction has seen; the counters belong to the endpoints. */
  datatype History<T(==)> = History(
    submitted: seq<T>,
    acked: nat,
    delivered: seq<T>,
    packets: set<Packet<T>>,
    receipts: set<Receipt>)

  function NoHistory<T(==)>(): History<T> {
    History([], 0, [], {}, {})
  }

  function View<T(==)>(sno: nat, rno: nat, h: History<T>): State<T> {
    State(sno, rno, h.submitted, h.acked, h.delivered, h.packets, h.receipts)
  }

  datatype Event<T> =
    | Submit(x: T)
    | Transmit
    | Deliver(p: Packet<T>)
    | Acknowledge(a: Receipt)

  function Init<T(==)>(): State<T> {
    State(0, 0, [], 0, [], {}, {})
  }

  /** Delivery takes any datagram that was ever sent, any number of times, as long as its sender
      has moved on by at most `age` frames. */
  predicate Enabled<T(==)>(age: nat, s: State<T>, e: Event<T>) {
    match e
    case Submit(_) => true
    case Transmit => s.acked < |s.submitted|
    case Deliver(p) => p in s.packets && s.acked <= p.sentAt + age
    case Acknowledge(a) => a in s.receipts && s.acked <= a.sentAt + age
  }

  function Apply<T(==)>(m: nat, s: State<T>, e: Event<T>): State<T>
    requires 0 < m
    requires e.Transmit? ==> s.acked < |s.submitted|
  {
    match e
    case Submit(x) => s.(submitted := s.submitted + [x])
    case Transmit =>
      s.(packets := s.packets + {Packet(s.sno, s.submitted[s.acked], s.acked)})
    case Deliver(p) =>
      if p.number == s.rno then
        s.(rno := (s.rno + 1) % m,
           delivered := s.delivered + [p.payload],
           receipts := s.receipts + {Receipt(p.number, p.sentAt, s.acked)})
      else if (p.number + 1) % m == s.rno then
        s.(receipts := s.receipts + {Receipt(p.number, p.sentAt, s.acked)})
      else s
    case Acknowledge(a) =>
      if a.number == s.sno then s.(sno := (s.sno + 1) % m, acked := s.acked + 1) else s
  }

  /** A run: events that are not enabled do nothing. */
  function Run<T(==)>(m: nat, age: nat, s: State<T>, events: seq<Event<T>>): State<T>
    requires 0 < m
    decreases |events|
  {
    if events == [] then s
    else Run(m, age, if Enabled(age, s, events[0]) then Apply(m, s, events[0]) else s, events[1..])
  }

  ghost predicate PacketOk<T(!new)>(m: nat, s: State<T>, p: Packet<T>)
    requires 0 < m
  {
    && p.sentAt <= s.acked
    && p.sentAt < |s.submitted|
    && p.number == p.sentAt % m
    && p.payload == s.submitted[p.sentAt]
  }

  ghost predicate ReceiptOk<T>(m: nat, s: State<T>, a: Receipt)
    requires 0 < m
  {
    && a.frame < |s.delivered|
    && a.number == a.frame % m
    && a.frame <= a.sentAt <= a.frame + 1
    && a.sentAt <= s.acked
  }

  /** No loss in the middle, no repetition, no reordering, and the receiver is never more than
      one frame ahead of what the sender knows. */
  ghost predicate Safe<T>(s: State<T>) {
    && s.delivered <= s.submitted
    && s.acked <= |s.delivered| <= s.acked + 1
  }

  ghost predicate Inv<T(!new)>(m: nat, s: State<T>) {
    && 0 < m
    && Safe(s)
    && s.sno == s.acked % m
    && s.rno == |s.delivered| % m
    && (forall p | p in s.packets :: PacketOk(m, s, p))
    && (forall a | a in s.receipts :: ReceiptOk(m, s, a))
  }

  /** What the invariant says about one datagram. */
  lemma InFlight<T(!new)>(m: nat, s: State<T>)
    requires Inv(m, s)
    ensures forall p | p in s.packets :: PacketOk(m, s, p)
    ensures forall a | a in s.receipts :: ReceiptOk(m, s, a)
  {
  }

  /** What the invariant says about the counters. */
  lemma Counters<T(!new)>(m: nat, s: State<T>)
    requires Inv(m, s)
    ensures Safe(s) && s.sno == s.acked % m && s.rno == |s.delivered| % m
  {
  }

  /** Losing receipts breaks nothing. */
  lemma FewerReceipts<T(!new)>(m: nat, s: State<T>, receipts: set<Receipt>)
    requires Inv(m, s) && receipts <= s.receipts
    ensures Inv(m, s.(receipts := receipts))
  {
    var t := s.(receipts := receipts);
    assert forall p | p in s.packets :: PacketOk(m, s, p) && PacketOk(m, t, p);
    assert forall a | a in receipts :: ReceiptOk(m, s, a) && ReceiptOk(m, t, a);
  }

  /** A packet the receiver takes for the next frame is the next frame. */
  lemma AcceptedIsNext<T(!new)>(m: nat, age: nat, s: State<T>, p: Packet<T>)
    requires Inv(m, s) && age + 2 <= m
    requires p in s.packets && s.acked <= p.sentAt + age && p.number == s.rno
    ensures p.sentAt == |s.delivered| == s.acked
  {
    assert PacketOk(m, s, p);
    CloseCongruent(m, p.sentAt, |s.delivered|);
  }

  /** A packet the receiver takes for a repetition of the last frame is one. */
  lemma RepeatedIsLast<T(!new)>(m: nat, age: nat, s: State<T>, p: Packet<T>)
    requires Inv(m, s) && age + 2 <= m
    requires p in s.packets && s.acked <= p.sentAt + age
    requires p.number != s.rno && (p.number + 1) % m == s.rno
    ensures p.sentAt + 1 == |s.delivered|
  {
    assert PacketOk(m, s, p);
    SuccMod(m, p.sentAt);
    if p.sentAt + 1 <= |s.delivered| {
      CloseCongruent(m, p.sentAt + 1, |s.delivered|);
    }
  }

  /** A receipt the sender takes for its current frame acknowledges its current frame. */
  lemma ReceiptIsCurrent<T(!new)>(m: nat, age: nat, s: State<T>, a: Receipt)
    requires Inv(m, s) && age + 2 <= m
    requires a in s.receipts && s.acked <= a.sentAt + age && a.number == s.sno
    ensures a.frame == s.acked && |s.delivered| == s.acked + 1
  {
    assert ReceiptOk(m, s, a);
    CloseCongruent(m, a.frame, s.acked);
  }

  lemma StepKeepsInv<T(!new)>(m: nat, age: nat, s: State<T>, e: Event<T>)
    requires Inv(m, s) && age + 2 <= m && Enabled(age, s, e)
    ensures Inv(m, Apply(m, s, e))
  {
    var t := Apply(m, s, e);
    match e
    case Submit(_) =>
      assert forall p | p in t.packets :: PacketOk(m, s, p);
      assert forall a | a in t.receipts :: ReceiptOk(m, s, a);
    case Transmit =>
      assert forall p | p in s.packets :: PacketOk(m, s, p);
      assert forall a | a in t.receipts :: ReceiptOk(m, s, a);
    case Deliver(p) => DeliverKeepsInv(m, age, s, p);
    case Acknowledge(a) =>
      if a.number == s.sno {
        ReceiptIsCurrent(m, age, s, a);
        SuccMod(m, s.acked);
        assert forall p | p in t.packets :: PacketOk(m, s, p);
        assert forall b | b in t.receipts :: ReceiptOk(m, s, b);
      }
  }

  lemma DeliverKeepsInv<T(!new)>(m: nat, age: nat, s: State<T>, p: Packet<T>)
    requires Inv(m, s) && age + 2 <= m && Enabled(age, s, Deliver(p))
    ensures Inv(m, Apply(m, s, Deliver(p)))
  {
    var t := Apply(m, s, Deliver(p));
    assert PacketOk(m, s, p);
    assert forall q | q in t.packets :: PacketOk(m, s, q);
    if p.number == s.rno {
      AcceptedIsNext(m, age, s, p);
      SuccMod(m, |s.delivered|);
      assert s.submitted[..|s.delivered| + 1] == s.delivered + [p.payload];
      assert t.delivered <= t.submitted;
    } else if (p.number + 1) % m == s.rno {
      RepeatedIsLast(m, age, s, p);
    }
    forall a | a in t.receipts
      ensures ReceiptOk(m, t, a)
    {
      if a in s.receipts {
        assert ReceiptOk(m, s, a);
      }
    }
  }

  lemma {:induction false} RunKeepsInv<T(!new)>(m: nat, age: nat, s: State<T>, events: seq<Event<T>>)
    requires Inv(m, s) && age + 2 <= m
    ensures Inv(m, Run(m, age, s, events))
    decreases |events|
  {
    if events != [] {
      if Enabled(age, s, events[0]) {
        StepKeepsInv(m, age, s, events[0]);
        RunKeepsInv(m, age, Apply(m, s, events[0]), events[1..]);
      } else {
        RunKeepsInv(m, age, s, events[1..]);
      }
    }
  }

  // ------------------------------------------------------- the age bound is exact

  lemma {:induction false} RunConcat<T>(m: nat, age: nat, s: State<T>, a: seq<Event<T>>, b: seq<Event<T>>)
    requires 0 < m
    ensures Run(m, age, s, a + b) == Run(m, age, Run(m, age, s, a), b)
    decreases |a|
  {
    if a == [] {
      assert a + b == b;
    } else {
      assert (a + b)[1..] == a[1..] + b;
      RunConcat(m, age, if Enabled(age, s, a[0]) then Apply(m, s, a[0]) else s, a[1..], b);
    }
  }

  /** Send frame `n` and let it arrive. */
  function HalfRound<T>(x: T, n: nat): seq<Event<T>> {
    [Submit(x), Transmit, Deliver(Packet(n, x, n))]
  }

  /** Exchange the first `n` frames without any loss. */
  function Rounds<T>(x: T, n: nat): seq<Event<T>> {
    if n == 0 then []
    else Rounds(x, n - 1) + (HalfRound(x, n - 1) + [Acknowledge(Receipt(n - 1, n - 1, n - 1))])
  }

  /** The state before frame `n` is submitted, when nothing was lost. */
  ghost predicate Settled<T(!new)>(s: State<T>, x: T, n: nat) {
    && s.sno == s.rno == s.acked == n
    && |s.submitted| == |s.delivered| == n
    && (0 < n ==> Packet(0, x, 0) in s.packets)
  }

  lemma HalfRoundRuns<T(!new)>(m: nat, age: nat, s: State<T>, x: T, n: nat)
    requires Settled(s, x, n) && n < m
    ensures var t := Run(m, age, s, HalfRound(x, n));
      && t.sno == t.acked == n && t.rno == (n + 1) % m
      && |t.submitted| == |t.delivered| == n + 1
      && Packet(0, x, 0) in t.packets
      && Receipt(n, n, n) in t.receipts
  {
    var s1 := Apply(m, s, Submit(x));
    var s2 := Apply(m, s1, Transmit);
    var p := Packet(n, x, n);
    var s3 := Apply(m, s2, Deliver(p));
    calc {
      Run(m, age, s, HalfRound(x, n));
      { assert HalfRound(x, n)[1..] == [Transmit, Deliver(p)]; }
      Run(m, age, s1, [Transmit, Deliver(p)]);
      { assert [Transmit, Deliver(p)][1..] == [Deliver(p)]; }
      Run(m, age, s2, [Deliver(p)]);
      { assert [Deliver(p)][1..] == []; }
      s3;
    }
  }

  lemma RoundSettles<T(!new)>(m: nat, age: nat, s: State<T>, x: T, n: nat)
    requires Settled(s, x, n) && n + 1 < m
    ensures Settled(Run(m, age, s, HalfRound(x, n) + [Acknowledge(Receipt(n, n, n))]), x, n + 1)
  {
    HalfRoundRuns(m, age, s, x, n);
    var t := Run(m, age, s, HalfRound(x, n));
    var last := [Acknowledge(Receipt(n, n, n))];
    RunConcat(m, age, s, HalfRound(x, n), last);
    assert last[1..] == [];
    assert Run(m, age, t, last) == Apply(m, t, last[0]);
    ModSmall(m, n + 1);
  }

  lemma {:induction false} RoundsSettle<T(!new)>(m: nat, age: nat, x: T, n: nat)
    requires n < m
    ensures Settled(Run(m, age, Init(), Rounds(x, n)), x, n)
  {
    if n != 0 {
      var s := Run(m, age, Init(), Rounds(x, n - 1));
      RoundsSettle(m, age, x, n - 1);
      RoundSettles(m, age, s, x, n - 1);
      RunConcat(m, age, Init(), Rounds(x, n - 1),
                HalfRound(x, n - 1) + [Acknowledge(Receipt(n - 1, n - 1, n - 1))]);
    }
  }

  /** A run in which a datagram one frame older than allowed is taken for a new frame. */
  function Confusion<T>(m: nat, x: T): seq<Event<T>>
    requires 0 < m
  {
    Rounds(x, m - 1) + HalfRound(x, m - 1) + [Deliver(Packet(0, x, 0))]
  }

  lemma ConfusionBreaks<T(!new)>(m: nat, age: nat, x: T)
    requires 0 < m <= age + 1
    ensures !Safe(Run(m, age, Init(), Confusion(m, x)))
  {
    var s := Run(m, age, Init(), Rounds(x, m - 1));
    RoundsSettle(m, age, x, m - 1);
    HalfRoundRuns(m, age, s, x, m - 1);
    var t := Run(m, age, s, HalfRound(x, m - 1));
    var last := [Deliver(Packet(0, x, 0))];
    RunConcat(m, age, Init(), Rounds(x, m - 1), HalfRound(x, m - 1));
    RunConcat(m, age, Init(), Rounds(x, m - 1) + HalfRound(x, m - 1), last);
    assert last[1..] == [];
    ModOf(m, 1, 0);
    assert t.rno == 0;
    assert Run(m, age, t, last) == Apply(m, t, last[0]);
  }

  /** Sequence numbers modulo `m` are enough for every run exactly when no datagram is delivered
      after its sender moved on by more than `m - 2` frames: 254 for the tunnel, 14 for the
      transport connection. */
  lemma SafeIffYoung<T(!new)>(m: nat, age: nat, x: T)
    requires 0 < m
    ensures (forall events: seq<Event<T>> :: Safe(Run(m, age, Init<T>(), events))) <==> age + 2 <= m
  {
    if age + 2 <= m {
      forall events: seq<Event<T>>
        ensures Safe(Run(m, age, Init<T>(), events))
      {
        RunKeepsInv(m, age, Init<T>(), events);
      }
    } else {
      ConfusionBreaks(m, age, x);
    }
  }
}
