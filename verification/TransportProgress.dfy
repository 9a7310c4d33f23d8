/** What a transport-layer connection delivers when nothing is lost (src/libserver/layer4.cpp). */
module TransportProgress {
  import opened KnxTypes
  import opened Tpdu
  import opened TConnection
  import opened TransportSession
  import W = StopAndWait

  /** The APDUs `xs` went from `a` to `b` and were acknowledged; `a` has nothing left to send. */
  ghost predicate Settled(d: Duplex, xs: seq<Bytes>) {
    && d.a.mode == 1 && d.a.queue == []
    && d.a.sendno == d.b.recvno == |xs| % 16
    && d.ab.submitted == d.ab.delivered == xs && d.ab.acked == |xs|
  }

  /** And `y` is on its way: transmitted once, and then taken but not acknowledged. */
  ghost predicate OnItsWay(d: Duplex, xs: seq<Bytes>, y: Bytes, taken: bool) {
    && d.a.mode == 2 && d.a.queue == [] && d.tries == 1
    && d.a.sendno == |xs| % 16 && d.b.recvno == (if taken then |xs| + 1 else |xs|) % 16
    && d.ab.submitted == xs + [y] && d.ab.delivered == (if taken then xs + [y] else xs) && d.ab.acked == |xs|
    && W.Packet(|xs| % 16, y, |xs|) in d.ab.packets
    && (taken ==> W.Receipt(|xs| % 16, |xs|, |xs|) in d.ab.receipts)
  }

  function Round(n: nat, apdu: Bytes): seq<(bool, Event)> {
    [(true, Queue(apdu))] + [(false, DataIn(W.Packet(n % 16, Mask(apdu), n)))] + [(true, AckIn(W.Receipt(n % 16, n, n)))]
  }

  function Rounds(apdus: seq<Bytes>): seq<(bool, Event)>
    decreases |apdus|
  {
    if apdus == [] then [] else Rounds(apdus[..|apdus| - 1]) + Round(|apdus| - 1, apdus[|apdus| - 1])
  }

  lemma {:induction false} RunConcat(d: Duplex, a: seq<(bool, Event)>, b: seq<(bool, Event)>)
    ensures Run(d, a + b) == (match Run(d, a) case None => None case Some(t) => Run(t, b))
    decreases |a|
  {
    hide Enabled, Ready, StepA;
    if a == [] {
      assert a + b == b;
    } else {
      assert (a + b)[0] == a[0] && (a + b)[1..] == a[1..] + b;
      var (atA, e) := a[0];
      var d1 := if atA then d else Swap(d);
      if !Enabled(d1, e) {
        RunConcat(d, a[1..], b);
      } else if Ready(d1, e) {
        RunConcat(if atA then StepA(d1, e) else Swap(StepA(d1, e)), a[1..], b);
      }
    }
  }

  lemma RunOne(d: Duplex, atA: bool, e: Event)
    requires var d1 := if atA then d else Swap(d); Enabled(d1, e) && Ready(d1, e)
    ensures var d1 := if atA then d else Swap(d);
      Run(d, [(atA, e)]) == Some(if atA then StepA(d1, e) else Swap(StepA(d1, e)))
  {
    hide StepA;
    assert [(atA, e)][1..] == [];
  }

  lemma QueueRuns(d: Duplex, xs: seq<Bytes>, apdu: Bytes)
    requires Settled(d, xs) && apdu != []
    ensures var r := Run(d, [(true, Queue(apdu))]); r.Some? && OnItsWay(r.value, xs, Mask(apdu), false)
  {
    hide Run, Mask;
    RunOne(d, true, Queue(apdu));
  }

  lemma DataRuns(d: Duplex, xs: seq<Bytes>, y: Bytes)
    requires OnItsWay(d, xs, y, false) && y != [] && Mask(y) == y
    ensures var r := Run(d, [(false, DataIn(W.Packet(|xs| % 16, y, |xs|)))]); r.Some? && OnItsWay(r.value, xs, y, true)
  {
    hide Run, Mask, FromPacket, ToPacket;
    RoundTrip(DataConnected(|xs| % 16, y));
    RunOne(d, false, DataIn(W.Packet(|xs| % 16, y, |xs|)));
  }

  lemma AckRuns(d: Duplex, xs: seq<Bytes>, y: Bytes)
    requires OnItsWay(d, xs, y, true)
    ensures var r := Run(d, [(true, AckIn(W.Receipt(|xs| % 16, |xs|, |xs|)))]); r.Some? && Settled(r.value, xs + [y])
  {
    hide Run, FromPacket, ToPacket;
    RoundTrip(Ack(|xs| % 16));
    RunOne(d, true, AckIn(W.Receipt(|xs| % 16, |xs|, |xs|)));
  }

  lemma RoundRuns(d: Duplex, xs: seq<Bytes>, apdu: Bytes)
    requires Settled(d, xs) && apdu != []
    ensures var r := Run(d, Round(|xs|, apdu)); r.Some? && Settled(r.value, xs + [Mask(apdu)])
  {
    var y := Mask(apdu);
    assert y != [] && Mask(y) == y;
    hide Run, Settled, OnItsWay, Mask;
    var a, b, c := [(true, Queue(apdu))], [(false, DataIn(W.Packet(|xs| % 16, y, |xs|)))],
                   [(true, AckIn(W.Receipt(|xs| % 16, |xs|, |xs|)))];
    QueueRuns(d, xs, apdu);
    DataRuns(Run(d, a).value, xs, y);
    RunConcat(d, a, b);
    AckRuns(Run(d, a + b).value, xs, y);
    RunConcat(d, a + b, c);
  }

  lemma {:induction false} RoundsRun(d: Duplex, apdus: seq<Bytes>)
    requires Settled(d, []) && [] !in apdus
    ensures var r := Run(d, Rounds(apdus)); r.Some? && Settled(r.value, Masks(apdus))
    decreases |apdus|
  {
    hide Run, Settled, Round, Mask;
    if apdus == [] {
      NoEvents(d);
      assert Masks(apdus) == [];
    } else {
      var front, x := apdus[..|apdus| - 1], apdus[|apdus| - 1];
      RoundsRun(d, front);
      RoundRuns(Run(d, Rounds(front)).value, Masks(front), x);
      RunConcat(d, Rounds(front), Round(|front|, x));
      assert Masks(apdus) == Masks(front) + [Mask(x)];
    }
  }

  lemma NoEvents(d: Duplex)
    ensures Run(d, []) == Some(d)
  {
  }

  /** When nothing is lost, every APDU handed to a fresh connection arrives, in order, after one
      transmission each, however many there are. */
  lemma LosslessDelivers(a: Conn, b: Conn, apdus: seq<Bytes>)
    requires IsFresh(a) && IsFresh(b) && a.queue == [] && [] !in apdus
    ensures var r := Run(Start(a, b), Rounds(apdus));
      r.Some? && r.value.ab.delivered == Masks(apdus) && r.value.ab.acked == |apdus| && r.value.a.mode == 1
  {
    hide Run;
    assert Masks(a.queue) == [];
    RoundsRun(Start(a, b), apdus);
  }
}
