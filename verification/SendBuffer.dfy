/** The buffer in front of a non-blocking descriptor (`SendBuf`). A buffer that cannot be written at
    once is kept, with those submitted after it, until the descriptor takes more. */
module SendBuffer {
  import opened KnxTypes
  import opened Streams

  /** What a call of write() may answer. */
  datatype Answer = Wrote(count: nat) | Again | Broken

  /** `current` is written up to `pos`; `watching` says that the writable event is awaited;
      `failed` that an error was reported; `written` is what the descriptor took. */
  datatype Out = Out(
    ready: bool,
    current: Option<Bytes>,
    pos: nat,
    queue: seq<Bytes>,
    watching: bool,
    failed: bool,
    written: Bytes)

  function Initial(): Out {
    Out(false, None, 0, [], false, false, [])
  }

  /** A descriptor takes no more than it is given. */
  function Count(a: Answer, room: nat): (n: nat)
    ensures n <= room
  {
    if !a.Wrote? then 0 else if a.count < room then a.count else room
  }

  /** SendBuf::write. */
  function Submit(o: Out, data: Bytes, a: Answer): Out {
    if o.ready then o.(queue := o.queue + [data])
    else
      var n := Count(a, |data|);
      var p := o.(written := o.written + data[..n]);
      if a.Wrote? && n == |data| then p
      else p.(current := Some(data), pos := n, ready := true, watching := true)
  }

  /** Put the next buffer, if any, in place of the one that is done. */
  function Advance(o: Out): Out {
    if o.queue == [] then o.(current := None)
    else o.(current := Some(o.queue[0]), pos := 0, queue := o.queue[1..])
  }

  /** The answer `n` to one call moves that many bytes from one side to the other. */
  function Taken(o: Out, n: nat): Out
    requires o.current.Some? && o.pos + n <= |o.current.value|
  {
    o.(pos := o.pos + n, written := o.written + o.current.value[o.pos..o.pos + n])
  }

  /** SendBuf::io_cb; the descriptor's answers are used up one by one, and it takes nothing more
      when they run out. */
  function Flush(o: Out, answers: seq<Answer>): Out
    requires o.current.Some? ==> o.pos <= |o.current.value|
    decreases 2 * |o.queue| + (if o.current.Some? then 1 else 0)
  {
    if o.current.None? then
      if o.queue == [] then o.(ready := false, watching := false) else Flush(Advance(o), answers)
    else
      var a := if answers == [] then Again else answers[0];
      var n := Count(a, |o.current.value| - o.pos);
      if n == 0 then
        if a == Again then o else o.(watching := false, failed := true)
      else
        var p := Taken(o, n);
        if p.pos < |o.current.value| then p else Flush(Advance(p), answers[1..])
  }

  // ------------------------------------------------------------- conservation

  /** What is still to be written. */
  function Pending(o: Out): Bytes
    requires o.current.Some? ==> o.pos <= |o.current.value|
  {
    (if o.current.Some? then o.current.value[o.pos..] else []) + Flatten(o.queue)
  }

  /** Between calls: nothing is held back unless the descriptor refused it, and then its writable
      event is awaited. */
  predicate Valid(o: Out) {
    && (o.current.Some? ==> o.pos <= |o.current.value|)
    && (o.ready <==> o.current.Some?)
    && (o.current.None? ==> o.queue == [])
    && (o.ready ==> o.watching || o.failed)
  }

  predicate Watchful(o: Out) {
    o.watching ==> o.ready
  }

  lemma SubmitConserves(o: Out, data: Bytes, a: Answer)
    requires Valid(o)
    ensures var p := Submit(o, data, a);
      Valid(p) && p.written + Pending(p) == o.written + Pending(o) + data
  {
    if o.ready {
      FlattenAppend(o.queue, data);
    } else {
      var n := Count(a, |data|);
      assert data[..n] + data[n..] == data;
      assert Flatten([]) == [];
    }
  }

  lemma AdvanceConserves(o: Out)
    requires o.current.Some? ==> o.pos == |o.current.value|
    ensures Pending(Advance(o)) == Pending(o)
  {
    assert o.current.Some? ==> o.current.value[o.pos..] == [];
  }

  lemma TakenConserves(o: Out, n: nat)
    requires o.current.Some? && o.pos + n <= |o.current.value|
    ensures Taken(o, n).written + Pending(Taken(o, n)) == o.written + Pending(o)
  {
    var data := o.current.value;
    assert data[o.pos..] == data[o.pos..o.pos + n] + data[o.pos + n..];
  }

  /** A drained buffer reports itself idle, having written everything; one that is not drained
      still awaits the descriptor unless it failed. */
  lemma {:induction false} FlushConserves(o: Out, answers: seq<Answer>)
    requires o.current.Some? ==> o.pos <= |o.current.value|
    requires o.watching && o.ready
    ensures var p := Flush(o, answers);
      Valid(p) && Watchful(p) && p.written + Pending(p) == o.written + Pending(o)
    decreases 2 * |o.queue| + (if o.current.Some? then 1 else 0)
  {
    hide Pending;
    if o.current.None? {
      if o.queue != [] {
        AdvanceConserves(o);
        FlushConserves(Advance(o), answers);
      } else {
        IdlePending(o);
      }
    } else {
      var a := if answers == [] then Again else answers[0];
      var n := Count(a, |o.current.value| - o.pos);
      if n > 0 {
        TakenConserves(o, n);
        if Taken(o, n).pos == |o.current.value| {
          AdvanceConserves(Taken(o, n));
          FlushConserves(Advance(Taken(o, n)), answers[1..]);
        }
      } else if a != Again {
        FlagsDoNotMatter(o);
      }
    }
  }

  lemma IdlePending(o: Out)
    requires o.current.None? && o.queue == []
    ensures Pending(o) == [] == Pending(o.(ready := false, watching := false))
  {
  }

  lemma FlagsDoNotMatter(o: Out)
    requires o.current.Some? ==> o.pos <= |o.current.value|
    ensures Pending(o.(watching := false, failed := true)) == Pending(o)
  {
  }

  datatype Event = Write(data: Bytes, answer: Answer) | Writable(answers: seq<Answer>)

  /** The writable event comes only while it is awaited. */
  function Step(o: Out, e: Event): Out
    requires Valid(o)
  {
    match e
    case Write(data, a) => Submit(o, data, a)
    case Writable(answers) => if o.watching then Flush(o, answers) else o
  }

  lemma StepKeepsValid(o: Out, e: Event)
    requires Valid(o) && Watchful(o)
    ensures Valid(Step(o, e)) && Watchful(Step(o, e))
    ensures Step(o, e).written + Pending(Step(o, e)) ==
            o.written + Pending(o) + (if e.Write? then e.data else [])
  {
    match e
    case Write(data, a) => SubmitConserves(o, data, a);
    case Writable(answers) =>
      if o.watching {
        FlushConserves(o, answers);
      }
  }

  function Run(o: Out, events: seq<Event>): (p: Out)
    requires Valid(o) && Watchful(o)
    ensures Valid(p) && Watchful(p)
    decreases events
  {
    if events == [] then o
    else
      StepKeepsValid(o, events[0]);
      Run(Step(o, events[0]), events[1..])
  }

  /** The buffers submitted. */
  function Submitted(events: seq<Event>): seq<Bytes> {
    if events == [] then []
    else (if events[0].Write? then [events[0].data] else []) + Submitted(events[1..])
  }

  lemma {:induction false} RunConserves(o: Out, events: seq<Event>)
    requires Valid(o) && Watchful(o)
    ensures var p := Run(o, events);
      p.written + Pending(p) == o.written + Pending(o) + Flatten(Submitted(events))
    decreases events
  {
    if events == [] {
      assert Flatten([]) == [];
    } else {
      var e := events[0];
      StepKeepsValid(o, e);
      RunConserves(Step(o, e), events[1..]);
      if e.Write? {
        FlattenConcat([e.data], Submitted(events[1..]));
        assert Flatten([e.data]) == e.data + Flatten([]);
      } else {
        assert [] + Submitted(events[1..]) == Submitted(events[1..]);
      }
    }
  }

  /** Whatever the descriptor answers, the bytes written followed by those held back are the bytes
      submitted; an idle buffer holds nothing back, and one that is not idle awaits the descriptor
      or has reported an error. */
  lemma NothingIsLost(events: seq<Event>)
    ensures var p := Run(Initial(), events);
      && p.written + Pending(p) == Flatten(Submitted(events))
      && (!p.ready ==> p.written == Flatten(Submitted(events)))
      && (p.ready ==> p.watching || p.failed)
  {
    RunConserves(Initial(), events);
    assert Flatten([]) == [];
  }

  // ------------------------------------------------------------- spurious errors

  /** The descriptor takes something, or asks to be tried again. */
  predicate Healthy(a: Answer) {
    a == Again || (a.Wrote? && a.count > 0)
  }

  /** Nothing goes wrong at the descriptor. */
  predicate HealthyRun(events: seq<Event>) {
    forall k | 0 <= k < |events| ::
      match events[k]
      case Write(_, a) => Healthy(a)
      case Writable(answers) => forall j | 0 <= j < |answers| :: Healthy(answers[j])
  }

  /** No buffer held back is finished, so there is always a byte to write. */
  predicate Unfinished(o: Out) {
    && (o.current.Some? ==> o.pos < |o.current.value|)
    && (forall k | 0 <= k < |o.queue| :: o.queue[k] != [])
  }

  lemma SubmitIsHealthy(o: Out, data: Bytes, a: Answer)
    requires Unfinished(o) && data != [] && Healthy(a)
    ensures Submit(o, data, a).failed == o.failed && Unfinished(Submit(o, data, a))
  {
  }

  lemma {:induction false} FlushIsHealthy(o: Out, answers: seq<Answer>)
    requires Unfinished(o) && forall j | 0 <= j < |answers| :: Healthy(answers[j])
    ensures Flush(o, answers).failed == o.failed && Unfinished(Flush(o, answers))
    decreases 2 * |o.queue| + (if o.current.Some? then 1 else 0)
  {
    if o.current.None? {
      if o.queue != [] {
        FlushIsHealthy(Advance(o), answers);
      }
    } else if answers != [] {
      var n := Count(answers[0], |o.current.value| - o.pos);
      if n > 0 && o.pos + n == |o.current.value| {
        FlushIsHealthy(Advance(Taken(o, n)), answers[1..]);
      }
    }
  }

  lemma {:induction false} RunIsHealthy(o: Out, events: seq<Event>)
    requires Valid(o) && Watchful(o) && Unfinished(o) && HealthyRun(events) && [] !in Submitted(events)
    ensures Run(o, events).failed == o.failed
    decreases events
  {
    hide Submit, Flush, Unfinished;
    if events != [] {
      var e := events[0];
      assert HealthyRun(events[1..]);
      StepKeepsValid(o, e);
      if e.Write? {
        assert e.data in Submitted(events);
        SubmitIsHealthy(o, e.data, e.answer);
      } else if o.watching {
        FlushIsHealthy(o, e.answers);
      }
      RunIsHealthy(Step(o, e), events[1..]);
    }
  }

  /** The buffers submitted while the descriptor takes nothing. */
  function Blocked(buffers: seq<Bytes>): seq<Event> {
    if buffers == [] then [] else Blocked(buffers[..|buffers| - 1]) + [Write(buffers[|buffers| - 1], Again)]
  }

  lemma {:induction false} RunConcat(o: Out, a: seq<Event>, b: seq<Event>)
    requires Valid(o) && Watchful(o)
    ensures Run(o, a + b) == Run(Run(o, a), b)
    ensures Submitted(a + b) == Submitted(a) + Submitted(b)
    decreases a
  {
    hide Step;
    if a == [] {
      assert a + b == b;
    } else {
      assert (a + b)[1..] == a[1..] + b;
      StepKeepsValid(o, a[0]);
      RunConcat(Step(o, a[0]), a[1..], b);
    }
  }

  lemma RunOne(o: Out, e: Event)
    requires Valid(o) && Watchful(o)
    ensures Run(o, [e]) == Step(o, e) && Submitted([e]) == if e.Write? then [e.data] else []
  {
    hide Step;
    assert [e][1..] == [];
    StepKeepsValid(o, e);
  }

  lemma {:induction false} BlockedRun(buffers: seq<Bytes>)
    ensures Submitted(Blocked(buffers)) == buffers && HealthyRun(Blocked(buffers))
    ensures var o := Run(Initial(), Blocked(buffers));
      && !o.failed && (buffers != [] ==> o.watching)
      && (if buffers == [] then o == Initial()
          else o.current == Some(buffers[0]) && o.pos == 0 && o.queue == buffers[1..])
    decreases buffers
  {
    if buffers != [] {
      var n := |buffers| - 1;
      var e := Write(buffers[n], Again);
      BlockedRun(buffers[..n]);
      RunConcat(Initial(), Blocked(buffers[..n]), [e]);
      RunOne(Run(Initial(), Blocked(buffers[..n])), e);
      assert buffers[..n] + [buffers[n]] == buffers;
    }
  }

  /** A descriptor that takes whatever it is given. */
  function Eager(n: nat): seq<Answer> {
    seq(n, _ => Wrote(n + 1))
  }

  predicate Bounded(o: Out, bound: nat) {
    && (o.current.Some? ==> o.pos <= |o.current.value| <= bound)
    && (forall k | 0 <= k < |o.queue| :: |o.queue[k]| <= bound)
  }

  /** On its way through the queue the loop comes to the finished or empty buffer. */
  lemma {:induction false} FlushFails(o: Out, answers: seq<Answer>, bound: nat)
    requires Bounded(o, bound) && bound > 0 && !Unfinished(o) && o.current.Some?
    requires |answers| > |o.queue| && forall j | 0 <= j < |answers| :: answers[j] == Wrote(bound)
    ensures Flush(o, answers).failed
    decreases |o.queue|
  {
    var n := Count(answers[0], |o.current.value| - o.pos);
    if n > 0 {
      var p := Taken(o, n);
      assert p.pos == |o.current.value| && o.queue != [];
      var q := Advance(p);
      assert q.current == Some(o.queue[0]) && q.pos == 0 && q.queue == o.queue[1..];
      var k :| 0 <= k < |o.queue| && o.queue[k] == [];
      assert k > 0 ==> q.queue[k - 1] == [];
      FlushFails(q, answers[1..], bound);
    }
  }

  /** Everything at once: the run that fails for a list of buffers. */
  function FailingRun(buffers: seq<Bytes>): seq<Event> {
    Blocked(buffers) + [Writable(Eager(|Flatten(buffers)| + |buffers|))]
  }

  lemma {:induction false} PieceIsShorter(buffers: seq<Bytes>, k: nat)
    requires k < |buffers|
    ensures |buffers[k]| <= |Flatten(buffers)|
    decreases k
  {
    if k > 0 {
      PieceIsShorter(buffers[1..], k - 1);
    }
  }

  /** A blocked list with an empty buffer in it is stuck there. */
  lemma BlockedIsStuck(buffers: seq<Bytes>, o: Out)
    requires [] in buffers && o.current == Some(buffers[0]) && o.pos == 0 && o.queue == buffers[1..]
    ensures Bounded(o, |Flatten(buffers)| + |buffers| + 1) && !Unfinished(o)
  {
    forall k | 0 <= k < |buffers| ensures |buffers[k]| <= |Flatten(buffers)| { PieceIsShorter(buffers, k); }
    var k :| 0 <= k < |buffers| && buffers[k] == [];
    assert k > 0 ==> o.queue[k - 1] == [];
  }

  lemma EmptyBufferFails(buffers: seq<Bytes>)
    requires [] in buffers
    ensures var events := FailingRun(buffers);
      Submitted(events) == buffers && HealthyRun(events) && Run(Initial(), events).failed
  {
    hide Run, Blocked, Eager, Flush, Submitted, Bounded, Unfinished;
    var n := |Flatten(buffers)| + |buffers|;
    var e := Writable(Eager(n));
    BlockedRun(buffers);
    var o := Run(Initial(), Blocked(buffers));
    RunConcat(Initial(), Blocked(buffers), [e]);
    RunOne(o, e);
    assert buffers + [] == buffers;
    EagerAnswers(n);
    BlockedIsStuck(buffers, o);
    FlushFails(o, Eager(n), n + 1);
  }

  lemma EagerAnswers(n: nat)
    ensures |Eager(n)| == n && forall j | 0 <= j < n :: Eager(n)[j] == Wrote(n + 1) && Healthy(Eager(n)[j])
  {
  }

  /** No error is reported that the descriptor did not answer, in any run that submits these buffers
      to a healthy descriptor, if and only if none of them is empty. */
  lemma ErrorsAreRealIff(buffers: seq<Bytes>)
    ensures (forall events | Submitted(events) == buffers && HealthyRun(events) :: !Run(Initial(), events).failed) <==>
            [] !in buffers
  {
    if [] in buffers {
      EmptyBufferFails(buffers);
    } else {
      forall events | Submitted(events) == buffers && HealthyRun(events)
        ensures !Run(Initial(), events).failed
      {
        RunIsHealthy(Initial(), events);
      }
    }
  }

  // ------------------------------------------------------------- the object

  class SendBuf {
    var ready: bool
    var sendbuf: Option<Bytes>
    var sendpos: nat
    var sendqueue: seq<Bytes>
    var watching: bool
    var failed: bool
    var written: Bytes

    function State(): Out
      reads this
    {
      Out(ready, sendbuf, sendpos, sendqueue, watching, failed, written)
    }

    constructor ()
      ensures State() == Initial()
    {
      ready, sendbuf, sendpos, sendqueue := false, None, 0, [];
      watching, failed, written := false, false, [];
    }

    /** SendBuf::write, with the descriptor's answer to the attempt it may make. */
    method Write(data: Bytes, answer: Answer)
      requires Valid(State())
      modifies this
      ensures State() == Submit(old(State()), data, answer) && Valid(State())
      ensures written + Pending(State()) == old(written + Pending(State())) + data
    {
      SubmitConserves(State(), data, answer);
      if ready {
        sendqueue := sendqueue + [data];
        return;
      }
      var len := Count(answer, |data|);
      written := written + data[..len];
      if answer.Wrote? && len == |data| {
        return;
      }
      sendbuf, sendpos := Some(data), len;
      ready, watching := true, true;
    }

    /** One call of write() on the descriptor; is the buffer done with? */
    method Attempt(a: Answer) returns (done: bool)
      requires sendbuf.Some? && sendpos <= |sendbuf.value|
      modifies `written, `sendpos, `watching, `failed
      ensures var n := Count(a, |sendbuf.value| - old(sendpos));
        if n > 0 then State() == Taken(old(State()), n) && done == (sendpos == |sendbuf.value|)
        else !done && State() == if a == Again then old(State()) else old(State()).(watching := false, failed := true)
    {
      var n := Count(a, |sendbuf.value| - sendpos);
      done := false;
      if n > 0 {
        written := written + sendbuf.value[sendpos..sendpos + n];
        sendpos := sendpos + n;
        done := sendpos == |sendbuf.value|;
      } else if a != Again {
        watching, failed := false, true;
      }
    }

    method NextBuffer()
      modifies `sendbuf, `sendpos, `sendqueue
      ensures State() == Advance(old(State()))
    {
      sendbuf := None;
      if sendqueue != [] {
        sendbuf, sendpos, sendqueue := Some(sendqueue[0]), 0, sendqueue[1..];
      }
    }

    /** SendBuf::io_cb. */
    method IoCallback(answers: seq<Answer>)
      requires Valid(State()) && ready && watching
      modifies this
      ensures State() == Flush(old(State()), answers) && Valid(State())
      ensures written + Pending(State()) == old(written + Pending(State()))
    {
      FlushConserves(State(), answers);
      hide Pending, Valid, Count, Taken;
      var rest := answers;
      while sendbuf.Some? || sendqueue != []
        invariant sendbuf.Some? ==> sendpos <= |sendbuf.value|
        invariant Flush(State(), rest) == Flush(old(State()), answers)
        decreases 2 * |sendqueue| + (if sendbuf.Some? then 1 else 0)
      {
        if sendbuf.Some? {
          var done := Attempt(if rest == [] then Again else rest[0]);
          if !done {
            return;
          }
          rest := rest[1..];
        }
        NextBuffer();
      }
      ready, watching := false, false;
    }
  }
}
