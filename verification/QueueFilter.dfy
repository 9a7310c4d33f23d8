/** The queue filter of a link: it takes every packet at once, so that a slow link does not hold
    up the router, and feeds them to its driver one at a time. */
module QueueFilter {
  import opened KnxTypes

  datatype Phase = QDown | QIdle | QBusy | QSending

  /** `inside` is set while trigger_cb runs. Since the last start: `accepted` are the packets taken
      from above, `passed` those given to the driver, `outstanding` says that the driver has not
      asked for more since it got the last one, and `told` counts the requests for more made to
      the layer above. */
  datatype Filter = Filter(
    phase: Phase,
    buf: seq<LData>,
    trigger: bool,
    inside: bool,
    accepted: seq<LData>,
    passed: seq<LData>,
    outstanding: bool,
    told: nat)

  function Initial(): Filter {
    Filter(QDown, [], false, false, [], [], false, 0)
  }

  /** The driver started, stopped or asked for more; a packet came from above; trigger_cb began,
      passed a packet down, ended. */
  datatype Event = Started | Stopped | Next | Send(packet: LData) | Wake | Pass | Done

  predicate IsCallback(e: Event) {
    e.Started? || e.Stopped? || e.Next?
  }

  predicate Enabled(f: Filter, e: Event) {
    match e
    case Wake => !f.inside && f.trigger
    case Pass => f.inside && f.buf != [] && f.phase == QIdle
    case Done => f.inside && !(f.buf != [] && f.phase == QIdle)
    case _ => true
  }

  function Step(f: Filter, e: Event): Filter
    requires Enabled(f, e)
  {
    match e
    case Started => if f.phase == QDown then f.(phase := QIdle) else f
    case Stopped => f.(buf := [], phase := QDown, accepted := [], passed := [], outstanding := false, told := 0)
    case Next =>
      var g := f.(outstanding := false);
      if f.phase == QBusy then g.(trigger := true, phase := QIdle)
      else if f.phase == QSending then g.(phase := QIdle)
      else g
    case Send(l) =>
      if f.phase == QDown then f
      else
        f.(trigger := f.trigger || f.phase == QIdle, buf := f.buf + [l], accepted := f.accepted + [l],
           told := f.told + 1)
    case Wake => f.(trigger := false, inside := true)
    case Pass =>
      f.(phase := QSending, buf := f.buf[1..], passed := f.passed + [f.buf[0]], outstanding := true)
    case Done => f.(inside := false, phase := if f.phase == QSending then QBusy else f.phase)
  }

  function Run(f: Filter, events: seq<Event>): Filter
    decreases events
  {
    if events == [] then f
    else Run(if Enabled(f, events[0]) then Step(f, events[0]) else f, events[1..])
  }

  // ------------------------------------------------------------- safety

  predicate Inv(f: Filter) {
    && f.accepted == f.passed + f.buf
    && f.told == |f.accepted|
    && (f.outstanding <==> f.phase == QBusy || f.phase == QSending)
    && (f.phase == QDown ==> f.buf == [] && f.passed == [])
    && (!f.inside ==> f.phase != QSending)
    && (!f.inside && f.phase == QIdle && f.buf != [] ==> f.trigger)
  }

  /** A packet goes down only when the driver has none outstanding, and first come, first served. */
  lemma StepKeepsInv(f: Filter, e: Event)
    requires Inv(f) && Enabled(f, e)
    ensures Inv(Step(f, e))
    ensures e == Pass ==> !f.outstanding
  {
  }

  lemma {:induction false} RunKeepsInv(f: Filter, events: seq<Event>)
    requires Inv(f)
    ensures Inv(Run(f, events))
    decreases events
  {
    hide Inv;
    if events != [] {
      if Enabled(f, events[0]) {
        StepKeepsInv(f, events[0]);
        RunKeepsInv(Step(f, events[0]), events[1..]);
      } else {
        RunKeepsInv(f, events[1..]);
      }
    }
  }

  /** In every run: the packets accepted since the last start are those passed down followed by
      those queued, in order; each was confirmed upwards once; a packet is passed down only to a
      driver that has none outstanding; and outside trigger_cb an idle filter with a packet queued
      has its wake-up pending, while a filter that is neither idle nor down awaits the driver. */
  lemma QueueIsFaithful(events: seq<Event>)
    ensures var f := Run(Initial(), events);
      && f.accepted == f.passed + f.buf
      && f.told == |f.accepted|
      && (Enabled(f, Pass) ==> !f.outstanding)
      && (!f.inside && f.buf != [] ==> if f.phase == QIdle then f.trigger else f.outstanding)
  {
    RunKeepsInv(Initial(), events);
  }

  // ------------------------------------------------------------- what is accepted

  /** The driver has started since it last stopped. */
  predicate IsUp(events: seq<Event>) {
    events != [] &&
    var e, before := events[|events| - 1], events[..|events| - 1];
    !e.Stopped? && (e.Started? || IsUp(before))
  }

  /** The packets sent while it was, since it last started. */
  function SentWhileUp(events: seq<Event>): seq<LData> {
    if events == [] then []
    else
      var e, before := events[|events| - 1], events[..|events| - 1];
      if e.Stopped? then []
      else if e.Send? && IsUp(before) then SentWhileUp(before) + [e.packet]
      else SentWhileUp(before)
  }

  /** Every packet sent between a start and the next stop is accepted, and no other. */
  lemma {:induction false} AllAreAccepted(events: seq<Event>)
    ensures var f := Run(Initial(), events);
      f.accepted == SentWhileUp(events) && (f.phase != QDown <==> IsUp(events))
    decreases |events|
  {
    if events != [] {
      var e, before := events[|events| - 1], events[..|events| - 1];
      AllAreAccepted(before);
      RunKeepsInv(Initial(), before);
      assert events == before + [e];
      RunConcat(Initial(), before, [e]);
      assert [e][1..] == [];
      hide Run, SentWhileUp, IsUp;
      var f := Run(Initial(), before);
      assert Run(f, [e]) == if Enabled(f, e) then Step(f, e) else f by { OneEvent(f, e); }
      LastEvent(before, e);
    }
  }

  lemma OneEvent(f: Filter, e: Event)
    ensures Run(f, [e]) == if Enabled(f, e) then Step(f, e) else f
  {
    assert [e][1..] == [];
  }

  lemma LastEvent(before: seq<Event>, e: Event)
    ensures IsUp(before + [e]) <==> !e.Stopped? && (e.Started? || IsUp(before))
    ensures SentWhileUp(before + [e]) ==
      if e.Stopped? then [] else if e.Send? && IsUp(before) then SentWhileUp(before) + [e.packet] else SentWhileUp(before)
  {
    assert (before + [e])[..|before|] == before;
  }

  // ------------------------------------------------------------- progress

  /** The driver asks for more after each packet. */
  function PassAll(n: nat): seq<Event> {
    if n == 0 then [] else PassAll(n - 1) + [Pass] + [Next]
  }

  function SendAll(packets: seq<LData>): seq<Event> {
    if packets == [] then [] else SendAll(packets[..|packets| - 1]) + [Send(packets[|packets| - 1])]
  }

  /** Packets come, the filter wakes up and passes them down. */
  function Burst(packets: seq<LData>): seq<Event> {
    SendAll(packets) + [Wake] + PassAll(|packets|) + [Done]
  }

  /** Nothing queued, and `packets` passed since the start. */
  predicate Drained(f: Filter, packets: seq<LData>) {
    f == Filter(QIdle, [], f.trigger, false, packets, packets, false, |packets|)
  }

  lemma OneMore(f: Filter, a: seq<Event>, e: Event)
    requires Enabled(Run(f, a), e)
    ensures Run(f, a + [e]) == Step(Run(f, a), e)
  {
    RunConcat(f, a, [e]);
    OneEvent(Run(f, a), e);
  }

  lemma {:induction false} SendAllRuns(f: Filter, was: seq<LData>, packets: seq<LData>)
    requires Drained(f, was)
    ensures var g := Run(f, SendAll(packets));
      g == f.(buf := packets, accepted := was + packets, told := |was + packets|, trigger := g.trigger)
      && (packets != [] ==> g.trigger)
    decreases |packets|
  {
    hide Run;
    if packets == [] {
      NoEvents(f);
      assert was + packets == was;
    } else {
      var front, x := packets[..|packets| - 1], packets[|packets| - 1];
      SendAllRuns(f, was, front);
      OneMore(f, SendAll(front), Send(x));
      assert front + [x] == packets && was + packets == (was + front) + [x];
    }
  }

  lemma NoEvents(f: Filter)
    ensures Run(f, []) == f
  {
  }

  lemma {:induction false} PassAllRuns(f: Filter, n: nat)
    requires f.inside && f.phase == QIdle && !f.outstanding && n <= |f.buf|
    ensures Run(f, PassAll(n)) == f.(buf := f.buf[n..], passed := f.passed + f.buf[..n])
    decreases n
  {
    hide Run;
    if n == 0 {
      NoEvents(f);
      assert f.buf[0..] == f.buf && f.passed + f.buf[..0] == f.passed;
    } else {
      PassAllRuns(f, n - 1);
      OneMore(f, PassAll(n - 1), Pass);
      OneMore(f, PassAll(n - 1) + [Pass], Next);
      var x := f.buf[n - 1];
      assert f.buf[n - 1..][0] == x && f.buf[n - 1..][1..] == f.buf[n..];
      assert (f.passed + f.buf[..n - 1]) + [x] == f.passed + f.buf[..n];
    }
  }

  lemma BurstRuns(f: Filter, was: seq<LData>, packets: seq<LData>)
    requires Drained(f, was) && packets != []
    ensures Drained(Run(f, Burst(packets)), was + packets)
  {
    hide Run, SendAll, PassAll;
    SendAllRuns(f, was, packets);
    var g := Run(f, SendAll(packets));
    OneMore(f, SendAll(packets), Wake);
    var h := g.(trigger := false, inside := true);
    PassAllRuns(h, |packets|);
    RunConcat(f, SendAll(packets) + [Wake], PassAll(|packets|));
    assert packets[..|packets|] == packets && packets[|packets|..] == [];
    OneMore(f, SendAll(packets) + [Wake] + PassAll(|packets|), Done);
  }

  function Bursts(groups: seq<seq<LData>>): seq<Event> {
    if groups == [] then [Started] else Bursts(groups[..|groups| - 1]) + Burst(groups[|groups| - 1])
  }

  function Joined(groups: seq<seq<LData>>): seq<LData> {
    if groups == [] then [] else Joined(groups[..|groups| - 1]) + groups[|groups| - 1]
  }

  /** With a driver that keeps asking, everything gets through: however the packets come in groups, after
      each group all of them were passed down, in order, and the filter is idle with nothing queued. */
  lemma {:induction false} EverythingGetsThrough(groups: seq<seq<LData>>)
    requires [] !in groups
    ensures var f := Run(Initial(), Bursts(groups));
      && f.passed == f.accepted == Joined(groups) && f.told == |Joined(groups)|
      && f.buf == [] && f.phase == QIdle && !f.inside && !f.outstanding
    decreases |groups|
  {
    hide Run, Burst;
    if groups == [] {
      OneEvent(Initial(), Started);
    } else {
      var front, last := groups[..|groups| - 1], groups[|groups| - 1];
      EverythingGetsThrough(front);
      BurstRuns(Run(Initial(), Bursts(front)), Joined(front), last);
      RunConcat(Initial(), Bursts(front), Burst(last));
    }
  }

  // ------------------------------------------------------------- the object

  lemma {:induction false} RunConcat(f: Filter, a: seq<Event>, b: seq<Event>)
    ensures Run(f, a + b) == Run(Run(f, a), b)
    decreases a
  {
    hide Enabled, Step;
    if a == [] {
      assert a + b == b;
    } else {
      assert (a + b)[1..] == a[1..] + b;
      RunConcat(if Enabled(f, a[0]) then Step(f, a[0]) else f, a[1..], b);
    }
  }

  lemma RunThen(f: Filter, a: seq<Event>, e: Event)
    requires Enabled(Run(f, a), e)
    ensures Run(f, a + [e]) == Step(Run(f, a), e)
  {
    RunConcat(f, a, [e]);
    assert [e][1..] == [];
  }

  /** The filter with the driver below. The driver answers the n-th packet it gets, before the call
      returns, with the n-th list of callbacks in `script`, and silently after the last. */
  class Queue {
    var phase: Phase
    var buf: seq<LData>
    var trigger: bool
    var script: seq<seq<Event>>
    var passed: seq<LData>
    var told: nat
    ghost var inside: bool
    ghost var accepted: seq<LData>
    ghost var outstanding: bool

    ghost function State(): Filter
      reads this
    {
      Filter(phase, buf, trigger, inside, accepted, passed, outstanding, told)
    }

    constructor (answers: seq<seq<Event>>)
      ensures State() == Initial() && script == answers
    {
      phase, buf, trigger, script, passed, told := QDown, [], false, answers, [], 0;
      inside, accepted, outstanding := false, [], false;
    }

    method OnStarted()
      modifies this
      ensures State() == Step(old(State()), Started) && script == old(script)
    {
      if phase == QDown {
        phase := QIdle;
      }
    }

    method OnStopped()
      modifies this
      ensures State() == Step(old(State()), Stopped) && script == old(script)
    {
      buf, phase := [], QDown;
      passed, told, accepted, outstanding := [], 0, [], false;
    }

    method SendNext()
      modifies this
      ensures State() == Step(old(State()), Next) && script == old(script)
    {
      outstanding := false;
      match phase {
        case QDown =>
        case QIdle =>
        case QBusy =>
          trigger := true;
          phase := QIdle;
        case QSending => phase := QIdle;
      }
    }

    method SendLData(l: LData)
      modifies this
      ensures State() == Step(old(State()), Send(l)) && script == old(script)
    {
      if phase == QIdle {
        trigger := true;
      }
      if phase != QDown {
        buf := buf + [l];
        accepted := accepted + [l];
        told := told + 1;
      }
    }

    /** The driver's answer to the packet just passed down. */
    method React() returns (ghost done: seq<Event>)
      modifies this
      ensures State() == Run(old(State()), done)
      ensures inside == old(inside) && |buf| <= |old(buf)|
    {
      done := [];
      if script == [] {
        return;
      }
      var answer := script[0];
      script := script[1..];
      for k := 0 to |answer|
        invariant State() == Run(old(State()), done)
        invariant inside == old(inside) && |buf| <= |old(buf)|
      {
        if IsCallback(answer[k]) {
          RunThen(old(State()), done, answer[k]);
          done := done + [answer[k]];
          match answer[k] {
            case Started => OnStarted();
            case Stopped => OnStopped();
            case Next => SendNext();
          }
        }
      }
    }

    /** One turn of the loop. */
    method PassOne() returns (ghost done: seq<Event>)
      requires Enabled(State(), Pass)
      modifies this
      ensures State() == Run(old(State()), done)
      ensures inside && |buf| < |old(buf)|
    {
      RunThen(old(State()), [], Pass);
      assert [] + [Pass] == [Pass];
      phase := QSending;
      var l := buf[0];
      buf := buf[1..];
      passed, outstanding := passed + [l], true;
      ghost var more := React();
      RunConcat(old(State()), [Pass], more);
      done := [Pass] + more;
    }

    /** trigger_cb: it leaves the filter idle with nothing queued, or waiting for the driver, or down. */
    method TriggerCallback() returns (ghost done: seq<Event>)
      requires Inv(State()) && Enabled(State(), Wake)
      modifies this
      ensures State() == Run(old(State()), done) && Inv(State())
      ensures !inside && (phase == QIdle ==> buf == [])
    {
      hide Inv, Run;
      ghost var start := State();
      WakeRun(start);
      done := [Wake];
      trigger, inside := false, true;
      while buf != [] && phase == QIdle
        invariant State() == Run(start, done) && inside
        decreases |buf|
      {
        ghost var more := PassOne();
        RunConcat(start, done, more);
        done := done + more;
      }
      RunThen(start, done, Done);
      done := done + [Done];
      inside := false;
      if phase == QSending {
        phase := QBusy;
      }
      RunKeepsInv(start, done);
    }
  }

  lemma WakeRun(f: Filter)
    requires Enabled(f, Wake)
    ensures Run(f, [Wake]) == f.(trigger := false, inside := true)
  {
    RunThen(f, [], Wake);
    assert [] + [Wake] == [Wake];
  }
}
