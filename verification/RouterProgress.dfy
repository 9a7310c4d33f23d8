/** What the router's flow control delivers when every driver answers: each queued frame that is to be
    forwarded is handed once to each link that wants it (src/libserver/router.cpp). */
module RouterProgress {
  import opened KnxTypes
  import opened RouterFlow
  import L = LinkLife

  /** A frame by what becomes of it: dropped, or forwarded to the links that want it. */
  datatype Frame = Frame(forward: bool, wanted: set<nat>)

  /** How many of the frames a link is to get. */
  function Due(frames: seq<Frame>, i: nat): nat {
    if frames == [] then 0
    else
      var f := frames[|frames| - 1];
      Due(frames[..|frames| - 1], i) + if f.forward && i in f.wanted then 1 else 0
  }

  /** How many frames its driver was handed. */
  function Got(log: seq<L.Mark>): nat {
    if log == [] then 0 else Got(log[..|log| - 1]) + if log[|log| - 1] == L.Handed then 1 else 0
  }

  lemma DueMore(frames: seq<Frame>, f: Frame, i: nat)
    ensures Due(frames + [f], i) == Due(frames, i) + if f.forward && i in f.wanted then 1 else 0
  {
    assert (frames + [f])[..|frames|] == frames;
  }

  lemma GotMore(log: seq<L.Mark>, m: L.Mark)
    ensures Got(log + [m]) == Got(log) + if m == L.Handed then 1 else 0
  {
    assert (log + [m])[..|log|] == log;
  }

  predicate Distinct(ids: seq<nat>) {
    forall j, k | 0 <= j < k < |ids| :: ids[j] != ids[k]
  }

  function Members(ids: seq<nat>): set<nat> {
    set i | i in ids
  }

  /** A link that is up, ready for a frame, and was handed `n` so far. */
  predicate Served(l: L.Link, n: nat) {
    l.phase == L.Up && l.sendMore && Got(l.log) == n
  }

  /** The router idles: it runs, nothing is queued, and its links have got what was due to them. */
  ghost predicate Steady(s: Flow, ids: seq<nat>, frames: seq<Frame>) {
    && s.mode == Idle && s.low && s.high && s.signal && !s.fault && s.queued == 0
    && s.links.Keys == Members(ids)
    && (forall i | i in ids :: Served(s.links[i], Due(frames, i)))
  }

  lemma RunOne(s: Flow, e: Event)
    requires Enabled(s, e)
    ensures Run(s, [e]) == Step(s, e)
  {
    hide Step;
    assert [e][1..] == [];
  }

  /** Two events one after the other. */
  lemma RunBoth(s: Flow, a: seq<Event>, t: Flow, b: seq<Event>)
    requires Run(s, a) == Some(t)
    ensures Run(s, a + b) == Run(t, b)
  {
    RunConcat(s, a, b);
  }

  // ------------------------------------------------------------- the links come up

  /** A link is registered, asked to go up, and its driver starts. */
  function ComesUp(i: nat, retryDelay: int, maxRetries: int): seq<Event> {
    [Register(i, retryDelay, maxRetries)] + [OnLink(i, L.AskUp)] + [OnLink(i, L.Started)]
  }

  function AllComeUp(ids: seq<nat>, retryDelay: int, maxRetries: int): seq<Event> {
    if ids == [] then [Opened(true)]
    else AllComeUp(ids[..|ids| - 1], retryDelay, maxRetries) + ComesUp(ids[|ids| - 1], retryDelay, maxRetries)
  }

  /** A link that was asked to go up and whose driver has started. */
  lemma StartedLink(d: int, m: int)
    ensures var l0 := L.Initial(d, m);
      && L.Apply(l0, L.AskUp).Some?
      && var l1 := L.Apply(l0, L.AskUp).value.0;
         && L.Apply(l1, L.Started).Some? && Served(L.Apply(l1, L.Started).value.0, 0)
  {
    var none: seq<L.Mark> := [];
    GotMore(none, L.StartCalled);
    GotMore(none + [L.StartCalled], L.StartReported);
    hide Got;
    assert Got(none) == 0 by { NothingGot(); }
  }

  lemma NothingGot()
    ensures Got([]) == 0
  {
  }

  lemma ComesUpRuns(s: Flow, ids: seq<nat>, i: nat, d: int, m: int)
    requires Steady(s, ids, []) && i !in ids
    ensures var r := Run(s, ComesUp(i, d, m)); r.Some? && Steady(r.value, ids + [i], [])
  {
    StartedLink(d, m);
    hide L.Apply, L.Initial, Run, Got;
    var l0 := L.Initial(d, m);
    var s1 := s.(links := s.links[i := l0]);
    RunOne(s, Register(i, d, m));
    var l1 := L.Apply(l0, L.AskUp).value.0;
    var s2 := s.(links := s.links[i := l1]);
    assert s1.links[i := l1] == s2.links;
    RunOne(s1, OnLink(i, L.AskUp));
    RunBoth(s, [Register(i, d, m)], s1, [OnLink(i, L.AskUp)]);
    var l2 := L.Apply(l1, L.Started).value.0;
    var s3 := s.(links := s.links[i := l2]);
    assert s2.links[i := l2] == s3.links;
    RunOne(s2, OnLink(i, L.Started));
    RunBoth(s, [Register(i, d, m)] + [OnLink(i, L.AskUp)], s2, [OnLink(i, L.Started)]);
    NothingDue(i);
  }

  lemma NothingDue(i: nat)
    ensures Due([], i) == 0
  {
  }

  lemma {:induction false} AllComeUpRuns(ids: seq<nat>, d: int, m: int)
    requires Distinct(ids)
    ensures var r := Run(Initial(), AllComeUp(ids, d, m)); r.Some? && Steady(r.value, ids, [])
    decreases |ids|
  {
    hide Run, ComesUp;
    if ids == [] {
      RunOne(Initial(), Opened(true));
    } else {
      hide Steady;
      var front, i := ids[..|ids| - 1], ids[|ids| - 1];
      AllComeUpRuns(front, d, m);
      var t := Run(Initial(), AllComeUp(front, d, m)).value;
      ComesUpRuns(t, front, i, d, m);
      RunBoth(Initial(), AllComeUp(front, d, m), t, ComesUp(i, d, m));
      assert front + [i] == ids;
    }
  }

  // ------------------------------------------------------------- one frame

  /** The loop of send_L_Data, each driver that is handed the frame asking for more at once. */
  function VisitAll(ids: seq<nat>, wanted: set<nat>): seq<Event> {
    if ids == [] then []
    else VisitAll(ids[..|ids| - 1], wanted) + VisitNext(ids[|ids| - 1], ids[|ids| - 1] in wanted)
  }

  function VisitNext(i: nat, wants: bool): seq<Event> {
    if wants then [Visit(i, true)] + [OnLink(i, L.Next)] else [Visit(i, false)]
  }

  /** A frame is queued, the router wakes up, drops it or hands it on, and idles again. */
  function Round(ids: seq<nat>, f: Frame): seq<Event> {
    [Queue(true)] + [Wake] + [Take(f.forward)] + (if f.forward then VisitAll(ids, f.wanted) + [End] else []) + [Done]
  }

  function Rounds(ids: seq<nat>, frames: seq<Frame>): seq<Event> {
    if frames == [] then [] else Rounds(ids, frames[..|frames| - 1]) + Round(ids, frames[|frames| - 1])
  }

  /** Inside the loop, the first `k` links visited. */
  ghost predicate Visiting(s: Flow, ids: seq<nat>, frames: seq<Frame>, f: Frame, k: nat) {
    && k <= |ids|
    && s.mode == Sending(Members(ids[k..])) && !s.low && !s.high && s.signal && !s.fault && s.queued == 0
    && s.links.Keys == Members(ids)
    && (forall i | i in ids[..k] :: Served(s.links[i], Due(frames + [f], i)))
    && (forall i | i in ids[k..] :: Served(s.links[i], Due(frames, i)))
  }

  /** A link is handed a frame and asks for more. */
  lemma HandedOne(l: L.Link, n: nat)
    requires Served(l, n)
    ensures L.Apply(l, L.Send).Some?
    ensures var m := L.Apply(l, L.Send).value.0;
      && m.phase == L.Up && !m.sendMore
      && L.Apply(m, L.Next).Some? && Served(L.Apply(m, L.Next).value.0, n + 1)
  {
    GotMore(l.log, L.Handed);
    GotMore(l.log + [L.Handed], L.MoreAsked);
    hide Got;
  }

  lemma OneLess(ids: seq<nat>, k: nat)
    requires Distinct(ids) && k < |ids|
    ensures Members(ids[k..]) - {ids[k]} == Members(ids[k + 1..])
    ensures ids[k] !in ids[..k] && ids[k] !in ids[k + 1..]
    ensures forall i | i in ids[..k + 1] :: i in ids[..k] || i == ids[k]
  {
    assert ids[k..] == [ids[k]] + ids[k + 1..];
    assert ids[..k + 1] == ids[..k] + [ids[k]];
  }

  lemma VisitNextRuns(s: Flow, ids: seq<nat>, frames: seq<Frame>, f: Frame, k: nat)
    requires Distinct(ids) && f.forward && k < |ids| && Visiting(s, ids, frames, f, k)
    ensures var r := Run(s, VisitNext(ids[k], ids[k] in f.wanted)); r.Some? && Visiting(r.value, ids, frames, f, k + 1)
  {
    hide L.Apply, Run, Got, Due, AllReady;
    var i := ids[k];
    var l := s.links[i];
    assert i in ids[k..] by { assert ids[k..][0] == i; }
    OneLess(ids, k);
    HandedOne(l, Due(frames, i));
    forall j | j in ids ensures Due(frames + [f], j) == Due(frames, j) + if j in f.wanted then 1 else 0 {
      DueMore(frames, f, j);
    }
    var rest := s.(mode := Sending(s.mode.todo - {i}));
    if i in f.wanted {
      var m := L.Apply(l, L.Send).value.0;
      var s1 := rest.(links := s.links[i := m]);
      RunOne(s, Visit(i, true));
      assert Step(s, Visit(i, true)) == Some(s1);
      var n := L.Apply(m, L.Next).value.0;
      var s2 := rest.(links := s.links[i := n]);
      assert s1.links[i := n] == s2.links;
      RunOne(s1, OnLink(i, L.Next));
      assert Step(s1, OnLink(i, L.Next)) == Some(s2);
      RunBoth(s, [Visit(i, true)], s1, [OnLink(i, L.Next)]);
    } else {
      RunOne(s, Visit(i, false));
      assert Step(s, Visit(i, false)) == Some(rest);
    }
  }

  lemma {:induction false} VisitAllRuns(s: Flow, ids: seq<nat>, frames: seq<Frame>, f: Frame, k: nat)
    requires Distinct(ids) && f.forward && k <= |ids| && Visiting(s, ids, frames, f, 0)
    ensures var r := Run(s, VisitAll(ids[..k], f.wanted)); r.Some? && Visiting(r.value, ids, frames, f, k)
    decreases k
  {
    hide Run, VisitNext, Visiting;
    if k == 0 {
      NoEvents(s);
      assert ids[..0] == [];
    } else {
      VisitAllRuns(s, ids, frames, f, k - 1);
      var t := Run(s, VisitAll(ids[..k - 1], f.wanted)).value;
      VisitNextRuns(t, ids, frames, f, k - 1);
      assert ids[..k][..k - 1] == ids[..k - 1];
      RunBoth(s, VisitAll(ids[..k - 1], f.wanted), t, VisitNext(ids[k - 1], ids[k - 1] in f.wanted));
    }
  }

  lemma NoEvents(s: Flow)
    ensures Run(s, []) == Some(s)
  {
  }

  /** The frame is taken from the queue. */
  lemma TakeRuns(s: Flow, forward: bool)
    requires s.mode == Idle && s.low && s.high && s.signal && !s.fault && s.queued == 0
    ensures Run(s, [Queue(true)] + [Wake] + [Take(forward)]) ==
      Some(if forward then s.(low := false, high := false, trigger := false, mode := Sending(s.links.Keys))
           else s.(trigger := false, mode := Draining))
  {
    hide Run;
    var s1 := s.(queued := 1, trigger := true);
    RunOne(s, Queue(true));
    var s2 := s1.(mode := Draining, trigger := false);
    RunOne(s1, Wake);
    RunBoth(s, [Queue(true)], s1, [Wake]);
    RunOne(s2, Take(forward));
    RunBoth(s, [Queue(true)] + [Wake], s2, [Take(forward)]);
  }

  lemma DropRuns(s: Flow, ids: seq<nat>, frames: seq<Frame>, f: Frame)
    requires Steady(s, ids, frames) && !f.forward
    ensures var r := Run(s, Round(ids, f)); r.Some? && Steady(r.value, ids, frames + [f])
  {
    hide Run, Got, Due;
    TakeRuns(s, false);
    var head := [Queue(true)] + [Wake] + [Take(false)];
    var t := s.(trigger := false, mode := Draining);
    RunOne(t, Done);
    RunBoth(s, head, t, [Done]);
    assert head + [] + [Done] == head + [Done];
    forall i | i in ids ensures Due(frames + [f], i) == Due(frames, i) { DueMore(frames, f, i); }
  }

  lemma AllServedIsReady(s: Flow, ids: seq<nat>)
    requires s.links.Keys == Members(ids) && forall i | i in ids :: s.links[i].sendMore
    ensures AllReady(s.links)
  {
  }

  /** After the last link the router is ready again. */
  lemma EndRuns(s: Flow, ids: seq<nat>, frames: seq<Frame>, f: Frame)
    requires Visiting(s, ids, frames, f, |ids|)
    ensures var r := Run(s, [End] + [Done]); r.Some? && Steady(r.value, ids, frames + [f])
  {
    hide Run, Got, Due, AllReady;
    assert ids[..|ids|] == ids && ids[|ids|..] == [];
    AllServedIsReady(s, ids);
    var t := s.(mode := Draining, high := true, low := true, trigger := true);
    RunOne(s, End);
    assert Step(s, End) == Some(t);
    RunOne(t, Done);
    RunBoth(s, [End], t, [Done]);
  }

  lemma ForwardRuns(s: Flow, ids: seq<nat>, frames: seq<Frame>, f: Frame)
    requires Distinct(ids) && Steady(s, ids, frames) && f.forward
    ensures var r := Run(s, Round(ids, f)); r.Some? && Steady(r.value, ids, frames + [f])
  {
    TakeRuns(s, true);
    var head := [Queue(true)] + [Wake] + [Take(true)];
    var t := s.(low := false, high := false, trigger := false, mode := Sending(s.links.Keys));
    assert Visiting(t, ids, frames, f, 0) by {
      assert ids[0..] == ids && ids[..0] == [];
      hide Served, Due, Run;
    }
    hide Run, Visiting, Steady, VisitAll;
    VisitAllRuns(t, ids, frames, f, |ids|);
    assert ids[..|ids|] == ids;
    var visits := VisitAll(ids, f.wanted);
    var u := Run(t, visits).value;
    EndRuns(u, ids, frames, f);
    RunBoth(s, head, t, visits);
    RunBoth(s, head + visits, u, [End] + [Done]);
    assert head + (visits + [End]) + [Done] == (head + visits) + ([End] + [Done]);
  }

  lemma {:induction false} RoundsRun(s: Flow, ids: seq<nat>, frames: seq<Frame>)
    requires Distinct(ids) && Steady(s, ids, [])
    ensures var r := Run(s, Rounds(ids, frames)); r.Some? && Steady(r.value, ids, frames)
    decreases |frames|
  {
    hide Run, Round, Steady;
    if frames == [] {
      NoEvents(s);
    } else {
      var front, f := frames[..|frames| - 1], frames[|frames| - 1];
      RoundsRun(s, ids, front);
      var t := Run(s, Rounds(ids, front)).value;
      if f.forward {
        ForwardRuns(t, ids, front, f);
      } else {
        DropRuns(t, ids, front, f);
      }
      RunBoth(s, Rounds(ids, front), t, Round(ids, f));
      assert front + [f] == frames;
    }
  }

  /** From the moment the program starts, for any links and any frames, with drivers that start and
      ask for more: every link comes up, every frame is taken from the queue, and each link was
      handed exactly the forwarded frames it wants, each once; the router is ready for more. */
  lemma EveryFrameIsHandedOn(ids: seq<nat>, retryDelay: int, maxRetries: int, frames: seq<Frame>)
    requires Distinct(ids)
    ensures var r := Run(Initial(), AllComeUp(ids, retryDelay, maxRetries) + Rounds(ids, frames));
      && r.Some?
      && var s := r.value;
         && s.mode == Idle && s.low && s.high && s.queued == 0 && !s.fault
         && s.links.Keys == Members(ids)
         && forall i | i in ids :: s.links[i].phase == L.Up && Got(s.links[i].log) == Due(frames, i)
  {
    hide Run, Got, Due, AllComeUp, Rounds;
    AllComeUpRuns(ids, retryDelay, maxRetries);
    var t := Run(Initial(), AllComeUp(ids, retryDelay, maxRetries)).value;
    RoundsRun(t, ids, frames);
    RunBoth(Initial(), AllComeUp(ids, retryDelay, maxRetries), t, Rounds(ids, frames));
  }

  // ------------------------------------------------------------- what a fault is

  /** What the assertion and the check in send_L_Data are there to catch. */
  predicate Violates(s: Flow, e: Event) {
    || (e.Take? && e.forward && !s.high)
    || (e.Visit? && e.id in s.links && s.links[e.id].phase == L.Up && !s.links[e.id].sendMore)
  }

  /** Some event of the run is one. */
  ghost predicate SomeViolates(s: Flow, events: seq<Event>)
    decreases events
  {
    events != [] &&
    if !Enabled(s, events[0]) then SomeViolates(s, events[1..])
    else
      Violates(s, events[0]) ||
      match Step(s, events[0])
      case None => false
      case Some(next) => SomeViolates(next, events[1..])
  }

  lemma StepFault(s: Flow, e: Event)
    requires Enabled(s, e) && Step(s, e).Some?
    ensures Step(s, e).value.fault <==> s.fault || Violates(s, e)
  {
    hide L.Apply, AllReady;
  }

  /** A fault is recorded if and only if a frame was forwarded while the router was not ready, or a
      link was visited with a frame outstanding, from whatever state. */
  lemma {:induction false} FaultIsViolation(s: Flow, events: seq<Event>)
    requires Run(s, events).Some?
    ensures Run(s, events).value.fault <==> s.fault || SomeViolates(s, events)
    decreases events
  {
    hide Enabled, Step, Violates;
    if events != [] {
      if !Enabled(s, events[0]) {
        FaultIsViolation(s, events[1..]);
      } else {
        StepFault(s, events[0]);
        FaultIsViolation(Step(s, events[0]).value, events[1..]);
      }
    }
  }
}
