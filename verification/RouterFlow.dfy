/** The router's flow control: one frame at a time is handed to the links, and the next one only
    when every link that is up has asked for more. A driver may answer from inside the call that
    hands it a frame. */
module RouterFlow {
  import opened KnxTypes
  import L = LinkLife

  /** Waiting in the event loop; inside trigger_cb; inside send_L_Data with links yet to visit. */
  datatype Mode = Idle | Draining | Sending(todo: set<nat>)

  /** `fault` records that the assertion in send_L_Data failed or that a link was found not ready. */
  datatype Flow = Flow(
    links: map<nat, L.Link>,
    low: bool,
    high: bool,
    signal: bool,
    trigger: bool,
    queued: nat,
    mode: Mode,
    fault: bool)

  predicate Waiting(l: L.Link) {
    l.phase == L.Up && !l.sendMore
  }

  predicate AllReady(links: map<nat, L.Link>) {
    forall i | i in links :: !Waiting(links[i])
  }

  /** Router::send_Next, and through the unfiltered stack RouterLow::send_Next. */
  function SendNext(s: Flow): Flow {
    if s.mode.Sending? || s.high || !AllReady(s.links) then s
    else s.(high := true, low := true, trigger := true)
  }

  /** Router::started; the router signals that it runs once all links do. */
  function Open(s: Flow, allRunning: bool): Flow {
    s.(low := true, high := true, trigger := true, signal := s.signal || allRunning)
  }

  /** The router is started; a link comes, goes, or takes a step of its own; a frame arrives, while
      the router is running or not;
      trigger_cb begins, takes a frame to drop or to forward, and ends; send_L_Data visits a link
      that wants the frame or not, and ends. */
  datatype Event =
    | Opened(allRunning: bool)
    | Register(id: nat, retryDelay: int, maxRetries: int)
    | Unregister(id: nat)
    | OnLink(id: nat, event: L.Event)
    | Queue(running: bool)
    | Wake
    | Take(forward: bool)
    | Visit(id: nat, wanted: bool)
    | End
    | Done

  predicate Enabled(s: Flow, e: Event) {
    match e
    case Opened(_) => s.mode == Idle && AllReady(s.links)
    case Register(i, _, _) => s.mode == Idle && i !in s.links
    case Unregister(i) => s.mode == Idle
    case OnLink(i, le) => i in s.links && le != L.Send && L.Enabled(s.links[i], le)
    case Queue(_) => true
    case Wake => s.mode == Idle && s.trigger
    case Take(_) => s.mode == Draining && s.low && s.queued > 0
    case Visit(i, _) => s.mode.Sending? && i in s.mode.todo && i in s.links
    case End => s.mode.Sending? && s.mode.todo * s.links.Keys == {}
    case Done => s.mode == Draining && (!s.low || s.queued == 0)
  }

  function VisitLink(s: Flow, i: nat, wanted: bool): Flow
    requires Enabled(s, Visit(i, wanted))
  {
    var l := s.links[i];
    var rest := s.(mode := Sending(s.mode.todo - {i}));
    if l.phase != L.Up then rest
    else if !l.sendMore then rest.(fault := true)
    else if wanted then rest.(links := s.links[i := L.Apply(l, L.Send).value.0])
    else rest
  }

  /** None if a link's state machine aborts the program. */
  function Step(s: Flow, e: Event): Option<Flow>
    requires Enabled(s, e)
  {
    match e
    case Opened(all) => Some(Open(s, all))
    case Register(i, d, m) => Some(s.(links := s.links[i := L.Initial(d, m)]))
    case Unregister(i) => Some(s.(links := s.links - {i}))
    case OnLink(i, le) =>
      (match L.Apply(s.links[i], le)
       case None => None
       case Some((l, _)) =>
         var t := s.(links := s.links[i := l]);
         Some(if le == L.Next then SendNext(t) else t))
    case Queue(running) =>
      Some(if running then s.(queued := s.queued + 1, trigger := s.trigger || s.signal) else s)
    case Wake => Some(s.(mode := Draining, trigger := false))
    case Take(forward) =>
      var t := s.(queued := s.queued - 1);
      if !forward then Some(t)
      else Some(t.(low := false, high := false, mode := Sending(s.links.Keys), fault := s.fault || !s.high))
    case Visit(i, wanted) => Some(VisitLink(s, i, wanted))
    case End => Some(SendNext(s.(mode := Draining)))
    case Done => Some(s.(mode := Idle))
  }

  function Run(s: Flow, events: seq<Event>): Option<Flow>
    decreases events
  {
    if events == [] then Some(s)
    else if !Enabled(s, events[0]) then Run(s, events[1..])
    else
      match Step(s, events[0])
      case None => None
      case Some(next) => Run(next, events[1..])
  }

  // ------------------------------------------------------------- safety

  predicate LinksOk(links: map<nat, L.Link>) {
    forall i | i in links :: L.Inv(links[i])
  }

  predicate Handshake(s: Flow) {
    if s.mode.Sending? then
      !s.low && !s.high && forall i | i in s.mode.todo && i in s.links :: !Waiting(s.links[i])
    else
      s.low == s.high && (s.high ==> AllReady(s.links))
  }

  /** A frame that could be sent has its wake-up pending. */
  predicate Awake(s: Flow) {
    s.signal && s.mode == Idle && s.low && s.queued > 0 ==> s.trigger
  }

  predicate Inv(s: Flow) {
    !s.fault && LinksOk(s.links) && Handshake(s) && Awake(s)
  }

  /** Only handing over a frame makes a link wait; in particular a link comes up ready. */
  lemma OnlySendWaits(l: L.Link, e: L.Event)
    requires L.Inv(l) && !Waiting(l) && e != L.Send && L.Enabled(l, e) && L.Apply(l, e).Some?
    ensures !Waiting(L.Apply(l, e).value.0)
  {
  }

  lemma OnLinkKeeps(s: Flow, i: nat, le: L.Event)
    requires Inv(s) && Enabled(s, OnLink(i, le))
    ensures Step(s, OnLink(i, le)).Some? ==> Inv(Step(s, OnLink(i, le)).value)
  {
    hide L.Apply, L.Inv, L.Enabled, Waiting;
    var l := s.links[i];
    L.ApplyKeepsInv(l, le);
    if L.Apply(l, le).Some? && !Waiting(l) {
      OnlySendWaits(l, le);
    }
  }

  lemma VisitKeeps(s: Flow, i: nat, wanted: bool)
    requires Inv(s) && Enabled(s, Visit(i, wanted))
    ensures Inv(VisitLink(s, i, wanted))
  {
    if s.links[i].phase == L.Up {
      L.ApplyKeepsInv(s.links[i], L.Send);
    }
    hide L.Inv, L.Apply;
  }

  lemma StepKeepsInv(s: Flow, e: Event)
    requires Inv(s) && Enabled(s, e)
    ensures Step(s, e).Some? ==> Inv(Step(s, e).value)
  {
    match e
    case OnLink(i, le) => OnLinkKeeps(s, i, le);
    case Visit(i, wanted) => VisitKeeps(s, i, wanted);
    case _ => hide L.Apply, VisitLink;
  }

  lemma {:induction false} RunKeepsInv(s: Flow, events: seq<Event>)
    requires Inv(s)
    ensures Run(s, events).Some? ==> Inv(Run(s, events).value)
    decreases events
  {
    hide Inv, Enabled, Step;
    if events == [] {
    } else if !Enabled(s, events[0]) {
      RunKeepsInv(s, events[1..]);
    } else {
      StepKeepsInv(s, events[0]);
      match Step(s, events[0])
      case None =>
      case Some(next) => RunKeepsInv(next, events[1..]);
    }
  }

  function Initial(): Flow {
    Flow(map[], false, false, false, false, 0, Idle, false)
  }

  /** In every run in which the router is started only while no link has a frame outstanding, the
      assertion in send_L_Data never fails and no link is ever found not ready; outside
      send_L_Data readiness below implies readiness above, which implies that of every link that
      is up; and no frame that could be sent waits without a wake-up. */
  lemma HandshakeIsSafe(events: seq<Event>)
    requires Run(Initial(), events).Some?
    ensures var s := Run(Initial(), events).value;
      && !s.fault
      && (!s.mode.Sending? ==> (s.low ==> s.high) && (s.high ==> AllReady(s.links)))
      && (s.signal && s.mode == Idle && s.low && s.queued > 0 ==> s.trigger)
  {
    RunKeepsInv(Initial(), events);
  }

  /** Starting the router keeps the handshake exactly if no link has a frame outstanding. */
  lemma OpenedIffReady(s: Flow, allRunning: bool)
    requires Inv(s) && s.mode == Idle
    ensures Inv(Open(s, allRunning)) <==> AllReady(s.links)
  {
  }

  // ------------------------------------------------------------- progress

  /** Outside send_L_Data the router is ready or some link keeps it waiting. */
  predicate Responsive(s: Flow) {
    s.mode.Sending? || s.high || !AllReady(s.links)
  }

  /** What takes a working link out of service: it is asked to go down, its driver reports a stop or
      an error, or its send timeout passes. */
  predicate TakesDown(e: L.Event) {
    e == L.AskDown || e == L.Stopped || e == L.Errored || e == L.Timer
  }

  /** A link that has a frame outstanding is lost: it is taken out of service or removed. */
  predicate Abandons(s: Flow, e: Event) {
    match e
    case OnLink(i, le) => i in s.links && Waiting(s.links[i]) && TakesDown(le)
    case Unregister(i) => i in s.links && Waiting(s.links[i])
    case _ => false
  }

  predicate OnlyWaiting(s: Flow, i: nat) {
    forall j | j in s.links && j != i :: !Waiting(s.links[j])
  }

  /** A wait ends when the link is taken out of service or its driver asks for more, and never
      otherwise. */
  lemma WaitEnds(l: L.Link, e: L.Event)
    requires Waiting(l) && e != L.Send && L.Enabled(l, e) && L.Apply(l, e).Some?
    ensures Waiting(L.Apply(l, e).value.0) <==> !TakesDown(e) && e != L.Next
  {
  }

  lemma ReadyIffOnly(links: map<nat, L.Link>, i: nat, l: L.Link)
    requires i in links
    ensures AllReady(links[i := l]) <==> !Waiting(l) && forall j | j in links && j != i :: !Waiting(links[j])
    ensures AllReady(links - {i}) <==> forall j | j in links && j != i :: !Waiting(links[j])
    ensures AllReady(links) <==> !Waiting(links[i]) && forall j | j in links && j != i :: !Waiting(links[j])
  {
    hide Waiting;
    var with, without := links[i := l], links - {i};
    assert i in with;
    assert forall j | j in links && j != i :: j in with && with[j] == links[j] && j in without && without[j] == links[j];
  }

  lemma OnLinkResponsive(s: Flow, i: nat, le: L.Event)
    requires LinksOk(s.links) && Responsive(s) && Enabled(s, OnLink(i, le)) && Step(s, OnLink(i, le)).Some?
    ensures Responsive(Step(s, OnLink(i, le)).value) <==>
      !(Abandons(s, OnLink(i, le)) && !s.mode.Sending? && !s.high && OnlyWaiting(s, i))
  {
    var l := s.links[i];
    if Waiting(l) {
      WaitEnds(l, le);
    } else {
      OnlySendWaits(l, le);
    }
    ReadyIffOnly(s.links, i, L.Apply(l, le).value.0);
    hide L.Apply, L.Inv, Waiting, AllReady;
  }

  /** The router stays responsive at every step except one: losing the only link it waits for
      leaves nobody to ask it for more. */
  lemma ResponsiveIffNotAbandoned(s: Flow, e: Event)
    requires Inv(s) && Responsive(s) && Enabled(s, e) && Step(s, e).Some?
    ensures Responsive(Step(s, e).value) <==>
      !(Abandons(s, e) && !s.mode.Sending? && !s.high && OnlyWaiting(s, e.id))
  {
    match e
    case OnLink(i, le) => OnLinkResponsive(s, i, le);
    case Unregister(i) =>
      if i in s.links {
        ReadyIffOnly(s.links, i, s.links[i]);
      } else {
        assert s.links - {i} == s.links;
      }
      hide Waiting, AllReady, L.Apply, L.Inv;
    case Register(i, d, m) =>
      var l := L.Initial(d, m);
      if j :| j in s.links && Waiting(s.links[j]) {
        assert s.links[i := l][j] == s.links[j];
      }
      hide Waiting, L.Apply;
    case _ =>
      hide AllReady, L.Apply, L.Inv;
  }

  // ------------------------------------------------------------- the object

  lemma {:induction false} RunConcat(s: Flow, a: seq<Event>, b: seq<Event>)
    ensures Run(s, a + b) == (match Run(s, a) case None => None case Some(m) => Run(m, b))
    decreases a
  {
    hide Enabled, Step;
    if a == [] {
      assert a + b == b;
    } else {
      assert (a + b)[1..] == a[1..] + b;
      if !Enabled(s, a[0]) {
        RunConcat(s, a[1..], b);
      } else {
        match Step(s, a[0])
        case None =>
        case Some(next) => RunConcat(next, a[1..], b);
      }
    }
  }

  /** One more event at the end of a run. */
  lemma RunThen(s: Flow, a: seq<Event>, m: Flow, e: Event)
    requires Run(s, a) == Some(m) && Enabled(m, e)
    ensures Run(s, a + [e]) == Step(m, e)
  {
    RunConcat(s, a, [e]);
    assert [e][1..] == [];
  }

  lemma WakeRun(s: Flow)
    requires Enabled(s, Wake)
    ensures s.mode == Idle && Run(s, [Wake]) == Some(s.(mode := Draining, trigger := false))
  {
    RunThen(s, [], s, Wake);
    assert [] + [Wake] == [Wake];
  }

  lemma DoneRun(s: Flow, a: seq<Event>, m: Flow)
    requires Run(s, a) == Some(m) && m.mode == Draining && (!m.low || m.queued == 0)
    ensures Run(s, a + [Done]) == Some(m.(mode := Idle))
  {
    RunThen(s, a, m, Done);
  }

  predicate IsSuffix(a: seq<LData>, b: seq<LData>) {
    |a| <= |b| && a == b[|b| - |a|..]
  }

  lemma SuffixTail(a: seq<LData>, b: seq<LData>)
    requires IsSuffix(a, b) && a != []
    ensures IsSuffix(a[1..], b)
  {
  }

  lemma CallbackEnabled(s: Flow, i: nat, e: L.Event)
    requires i in s.links && L.IsCallback(e)
    ensures Enabled(s, OnLink(i, e))
  {
  }

  /** The router with its links. The n-th frame handed to a driver is answered, before the call
      returns, with the n-th list of link callbacks in `script`, and silently after the last. */
  class Router {
    var links: map<nat, L.Link>
    var low: bool
    var high: bool
    var sending: bool
    var signal: bool
    var trigger: bool
    var buf: seq<LData>
    var aborted: bool
    var script: seq<seq<(nat, L.Event)>>
    ghost var mode: Mode
    ghost var fault: bool

    ghost function State(): Flow
      reads this
    {
      Flow(links, low, high, signal, trigger, |buf|, mode, fault)
    }

    /** The object is where a run of events leads. */
    ghost predicate At(r: Option<Flow>)
      reads this
    {
      && sending == mode.Sending?
      && (if aborted then r == None else r == Some(State()))
    }

    constructor (answers: seq<seq<(nat, L.Event)>>)
      ensures At(Some(Initial())) && script == answers && buf == []
    {
      links, low, high, sending, signal, trigger := map[], false, false, false, false, false;
      buf, aborted, script, mode, fault := [], false, answers, Idle, false;
    }

    method Started(allRunning: bool)
      requires At(Some(State()))
      modifies this
      ensures At(Some(Open(old(State()), allRunning))) && buf == old(buf) && script == old(script)
    {
      low, high, trigger := true, true, true;
      if allRunning && !signal {
        signal := true;
      }
    }

    /** A frame that comes while the router neither runs nor wants to is discarded. */
    method QueueLData(l: LData, running: bool)
      requires At(Some(State()))
      modifies this
      ensures At(Step(old(State()), Queue(running))) && script == old(script)
      ensures buf == old(buf) + if running then [l] else []
    {
      if !running {
        return;
      }
      buf := buf + [l];
      if signal {
        trigger := true;
      }
    }

    /** Does no link that is up have a frame outstanding? */
    method Ready() returns (ready: bool)
      ensures ready <==> AllReady(links)
    {
      var todo := links.Keys;
      while todo != {}
        invariant todo <= links.Keys
        invariant forall i | i in links && i !in todo :: !Waiting(links[i])
        decreases todo
      {
        var i :| i in todo;
        if links[i].phase == L.Up && !links[i].sendMore {
          return false;
        }
        todo := todo - {i};
      }
      return true;
    }

    /** Router::send_Next and RouterLow::send_Next. */
    method SendNextFrame()
      requires At(Some(State()))
      modifies `high, `low, `trigger
      ensures At(Some(SendNext(old(State()))))
    {
      if sending || high {
        return;
      }
      var ready := Ready();
      if ready {
        high := true;
        low := true;
        trigger := true;
      }
    }

    /** A callback of a link's driver, or a request to the link. */
    method LinkEvent(i: nat, e: L.Event)
      requires At(Some(State())) && Enabled(State(), OnLink(i, e))
      modifies `links, `high, `low, `trigger, `aborted
      ensures At(Step(old(State()), OnLink(i, e))) && links.Keys == old(links.Keys)
    {
      hide L.Apply, AllReady;
      var r := L.Apply(links[i], e);
      if r.None? {
        aborted := true;
        return;
      }
      links := links[i := r.value.0];
      if e == L.Next {
        SendNextFrame();
      }
    }

    /** The driver's answer to the frame just handed over. */
    method React() returns (ghost done: seq<Event>)
      requires At(Some(State()))
      modifies `links, `high, `low, `trigger, `aborted, `script
      ensures At(Run(old(State()), done)) && links.Keys == old(links.Keys)
    {
      hide Enabled, Step;
      done := [];
      if script == [] {
        return;
      }
      var answer := script[0];
      script := script[1..];
      var k := 0;
      while k < |answer| && !aborted
        invariant k <= |answer|
        invariant At(Run(old(State()), done)) && links.Keys == old(links.Keys)
      {
        var (i, e) := answer[k];
        if i in links && L.IsCallback(e) {
          CallbackEnabled(State(), i, e);
          RunThen(old(State()), done, State(), OnLink(i, e));
          LinkEvent(i, e);
          done := done + [OnLink(i, e)];
        }
        k := k + 1;
      }
    }

    /** The loop of send_L_Data over the links, each visited once. */
    method SendLData(l: LData, wants: (nat, LData) -> bool) returns (ghost done: seq<Event>)
      requires At(Some(State())) && mode == Sending(links.Keys)
      modifies `links, `high, `low, `trigger, `aborted, `script, `sending, `mode, `fault
      ensures At(Run(old(State()), done)) && (!aborted ==> mode == Draining)
    {
      done := [];
      var todo := links.Keys;
      while todo != {} && !aborted
        invariant At(Run(old(State()), done)) && links.Keys == old(links.Keys)
        invariant mode == Sending(todo) && todo <= links.Keys
        decreases todo
      {
        var i :| i in todo;
        todo := todo - {i};
        ghost var more := VisitOne(i, wants(i, l));
        RunConcat(old(State()), done, more);
        done := done + more;
      }
      if !aborted {
        RunThen(old(State()), done, State(), End);
        done := done + [End];
        sending, mode := false, Draining;
        SendNextFrame();
      }
    }

    /** One turn of that loop. */
    method VisitOne(i: nat, wanted: bool) returns (ghost done: seq<Event>)
      requires At(Some(State())) && mode.Sending? && i in mode.todo && i in links
      modifies `links, `high, `low, `trigger, `aborted, `script, `mode, `fault
      ensures At(Run(old(State()), done)) && links.Keys == old(links.Keys)
      ensures mode == Sending(old(mode.todo) - {i})
    {
      ghost var v := Visit(i, wanted);
      RunThen(State(), [], State(), v);
      assert [] + [v] == [v];
      done := [v];
      mode := Sending(mode.todo - {i});
      var link := links[i];
      if link.phase == L.Up {
        if !link.sendMore {
          fault := true;
        } else if wanted {
          links := links[i := L.Noted(link, L.Handed).(sendMore := false, timer := true)];
          ghost var more := React();
          RunConcat(old(State()), [v], more);
          done := [v] + more;
        }
      }
    }

    /** One turn of trigger_cb's loop: the first frame is dropped or forwarded. */
    method TakeOne(forward: LData -> bool, wants: (nat, LData) -> bool) returns (ghost done: seq<Event>)
      requires At(Some(State())) && mode == Draining && buf != [] && low
      modifies this
      ensures At(Run(old(State()), done)) && (!aborted ==> mode == Draining)
      ensures buf == old(buf)[1..]
    {
      var l := buf[0];
      var f := forward(l);
      ghost var start := State();
      RunThen(start, [], start, Take(f));
      assert [] + [Take(f)] == [Take(f)];
      done := [Take(f)];
      buf := buf[1..];
      if f {
        fault := fault || !high;
        low, high, sending, mode := false, false, true, Sending(links.Keys);
        ghost var more := SendLData(l, wants);
        RunConcat(start, [Take(f)], more);
        done := [Take(f)] + more;
      }
    }

    /** trigger_cb: frames are dropped or forwarded as long as the links are ready. */
    method TriggerCallback(forward: LData -> bool, wants: (nat, LData) -> bool) returns (ghost done: seq<Event>)
      requires At(Some(State())) && Inv(State()) && Enabled(State(), Wake)
      modifies this
      ensures At(Run(old(State()), done)) && (!aborted ==> Inv(State()))
      ensures !aborted ==> mode == Idle && (buf == [] || !low)
      ensures IsSuffix(buf, old(buf))
    {
      hide Inv, Run, Step, Enabled, SendNext;
      ghost var start := State();
      WakeRun(start);
      done := [Wake];
      trigger, mode := false, Draining;
      while buf != [] && low && !aborted
        invariant At(Run(start, done))
        invariant !aborted ==> mode == Draining
        invariant IsSuffix(buf, old(buf))
        decreases |buf|
      {
        SuffixTail(buf, old(buf));
        ghost var more := TakeOne(forward, wants);
        RunConcat(start, done, more);
        done := done + more;
      }
      if !aborted {
        DoneRun(start, done, State());
        done := done + [Done];
        mode := Idle;
      }
      RunKeepsInv(start, done);
    }
  }
}
