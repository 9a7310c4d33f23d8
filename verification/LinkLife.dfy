/** The life cycle of one link (`LinkConnect`): the state machine between the router, which asks
    it to go up or down, and its driver, which reports being started, stopped or broken. */
module LinkLife {
  import opened KnxTypes

  datatype Phase = Down | GoingDown | Up | GoingUp | Error | UpError | GoingDownError | WaitRetry

  /** What a transition asks of the driver. */
  datatype Call = Nothing | Start | Stop

  /** What has happened to the link, in order: what it asked of its driver, what the driver
      reported, and what else moves it. */
  datatype Mark =
    | StartCalled | Retried | StartReported | StopReported | ErrorReported | SendTimedOut | AskedDown
    | Handed | MoreAsked

  /** `timer` is the one timer that serves both the retry delay and the send timeout; `log` is
      the history of the link. */
  datatype Link = Link(
    retryDelay: int,
    maxRetries: int,
    phase: Phase,
    retries: nat,
    timer: bool,
    sendMore: bool,
    log: seq<Mark>)

  function Initial(retryDelay: int, maxRetries: int): Link {
    Link(retryDelay, maxRetries, Down, 0, false, true, [])
  }

  // ------------------------------------------------------------- the transition table

  /** The outcome of asking for a state: the program aborts, a new state with a call to the
      driver, or a state that depends on whether another attempt is due. */
  datatype Outcome = Invalid | Go(phase: Phase, call: Call) | RetryOrFail

  function Change(was: Phase, want: Phase): Outcome {
    match was
    case Down =>
      if want == GoingUp then Go(GoingUp, Start)
      else if want == GoingDown then Go(Down, Nothing)
      else Invalid
    case GoingDown =>
      if want == Error then Go(GoingDownError, Nothing)
      else if want == Down then Go(Down, Nothing)
      else Invalid
    case Up =>
      if want == GoingUp then Go(Up, Nothing)
      else if want == GoingDown || want == Down then Go(want, Stop)
      else if want == Error then Go(UpError, Nothing)
      else Invalid
    case GoingUp =>
      if want == Up then Go(Up, Nothing)
      else if want == GoingDown then Go(GoingDown, Stop)
      else if want == Down then RetryOrFail
      else if want == Error then Go(UpError, Nothing)
      else Invalid
    case WaitRetry =>
      if want == GoingUp then Go(GoingUp, Start)
      else if want == GoingDown then Go(Down, Nothing)
      else Invalid
    case Error =>
      if want == WaitRetry || want == Down then RetryOrFail
      else if want == GoingDown then Go(Error, Nothing)
      else Invalid
    case UpError =>
      if want == GoingDown then Go(GoingDownError, Stop)
      else if want == Down then RetryOrFail
      else if want == Error then Go(Error, Nothing)
      else Invalid
    case GoingDownError =>
      if want == Down then RetryOrFail
      else if want == Error then Go(Error, Nothing)
      else if want == GoingDown then Go(GoingDownError, Nothing)
      else Invalid
  }

  predicate MayRetry(l: Link) {
    (l.retryDelay > 0 && l.maxRetries == 0) || l.retries < l.maxRetries
  }

  /** setState up to and including the call it makes to the driver; None if it aborts. */
  function SetState(l: Link, want: Phase): Option<(Link, Call)> {
    if l.phase == want then Some((l, Nothing))
    else
      var t := l.timer && l.phase != WaitRetry && l.phase != Up;
      match Change(l.phase, want)
      case Invalid => None
      case Go(p, c) =>
        Some((l.(phase := p, timer := t,
                 retries := if l.phase == GoingUp && p == Up then 0 else l.retries,
                 sendMore := l.sendMore || c == Start,
                 log := if c == Start then l.log + [StartCalled] else l.log), c))
      case RetryOrFail =>
        Some((if MayRetry(l) then l.(phase := WaitRetry, timer := true) else l.(phase := Error, timer := t), Nothing))
  }

  // ------------------------------------------------------------- events

  /** The router asks for up or down; the driver reports; the timer fires; the driver is ready
      for another frame; the router hands a frame over; the router stops a failed link again. */
  datatype Event = AskUp | AskDown | Started | Stopped | Errored | Timer | Next | Send | StopAgain

  /** What a driver may call from inside a call made to it. */
  predicate IsCallback(e: Event) {
    e == Started || e == Stopped || e == Errored || e == Next
  }

  predicate Enabled(l: Link, e: Event) {
    match e
    case Timer => l.timer
    case Send => l.phase == Up
    case StopAgain => l.phase == UpError || l.phase == GoingDownError
    case _ => true
  }

  function Noted(l: Link, m: Mark): Link {
    l.(log := l.log + [m])
  }

  function Apply(l: Link, e: Event): Option<(Link, Call)>
    requires Enabled(l, e)
  {
    match e
    case AskUp => SetState(l, GoingUp)
    case AskDown => SetState(Noted(l, AskedDown), GoingDown)
    case Started => SetState(Noted(l, StartReported), Up)
    case Stopped => SetState(Noted(l, StopReported), Down)
    case Errored => SetState(Noted(l, ErrorReported), Error)
    case Timer =>
      var fired := l.(timer := false);
      if l.phase == Up && !l.sendMore then SetState(Noted(fired, SendTimedOut), Error)
      else if l.phase == WaitRetry then SetState(Noted(fired.(retries := l.retries + 1), Retried), GoingUp)
      else Some((fired, Nothing))
    case Next => Some((Noted(l, MoreAsked).(sendMore := true, timer := l.timer && l.phase != Up), Nothing))
    case Send => Some((Noted(l, Handed).(sendMore := false, timer := true), Nothing))
    case StopAgain => Some((l, Stop))
  }

  /** An event that cannot happen in the state does nothing; a run that aborts yields nothing. */
  function Run(l: Link, events: seq<Event>): Option<Link>
    decreases events
  {
    if events == [] then Some(l)
    else if !Enabled(l, events[0]) then Run(l, events[1..])
    else
      match Apply(l, events[0])
      case None => None
      case Some((next, _)) => Run(next, events[1..])
  }

  // ------------------------------------------------------------- invariants

  /** Started and not reported stopped since. */
  predicate Running(log: seq<Mark>) {
    log != [] &&
    var m, before := log[|log| - 1], log[..|log| - 1];
    m == StartCalled || (m != StopReported && Running(before))
  }

  /** No start follows a start without a stop reported in between. */
  predicate Alternates(log: seq<Mark>) {
    log == [] ||
    var m, before := log[|log| - 1], log[..|log| - 1];
    Alternates(before) && (m == StartCalled ==> !Running(before))
  }

  predicate Core(l: Link) {
    && Alternates(l.log)
    && (l.phase == Down || l.phase == WaitRetry ==> !Running(l.log))
    && (l.phase == GoingUp ==> l.sendMore)
    && (l.maxRetries > 0 ==> l.retries <= l.maxRetries)
    && (l.timer ==> l.phase == WaitRetry || (l.phase == Up && !l.sendMore))
  }

  predicate Inv(l: Link) {
    Core(l) && (l.phase == WaitRetry ==> l.timer && MayRetry(l))
  }

  lemma MarkAppended(log: seq<Mark>, m: Mark)
    ensures Running(log + [m]) <==> m == StartCalled || (m != StopReported && Running(log))
    ensures Alternates(log + [m]) <==> Alternates(log) && (m == StartCalled ==> !Running(log))
  {
    assert (log + [m])[..|log|] == log;
  }

  lemma SetStateKeeps(l: Link, want: Phase)
    requires Core(l) && want != WaitRetry && (want == Down ==> !Running(l.log))
    ensures SetState(l, want).Some? ==> Inv(SetState(l, want).value.0)
  {
    MarkAppended(l.log, StartCalled);
    hide Alternates, Running;
  }

  lemma NotedKeeps(l: Link, m: Mark)
    requires Core(l) && m != StartCalled
    ensures Core(Noted(l, m)) && (m == StopReported ==> !Running(Noted(l, m).log))
  {
    MarkAppended(l.log, m);
    hide Alternates, Running;
  }

  lemma ApplyKeepsInv(l: Link, e: Event)
    requires Inv(l) && Enabled(l, e)
    ensures Apply(l, e).Some? ==> Inv(Apply(l, e).value.0)
  {
    hide SetState, Alternates, Running;
    match e
    case AskUp => SetStateKeeps(l, GoingUp);
    case AskDown =>
      NotedKeeps(l, AskedDown);
      SetStateKeeps(Noted(l, AskedDown), GoingDown);
    case Started =>
      NotedKeeps(l, StartReported);
      SetStateKeeps(Noted(l, StartReported), Up);
    case Stopped =>
      NotedKeeps(l, StopReported);
      SetStateKeeps(Noted(l, StopReported), Down);
    case Errored =>
      NotedKeeps(l, ErrorReported);
      SetStateKeeps(Noted(l, ErrorReported), Error);
    case Timer =>
      var fired := l.(timer := false);
      if l.phase == Up && !l.sendMore {
        NotedKeeps(fired, SendTimedOut);
        SetStateKeeps(Noted(fired, SendTimedOut), Error);
      } else if l.phase == WaitRetry {
        NotedKeeps(fired.(retries := l.retries + 1), Retried);
        SetStateKeeps(Noted(fired.(retries := l.retries + 1), Retried), GoingUp);
      }
    case Next => NotedKeeps(l, MoreAsked);
    case Send => NotedKeeps(l, Handed);
    case StopAgain =>
  }

  lemma {:induction false} RunKeepsInv(l: Link, events: seq<Event>)
    requires Inv(l)
    ensures Run(l, events).Some? ==> Inv(Run(l, events).value)
    ensures Run(l, events).Some? ==>
      Run(l, events).value.retryDelay == l.retryDelay && Run(l, events).value.maxRetries == l.maxRetries
    decreases events
  {
    hide Inv, Change;
    if events == [] {
    } else if !Enabled(l, events[0]) {
      RunKeepsInv(l, events[1..]);
    } else {
      ApplyKeepsInv(l, events[0]);
      match Apply(l, events[0])
      case None =>
      case Some((next, _)) => RunKeepsInv(next, events[1..]);
    }
  }

  lemma {:induction false} RunningSince(log: seq<Mark>, i: nat)
    requires i < |log| && log[i] == StartCalled && forall k | i < k < |log| :: log[k] != StopReported
    ensures Running(log)
    decreases |log|
  {
    if i < |log| - 1 {
      RunningSince(log[..|log| - 1], i);
    }
  }

  lemma {:induction false} StopBetween(log: seq<Mark>, i: nat, j: nat)
    requires Alternates(log) && i < j < |log| && log[i] == StartCalled && log[j] == StartCalled
    ensures exists k :: i < k < j && log[k] == StopReported
    decreases |log|
  {
    var before := log[..|log| - 1];
    if j < |log| - 1 {
      StopBetween(before, i, j);
      var k :| i < k < j && before[k] == StopReported;
      assert log[k] == StopReported;
    } else if forall k | i < k < j :: log[k] != StopReported {
      assert forall k | i < k < |before| :: before[k] == log[k];
      RunningSince(before, i);
    }
  }

  /** In every run that does not abort the driver is started again only after it reported stopped
      since its previous start; a link waiting for its retry has its timer running; and a limit on
      the retries is kept, a waiting link being below it. */
  lemma LifeCycleIsSafe(retryDelay: int, maxRetries: int, events: seq<Event>)
    requires Run(Initial(retryDelay, maxRetries), events).Some?
    ensures var l := Run(Initial(retryDelay, maxRetries), events).value;
      && (forall i, j | 0 <= i < j < |l.log| && l.log[i] == StartCalled && l.log[j] == StartCalled ::
            exists k :: i < k < j && l.log[k] == StopReported)
      && (l.phase == WaitRetry ==> l.timer)
      && (maxRetries > 0 ==> l.retries <= maxRetries && (l.phase == WaitRetry ==> l.retries < maxRetries))
  {
    RunKeepsInv(Initial(retryDelay, maxRetries), events);
    var l := Run(Initial(retryDelay, maxRetries), events).value;
    forall i, j | 0 <= i < j < |l.log| && l.log[i] == StartCalled && l.log[j] == StartCalled
      ensures exists k :: i < k < j && l.log[k] == StopReported
    {
      StopBetween(l.log, i, j);
    }
  }

  // ------------------------------------------------------------- the phase is the history

  /** What has happened since the driver was last started. */
  function SinceStart(log: seq<Mark>): seq<Mark> {
    if log == [] || log[|log| - 1] == StartCalled then []
    else SinceStart(log[..|log| - 1]) + [log[|log| - 1]]
  }

  /** The part of it before the driver first reported that it stopped. */
  function BeforeStop(t: seq<Mark>): (b: seq<Mark>)
    ensures b <= t
  {
    if t == [] then []
    else
      var m, before := t[|t| - 1], t[..|t| - 1];
      if StopReported in before then BeforeStop(before) else if m == StopReported then before else t
  }

  function Failures(t: seq<Mark>): nat {
    if t == [] then 0
    else Failures(t[..|t| - 1]) + if t[|t| - 1] == ErrorReported || t[|t| - 1] == SendTimedOut then 1 else 0
  }

  /** What the history says the link is. While the driver runs: two failures are an error, one
      waits for the driver to stop; without a failure a request to go down is on its way, or the
      link is up once the driver has said so. When it has stopped: after a clean end the link is
      down, else it tries again if it may, until it is told not to. */
  function Meaning(log: seq<Mark>, mayRetry: bool): Phase {
    if StartCalled !in log then Down
    else
      var t := SinceStart(log);
      var b := BeforeStop(t);
      if StopReported !in t then
        if Failures(t) >= 2 then Error
        else if Failures(t) == 1 then if AskedDown in t then GoingDownError else UpError
        else if AskedDown in t then GoingDown
        else if StartReported in t then Up
        else GoingUp
      else if Failures(b) == 0 && (AskedDown in b || StartReported in b) then Down
      else if !mayRetry then Error
      else if AskedDown in t[|b|..] then Down
      else WaitRetry
  }

  /** How often the link has tried again since its driver last came up. */
  function Attempts(log: seq<Mark>): nat {
    if log == [] || log[|log| - 1] == StartReported then 0
    else Attempts(log[..|log| - 1]) + if log[|log| - 1] == Retried then 1 else 0
  }

  /** The parts of the history that decide. */
  datatype Tally = Tally(
    started: bool,       // the driver was ever started
    stopped: bool,       // and has reported a stop since
    failures: nat,       // failures before that stop
    asked: bool,         // a request to go down before it
    reported: bool,      // a start reported before it
    askedAfter: bool)    // a request to go down after it

  function TallyOf(log: seq<Mark>): Tally {
    var t := SinceStart(log);
    var b := BeforeStop(t);
    Tally(StartCalled in log, StopReported in t, Failures(b), AskedDown in b, StartReported in b, AskedDown in t[|b|..])
  }

  function TallyMeaning(c: Tally, mayRetry: bool): Phase {
    if !c.started then Down
    else if !c.stopped then
      if c.failures >= 2 then Error
      else if c.failures == 1 then if c.asked then GoingDownError else UpError
      else if c.asked then GoingDown
      else if c.reported then Up
      else GoingUp
    else if c.failures == 0 && (c.asked || c.reported) then Down
    else if !mayRetry then Error
    else if c.askedAfter then Down
    else WaitRetry
  }

  lemma {:induction false} BeforeNoStop(t: seq<Mark>)
    ensures StopReported !in t ==> BeforeStop(t) == t
  {
  }

  lemma MeaningByTally(log: seq<Mark>, mayRetry: bool)
    ensures Meaning(log, mayRetry) == TallyMeaning(TallyOf(log), mayRetry)
  {
    BeforeNoStop(SinceStart(log));
    hide SinceStart, BeforeStop, Failures;
  }

  function TallyNext(c: Tally, m: Mark): Tally {
    if m == StartCalled then Tally(true, false, 0, false, false, false)
    else if m == StopReported then c.(stopped := true, askedAfter := c.stopped && c.askedAfter)
    else if c.stopped then c.(askedAfter := c.askedAfter || m == AskedDown)
    else c.(failures := c.failures + (if m == ErrorReported || m == SendTimedOut then 1 else 0),
            asked := c.asked || m == AskedDown,
            reported := c.reported || m == StartReported)
  }

  lemma FailuresMore(t: seq<Mark>, m: Mark)
    ensures Failures(t + [m]) == Failures(t) + if m == ErrorReported || m == SendTimedOut then 1 else 0
  {
    assert (t + [m])[..|t|] == t;
  }

  lemma BeforeStopMore(t: seq<Mark>, m: Mark)
    ensures BeforeStop(t + [m]) ==
      if StopReported in t then BeforeStop(t) else if m == StopReported then t else t + [m]
    ensures StopReported !in t ==> BeforeStop(t) == t
  {
    assert (t + [m])[..|t|] == t;
    BeforeNoStop(t);
  }

  lemma SinceStartMore(log: seq<Mark>, m: Mark)
    ensures SinceStart(log + [m]) == if m == StartCalled then [] else SinceStart(log) + [m]
  {
    assert (log + [m])[..|log|] == log;
  }

  lemma TallyMore(log: seq<Mark>, m: Mark)
    ensures TallyOf(log + [m]) == TallyNext(TallyOf(log), m)
  {
    var t := SinceStart(log);
    SinceStartMore(log, m);
    hide SinceStart;
    if m == StartCalled {
      assert BeforeStop([]) == [];
    } else {
      BeforeStopMore(t, m);
      FailuresMore(t, m);
      TallyRest(t, m);
      hide BeforeStop, Failures;
      assert StartCalled in log + [m] <==> StartCalled in log;
    }
  }

  lemma TallyRest(t: seq<Mark>, m: Mark)
    requires m != StartCalled
    ensures var b, c := BeforeStop(t), BeforeStop(t + [m]);
      (AskedDown in (t + [m])[|c|..]) <==>
        (AskedDown in t[|b|..] || (m == AskedDown && StopReported in t))
  {
    BeforeStopMore(t, m);
    hide BeforeStop;
    var b, c := BeforeStop(t), BeforeStop(t + [m]);
    if StopReported in t {
      assert (t + [m])[|c|..] == t[|b|..] + [m];
    } else if m == StopReported {
      assert (t + [m])[|c|..] == [m] && t[|b|..] == [];
    } else {
      assert (t + [m])[|c|..] == [] && t[|b|..] == [];
    }
  }

  lemma AttemptsMore(log: seq<Mark>, m: Mark)
    ensures Attempts(log + [m]) == if m == StartReported then 0 else Attempts(log) + if m == Retried then 1 else 0
  {
    assert (log + [m])[..|log|] == log;
  }

  predicate IsTraffic(m: Mark) {
    m == Handed || m == MoreAsked
  }

  /** The last thing that happened, frames aside. */
  function LastMove(log: seq<Mark>): Option<Mark> {
    if log == [] then None
    else if IsTraffic(log[|log| - 1]) then LastMove(log[..|log| - 1])
    else Some(log[|log| - 1])
  }

  /** The driver has asked for more, or was started, since it was last handed a frame. */
  predicate WantsMore(log: seq<Mark>) {
    if log == [] then true
    else
      var m, before := log[|log| - 1], log[..|log| - 1];
      if m == Handed then false else if m == MoreAsked || m == StartCalled then true else WantsMore(before)
  }

  lemma MoveMore(log: seq<Mark>, m: Mark)
    ensures LastMove(log + [m]) == if IsTraffic(m) then LastMove(log) else Some(m)
    ensures WantsMore(log + [m]) <==> if IsTraffic(m) then m == MoreAsked else m == StartCalled || WantsMore(log)
  {
    assert (log + [m])[..|log|] == log;
  }

  ghost predicate Told(l: Link) {
    && l.phase == TallyMeaning(TallyOf(l.log), MayRetry(l))
    && l.retries == Attempts(l.log)
    && (l.phase == Up ==> l.retries == 0)
    && (l.phase == Up <==> LastMove(l.log) == Some(StartReported))
    && (l.sendMore <==> WantsMore(l.log))
  }

  /** What an event other than the timer adds to the history. */
  function MarkOf(e: Event): Option<Mark> {
    match e
    case AskDown => Some(AskedDown)
    case Started => Some(StartReported)
    case Stopped => Some(StopReported)
    case Errored => Some(ErrorReported)
    case Next => Some(MoreAsked)
    case Send => Some(Handed)
    case _ => None
  }

  lemma StartTells(l: Link, e: Event)
    requires Told(l) && (e == AskUp || (e == Timer && l.phase == WaitRetry)) && Enabled(l, e)
    ensures Apply(l, e).Some? ==> Told(Apply(l, e).value.0)
  {
    TallyMore(l.log, Retried);
    AttemptsMore(l.log, Retried);
    TallyMore(l.log, StartCalled);
    AttemptsMore(l.log, StartCalled);
    TallyMore(l.log + [Retried], StartCalled);
    AttemptsMore(l.log + [Retried], StartCalled);
    MoveMore(l.log, Retried);
    MoveMore(l.log, StartCalled);
    MoveMore(l.log + [Retried], StartCalled);
    hide TallyOf, Attempts, LastMove, WantsMore;
  }

  /** The phase after a report, from the phase and the tally before it. */
  lemma ReportMeans(l: Link, c: Tally, e: Event)
    requires e == AskDown || e == Started || e == Stopped || e == Errored
    requires l.phase == TallyMeaning(c, MayRetry(l)) && Apply(l, e).Some?
    ensures Apply(l, e).value.0.phase == TallyMeaning(TallyNext(c, MarkOf(e).value), MayRetry(l)) ||
      (e == Started && Apply(l, e).value.0.phase == Up == TallyMeaning(TallyNext(c, StartReported), true))
  {
    match e
    case AskDown =>
    case Started =>
    case Stopped =>
    case Errored =>
  }

  /** And the counter. */
  lemma ReportCounts(l: Link, e: Event)
    requires MarkOf(e).Some? && Enabled(l, e) && Apply(l, e).Some?
    ensures var n, m := Apply(l, e).value.0, MarkOf(e).value;
      && n.log == l.log + [m] && n.retryDelay == l.retryDelay && n.maxRetries == l.maxRetries
      && n.retries == (if e == Started && l.phase == GoingUp then 0 else l.retries)
      && n.sendMore == (if IsTraffic(m) then m == MoreAsked else l.sendMore)
      && (e == Started ==> n.phase == Up && (l.phase == Up || l.phase == GoingUp))
      && (if IsTraffic(m) then n.phase == l.phase else n.phase == Up ==> e == Started)
  {
    match e
    case AskDown =>
    case Started =>
    case Stopped =>
    case Errored =>
    case Next =>
    case Send =>
  }

  lemma TrafficMeansNothing(c: Tally, m: Mark)
    requires IsTraffic(m)
    ensures TallyNext(c, m) == c
  {
  }

  lemma ReportTells(l: Link, e: Event)
    requires Told(l) && MarkOf(e).Some? && Enabled(l, e)
    ensures Apply(l, e).Some? ==> Told(Apply(l, e).value.0)
  {
    hide TallyOf, Attempts, Apply, TallyNext, LastMove, WantsMore;
    if Apply(l, e).Some? {
      var m := MarkOf(e).value;
      TallyMore(l.log, m);
      AttemptsMore(l.log, m);
      MoveMore(l.log, m);
      if IsTraffic(m) {
        TrafficMeansNothing(TallyOf(l.log), m);
      } else {
        ReportMeans(l, TallyOf(l.log), e);
      }
      ReportCounts(l, e);
    }
  }

  lemma TimeoutTells(l: Link)
    requires Told(l) && Enabled(l, Timer) && l.phase != WaitRetry
    ensures Apply(l, Timer).Some? ==> Told(Apply(l, Timer).value.0)
  {
    TallyMore(l.log, SendTimedOut);
    AttemptsMore(l.log, SendTimedOut);
    MoveMore(l.log, SendTimedOut);
    hide TallyOf, Attempts, LastMove, WantsMore;
  }

  /** One event: at most two marks, and the phase they mean. */
  lemma ApplyTells(l: Link, e: Event)
    requires Told(l) && Enabled(l, e)
    ensures Apply(l, e).Some? ==> Told(Apply(l, e).value.0)
  {
    hide TallyOf, Attempts, TallyMeaning, SetState;
    if MarkOf(e).Some? {
      ReportTells(l, e);
    } else if e == AskUp || (e == Timer && l.phase == WaitRetry) {
      StartTells(l, e);
    } else if e == Timer {
      TimeoutTells(l);
    }
  }

  lemma {:induction false} RunTells(l: Link, events: seq<Event>)
    requires Inv(l) && Told(l)
    ensures Run(l, events).Some? ==> Told(Run(l, events).value)
    decreases events
  {
    hide Inv, Told, Apply;
    if events == [] {
    } else if !Enabled(l, events[0]) {
      RunTells(l, events[1..]);
    } else {
      ApplyKeepsInv(l, events[0]);
      ApplyTells(l, events[0]);
      match Apply(l, events[0])
      case None =>
      case Some((next, _)) => RunTells(next, events[1..]);
    }
  }

  /** In every run that does not abort, the phase is what the history means, and the retry counter
      is the number of attempts since the driver last came up. In particular the link is up
      exactly if the last thing that happened, frames aside, is that the driver reported its start,
      and it takes another frame exactly if the driver has asked for one since the last. */
  lemma PhaseIsHistory(retryDelay: int, maxRetries: int, events: seq<Event>)
    requires Run(Initial(retryDelay, maxRetries), events).Some?
    ensures var l := Run(Initial(retryDelay, maxRetries), events).value;
      && l.phase == Meaning(l.log, (retryDelay > 0 && maxRetries == 0) || l.retries < maxRetries)
      && l.retries == Attempts(l.log)
      && (l.phase == Up <==> LastMove(l.log) == Some(StartReported))
      && (l.sendMore <==> WantsMore(l.log))
      && (l.phase == Up ==> l.retries == 0)
  {
    var l0 := Initial(retryDelay, maxRetries);
    RunKeepsInv(l0, events);
    RunTells(l0, events);
    var l := Run(l0, events).value;
    MeaningByTally(l.log, MayRetry(l));
    hide Run, Meaning;
  }

  // ------------------------------------------------------------- what the table means

  /** The driver has been asked to start and has not been given up. */
  predicate Active(p: Phase) {
    p == Up || p == GoingUp
  }

  predicate Failed(p: Phase) {
    p == Error || p == UpError || p == GoingDownError
  }

  /** The program aborts exactly when a link that is going down or has failed is asked to go up,
      when a driver reports a start that is not under way, or when it reports a stop or an error
      although the link waits for a retry, or an error although the link is down. */
  lemma AbortsExactly(l: Link, e: Event)
    requires Enabled(l, e)
    ensures Apply(l, e) == None <==>
      match e
      case AskUp => l.phase == GoingDown || Failed(l.phase)
      case Started => !Active(l.phase)
      case Stopped => l.phase == WaitRetry
      case Errored => l.phase == WaitRetry || l.phase == Down
      case _ => false
  {
  }

  /** The driver is started exactly when a link at rest goes up, by request or after its retry
      delay; it is stopped when a link that is not at rest is asked to go down for the first time,
      and once more when it stops without having been asked. */
  lemma DriverIsCalled(l: Link, e: Event)
    requires Enabled(l, e) && Apply(l, e).Some?
    ensures var call := Apply(l, e).value.1;
      && (call == Start <==>
            (e == AskUp && (l.phase == Down || l.phase == WaitRetry)) || (e == Timer && l.phase == WaitRetry))
      && (call == Stop <==>
            || (e == AskDown && (Active(l.phase) || l.phase == UpError))
            || (e == Stopped && l.phase == Up)
            || e == StopAgain)
  {
  }

  /** A stop that was asked for, or that ends a working link, leaves it down. Any other stop leads
      to another attempt if one is allowed, and to `Error` if not. */
  lemma StopIsAnswered(l: Link)
    requires l.phase != WaitRetry
    ensures Apply(l, Stopped).Some?
    ensures var m := Apply(l, Stopped).value.0;
      if l.phase == Down || l.phase == GoingDown || l.phase == Up then m.phase == Down
      else if (l.retryDelay > 0 && l.maxRetries == 0) || l.retries < l.maxRetries then m.phase == WaitRetry && m.timer
      else m.phase == Error
  {
  }

  // ------------------------------------------------------------- the send timeout

  /** A frame the driver has not confirmed is watched by the timer. */
  predicate Watched(l: Link) {
    l.phase == Up && !l.sendMore ==> l.timer
  }

  /** A second error report moves a failed link to `Error` although its driver still runs. That is
      harmless only because nothing asks an `Error` link to wait for a retry: */
  lemma WaitingWouldRestart()
    ensures var l := Run(Initial(1, 0), [AskUp, Errored, Errored]);
      && l.Some? && l.value.phase == Error && Running(l.value.log)
      && var w := SetState(l.value, WaitRetry);
         w.Some? && w.value.0.phase == WaitRetry && Running(w.value.0.log)
  {
    var l0 := Initial(1, 0);
    var l1 := Apply(l0, AskUp).value.0;
    var l2 := Apply(l1, Errored).value.0;
    var l3 := Apply(l2, Errored).value.0;
    assert Run(l3, []) == Some(l3);
    assert [Errored][1..] == [];
    assert Run(l2, [Errored]) == Some(l3);
    assert [Errored, Errored][1..] == [Errored];
    assert Run(l1, [Errored, Errored]) == Some(l3);
    assert [AskUp, Errored, Errored][1..] == [Errored, Errored];
  }

  /** The watch survives every event except a redundant request to go up while a frame is
      outstanding, which stops the timer and leaves the link without a send timeout. */
  lemma WatchIffNotAskedUp(l: Link, e: Event)
    requires Inv(l) && Watched(l) && Enabled(l, e) && Apply(l, e).Some?
    ensures Watched(Apply(l, e).value.0) <==> !(e == AskUp && l.phase == Up && !l.sendMore)
  {
  }

  // ------------------------------------------------------------- the object

  lemma {:induction false} RunConcat(l: Link, a: seq<Event>, b: seq<Event>)
    ensures Run(l, a + b) == (match Run(l, a) case None => None case Some(m) => Run(m, b))
    decreases a
  {
    hide Apply;
    if a == [] {
      assert a + b == b;
    } else {
      assert (a + b)[1..] == a[1..] + b;
      if !Enabled(l, a[0]) {
        RunConcat(l, a[1..], b);
      } else {
        match Apply(l, a[0])
        case None =>
        case Some((next, _)) => RunConcat(next, a[1..], b);
      }
    }
  }

  /** A link and the driver below it. The driver answers a call with callbacks made before the
      call returns: its n-th answer is the n-th element of `script`, and it is silent after the
      last. Each callback may call the driver again. */
  class LinkConnect {
    const retryDelay: int
    const maxRetries: int
    var phase: Phase
    var retries: nat
    var timer: bool
    var sendMore: bool
    var aborted: bool
    var script: seq<seq<Event>>
    ghost var log: seq<Mark>

    ghost function State(): Link
      reads this
    {
      Link(retryDelay, maxRetries, phase, retries, timer, sendMore, log)
    }

    ghost predicate Reached(r: Option<Link>)
      reads this
    {
      r == if aborted then None else Some(State())
    }

    predicate Callbacks()
      reads this
    {
      forall i, j | 0 <= i < |script| && 0 <= j < |script[i]| :: IsCallback(script[i][j])
    }

    constructor (delay: int, max: int, answers: seq<seq<Event>>)
      requires forall i, j | 0 <= i < |answers| && 0 <= j < |answers[i]| :: IsCallback(answers[i][j])
      ensures Reached(Some(Initial(delay, max))) && Inv(State()) && Callbacks() && script == answers
    {
      retryDelay, maxRetries, phase, retries := delay, max, Down, 0;
      timer, sendMore, aborted, script, log := false, true, false, answers, [];
    }

    /** The driver's answer to one call, with everything nested in it. */
    method React() returns (ghost done: seq<Event>)
      requires !aborted && Callbacks()
      modifies this
      ensures Callbacks() && |script| <= old(|script|)
      ensures Reached(Run(old(State()), done))
      decreases |script|, 1
    {
      done := [];
      if script == [] {
        return;
      }
      var answer := script[0];
      script := script[1..];
      var n := |script|;
      var k := 0;
      while k < |answer| && !aborted
        invariant 0 <= k <= |answer| && |script| <= n && Callbacks()
        invariant forall j | 0 <= j < |answer| :: IsCallback(answer[j])
        invariant Reached(Run(old(State()), done))
      {
        ghost var more := Handle(answer[k]);
        RunConcat(old(State()), done, more);
        done := done + more;
        k := k + 1;
      }
    }

    /** setState, with the driver's answer nested in the call to it. */
    method ChangeState(want: Phase) returns (ghost done: seq<Event>)
      requires !aborted && Callbacks()
      modifies this
      ensures Callbacks() && |script| <= old(|script|)
      ensures match SetState(old(State()), want)
              case None => aborted && done == []
              case Some((next, _)) => Reached(Run(next, done))
      decreases |script|, 2
    {
      hide Change, Apply, IsCallback;
      done := [];
      if phase == want {
        return;
      }
      if phase == WaitRetry || phase == Up {
        timer := false;
      }
      match Change(phase, want) {
        case Invalid =>
          aborted := true;
        case Go(p, c) =>
          if phase == GoingUp && p == Up {
            retries := 0;
          }
          phase := p;
          if c == Start {
            sendMore := true;
            log := log + [StartCalled];
          }
          if c != Nothing {
            done := React();
          }
        case RetryOrFail =>
          if (retryDelay > 0 && maxRetries == 0) || retries < maxRetries {
            phase := WaitRetry;
            timer := true;
          } else {
            phase := Error;
          }
      }
    }

    /** Any of the events, which is what happens, followed by what the driver answers: a nested
        run is a plain run of the events in the order in which they were raised. */
    method Handle(e: Event) returns (ghost done: seq<Event>)
      requires !aborted && Callbacks() && (IsCallback(e) || Enabled(State(), e))
      modifies this
      ensures Callbacks() && |script| <= old(|script|)
      ensures done != [] && done[0] == e
      ensures Reached(Run(old(State()), done))
      decreases |script|, 3
    {
      hide SetState, Change;
      ghost var rest := [];
      match e {
        case AskUp => rest := ChangeState(GoingUp);
        case AskDown =>
          log := log + [AskedDown];
          rest := ChangeState(GoingDown);
        case Started =>
          log := log + [StartReported];
          rest := ChangeState(Up);
        case Stopped =>
          log := log + [StopReported];
          rest := ChangeState(Down);
        case Errored =>
          log := log + [ErrorReported];
          rest := ChangeState(Error);
        case Timer =>
          timer := false;
          if phase == Up && !sendMore {
            log := log + [SendTimedOut];
            rest := ChangeState(Error);
          } else if phase == WaitRetry {
            retries := retries + 1;
            log := log + [Retried];
            rest := ChangeState(GoingUp);
          }
        case Next =>
          log := log + [MoreAsked];
          sendMore := true;
          if phase == Up {
            timer := false;
          }
        case Send =>
          log := log + [Handed];
          sendMore := false;
          timer := true;
          rest := React();
        case StopAgain => rest := React();
      }
      done := [e] + rest;
      assert done[1..] == rest;
    }
  }
}
