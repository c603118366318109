/** What every run of a server keeps about its fields and the calls that act on them. */
module Phases {
  import opened Wrappers
  import opened Lifecycle

  function Rank(p: Phase): nat {
    match p
    case Initialized => 0
    case Starting(_) => 1
    case FailedToStart => 2
    case Started => 3
    case Draining(_) => 4
    case Stopping(_) => 5
    case Stopped(_) => 6
  }

  predicate Starter(t: Task) {
    t.LoadingSchema? || t.StartingHooks? || t.LoadingLandingPage?
  }

  predicate Stopper(t: Task) {
    t.DrainingServers? || t.Disposing? || t.DisposingLast?
  }

  /** The barriers of a server are determined by its phase: the first is resolved once starting is
      over, and the second only when stopping has failed. */
  predicate BarriersFit(s: Server) {
    && |s.barriers| == (if Rank(s.phase) == 0 then 0 else if Rank(s.phase) <= 3 then 1 else 2)
    && (Rank(s.phase) >= 1 ==> s.barriers[0] == (Rank(s.phase) >= 2))
    && (Rank(s.phase) >= 4 ==> s.barriers[1] == (s.phase.Stopped? && s.phase.stopError.Some?))
    && (s.phase.Starting? ==> s.phase.barrier == 0)
    && (s.phase.Draining? || s.phase.Stopping? ==> s.phase.barrier == 1)
  }

  predicate HandlersFit(s: Server) {
    && (s.toDispose == [] || s.toDispose == [StopSchemaManager] || s.toDispose == [StopSchemaManager, ServerWillStop])
    && (Rank(s.phase) < 3 ==> s.toDisposeLast == [] && !s.listening)
    && (Rank(s.phase) >= 3 ==> s.toDispose != [])
    && (s.toDisposeLast == [] || s.toDisposeLast == SIGNAL_LISTENERS)
    && (s.listening ==> s.toDisposeLast == SIGNAL_LISTENERS && s.phase != Stopped(None))
    && (s.phase == Initialized ==> s.toDispose == [] && s.drainServers == None)
    && (s.drainServers.Some? ==> s.drainServers.value == DrainCallbacks(|s.drainServers.value|))
  }

  /** A call of `stop` that a signal made: the server has listened for signals and received one. */
  predicate Heard(s: Server, signal: Option<Signal>) {
    signal.Some? ==> s.receivedSignal && s.toDisposeLast == SIGNAL_LISTENERS
  }

  predicate TaskFits(s: Server, t: Task) {
    match t
    case LoadingSchema(barrier, _) => s.phase == Starting(barrier) && s.toDispose == [] && s.drainServers == None
    case StartingHooks(barrier, _) =>
      s.phase == Starting(barrier) && s.toDispose == [StopSchemaManager] && s.drainServers == None
    case LoadingLandingPage(barrier, _) => s.phase == Starting(barrier) && s.toDispose != []
    case StartedForOperation => Rank(s.phase) >= 3
    case AwaitingStart(barrier, waits) => barrier == 0 && waits == 1 && Rank(s.phase) >= 1
    case DrainingServers(barrier, signal) => s.phase == Draining(barrier) && Heard(s, signal)
    case Disposing(barrier, signal) => s.phase == Stopping(barrier) && Heard(s, signal)
    case DisposingLast(barrier, signal) => s.phase == Stopping(barrier) && Heard(s, signal) && !s.listening
    case AwaitingStop(barrier, signal) => barrier == 1 && Rank(s.phase) >= 4 && Heard(s, signal)
    case _ => true
  }

  predicate ServerFits(s: Server) {
    BarriersFit(s) && HandlersFit(s)
  }

  /** At most one call is starting the server, and at most one is stopping it. */
  predicate Alone(tasks: seq<Task>) {
    && (forall i, j | 0 <= i < j < |tasks| :: !(Starter(tasks[i]) && Starter(tasks[j])))
    && (forall i, j | 0 <= i < j < |tasks| :: !(Stopper(tasks[i]) && Stopper(tasks[j])))
  }

  predicate Fits(w: World) {
    && ServerFits(w.server)
    && (forall i | 0 <= i < |w.tasks| :: TaskFits(w.server, w.tasks[i]))
    && Alone(w.tasks)
  }

  /** The phase may only change to a later one, and two phases have none after them. */
  predicate Advances(p: Phase, q: Phase) {
    p == q || (Rank(p) < Rank(q) && !p.FailedToStart? && (q.FailedToStart? ==> Rank(p) <= 1))
  }

  /** A segment keeps what every other call relies on; the call that runs it may be the only one
      to rely on the phase it leaves. */
  ghost predicate SegmentFits(s: Server, starter: bool, stopper: bool, g: Segment) {
    && ServerFits(g.server) && TaskFits(g.server, g.task) && Advances(s.phase, g.server.phase)
    && (Starter(g.task) ==> starter) && (Stopper(g.task) ==> stopper)
    && (forall t | TaskFits(s, t) && !(starter && Starter(t)) && !(stopper && Stopper(t)) :: TaskFits(g.server, t))
  }

  lemma StartCallFits(s: Server, forOperation: bool)
    requires ServerFits(s)
    ensures SegmentFits(s, s.phase == Initialized, false, StartCall(s, forOperation))
  {
  }

  lemma EnsureFits(s: Server, waits: nat)
    requires ServerFits(s) && (s.phase.Starting? ==> waits == 0)
    ensures SegmentFits(s, false, false, Ensure(s, waits))
  {
  }

  lemma StopCallFits(s: Server, signal: Option<Signal>)
    requires ServerFits(s) && Heard(s, signal)
    ensures SegmentFits(s, false, s.phase == Started, StopCall(s, signal))
  {
  }

  lemma LaunchFits(s: Server, barrier: nat, forOperation: bool)
    requires ServerFits(s) && s.phase == Starting(barrier) && s.toDispose != []
    ensures SegmentFits(s, true, false, Launch(s, barrier, forOperation))
  {
  }

  lemma StartFailsFits(s: Server, barrier: nat, reason: Reason)
    requires ServerFits(s) && s.phase == Starting(barrier)
    ensures SegmentFits(s, true, false, StartFails(s, barrier, reason))
  {
  }

  lemma SchemaLoadedFits(s: Server, barrier: nat, forOperation: bool, load: SchemaLoad)
    requires ServerFits(s) && TaskFits(s, LoadingSchema(barrier, forOperation))
    ensures SegmentFits(s, true, false, SchemaLoaded(s, barrier, forOperation, load))
  {
    hide StartFails;
    var managed := s.(toDispose := s.toDispose + [StopSchemaManager]);
    assert managed.toDispose == [StopSchemaManager];
    if load.NotLoaded? {
      StartFailsFits(s, barrier, load.reason);
    } else if load.NoSchema? {
      StartFailsFits(managed, barrier, load.reason);
    }
  }

  lemma RegisterFits(s: Server, barrier: nat, willStop: bool, drains: nat)
    requires ServerFits(s) && s.phase == Starting(barrier) && s.toDispose == [StopSchemaManager]
    ensures ServerFits(Register(s, willStop, drains)) && Register(s, willStop, drains).phase == s.phase
    ensures Register(s, willStop, drains).toDispose != []
    ensures forall t | TaskFits(s, t) && !Starter(t) :: TaskFits(Register(s, willStop, drains), t)
  {
    assert [StopSchemaManager] + [ServerWillStop] == [StopSchemaManager, ServerWillStop];
  }

  lemma HooksStartedFits(s: Server, barrier: nat, forOperation: bool, listeners: Listeners)
    requires ServerFits(s) && TaskFits(s, StartingHooks(barrier, forOperation))
    ensures SegmentFits(s, true, false, HooksStarted(s, barrier, forOperation, listeners))
  {
    hide StartFails, Launch, Register, ServerFits;
    match listeners
    case Rejected(reason) => StartFailsFits(s, barrier, reason);
    case Registered(willStop, drains, landingPage) =>
      RegisterFits(s, barrier, willStop, drains);
      LaunchFits(Register(s, willStop, drains), barrier, forOperation);
      StartFailsFits(Register(s, willStop, drains), barrier, ManyLandingPageRenderers);
  }

  lemma LandingPageLoadedFits(s: Server, barrier: nat, forOperation: bool, outcome: Outcome)
    requires ServerFits(s) && TaskFits(s, LoadingLandingPage(barrier, forOperation))
    ensures SegmentFits(s, true, false, LandingPageLoaded(s, barrier, forOperation, outcome))
  {
    LaunchFits(s, barrier, forOperation);
    if outcome.Err? {
      StartFailsFits(s, barrier, outcome.reason);
    }
  }

  lemma StarterFits(w: World, task: Task, e: Event)
    requires ServerFits(w.server) && TaskFits(w.server, task) && Starter(task)
    requires TaskStep(w, task, e).Some?
    ensures SegmentFits(w.server, true, false, TaskStep(w, task, e).value)
  {
    hide SchemaLoaded, HooksStarted, LandingPageLoaded, SegmentFits, ServerFits;
    match task
    case LoadingSchema(barrier, forOperation) => SchemaLoadedFits(w.server, barrier, forOperation, e.load);
    case StartingHooks(barrier, forOperation) => HooksStartedFits(w.server, barrier, forOperation, e.listeners);
    case LoadingLandingPage(barrier, forOperation) => LandingPageLoadedFits(w.server, barrier, forOperation, e.outcome);
    case _ =>
  }

  lemma StopFailsFits(s: Server, barrier: nat, signal: Option<Signal>, reason: Reason)
    requires ServerFits(s) && (s.phase == Draining(barrier) || s.phase == Stopping(barrier))
    ensures SegmentFits(s, false, true, StopFails(s, barrier, signal, reason))
  {
  }

  lemma StopProceedsFits(s: Server, barrier: nat, signal: Option<Signal>)
    requires ServerFits(s) && Heard(s, signal)
    ensures s.phase == Draining(barrier) ==> SegmentFits(s, false, true, Drained(s, barrier, signal, Ok))
    ensures s.phase == Stopping(barrier) ==> SegmentFits(s, false, true, Disposed(s, barrier, signal, Ok))
    ensures s.phase == Stopping(barrier) && !s.listening ==>
              SegmentFits(s, false, true, DisposedLast(s, barrier, signal, Ok))
  {
    hide BeginAll;
  }

  lemma StopperFits(w: World, task: Task, e: Event)
    requires ServerFits(w.server) && TaskFits(w.server, task) && Stopper(task)
    requires TaskStep(w, task, e).Some?
    ensures SegmentFits(w.server, false, true, TaskStep(w, task, e).value)
  {
    hide All, StopFails, SegmentFits, ServerFits;
    StopProceedsFits(w.server, task.barrier, task.signal);
    var outcome := All(w.log, if task.DrainingServers? then Drains(w.server) else
                              if task.Disposing? then w.server.toDispose else w.server.toDisposeLast).value;
    if outcome.Err? {
      StopFailsFits(w.server, task.barrier, task.signal, outcome.reason);
    }
  }

  lemma WaiterFits(w: World, task: Task, e: Event)
    requires ServerFits(w.server) && TaskFits(w.server, task) && !Starter(task) && !Stopper(task)
    requires TaskStep(w, task, e).Some?
    ensures SegmentFits(w.server, false, false, TaskStep(w, task, e).value)
    ensures TaskStep(w, task, e).value.task != task && Surprises !in TaskStep(w, task, e).value.items
  {
    hide All, BeginAll;
  }

  lemma TaskStepFits(w: World, task: Task, e: Event)
    requires ServerFits(w.server) && TaskFits(w.server, task)
    requires TaskStep(w, task, e).Some?
    ensures SegmentFits(w.server, Starter(task), Stopper(task), TaskStep(w, task, e).value)
  {
    hide TaskStep, SegmentFits;
    if Starter(task) {
      StarterFits(w, task, e);
    } else if Stopper(task) {
      StopperFits(w, task, e);
    } else {
      WaiterFits(w, task, e);
    }
  }

  lemma SpawnFits(w: World, g: Segment)
    requires Fits(w)
    requires SegmentFits(w.server, w.server.phase == Initialized, w.server.phase == Started, g)
    ensures Fits(Spawn(w, g))
  {
    hide ServerFits;
    forall i | 0 <= i < |w.tasks|
      ensures TaskFits(w.server, w.tasks[i])
      ensures w.server.phase == Initialized ==> !Starter(w.tasks[i])
      ensures w.server.phase == Started ==> !Stopper(w.tasks[i])
    {
    }
  }

  lemma ContinueFits(w: World, i: nat, g: Segment)
    requires Fits(w) && i < |w.tasks|
    requires SegmentFits(w.server, Starter(w.tasks[i]), Stopper(w.tasks[i]), g)
    ensures Fits(Continue(w, i, g))
  {
    hide ServerFits;
    hide TaskFits;
    var next := Continue(w, i, g);
    forall k | 0 <= k < |next.tasks|
      ensures TaskFits(next.server, next.tasks[k])
    {
    }
  }

  lemma FitsServer(w: World)
    requires Fits(w)
    ensures ServerFits(w.server) && forall i | 0 <= i < |w.tasks| :: TaskFits(w.server, w.tasks[i])
  {
  }

  lemma StepFits(w: World, e: Event)
    requires Fits(w)
    ensures Fits(Step(w, e))
    ensures Advances(w.server.phase, Step(w, e).server.phase)
  {
    var s := w.server;
    hide StartCall, StopCall, Ensure, TaskStep, Alone;
    match e
    case Start =>
      StartCallFits(s, false);
      SpawnFits(w, StartCall(s, false));
    case Stop =>
      StopCallFits(s, None);
      SpawnFits(w, StopCall(s, None));
    case Operation =>
      StartCallFits(s, true);
      EnsureFits(s, 0);
      SpawnFits(w, OperationCall(s));
    case Ensuring =>
      EnsureFits(s, 0);
      SpawnFits(w, Ensure(s, 0));
    case Signalled(signal) =>
      if s.listening && !s.receivedSignal {
        var heard := s.(receivedSignal := true);
        HeardFits(w);
        FitsServer(w);
        StopCallFits(heard, Some(signal));
        SpawnFits(w.(server := heard), StopCall(heard, Some(signal)));
      }
    case HandlerSettles(_, _) =>
    case _ =>
      if e.task < |w.tasks| && TaskStep(w, w.tasks[e.task], e).Some? {
        TaskStepFits(w, w.tasks[e.task], e);
        ContinueFits(w, e.task, TaskStep(w, w.tasks[e.task], e).value);
      }
  }

  lemma HeardFits(w: World)
    requires Fits(w)
    ensures Fits(w.(server := w.server.(receivedSignal := true)))
  {
  }

  /** The segments of starting enter phases and do nothing else that is recorded. */
  predicate OnlyEnters(s: Server, g: Segment) {
    && (forall i | 0 <= i < |g.items| :: g.items[i].Enters?)
    && !g.server.phase.Stopped? && g.server.receivedSignal == s.receivedSignal
    && !Stopper(g.task) && !g.task.AwaitingStop?
  }

  lemma StarterEnters(w: World, task: Task, e: Event)
    requires TaskFits(w.server, task) && Starter(task) && TaskStep(w, task, e).Some?
    ensures OnlyEnters(w.server, TaskStep(w, task, e).value)
  {
    var s := w.server;
    hide TaskFits, Launch, StartFails, OnlyEnters;
    assert s.phase.Starting? by {
      StarterPhase(s, task);
    }
    var registered := if e.HooksStart? && e.listeners.Registered?
                      then Register(s, e.listeners.willStop, e.listeners.drains) else s;
    StartEndsEnters(s, s, task);
    StartEndsEnters(s, registered, task);
    StartEndsEnters(s, s.(toDispose := s.toDispose + [StopSchemaManager]), task);
  }

  lemma StarterPhase(s: Server, task: Task)
    requires TaskFits(s, task) && Starter(task)
    ensures s.phase == Starting(task.barrier)
  {
  }

  lemma StartEndsEnters(s: Server, t: Server, task: Task)
    requires Starter(task) && t.phase.Starting? && t.receivedSignal == s.receivedSignal
    ensures forall reason | task.barrier < |t.barriers| :: OnlyEnters(s, StartFails(t, task.barrier, reason))
    ensures task.barrier < |t.barriers| ==> OnlyEnters(s, Launch(t, task.barrier, task.forOperation))
    ensures forall next | Starter(next) :: OnlyEnters(s, Segment(t, next, []))
  {
  }

  lemma {:induction false} RunFits(signals: bool, events: seq<Event>)
    ensures Fits(Run(NewWorld(signals), events))
    decreases |events|
  {
    if events != [] {
      RunFits(signals, events[..|events| - 1]);
      StepFits(Run(NewWorld(signals), events[..|events| - 1]), events[|events| - 1]);
    }
  }

  /** The phase only moves forward. */
  lemma {:induction false} PhaseAdvances(signals: bool, events: seq<Event>, n: nat)
    requires n <= |events|
    ensures Advances(Run(NewWorld(signals), events[..n]).server.phase, Run(NewWorld(signals), events).server.phase)
    decreases |events|
  {
    if n < |events| {
      var before := events[..|events| - 1];
      assert events[..n] == before[..n];
      PhaseAdvances(signals, before, n);
      RunFits(signals, before);
      StepFits(Run(NewWorld(signals), before), events[|events| - 1]);
    } else {
      assert events[..n] == events;
    }
  }

  /** No call of `_ensureStarted` waits for the barrier a second time. */
  lemma EnsureWaitsOnce(signals: bool, events: seq<Event>, i: nat)
    requires i < |Run(NewWorld(signals), events).tasks|
    ensures var t := Run(NewWorld(signals), events).tasks[i]; t.AwaitingStart? ==> t.waits == 1
  {
    RunFits(signals, events);
  }
}
