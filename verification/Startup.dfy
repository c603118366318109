/** How starting ends, and what it registers. */
module Startup {
  import opened Wrappers
  import opened Lifecycle
  import opened Phases

  // ---------------------------------------------------------------- how starting ends

  /** A call of `start` makes a barrier and begins if the server is new; otherwise it fails and
      changes nothing. `executeOperation` does the same on a new server. */
  lemma StartBegins(w: World, e: Event)
    requires e.Start? || (e.Operation? && w.server.phase == Initialized)
    ensures var next := Step(w, e); var i, b := |w.tasks|, |w.server.barriers|;
            && |next.tasks| == i + 1
            && (w.server.phase == Initialized ==>
                  && next.server == w.server.(phase := Starting(b), barriers := w.server.barriers + [false])
                  && next.tasks[i] == LoadingSchema(b, e.Operation?)
                  && next.log == w.log + [Enters(Starting(b))])
            && (w.server.phase != Initialized ==>
                  next.server == w.server && next.log == w.log && next.tasks[i] == Ended(Err(SurprisingStartState)))
  {
  }

  /** The event that the starting call awaits. */
  predicate Awaited(w: World, e: Event) {
    match e
    case SchemaLoads(i, _) => i < |w.tasks| && w.tasks[i].LoadingSchema?
    case HooksStart(i, _) => i < |w.tasks| && w.tasks[i].StartingHooks?
    case LandingPageLoads(i, _) => i < |w.tasks| && w.tasks[i].LoadingLandingPage?
    case _ => false
  }

  /** Why the event makes starting fail, if it does. */
  function Failure(e: Event): Option<Reason> {
    match e
    case SchemaLoads(_, NotLoaded(reason)) => Some(reason)
    case SchemaLoads(_, NoSchema(reason)) => Some(reason)
    case HooksStart(_, Rejected(reason)) => Some(reason)
    case HooksStart(_, Registered(_, _, ManyLandingPages)) => Some(ManyLandingPageRenderers)
    case LandingPageLoads(_, Err(reason)) => Some(reason)
    case _ => None
  }

  predicate Finishes(e: Event) {
    e.LandingPageLoads? || (e.HooksStart? && e.listeners.Registered? && e.listeners.landingPage.NoLandingPage?)
  }

  /** Starting fails, and the call reports why; it ends, and the server listens for signals if it is
      to; or it goes on. When it is over those who wait may go on. */
  predicate StartGoesOn(w: World, next: World, e: Event)
    requires Awaited(w, e)
  {
    var s, t, task := w.server, next.server, w.tasks[e.task];
    && |next.tasks| == |w.tasks|
    && match Failure(e)
       case Some(reason) =>
         && t.phase == FailedToStart && Resolved(t, task.barrier)
         && next.tasks[e.task] == Ended(Err(reason)) && next.log == w.log + [Enters(FailedToStart)]
       case None =>
         if Finishes(e) then
           && t.phase == Started && Resolved(t, task.barrier) && t.listening == s.stopOnTerminationSignals
           && next.tasks[e.task] == (if task.forOperation then StartedForOperation else Ended(Ok))
           && next.log == w.log + [Enters(Started)]
         else
           && t.phase == s.phase && t.barriers == s.barriers && next.log == w.log
           && next.tasks[e.task] == (if e.SchemaLoads? then StartingHooks(task.barrier, task.forOperation)
                                     else LoadingLandingPage(task.barrier, task.forOperation))
  }

  /** In every run, starting fails with the first thing that goes wrong, and the call reports it; if
      nothing does, the server has started after its landing page has been loaded, or at once if there
      is none. */
  lemma StartingEnds(signals: bool, events: seq<Event>, e: Event)
    requires Awaited(Run(NewWorld(signals), events), e)
    ensures var w := Run(NewWorld(signals), events);
            StartGoesOn(w, Step(w, e), e) && w.server.stopOnTerminationSignals == signals
  {
    RunFits(signals, events);
    RunKeepsSignals(signals, events);
    var w := Run(NewWorld(signals), events);
    FitsServer(w);
    StarterPhase(w.server, w.tasks[e.task]);
    hide Run, Fits, Alone;
    BarrierThere(w.server);
    match e
    case SchemaLoads(_, _) => SchemaGoesOn(w, e);
    case HooksStart(_, _) => HooksGoOn(w, e);
    case LandingPageLoads(_, _) => PageGoesOn(w, e);
    case _ =>
  }

  lemma BarrierThere(s: Server)
    requires ServerFits(s) && s.phase.Starting?
    ensures s.phase.barrier < |s.barriers| && s.toDisposeLast == [] && !s.listening
  {
  }

  lemma SchemaGoesOn(w: World, e: Event)
    requires Awaited(w, e) && e.SchemaLoads? && w.tasks[e.task].barrier < |w.server.barriers|
    ensures StartGoesOn(w, Step(w, e), e)
  {
  }

  lemma HooksGoOn(w: World, e: Event)
    requires Awaited(w, e) && e.HooksStart? && w.tasks[e.task].barrier < |w.server.barriers| && !w.server.listening
    ensures StartGoesOn(w, Step(w, e), e)
  {
  }

  lemma PageGoesOn(w: World, e: Event)
    requires Awaited(w, e) && e.LandingPageLoads? && w.tasks[e.task].barrier < |w.server.barriers|
    requires !w.server.listening
    ensures StartGoesOn(w, Step(w, e), e)
  {
  }

  predicate SameSetting(s: Server, t: Server) {
    s.stopOnTerminationSignals == t.stopOnTerminationSignals
  }

  lemma CallsKeepSetting(s: Server, forOperation: bool, signal: Option<Signal>)
    ensures SameSetting(s, StartCall(s, forOperation).server) && SameSetting(s, StopCall(s, signal).server)
    ensures SameSetting(s, Ensure(s, 0).server)
  {
  }

  lemma CallKeepsSetting(w: World, task: Task, e: Event)
    requires TaskStep(w, task, e).Some?
    ensures SameSetting(w.server, TaskStep(w, task, e).value.server)
  {
    hide All, BeginAll;
  }

  lemma StepKeepsSetting(w: World, e: Event)
    ensures SameSetting(w.server, Step(w, e).server)
  {
    hide StartCall, StopCall, Ensure, TaskStep, Settled;
    CallsKeepSetting(w.server, e.Operation?, None);
    if e.Signalled? {
      CallsKeepSetting(w.server.(receivedSignal := true), false, Some(e.signal));
    } else if (e.SchemaLoads? || e.HooksStart? || e.LandingPageLoads? || e.Resumes?) && e.task < |w.tasks| {
      if TaskStep(w, w.tasks[e.task], e).Some? {
        CallKeepsSetting(w, w.tasks[e.task], e);
      }
    }
  }

  lemma {:induction false} RunKeepsSignals(signals: bool, events: seq<Event>)
    ensures Run(NewWorld(signals), events).server.stopOnTerminationSignals == signals
    decreases |events|
  {
    if events != [] {
      hide Step;
      RunKeepsSignals(signals, events[..|events| - 1]);
      StepKeepsSetting(Run(NewWorld(signals), events[..|events| - 1]), events[|events| - 1]);
    }
  }

  // ---------------------------------------------------------------- what is registered

  /** What the listeners have asked for: `serverWillStop`, and so many drain callbacks. */
  datatype Asking = Asking(willStop: bool, drains: nat)

  /** What the hooks asked for when they had started, if they have. */
  function Asked(signals: bool, events: seq<Event>): Option<Asking>
    decreases |events|
  {
    if events == [] then None
    else
      var before, e := events[..|events| - 1], events[|events| - 1];
      if e.HooksStart? && e.listeners.Registered? && Awaited(Run(NewWorld(signals), before), e)
      then Some(Asking(e.listeners.willStop, e.listeners.drains))
      else Asked(signals, before)
  }

  /** The handlers are those that were asked for, and no others. */
  predicate RegisteredFor(s: Server, asking: Asking) {
    && s.toDispose == [StopSchemaManager] + (if asking.willStop then [ServerWillStop] else [])
    && |Drains(s)| == asking.drains
    && (forall n | 0 <= n < asking.drains :: Drains(s)[n] == DrainServer(n))
  }

  predicate SignalsFor(s: Server, signals: bool) {
    s.toDisposeLast == if signals then [RemoveListener(SIGINT), RemoveListener(SIGTERM)] else []
  }

  predicate AskedFits(w: World, asked: Option<Asking>) {
    match asked
    case None =>
      && Rank(w.server.phase) < 3 && w.server.drainServers == None
      && (w.server.toDispose == [] || w.server.toDispose == [StopSchemaManager])
      && (forall i | 0 <= i < |w.tasks| :: !w.tasks[i].LoadingLandingPage?)
    case Some(asking) =>
      && RegisteredFor(w.server, asking)
      && (forall i | 0 <= i < |w.tasks| :: !w.tasks[i].StartingHooks?)
  }

  /** The segment registers nothing, starts no server and awaits no step of starting but the first. */
  predicate RegistersNothing(s: Server, g: Segment) {
    && s.toDispose == g.server.toDispose && s.toDisposeLast == g.server.toDisposeLast
    && s.drainServers == g.server.drainServers
    && (Rank(s.phase) < 3 ==> Rank(g.server.phase) < 3)
    && !g.task.LoadingLandingPage? && !g.task.StartingHooks?
  }

  lemma CallsRegisterNothing(s: Server, forOperation: bool, waits: nat, signal: Option<Signal>)
    ensures RegistersNothing(s, StartCall(s, forOperation)) && RegistersNothing(s, Ensure(s, waits))
    ensures RegistersNothing(s, StopCall(s, signal))
  {
    hide BeginAll;
  }

  lemma StopperRegistersNothing(w: World, task: Task, e: Event)
    requires TaskFits(w.server, task) && Stopper(task) && TaskStep(w, task, e).Some?
    ensures RegistersNothing(w.server, TaskStep(w, task, e).value)
  {
    hide All, BeginAll;
  }

  lemma WaiterRegistersNothing(w: World, task: Task, e: Event)
    requires !Starter(task) && !Stopper(task) && TaskStep(w, task, e).Some?
    ensures RegistersNothing(w.server, TaskStep(w, task, e).value)
  {
    hide All, BeginAll, Ensure;
    CallsRegisterNothing(w.server, false, if task.AwaitingStart? then task.waits else 0, None);
  }

  lemma HandlersStay(w: World, e: Event)
    requires Fits(w) && !Awaited(w, e)
    ensures var s, t := w.server, Step(w, e).server;
            s.toDispose == t.toDispose && s.toDisposeLast == t.toDisposeLast && s.drainServers == t.drainServers
    ensures Rank(w.server.phase) >= 3 || Rank(Step(w, e).server.phase) < 3
    ensures forall i | 0 <= i < |Step(w, e).tasks| ::
              (!Step(w, e).tasks[i].LoadingLandingPage? && !Step(w, e).tasks[i].StartingHooks?) ||
              (i < |w.tasks| && Step(w, e).tasks[i] == w.tasks[i])
  {
    FitsServer(w);
    CallsRegisterNothing(w.server, e.Operation?, 0, None);
    if e.Signalled? {
      CallsRegisterNothing(w.server.(receivedSignal := true), false, 0, Some(e.signal));
    } else if (e.SchemaLoads? || e.HooksStart? || e.LandingPageLoads? || e.Resumes?) && e.task < |w.tasks| {
      if TaskStep(w, w.tasks[e.task], e).Some? {
        CallRegistersNothing(w, w.tasks[e.task], e);
      }
    }
    hide StartCall, StopCall, Ensure, TaskStep, Fits, ServerFits, TaskFits, Settled;
  }

  lemma CallRegistersNothing(w: World, task: Task, e: Event)
    requires TaskFits(w.server, task) && TaskStep(w, task, e).Some?
    requires Starter(task) ==> e.Resumes?
    ensures RegistersNothing(w.server, TaskStep(w, task, e).value)
  {
    if Stopper(task) {
      StopperRegistersNothing(w, task, e);
    } else if !Starter(task) {
      WaiterRegistersNothing(w, task, e);
    }
    hide Resume;
  }

  lemma HooksRegister(w: World, e: Event)
    requires Fits(w) && Awaited(w, e) && e.HooksStart? && e.listeners.Registered?
    ensures RegisteredFor(Step(w, e).server, Asking(e.listeners.willStop, e.listeners.drains))
    ensures forall i | 0 <= i < |Step(w, e).tasks| :: !Step(w, e).tasks[i].StartingHooks?
  {
    FitsServer(w);
    StarterPhase(w.server, w.tasks[e.task]);
    BarrierThere(w.server);
    OnlyStarter(w, e.task);
    HooksRegistered(w.server, w.tasks[e.task], e.listeners);
    hide ServerFits, Fits, HooksStarted, RegisteredFor;
  }

  lemma OnlyStarter(w: World, i: nat)
    requires Fits(w) && i < |w.tasks| && Starter(w.tasks[i])
    ensures forall j | 0 <= j < |w.tasks| && j != i :: !Starter(w.tasks[j])
  {
  }

  lemma HooksRegistered(s: Server, task: Task, listeners: Listeners)
    requires task.StartingHooks? && TaskFits(s, task) && listeners.Registered? && task.barrier < |s.barriers|
    ensures var g := HooksStarted(s, task.barrier, task.forOperation, listeners);
            RegisteredFor(g.server, Asking(listeners.willStop, listeners.drains)) && !g.task.StartingHooks?
  {
    CallbacksRegister(s, listeners.willStop, listeners.drains);
    hide Register, DrainCallbacks;
  }

  lemma CallbacksRegister(s: Server, willStop: bool, drains: nat)
    requires s.toDispose == [StopSchemaManager] && s.drainServers == None
    ensures RegisteredFor(Register(s, willStop, drains), Asking(willStop, drains))
  {
    assert [StopSchemaManager] + [] == [StopSchemaManager];
  }

  /** The other events that starting awaits: they register the schema manager's handler first, and
      the signal listeners last. */
  lemma OthersRegister(w: World, e: Event)
    requires Fits(w) && Awaited(w, e) && !(e.HooksStart? && e.listeners.Registered?)
    ensures var s, t := w.server, Step(w, e).server;
            && s.drainServers == t.drainServers
            && (t.toDispose == s.toDispose ||
                (e.SchemaLoads? && s.toDispose == [] && t.toDispose == [StopSchemaManager]))
            && (Rank(t.phase) >= 3 ==> e.LandingPageLoads?)
    ensures forall i | 0 <= i < |Step(w, e).tasks| ::
              && !Step(w, e).tasks[i].LoadingLandingPage?
              && (Step(w, e).tasks[i].StartingHooks? ==>
                    i < |w.tasks| && (e.SchemaLoads? || Step(w, e).tasks[i] == w.tasks[i]))
  {
    FitsServer(w);
    StarterPhase(w.server, w.tasks[e.task]);
    OnlyStarter(w, e.task);
    hide ServerFits, Fits;
  }

  lemma StepFitsAsked(signals: bool, w: World, e: Event, asked: Option<Asking>)
    requires Fits(w) && AskedFits(w, asked)
    ensures AskedFits(Step(w, e),
                      if e.HooksStart? && e.listeners.Registered? && Awaited(w, e)
                      then Some(Asking(e.listeners.willStop, e.listeners.drains)) else asked)
  {
    hide Step, Fits;
    if !Awaited(w, e) {
      HandlersStay(w, e);
    } else if e.HooksStart? && e.listeners.Registered? {
      HooksRegister(w, e);
    } else {
      FitsServer(w);
      OthersRegister(w, e);
    }
  }

  lemma ListenersSet(w: World, e: Event)
    requires Fits(w)
    requires Rank(w.server.phase) >= 3 ==> SignalsFor(w.server, w.server.stopOnTerminationSignals)
    ensures Rank(Step(w, e).server.phase) >= 3 ==>
              SignalsFor(Step(w, e).server, w.server.stopOnTerminationSignals)
  {
    FitsServer(w);
    if Awaited(w, e) {
      StarterPhase(w.server, w.tasks[e.task]);
      BarrierThere(w.server);
      assert [] + SIGNAL_LISTENERS == SIGNAL_LISTENERS;
      hide Fits, ServerFits;
    } else {
      HandlersStay(w, e);
      hide Step, Fits, ServerFits;
    }
  }

  lemma {:induction false} RunFitsAsked(signals: bool, events: seq<Event>)
    ensures AskedFits(Run(NewWorld(signals), events), Asked(signals, events))
    ensures Rank(Run(NewWorld(signals), events).server.phase) >= 3 ==>
              SignalsFor(Run(NewWorld(signals), events).server, signals)
    decreases |events|
  {
    if events != [] {
      var before, e := events[..|events| - 1], events[|events| - 1];
      RunFits(signals, before);
      RunKeepsSignals(signals, before);
      RunFitsAsked(signals, before);
      hide Step, Fits, AskedFits, SignalsFor;
      StepFitsAsked(signals, Run(NewWorld(signals), before), e, Asked(signals, before));
      ListenersSet(Run(NewWorld(signals), before), e);
    }
  }

  /** In every run, once the server has started, its handlers are those that its listeners asked for,
      before them the schema manager's, and after them the signal listeners' if it listens to
      signals. */
  lemma RegistersWhatIsAsked(signals: bool, events: seq<Event>)
    requires Rank(Run(NewWorld(signals), events).server.phase) >= 3
    ensures var s := Run(NewWorld(signals), events).server;
            Asked(signals, events).Some? && RegisteredFor(s, Asked(signals, events).value) && SignalsFor(s, signals)
  {
    RunFitsAsked(signals, events);
  }
}
