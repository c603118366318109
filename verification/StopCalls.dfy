/** What the calls of `stop` report in every run, and which of them never end. */
module StopCalls {
  import opened Wrappers
  import opened Lifecycle
  import opened Phases

  function ReportsOf(log: seq<Item>): seq<Outcome> {
    if log == [] then []
    else ReportsOf(log[..|log| - 1]) +
         match log[|log| - 1]
         case Reports(outcome) => [outcome]
         case _ => []
  }

  lemma {:induction false} ReportsOfGrows(log: seq<Item>, more: seq<Item>)
    ensures ReportsOf(log + more) == ReportsOf(log) + ReportsOf(more)
    decreases |more|
  {
    if more == [] {
      assert log + more == log;
    } else {
      assert (log + more)[..|log + more| - 1] == log + more[..|more| - 1];
      ReportsOfGrows(log, more[..|more| - 1]);
    }
  }

  lemma {:induction false} NoReports(items: seq<Item>)
    requires forall i | 0 <= i < |items| :: !items[i].Reports?
    ensures ReportsOf(items) == []
    decreases |items|
  {
    if items != [] {
      NoReports(items[..|items| - 1]);
    }
  }

  /** The first report is what stopping came to, and every other is what the stored error gives. */
  predicate ReportsFit(phase: Phase, reports: seq<Outcome>) {
    if phase.Stopped? then
      && reports != [] && reports[0] == First(phase.stopError)
      && (forall k | 1 <= k < |reports| :: reports[k] == Later(phase.stopError))
    else reports == []
  }

  predicate ReportsRight(s: Server, g: Segment) {
    var reports := ReportsOf(g.items);
    && (s.phase.Stopped? ==> g.server.phase == s.phase && (reports == [] || reports == [Later(s.phase.stopError)]))
    && (!s.phase.Stopped? ==>
          reports == if g.server.phase.Stopped? then [First(g.server.phase.stopError)] else [])
    && Surprises !in g.items
  }

  lemma StopEndsReports(s: Server, signal: Option<Signal>, outcome: Outcome, before: seq<Item>)
    requires forall i | 0 <= i < |before| :: !before[i].Reports?
    ensures ReportsOf(StopEnds(s, signal, outcome, before).items) == [outcome]
  {
    var tail: seq<Item> := match signal
      case None => []
      case Some(sig) => if outcome == Ok then [Resends(sig)] else [Exits];
    NoReports(before);
    NoReports(tail);
    ReportsOfGrows(before, [Reports(outcome)]);
    ReportsOfGrows(before + [Reports(outcome)], tail);
    assert ReportsOf([Reports(outcome)]) == [outcome] by {
      assert [Reports(outcome)][..0] == [];
    }
  }

  lemma QuietReports(s: Server, g: Segment)
    requires forall i | 0 <= i < |g.items| :: !g.items[i].Reports? && !g.items[i].Surprises?
    requires if s.phase.Stopped? then g.server.phase == s.phase else !g.server.phase.Stopped?
    ensures ReportsRight(s, g)
  {
    NoReports(g.items);
  }

  lemma EnsureReports(s: Server, waits: nat)
    ensures ReportsRight(s, Ensure(s, waits))
  {
    QuietReports(s, Ensure(s, waits));
  }

  lemma StopCallReports(s: Server, signal: Option<Signal>)
    ensures ReportsRight(s, StopCall(s, signal))
  {
    hide ReportsOf;
    if s.phase.Stopped? {
      StopEndsReports(s, signal, Later(s.phase.stopError), []);
    } else {
      QuietReports(s, StopCall(s, signal));
    }
  }

  lemma StarterReports(w: World, task: Task, e: Event)
    requires TaskFits(w.server, task) && Starter(task) && TaskStep(w, task, e).Some?
    ensures ReportsRight(w.server, TaskStep(w, task, e).value)
  {
    StarterEnters(w, task, e);
    StarterPhase(w.server, task);
    hide TaskStep, TaskFits;
    QuietReports(w.server, TaskStep(w, task, e).value);
  }

  lemma StopFailsReports(s: Server, barrier: nat, signal: Option<Signal>, reason: Reason)
    requires barrier < |s.barriers| && !s.phase.Stopped?
    ensures ReportsRight(s, StopFails(s, barrier, signal, reason))
  {
    var entered := [Enters(Stopped(Some(reason)))];
    var stopped := Enter(s, Stopped(Some(reason))).(barriers := s.barriers[barrier := true]);
    StopEndsReports(stopped, signal, Err(reason), entered);
  }

  lemma StopSucceedsReports(s: Server, barrier: nat, signal: Option<Signal>)
    requires barrier < |s.barriers| && !s.phase.Stopped?
    ensures ReportsRight(s, DisposedLast(s, barrier, signal, Ok))
  {
    StopEndsReports(Enter(s, Stopped(None)), signal, Ok, [Enters(Stopped(None))]);
  }

  lemma StopperReports(w: World, task: Task, e: Event)
    requires TaskFits(w.server, task) && Stopper(task) && TaskStep(w, task, e).Some?
    ensures ReportsRight(w.server, TaskStep(w, task, e).value)
  {
    hide All, StopFails, StopEnds, ReportsRight;
    var s := w.server;
    var outcome := All(w.log, if task.DrainingServers? then Drains(s) else
                              if task.Disposing? then s.toDispose else s.toDisposeLast).value;
    if outcome.Err? {
      StopFailsReports(s, task.barrier, task.signal, outcome.reason);
    } else if task.DisposingLast? {
      StopSucceedsReports(s, task.barrier, task.signal);
    } else {
      QuietReports(s, TaskStep(w, task, e).value);
    }
  }

  lemma WaiterReports(w: World, task: Task, e: Event)
    requires ServerFits(w.server) && TaskFits(w.server, task) && !Starter(task) && !Stopper(task)
    requires TaskStep(w, task, e).Some?
    ensures ReportsRight(w.server, TaskStep(w, task, e).value)
  {
    hide All, BeginAll, HandlersFit, Ensure, ReportsRight, StopEnds;
    var s := w.server;
    match task
    case StartedForOperation => EnsureReports(s, 0);
    case AwaitingStart(_, waits) => EnsureReports(s, waits);
    case AwaitingStop(_, signal) => AwaitedReports(s, signal);
    case _ =>
  }

  lemma AwaitedReports(s: Server, signal: Option<Signal>)
    requires s.phase.Stopped?
    ensures ReportsRight(s, StopAwaited(s, signal))
  {
    hide ReportsOf;
    StopEndsReports(s, signal, Later(s.phase.stopError), []);
    assert Surprises !in StopEnds(s, signal, Later(s.phase.stopError), []).items;
    hide StopEnds;
  }

  ghost predicate ReportsSound(w: World) {
    ReportsFit(w.server.phase, ReportsOf(w.log)) && Surprises !in w.log
  }

  lemma ReportsGrow(w: World, next: World, s: Server, g: Segment)
    requires ReportsSound(w) && ReportsRight(s, g) && s.phase == w.server.phase
    requires next.server == g.server && next.log == w.log + g.items
    ensures ReportsSound(next)
  {
    ReportsOfGrows(w.log, g.items);
  }

  lemma StepKeepsReports(w: World, e: Event)
    requires Fits(w) && ReportsSound(w)
    ensures ReportsSound(Step(w, e))
  {
    var s, next := w.server, Step(w, e);
    FitsServer(w);
    hide StartCall, StopCall, Ensure, TaskStep, Fits, ServerFits, TaskFits, ReportsSound, ReportsRight, Settled;
    match e
    case Start =>
      StartCallReports(s, false);
      ReportsGrow(w, next, s, StartCall(s, false));
    case Stop =>
      StopCallReports(s, None);
      ReportsGrow(w, next, s, StopCall(s, None));
    case Operation =>
      StartCallReports(s, true);
      EnsureReports(s, 0);
      ReportsGrow(w, next, s, OperationCall(s));
    case Ensuring =>
      EnsureReports(s, 0);
      ReportsGrow(w, next, s, Ensure(s, 0));
    case Signalled(signal) =>
      if s.listening && !s.receivedSignal {
        var heard := s.(receivedSignal := true);
        StopCallReports(heard, Some(signal));
        ReportsGrow(w, next, heard, StopCall(heard, Some(signal)));
      }
    case HandlerSettles(handler, outcome) =>
      if next != w {
        QuietReports(s, Segment(s, Admitted, [Settles(handler, outcome)]));
        ReportsGrow(w, next, s, Segment(s, Admitted, [Settles(handler, outcome)]));
      }
    case _ =>
      if e.task < |w.tasks| && TaskStep(w, w.tasks[e.task], e).Some? {
        TaskStepReports(w, w.tasks[e.task], e);
        ReportsGrow(w, next, s, TaskStep(w, w.tasks[e.task], e).value);
      }
  }

  lemma StartCallReports(s: Server, forOperation: bool)
    ensures ReportsRight(s, StartCall(s, forOperation))
  {
    QuietReports(s, StartCall(s, forOperation));
  }

  lemma TaskStepReports(w: World, task: Task, e: Event)
    requires ServerFits(w.server) && TaskFits(w.server, task) && TaskStep(w, task, e).Some?
    ensures ReportsRight(w.server, TaskStep(w, task, e).value)
  {
    hide TaskStep, ReportsRight;
    if Starter(task) {
      StarterReports(w, task, e);
    } else if Stopper(task) {
      StopperReports(w, task, e);
    } else {
      WaiterReports(w, task, e);
    }
  }

  lemma {:induction false} RunKeepsReports(signals: bool, events: seq<Event>)
    ensures ReportsSound(Run(NewWorld(signals), events))
    decreases |events|
  {
    if events != [] {
      var before := events[..|events| - 1];
      RunFits(signals, before);
      RunKeepsReports(signals, before);
      StepKeepsReports(Run(NewWorld(signals), before), events[|events| - 1]);
    }
  }

  /** The error "Surprising post-stopping state" is never thrown. */
  lemma NeverSurprised(signals: bool, events: seq<Event>)
    ensures Surprises !in Run(NewWorld(signals), events).log
  {
    RunKeepsReports(signals, events);
  }

  /** In every run, two calls of `stop` that end after the server has committed to stopping report
      the same if and only if what it stopped with is not a rejection with a value that counts as
      false. If it is, the first call is rejected and every other succeeds. */
  lemma StopReportsAgreeIff(signals: bool, events: seq<Event>, k: nat)
    requires 0 < k < |ReportsOf(Run(NewWorld(signals), events).log)|
    ensures var w := Run(NewWorld(signals), events); var reports := ReportsOf(w.log);
            && w.server.phase.Stopped?
            && (reports[k] == reports[0] <==> w.server.phase.stopError != Some(Falsy))
            && (w.server.phase.stopError == Some(Falsy) ==> reports[0] == Err(Falsy) && reports[k] == Ok)
  {
    RunKeepsReports(signals, events);
  }

  // ---------------------------------------------------------------- parallel calls of `stop`

  /** Once the server has stopped, a call of `stop` that awaited the first one can go on if and
      only if stopping failed. */
  lemma ParallelStopWakesIff(signals: bool, events: seq<Event>, i: nat)
    requires i < |Run(NewWorld(signals), events).tasks|
    requires Run(NewWorld(signals), events).tasks[i].AwaitingStop?
    ensures var w := Run(NewWorld(signals), events);
            Step(w, Resumes(i)) != w <==> w.server.phase.Stopped? && w.server.phase.stopError.Some?
  {
    var w := Run(NewWorld(signals), events);
    RunFits(signals, events);
    assert TaskFits(w.server, w.tasks[i]);
    if Resolved(w.server, 1) {
      assert TaskStep(w, w.tasks[i], Resumes(i)).value.task.Ended?;
      assert Step(w, Resumes(i)).tasks[i] != w.tasks[i];
    }
  }

  /** After a successful stop, a call that awaited it never ends, whatever happens. */
  lemma {:induction false} ParallelStopStuck(signals: bool, events: seq<Event>, more: seq<Event>, i: nat)
    requires var w := Run(NewWorld(signals), events);
             w.server.phase == Stopped(None) && i < |w.tasks| && w.tasks[i].AwaitingStop?
    ensures var w := Run(NewWorld(signals), events); var later := Run(NewWorld(signals), events + more);
            later.server.phase == Stopped(None) && i < |later.tasks| && later.tasks[i] == w.tasks[i]
    decreases |more|
  {
    if more == [] {
      assert events + more == events;
    } else {
      var before := more[..|more| - 1];
      assert (events + more)[..|events + more| - 1] == events + before;
      ParallelStopStuck(signals, events, before, i);
      var w := Run(NewWorld(signals), events + before);
      RunFits(signals, events + before);
      StoppedStuck(w, more[|more| - 1], i);
    }
  }

  lemma StoppedStuck(w: World, e: Event, i: nat)
    requires Fits(w) && w.server.phase == Stopped(None) && i < |w.tasks| && w.tasks[i].AwaitingStop?
    ensures Step(w, e).server.phase == Stopped(None)
    ensures i < |Step(w, e).tasks| && Step(w, e).tasks[i] == w.tasks[i]
  {
    StepFits(w, e);
    StepKeepsPhase(w, e);
    hide StartCall, StopCall, Ensure, Fits, Settled, All, StopEnds;
    assert TaskFits(w.server, w.tasks[i]) && !Resolved(w.server, 1) by {
      FitsServer(w);
    }
  }

  lemma StepKeepsPhase(w: World, e: Event)
    requires Fits(w) && w.server.phase.Stopped?
    ensures Step(w, e).server.phase == w.server.phase
  {
    StepFits(w, e);
  }

  /** A server without plugins, signal handlers or a gateway, as far as its run below changes it. */
  function Bare(phase: Phase, barriers: seq<bool>, toDispose: seq<Handler>): Server {
    Server(phase, barriers, toDispose, [], None, false, false, false)
  }

  const PLAIN := Registered(false, 0, NoLandingPage)
  const WAITER := AwaitingStop(1, None)
  const BEGUN :=
    [Enters(Starting(0)), Enters(Started), Enters(Draining(1)), Enters(Stopping(1)), Begins(StopSchemaManager)]
  const SETTLED := BEGUN + [Settles(StopSchemaManager, Ok)]

  lemma BareStart()
    ensures Run(NewWorld(false), [Start] + [SchemaLoads(0, Loaded)] + [HooksStart(0, PLAIN)]) ==
            World(Bare(Started, [true], [StopSchemaManager]), [Ended(Ok)], BEGUN[..2])
  {
    var w0 := NewWorld(false);
    RunStep(w0, [], Start, World(Bare(Starting(0), [false], []), [LoadingSchema(0, false)], BEGUN[..1]));
    assert [] + [Start] == [Start];
    RunStep(w0, [Start], SchemaLoads(0, Loaded),
            World(Bare(Starting(0), [false], [StopSchemaManager]), [StartingHooks(0, false)], BEGUN[..1]));
    RunStep(w0, [Start] + [SchemaLoads(0, Loaded)], HooksStart(0, PLAIN),
            World(Bare(Started, [true], [StopSchemaManager]), [Ended(Ok)], BEGUN[..2]));
  }

  lemma BareStops(w: World)
    requires w == World(Bare(Started, [true], [StopSchemaManager]), [Ended(Ok)], BEGUN[..2])
    ensures Step(Step(w, Stop), Stop) ==
            World(Bare(Draining(1), [true, false], [StopSchemaManager]),
                  [Ended(Ok), DrainingServers(1, None), WAITER], BEGUN[..3])
  {
    assert BEGUN[..2] + [Enters(Draining(1))] == BEGUN[..3];
  }

  lemma BareDrained(w: World)
    requires w == World(Bare(Draining(1), [true, false], [StopSchemaManager]),
                        [Ended(Ok), DrainingServers(1, None), WAITER], BEGUN[..3])
    ensures Step(w, Resumes(1)) ==
            World(Bare(Stopping(1), [true, false], [StopSchemaManager]), [Ended(Ok), Disposing(1, None), WAITER], BEGUN)
  {
    NoFailure(BEGUN[..3], []);
    assert BEGUN[..3] + ([Enters(Stopping(1))] + [Begins(StopSchemaManager)]) == BEGUN;
  }

  lemma BareSettles(w: World)
    requires w == World(Bare(Stopping(1), [true, false], [StopSchemaManager]),
                        [Ended(Ok), Disposing(1, None), WAITER], BEGUN)
    ensures Step(w, HandlerSettles(StopSchemaManager, Ok)) == w.(log := SETTLED)
  {
    assert BEGUN[4] == Begins(StopSchemaManager);
  }

  lemma BareDisposed(w: World)
    requires w == World(Bare(Stopping(1), [true, false], [StopSchemaManager]),
                        [Ended(Ok), Disposing(1, None), WAITER], SETTLED)
    ensures Step(Step(w, Resumes(1)), Resumes(1)) ==
            World(Bare(Stopped(None), [true, false], [StopSchemaManager]), [Ended(Ok), Ended(Ok), WAITER],
                  SETTLED + [Enters(Stopped(None)), Reports(Ok)])
  {
    NoFailure(SETTLED, [StopSchemaManager]);
    NoFailure(SETTLED, []);
    assert SETTLED[5] == Settles(StopSchemaManager, Ok);
    hide FirstFailure;
    var disposing := w.(tasks := [Ended(Ok), DisposingLast(1, None), WAITER]);
    assert Step(w, Resumes(1)) == disposing;
  }

  lemma {:induction false} NoFailure(log: seq<Item>, handlers: seq<Handler>)
    requires forall i | 0 <= i < |log| && log[i].Settles? :: log[i].outcome == Ok
    ensures FirstFailure(log, handlers) == None
  {
    if log != [] {
      NoFailure(log[..|log| - 1], handlers);
    }
  }

  lemma RunStep(w: World, events: seq<Event>, e: Event, next: World)
    requires Step(Run(w, events), e) == next
    ensures Run(w, events + [e]) == next
  {
    assert (events + [e])[..|events|] == events;
  }

  /** A parallel call of `stop` can be left waiting for ever: a server without plugins is started,
      two calls of `stop` are made, and the first succeeds. */
  lemma ParallelStopCanBeStuck() returns (events: seq<Event>)
    ensures var w := Run(NewWorld(false), events);
            w.server.phase == Stopped(None) && |w.tasks| == 3 && w.tasks[2] == AwaitingStop(1, None)
  {
    BareStart();
    hide Step;
    events := [Start] + [SchemaLoads(0, Loaded)] + [HooksStart(0, PLAIN)];
    var w0 := NewWorld(false);
    var w := Run(w0, events);
    BareStops(w);
    RunStep(w0, events, Stop, Step(w, Stop));
    RunStep(w0, events + [Stop], Stop, Step(Step(w, Stop), Stop));
    events, w := events + [Stop] + [Stop], Step(Step(w, Stop), Stop);
    BareDrained(w);
    RunStep(w0, events, Resumes(1), Step(w, Resumes(1)));
    events, w := events + [Resumes(1)], Step(w, Resumes(1));
    BareSettles(w);
    RunStep(w0, events, HandlerSettles(StopSchemaManager, Ok), w.(log := SETTLED));
    events, w := events + [HandlerSettles(StopSchemaManager, Ok)], w.(log := SETTLED);
    BareDisposed(w);
    RunStep(w0, events, Resumes(1), Step(w, Resumes(1)));
    RunStep(w0, events + [Resumes(1)], Resumes(1), Step(Step(w, Resumes(1)), Resumes(1)));
    events := events + [Resumes(1)] + [Resumes(1)];
  }
}
