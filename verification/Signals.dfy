/** What termination signals lead to in every run. */
module Signals {
  import opened Wrappers
  import opened Lifecycle
  import opened Phases

  function SignalOf(t: Task): Option<Signal> {
    if Stopper(t) || t.AwaitingStop? then t.signal else None
  }

  /** The signal handler has done its work: it exits, or sends its signal to the process again. */
  predicate Final(item: Item) {
    item.Exits? || item.Resends?
  }

  /** The listener has been removed, or stopping failed with a value that counts as false. */
  predicate MayResend(log: seq<Item>, signal: Signal) {
    Settles(RemoveListener(signal), Ok) in log || Enters(Stopped(Some(Falsy))) in log
  }

  predicate ResendsJustified(log: seq<Item>) {
    forall q | 0 <= q < |log| && log[q].Resends? :: MayResend(log[..q], log[q].signal)
  }

  predicate OneFinal(log: seq<Item>) {
    forall p, q | 0 <= p < q < |log| :: !(Final(log[p]) && Final(log[q]))
  }

  predicate Lives(log: seq<Item>) {
    forall q | 0 <= q < |log| :: !Final(log[q])
  }

  predicate SignalsFit(w: World) {
    && ResendsJustified(w.log) && OneFinal(w.log)
    && (w.server.phase.Stopped? ==> Enters(w.server.phase) in w.log)
    && (!w.server.receivedSignal ==> Lives(w.log) && forall i | 0 <= i < |w.tasks| :: SignalOf(w.tasks[i]) == None)
    && (forall i, j | 0 <= i < j < |w.tasks| :: SignalOf(w.tasks[i]) == None || SignalOf(w.tasks[j]) == None)
    && (!Lives(w.log) ==> forall i | 0 <= i < |w.tasks| :: SignalOf(w.tasks[i]) == None)
  }

  /** The segment of a call made for this signal, or for none. */
  predicate SignalRight(s: Server, log: seq<Item>, signal: Option<Signal>, g: Segment) {
    && (SignalOf(g.task) == None || SignalOf(g.task) == signal)
    && g.server.receivedSignal == s.receivedSignal
    && (g.server.phase.Stopped? && !s.phase.Stopped? ==> Enters(g.server.phase) in g.items)
    && (s.phase.Stopped? ==> g.server.phase == s.phase)
    && (Lives(g.items) || (signal.Some? && SignalOf(g.task) == None && OneFinal(g.items)))
    && (forall q | 0 <= q < |g.items| && g.items[q].Resends? :: MayResend(log + g.items[..q], g.items[q].signal))
  }

  lemma StopEndsSignal(s: Server, from: Server, log: seq<Item>,
                       signal: Option<Signal>, outcome: Outcome, before: seq<Item>)
    requires Lives(before) && s.receivedSignal == from.receivedSignal
    requires signal.Some? && outcome == Ok ==> MayResend(log + before, signal.value)
    requires s.phase.Stopped? && !from.phase.Stopped? ==> Enters(s.phase) in before
    requires from.phase.Stopped? ==> s.phase == from.phase
    ensures SignalRight(from, log, signal, StopEnds(s, signal, outcome, before))
  {
    var g := StopEnds(s, signal, outcome, before);
    forall q | 0 <= q < |g.items| && g.items[q].Resends?
      ensures MayResend(log + g.items[..q], g.items[q].signal)
    {
      assert q == |before| + 1;
      assert g.items[..q] == before + [Reports(outcome)];
      assert log + g.items[..q] == log + before + [Reports(outcome)];
    }
    assert s.phase.Stopped? && !from.phase.Stopped? ==> Enters(s.phase) in g.items;
  }

  lemma QuietSignal(s: Server, log: seq<Item>, signal: Option<Signal>, g: Segment)
    requires Lives(g.items) && (SignalOf(g.task) == None || SignalOf(g.task) == signal)
    requires g.server.receivedSignal == s.receivedSignal
    requires if s.phase.Stopped? then g.server.phase == s.phase else !g.server.phase.Stopped?
    ensures SignalRight(s, log, signal, g)
  {
  }

  lemma EnsureSignal(s: Server, waits: nat, log: seq<Item>)
    ensures SignalRight(s, log, None, Ensure(s, waits))
  {
    QuietSignal(s, log, None, Ensure(s, waits));
  }

  lemma StopCallSignal(s: Server, signal: Option<Signal>, log: seq<Item>)
    requires s.phase.Stopped? ==> Enters(s.phase) in log && (signal.Some? ==> s.phase != Stopped(None))
    ensures SignalRight(s, log, signal, StopCall(s, signal))
  {
    if s.phase.Stopped? {
      assert log + [] == log;
      StopEndsSignal(s, s, log, signal, Later(s.phase.stopError), []);
    } else {
      QuietSignal(s, log, signal, StopCall(s, signal));
    }
  }

  lemma StarterSignal(w: World, task: Task, e: Event)
    requires TaskFits(w.server, task) && Starter(task) && TaskStep(w, task, e).Some?
    ensures SignalRight(w.server, w.log, None, TaskStep(w, task, e).value)
  {
    StarterEnters(w, task, e);
    StarterPhase(w.server, task);
    hide TaskStep, TaskFits;
    QuietSignal(w.server, w.log, None, TaskStep(w, task, e).value);
  }

  lemma StopFailsSignal(s: Server, barrier: nat, signal: Option<Signal>, reason: Reason, log: seq<Item>)
    requires barrier < |s.barriers| && !s.phase.Stopped?
    ensures SignalRight(s, log, signal, StopFails(s, barrier, signal, reason))
  {
    var stopped := Enter(s, Stopped(Some(reason))).(barriers := s.barriers[barrier := true]);
    StopEndsSignal(stopped, s, log, signal, Err(reason), [Enters(stopped.phase)]);
  }

  lemma StopperSignal(w: World, task: Task, e: Event)
    requires TaskFits(w.server, task) && Stopper(task) && TaskStep(w, task, e).Some?
    ensures SignalRight(w.server, w.log, task.signal, TaskStep(w, task, e).value)
  {
    var s := w.server;
    var handlers := if task.DrainingServers? then Drains(s) else
                    if task.Disposing? then s.toDispose else s.toDisposeLast;
    var outcome := All(w.log, handlers).value;
    assert outcome == Ok ==> forall h | h in handlers :: Settles(h, Ok) in w.log;
    hide All, StopFails, StopEnds, SignalRight;
    if outcome.Err? {
      StopFailsSignal(s, task.barrier, task.signal, outcome.reason, w.log);
    } else if task.DisposingLast? {
      if task.signal.Some? {
        assert handlers == SIGNAL_LISTENERS;
        assert SIGNAL_LISTENERS[if task.signal.value == SIGINT then 0 else 1] == RemoveListener(task.signal.value);
        assert RemoveListener(task.signal.value) in SIGNAL_LISTENERS;
      }
      StopEndsSignal(Enter(s, Stopped(None)), s, w.log, task.signal, Ok, [Enters(Stopped(None))]);
    } else {
      QuietSignal(s, w.log, task.signal, TaskStep(w, task, e).value);
    }
  }

  lemma WaiterSignal(w: World, task: Task, e: Event)
    requires ServerFits(w.server) && TaskFits(w.server, task) && !Starter(task) && !Stopper(task)
    requires TaskStep(w, task, e).Some?
    requires w.server.phase.Stopped? ==> Enters(w.server.phase) in w.log
    ensures SignalRight(w.server, w.log, SignalOf(task), TaskStep(w, task, e).value)
  {
    hide All, BeginAll, HandlersFit, Ensure, SignalRight, StopEnds;
    var s := w.server;
    match task
    case StartedForOperation => EnsureSignal(s, 0, w.log);
    case AwaitingStart(_, waits) => EnsureSignal(s, waits, w.log);
    case AwaitingStop(_, signal) =>
      assert w.log + [] == w.log;
      StopEndsSignal(s, s, w.log, signal, Later(s.phase.stopError), []);
    case _ =>
  }

  lemma TaskStepSignal(w: World, task: Task, e: Event)
    requires ServerFits(w.server) && TaskFits(w.server, task) && TaskStep(w, task, e).Some?
    requires w.server.phase.Stopped? ==> Enters(w.server.phase) in w.log
    ensures SignalRight(w.server, w.log, SignalOf(task), TaskStep(w, task, e).value)
  {
    hide TaskStep, SignalRight;
    if Starter(task) {
      StarterSignal(w, task, e);
    } else if Stopper(task) {
      StopperSignal(w, task, e);
    } else {
      WaiterSignal(w, task, e);
    }
  }

  lemma LogSignal(log: seq<Item>, signal: Option<Signal>, s: Server, g: Segment)
    requires ResendsJustified(log) && OneFinal(log) && SignalRight(s, log, signal, g)
    requires signal.Some? ==> Lives(log)
    ensures ResendsJustified(log + g.items) && OneFinal(log + g.items)
  {
    forall q | 0 <= q < |log + g.items| && (log + g.items)[q].Resends?
      ensures MayResend((log + g.items)[..q], (log + g.items)[q].signal)
    {
      if q < |log| {
        assert (log + g.items)[..q] == log[..q];
      } else {
        assert (log + g.items)[..q] == log + g.items[..q - |log|];
      }
    }
  }

  lemma SpawnSignal(w: World, signal: Option<Signal>, s: Server, g: Segment)
    requires SignalsFit(w) && SignalRight(s, w.log, signal, g) && s.phase == w.server.phase
    requires signal.None? ==> s.receivedSignal == w.server.receivedSignal
    requires signal.Some? ==> !w.server.receivedSignal && s.receivedSignal
    ensures SignalsFit(Spawn(w, g))
  {
    LogSignal(w.log, signal, s, g);
    hide ResendsJustified, OneFinal, MayResend;
  }

  lemma ContinueSignal(w: World, i: nat, g: Segment)
    requires SignalsFit(w) && i < |w.tasks| && SignalRight(w.server, w.log, SignalOf(w.tasks[i]), g)
    ensures SignalsFit(Continue(w, i, g))
  {
    LogSignal(w.log, SignalOf(w.tasks[i]), w.server, g);
    hide ResendsJustified, OneFinal, MayResend, SignalOf;
  }

  lemma StepKeepsSignals(w: World, e: Event)
    requires Fits(w) && SignalsFit(w)
    ensures SignalsFit(Step(w, e))
  {
    var s := w.server;
    FitsServer(w);
    assert s.phase.Stopped? ==> Enters(s.phase) in w.log;
    assert s.listening ==> s.phase != Stopped(None);
    hide StartCall, StopCall, Ensure, TaskStep, Fits, ServerFits, TaskFits, SignalsFit, SignalRight, Settled;
    match e
    case Start =>
      StartCallSignal(s, false, w.log);
      SpawnSignal(w, None, s, StartCall(s, false));
    case Stop =>
      StopCallSignal(s, None, w.log);
      SpawnSignal(w, None, s, StopCall(s, None));
    case Operation =>
      StartCallSignal(s, true, w.log);
      EnsureSignal(s, 0, w.log);
      SpawnSignal(w, None, s, OperationCall(s));
    case Ensuring =>
      EnsureSignal(s, 0, w.log);
      SpawnSignal(w, None, s, Ensure(s, 0));
    case Signalled(signal) =>
      if s.listening && !s.receivedSignal {
        var heard := s.(receivedSignal := true);
        StopCallSignal(heard, Some(signal), w.log);
        SpawnSignal(w, Some(signal), heard, StopCall(heard, Some(signal)));
      }
    case HandlerSettles(handler, outcome) =>
      SettlingSignal(w, handler, outcome);
    case _ =>
      if e.task < |w.tasks| && TaskStep(w, w.tasks[e.task], e).Some? {
        TaskStepSignal(w, w.tasks[e.task], e);
        ContinueSignal(w, e.task, TaskStep(w, w.tasks[e.task], e).value);
      }
  }

  lemma StartCallSignal(s: Server, forOperation: bool, log: seq<Item>)
    ensures SignalRight(s, log, None, StartCall(s, forOperation))
  {
    QuietSignal(s, log, None, StartCall(s, forOperation));
  }

  lemma SettlingSignal(w: World, handler: Handler, outcome: Outcome)
    requires SignalsFit(w)
    ensures SignalsFit(w.(log := w.log + [Settles(handler, outcome)]))
  {
    var g := Segment(w.server, Admitted, [Settles(handler, outcome)]);
    QuietSignal(w.server, w.log, None, g);
    LogSignal(w.log, None, w.server, g);
    hide ResendsJustified, OneFinal, SignalOf;
  }

  /** In every run, the signal handler exits or sends its signal again at most once, however many
      signals arrive; and it sends it again only after the listener has been removed, unless stopping
      failed with a value that counts as false. */
  lemma {:induction false} SignalsEndOnce(signals: bool, events: seq<Event>)
    ensures var w := Run(NewWorld(signals), events); SignalsFit(w)
    ensures OneFinal(Run(NewWorld(signals), events).log) && ResendsJustified(Run(NewWorld(signals), events).log)
    decreases |events|
  {
    if events != [] {
      var before := events[..|events| - 1];
      RunFits(signals, before);
      SignalsEndOnce(signals, before);
      StepKeepsSignals(Run(NewWorld(signals), before), events[|events| - 1]);
    }
  }

  // ---------------------------------------------------------------- exactly when a signal is sent again

  /** What a step adds to what has happened. */
  function NewItems(w: World, e: Event): seq<Item> {
    var next := Step(w, e);
    if |w.log| <= |next.log| then next.log[|w.log|..] else []
  }

  /** A signal's call of `stop` ends well with this event. If it awaited the first call, or found the
      server stopped, then stopping had failed with a value that counts as false; if it is the first
      call, then every handler of `toDisposeLast` has succeeded. */
  predicate EndsWell(w: World, e: Event, signal: Signal) {
    match e
    case Signalled(arriving) =>
      && arriving == signal && w.server.listening && !w.server.receivedSignal
      && w.server.phase == Stopped(Some(Falsy))
    case Resumes(i) =>
      && i < |w.tasks| && SignalOf(w.tasks[i]) == Some(signal)
      && ((w.tasks[i].AwaitingStop? && w.server.phase == Stopped(Some(Falsy))) ||
          (w.tasks[i].DisposingLast? && All(w.log, w.server.toDisposeLast) == Some(Ok)))
    case _ => false
  }

  lemma StopEndsResends(s: Server, caller: Option<Signal>, outcome: Outcome, before: seq<Item>, signal: Signal)
    requires Lives(before)
    ensures Resends(signal) in StopEnds(s, caller, outcome, before).items <==> caller == Some(signal) && outcome == Ok
  {
    var items := StopEnds(s, caller, outcome, before).items;
    if caller == Some(signal) && outcome == Ok {
      assert items[|before| + 1] == Resends(signal);
    }
    assert forall i | 0 <= i < |items| :: items[i] == if i < |before| then before[i] else items[i];
  }

  lemma StopCallResends(s: Server, caller: Option<Signal>, signal: Signal)
    ensures Resends(signal) in StopCall(s, caller).items <==>
            s.phase.Stopped? && Later(s.phase.stopError) == Ok && caller == Some(signal)
  {
    hide StopEnds;
    if s.phase.Stopped? {
      StopEndsResends(s, caller, Later(s.phase.stopError), [], signal);
    }
  }

  lemma StopperResends(w: World, task: Task, e: Event, signal: Signal)
    requires TaskFits(w.server, task) && Stopper(task) && TaskStep(w, task, e).Some?
    ensures Resends(signal) in TaskStep(w, task, e).value.items <==>
            task.DisposingLast? && All(w.log, w.server.toDisposeLast) == Some(Ok) && task.signal == Some(signal)
  {
    var s := w.server;
    var handlers := if task.DrainingServers? then Drains(s) else
                    if task.Disposing? then s.toDispose else s.toDisposeLast;
    var outcome := All(w.log, handlers).value;
    hide All, StopEnds;
    if outcome.Err? {
      var stopped := Enter(s, Stopped(Some(outcome.reason))).(barriers := s.barriers[task.barrier := true]);
      StopEndsResends(stopped, task.signal, outcome, [Enters(stopped.phase)], signal);
    } else {
      StopEndsResends(Enter(s, Stopped(None)), task.signal, Ok, [Enters(Stopped(None))], signal);
    }
  }

  lemma WaiterResends(w: World, task: Task, e: Event, signal: Signal)
    requires ServerFits(w.server) && TaskFits(w.server, task) && !Starter(task) && !Stopper(task)
    requires TaskStep(w, task, e).Some?
    ensures Resends(signal) in TaskStep(w, task, e).value.items <==>
            task.AwaitingStop? && w.server.phase == Stopped(Some(Falsy)) && task.signal == Some(signal)
  {
    var s := w.server;
    hide All, BeginAll, HandlersFit, StopEnds;
    if task.AwaitingStop? {
      assert s.phase.Stopped? && s.phase.stopError.Some?;
      StopEndsResends(s, task.signal, Later(s.phase.stopError), [], signal);
    }
  }

  lemma TaskStepResends(w: World, i: nat, e: Event, signal: Signal)
    requires Fits(w) && i < |w.tasks| && TaskStep(w, w.tasks[i], e).Some?
    ensures Resends(signal) in TaskStep(w, w.tasks[i], e).value.items <==>
            e.Resumes? && EndsWell(w, Resumes(i), signal)
  {
    FitsServer(w);
    var task := w.tasks[i];
    hide Fits, ServerFits, All;
    assert Stopper(task) || task.AwaitingStop? ==> e.Resumes?;
    if Starter(task) {
      StarterEnters(w, task, e);
    } else if Stopper(task) {
      StopperResends(w, task, e, signal);
    } else {
      WaiterResends(w, task, e, signal);
    }
    hide TaskStep, TaskFits;
  }

  /** In every run, an event has a signal sent to the process again if and only if that signal's call
      of `stop` ends well with it; and then the signal's listener has been removed, unless stopping
      had failed with a value that counts as false. */
  lemma ResendsIff(signals: bool, events: seq<Event>, e: Event, signal: Signal)
    ensures var w := Run(NewWorld(signals), events);
            && (Resends(signal) in NewItems(w, e) <==> EndsWell(w, e, signal))
            && (EndsWell(w, e, signal) && w.server.phase != Stopped(Some(Falsy)) ==>
                  Settles(RemoveListener(signal), Ok) in w.log)
  {
    var w := Run(NewWorld(signals), events);
    RunFits(signals, events);
    hide Run;
    StepResends(w, e, signal);
    if EndsWell(w, e, signal) && w.server.phase != Stopped(Some(Falsy)) {
      LastRemoves(w, e.task, signal);
    }
  }

  lemma LastRemoves(w: World, i: nat, signal: Signal)
    requires Fits(w) && i < |w.tasks| && w.tasks[i].DisposingLast? && w.tasks[i].signal == Some(signal)
    requires All(w.log, w.server.toDisposeLast) == Some(Ok)
    ensures Settles(RemoveListener(signal), Ok) in w.log
  {
    FitsServer(w);
    assert w.server.toDisposeLast == SIGNAL_LISTENERS;
    assert SIGNAL_LISTENERS[if signal == SIGINT then 0 else 1] == RemoveListener(signal);
    assert RemoveListener(signal) in SIGNAL_LISTENERS;
  }

  lemma StepResends(w: World, e: Event, signal: Signal)
    requires Fits(w)
    ensures Resends(signal) in NewItems(w, e) <==> EndsWell(w, e, signal)
  {
    var s := w.server;
    FitsServer(w);
    assert s.listening ==> s.phase != Stopped(None);
    hide StartCall, StopCall, Ensure, TaskStep, Fits, ServerFits, TaskFits, Settled, All, NewItems;
    match e
    case Start =>
      StartsResend(s, signal);
      AddsItems(w, e, StartCall(s, false).items);
    case Stop =>
      StopCallResends(s, None, signal);
      AddsItems(w, e, StopCall(s, None).items);
    case Operation =>
      StartsResend(s, signal);
      AddsItems(w, e, OperationCall(s).items);
    case Ensuring =>
      StartsResend(s, signal);
      AddsItems(w, e, Ensure(s, 0).items);
    case Signalled(arriving) =>
      if s.listening && !s.receivedSignal {
        var heard := s.(receivedSignal := true);
        StopCallResends(heard, Some(arriving), signal);
        AddsItems(w, e, StopCall(heard, Some(arriving)).items);
      } else {
        AddsItems(w, e, []);
      }
    case HandlerSettles(handler, outcome) =>
      AddsItems(w, e, if Step(w, e) == w then [] else [Settles(handler, outcome)]);
    case Resumes(i) =>
      if EndsWell(w, e, signal) {
        EndsWellSteps(w, i, signal);
      }
      if i < |w.tasks| && TaskStep(w, w.tasks[i], e).Some? {
        TaskStepResends(w, i, e, signal);
        AddsItems(w, e, TaskStep(w, w.tasks[i], e).value.items);
      } else {
        AddsItems(w, e, []);
      }
    case _ =>
      if e.task < |w.tasks| && TaskStep(w, w.tasks[e.task], e).Some? {
        TaskStepResends(w, e.task, e, signal);
        AddsItems(w, e, TaskStep(w, w.tasks[e.task], e).value.items);
      } else {
        AddsItems(w, e, []);
      }
  }

  lemma StartsResend(s: Server, signal: Signal)
    ensures Resends(signal) !in StartCall(s, false).items
    ensures Resends(signal) !in StartCall(s, true).items
    ensures Resends(signal) !in Ensure(s, 0).items
  {
  }

  lemma AddsItems(w: World, e: Event, items: seq<Item>)
    requires Step(w, e).log == w.log + items || (items == [] && Step(w, e).log == w.log)
    ensures NewItems(w, e) == items
  {
    hide Step;
  }

  lemma EndsWellSteps(w: World, i: nat, signal: Signal)
    requires Fits(w) && EndsWell(w, Resumes(i), signal)
    ensures TaskStep(w, w.tasks[i], Resumes(i)).Some?
  {
    FitsServer(w);
    hide All;
  }
}
