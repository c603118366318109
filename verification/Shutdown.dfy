/** What calls of `stop` do in each phase, and with which outcome a server stops. */
module Shutdown {
  import opened Wrappers
  import opened Lifecycle
  import opened Phases
  import opened ShuttingDown
  import opened Signals
  import opened Listeners
  import opened Startup

  // ---------------------------------------------------------------- Promise.all

  /** Of the first `k` things that happened none is the rejection of one of the handlers. */
  predicate NoneBefore(log: seq<Item>, handlers: seq<Handler>, k: nat)
    requires k <= |log|
  {
    forall q | 0 <= q < k && log[q].Settles? && log[q].handler in handlers :: log[q].outcome == Ok
  }

  predicate NoneRejected(log: seq<Item>, handlers: seq<Handler>) {
    NoneBefore(log, handlers, |log|)
  }

  /** The first rejection among the handlers has this reason. */
  predicate RejectedFirst(log: seq<Item>, handlers: seq<Handler>, reason: Reason) {
    exists q | 0 <= q < |log| ::
      && log[q].Settles? && log[q].handler in handlers && log[q].outcome == Err(reason)
      && NoneBefore(log, handlers, q)
  }

  predicate AllSucceeded(log: seq<Item>, handlers: seq<Handler>) {
    forall h | h in handlers :: Settles(h, Ok) in log
  }

  lemma {:induction false} FirstFailureIs(log: seq<Item>, handlers: seq<Handler>)
    ensures FirstFailure(log, handlers).None? <==> NoneRejected(log, handlers)
    ensures FirstFailure(log, handlers).Some? ==> RejectedFirst(log, handlers, FirstFailure(log, handlers).value)
  {
    if log != [] {
      var k := |log| - 1;
      FirstFailureIs(log[..k], handlers);
      assert NoneRejected(log[..k], handlers) <==> NoneBefore(log, handlers, k);
      if FirstFailure(log[..k], handlers).Some? {
        var reason := FirstFailure(log[..k], handlers).value;
        var q :| 0 <= q < k && log[..k][q].Settles? && log[..k][q].handler in handlers &&
                 log[..k][q].outcome == Err(reason) && NoneBefore(log[..k], handlers, q);
        assert NoneBefore(log, handlers, q);
        assert log[q].outcome == Err(reason);
      }
    }
  }

  lemma RejectedOnce(log: seq<Item>, handlers: seq<Handler>, reason: Reason, other: Reason)
    requires RejectedFirst(log, handlers, reason) && RejectedFirst(log, handlers, other)
    ensures reason == other && !NoneRejected(log, handlers)
  {
  }

  /** `Promise.all` is rejected with the first rejection, and fulfilled when every handler has
      succeeded and none has been rejected. */
  lemma AllIff(log: seq<Item>, handlers: seq<Handler>, reason: Reason)
    ensures All(log, handlers) == Some(Err(reason)) <==> RejectedFirst(log, handlers, reason)
    ensures All(log, handlers) == Some(Ok) <==> NoneRejected(log, handlers) && AllSucceeded(log, handlers)
    ensures All(log, handlers) == None <==> NoneRejected(log, handlers) && !AllSucceeded(log, handlers)
  {
    FirstFailureIs(log, handlers);
    if RejectedFirst(log, handlers, reason) {
      if FirstFailure(log, handlers).Some? {
        RejectedOnce(log, handlers, reason, FirstFailure(log, handlers).value);
      } else {
        RejectedOnce(log, handlers, reason, reason);
      }
    }
  }

  // ---------------------------------------------------------------- calls of stop

  /** The signal handler's work when its call of `stop` ends: it exits if that has failed, and sends the
      signal again if not. */
  function HandlerEnds(signal: Option<Signal>, outcome: Outcome): seq<Item> {
    if signal.None? then [] else if outcome.Err? then [Exits] else [Resends(signal.value)]
  }

  /** What a call of `stop` does at once, by phase: before the server has started it is refused; it
      makes a started server drain, with all drain callbacks called in order; it awaits the one that
      is stopping the server; and it ends if the server has stopped, with what stopped it unless that
      counts as false. */
  predicate StopsBy(s: Server, signal: Option<Signal>, g: Segment) {
    match s.phase
    case Started =>
      var b := |s.barriers|;
      && g.server == s.(phase := Draining(b), barriers := s.barriers + [false])
      && g.task == DrainingServers(b, signal)
      && |g.items| == 1 + |Drains(s)| && g.items[0] == Enters(Draining(b))
      && (forall n | 0 <= n < |Drains(s)| :: g.items[1 + n] == Begins(Drains(s)[n]))
    case Draining(b) => g == Segment(s, AwaitingStop(b, signal), [])
    case Stopping(b) => g == Segment(s, AwaitingStop(b, signal), [])
    case Stopped(stopError) =>
      var outcome := if stopError.None? || stopError.value == Falsy then Ok else Err(stopError.value);
      g == Segment(s, Ended(outcome), [Reports(outcome)] + HandlerEnds(signal, outcome))
    case _ => g == Segment(s, Ended(Err(StopBeforeStarted)), [])
  }

  /** A call of `stop`, or the first signal that is heard, does that; other signals do nothing. */
  lemma StopBegins(w: World, e: Event)
    requires e.Stop? || e.Signalled?
    ensures var s := w.server; var heard := e.Signalled? && s.listening && !s.receivedSignal;
            if e.Stop? || heard then
              exists g: Segment ::
                && StopsBy(if heard then s.(receivedSignal := true) else s, if heard then Some(e.signal) else None, g)
                && Step(w, e) == World(g.server, w.tasks + [g.task], w.log + g.items)
            else Step(w, e) == w
  {
    var s := w.server;
    StopCallStops(s, None);
    if e.Signalled? {
      StopCallStops(s.(receivedSignal := true), Some(e.signal));
    }
    hide StopCall, StopsBy;
  }

  lemma StopCallStops(s: Server, signal: Option<Signal>)
    ensures StopsBy(s, signal, StopCall(s, signal))
  {
  }

  // ---------------------------------------------------------------- the stopping call

  /** The handlers that the stopping call awaits. */
  function AwaitedBy(s: Server, task: Task): seq<Handler>
    requires Stopper(task)
  {
    if task.DrainingServers? then Drains(s) else if task.Disposing? then s.toDispose else s.toDisposeLast
  }

  /** With the first rejection the server has stopped, the call reports it, and those who wait may go
      on. */
  predicate StopsWith(w: World, next: World, i: nat, reason: Reason)
    requires i < |w.tasks| && Stopper(w.tasks[i])
  {
    var task := w.tasks[i];
    && next.server.phase == Stopped(Some(reason)) && Resolved(next.server, task.barrier)
    && |next.tasks| == |w.tasks| && next.tasks[i] == Ended(Err(reason))
    && next.log ==
       w.log + ([Enters(Stopped(Some(reason))), Reports(Err(reason))] + HandlerEnds(task.signal, Err(reason)))
  }

  /** When all handlers have succeeded, the next ones are called, in order; after the last ones the
      server has stopped well, and the call reports that. */
  predicate GoesOn(w: World, next: World, i: nat)
    requires i < |w.tasks| && Stopper(w.tasks[i])
  {
    var s, t := w.server, next.server;
    && |next.tasks| == |w.tasks|
    && match w.tasks[i]
       case DrainingServers(b, signal) =>
         && t == s.(phase := Stopping(b)) && next.tasks[i] == Disposing(b, signal)
         && next.log == w.log + ([Enters(Stopping(b))] + BeginAll(s.toDispose))
       case Disposing(b, signal) =>
         && t == s.(listening := false) && next.tasks[i] == DisposingLast(b, signal)
         && next.log == w.log + BeginAll(s.toDisposeLast)
       case DisposingLast(_, signal) =>
         && t == s.(phase := Stopped(None)) && next.tasks[i] == Ended(Ok)
         && next.log == w.log + ([Enters(Stopped(None)), Reports(Ok)] + HandlerEnds(signal, Ok))
       case _ => false
  }

  /** In every run, the stopping call stops the server with the first rejection among the handlers it
      awaits, goes on when all of them have succeeded, and waits otherwise. */
  lemma StoppingGoesOn(signals: bool, events: seq<Event>, i: nat)
    requires i < |Run(NewWorld(signals), events).tasks| && Stopper(Run(NewWorld(signals), events).tasks[i])
    ensures var w := Run(NewWorld(signals), events); var next := Step(w, Resumes(i));
            var handlers := AwaitedBy(w.server, w.tasks[i]);
            && (forall reason | RejectedFirst(w.log, handlers, reason) :: StopsWith(w, next, i, reason))
            && (NoneRejected(w.log, handlers) && AllSucceeded(w.log, handlers) ==> GoesOn(w, next, i))
            && (NoneRejected(w.log, handlers) && !AllSucceeded(w.log, handlers) ==> next == w)
  {
    RunFits(signals, events);
    var w := Run(NewWorld(signals), events);
    FitsServer(w);
    hide Run, Fits, TaskFits, ServerFits, Step, RejectedFirst, NoneRejected, AllSucceeded, StopsWith, GoesOn, All;
    StopperBarrier(w.server, w.tasks[i]);
    StopperStep(w, i);
    var handlers := AwaitedBy(w.server, w.tasks[i]);
    forall reason
      ensures All(w.log, handlers) == Some(Err(reason)) <==> RejectedFirst(w.log, handlers, reason)
    {
      AllIff(w.log, handlers, reason);
    }
    AllIff(w.log, handlers, Falsy);
  }

  lemma StopperBarrier(s: Server, task: Task)
    requires ServerFits(s) && TaskFits(s, task) && Stopper(task)
    ensures task.barrier < |s.barriers| && (s.listening ==> s.toDisposeLast != [])
    ensures task.DisposingLast? ==> !s.listening
  {
  }

  lemma StopperStep(w: World, i: nat)
    requires i < |w.tasks| && Stopper(w.tasks[i]) && w.tasks[i].barrier < |w.server.barriers|
    requires w.server.listening ==> w.server.toDisposeLast != [] && !w.tasks[i].DisposingLast?
    ensures var all := All(w.log, AwaitedBy(w.server, w.tasks[i])); var next := Step(w, Resumes(i));
            && (all.None? ==> next == w)
            && (all == Some(Ok) ==> GoesOn(w, next, i))
            && (all.Some? && all.value.Err? ==> StopsWith(w, next, i, all.value.reason))
  {
    hide All, BeginAll;
  }

  // ---------------------------------------------------------------- with what it has stopped

  /** Every handler of the server has succeeded. */
  predicate EverySucceeded(s: Server, log: seq<Item>) {
    AllSucceeded(log, Drains(s)) && AllSucceeded(log, s.toDispose) && AllSucceeded(log, s.toDisposeLast)
  }

  /** Some handler of the server has been rejected for this reason. */
  predicate SomeRejected(s: Server, log: seq<Item>, reason: Reason) {
    exists h | h in Drains(s) + s.toDispose + s.toDisposeLast :: Settles(h, Err(reason)) in log
  }

  ghost predicate StoppedFits(w: World) {
    && (w.server.phase.Stopping? ==> AllSucceeded(w.log, Drains(w.server)))
    && ((exists i | 0 <= i < |w.tasks| :: w.tasks[i].DisposingLast?) ==> AllSucceeded(w.log, w.server.toDispose))
    && (w.server.phase == Stopped(None) ==> EverySucceeded(w.server, w.log))
    && (w.server.phase.Stopped? && w.server.phase.stopError.Some? ==>
          SomeRejected(w.server, w.log, w.server.phase.stopError.value))
  }

  lemma LogGrows(w: World, next: World)
    requires w.log <= next.log && ShuttingDown.SameHandlers(w.server, next.server)
    ensures EverySucceeded(w.server, w.log) ==> EverySucceeded(next.server, next.log)
    ensures AllSucceeded(w.log, Drains(w.server)) ==> AllSucceeded(next.log, Drains(next.server))
    ensures AllSucceeded(w.log, w.server.toDispose) ==> AllSucceeded(next.log, next.server.toDispose)
    ensures forall reason :: SomeRejected(w.server, w.log, reason) ==> SomeRejected(next.server, next.log, reason)
  {
    assert forall item | item in w.log :: item in next.log;
  }

  /** The segment does not change the phase to one of the last two, nor a server in one of them. */
  predicate StaysStopped(s: Server, g: Segment) {
    && (Rank(g.server.phase) >= 5 || Rank(s.phase) >= 5 ==>
          g.server.phase == s.phase && ShuttingDown.SameHandlers(s, g.server))
    && !g.task.DisposingLast?
  }

  lemma CallsStayStopped(s: Server, forOperation: bool, waits: nat, signal: Option<Signal>)
    ensures StaysStopped(s, StartCall(s, forOperation)) && StaysStopped(s, Ensure(s, waits))
    ensures StaysStopped(s, StopCall(s, signal))
  {
    hide BeginAll;
  }

  lemma CallStaysStopped(w: World, task: Task, e: Event)
    requires TaskFits(w.server, task) && TaskStep(w, task, e).Some? && !Stopper(task)
    ensures StaysStopped(w.server, TaskStep(w, task, e).value)
  {
    if Starter(task) {
      StarterPhase(w.server, task);
      StarterStaysStopped(w, task, e);
    } else {
      WaiterStaysStopped(w, task, e);
    }
    hide TaskStep, TaskFits;
  }

  lemma StarterStaysStopped(w: World, task: Task, e: Event)
    requires w.server.phase.Starting? && Starter(task) && TaskStep(w, task, e).Some?
    ensures StaysStopped(w.server, TaskStep(w, task, e).value)
  {
  }

  lemma WaiterStaysStopped(w: World, task: Task, e: Event)
    requires !Starter(task) && !Stopper(task) && TaskStep(w, task, e).Some?
    ensures StaysStopped(w.server, TaskStep(w, task, e).value)
  {
    hide Ensure, All;
    CallsStayStopped(w.server, false, if task.AwaitingStart? then task.waits else 0, None);
  }

  /** An event other than the stopping call's going on. */
  predicate Aside(w: World, e: Event) {
    e.Resumes? && e.task < |w.tasks| ==> !Stopper(w.tasks[e.task])
  }

  lemma AsideStaysStopped(w: World, e: Event)
    requires Fits(w) && Aside(w, e)
    ensures var next := Step(w, e);
            && w.log <= next.log
            && (Rank(next.server.phase) >= 5 || Rank(w.server.phase) >= 5 ==>
                  next.server.phase == w.server.phase && ShuttingDown.SameHandlers(w.server, next.server))
            && (forall i | 0 <= i < |next.tasks| && next.tasks[i].DisposingLast? ::
                  i < |w.tasks| && next.tasks[i] == w.tasks[i])
  {
    FitsServer(w);
    CallsStayStopped(w.server, e.Operation?, 0, None);
    if e.Signalled? {
      CallsStayStopped(w.server.(receivedSignal := true), false, 0, Some(e.signal));
    } else if (e.SchemaLoads? || e.HooksStart? || e.LandingPageLoads? || e.Resumes?) && e.task < |w.tasks| {
      if TaskStep(w, w.tasks[e.task], e).Some? {
        StopperResumes(w, w.tasks[e.task], e);
        CallStaysStopped(w, w.tasks[e.task], e);
      }
    }
    hide StartCall, StopCall, Ensure, TaskStep, Fits, ServerFits, TaskFits, Settled;
  }

  lemma StopperResumes(w: World, task: Task, e: Event)
    requires TaskStep(w, task, e).Some?
    ensures Stopper(task) ==> e.Resumes?
  {
  }

  lemma AsideKeepsStopped(w: World, e: Event)
    requires Fits(w) && Aside(w, e) && StoppedFits(w)
    ensures StoppedFits(Step(w, e))
  {
    var next := Step(w, e);
    AsideStaysStopped(w, e);
    LastWhileStopping(w);
    if Rank(w.server.phase) >= 5 {
      LogGrows(w, next);
    }
    hide Step, Fits, EverySucceeded, SomeRejected, AllSucceeded, ShuttingDown.SameHandlers;
  }

  lemma LastWhileStopping(w: World)
    requires Fits(w)
    ensures forall i | 0 <= i < |w.tasks| && w.tasks[i].DisposingLast? :: w.server.phase.Stopping?
  {
  }

  lemma StopperHandlers(w: World, i: nat)
    requires i < |w.tasks| && Stopper(w.tasks[i])
    ensures ShuttingDown.SameHandlers(w.server, Step(w, Resumes(i)).server) && w.log <= Step(w, Resumes(i)).log
  {
    hide All, BeginAll;
  }

  lemma RejectedSome(s: Server, task: Task, log: seq<Item>, reason: Reason)
    requires Stopper(task) && RejectedFirst(log, AwaitedBy(s, task), reason)
    ensures SomeRejected(s, log, reason)
  {
    var q :| 0 <= q < |log| && log[q].Settles? && log[q].handler in AwaitedBy(s, task) &&
             log[q].outcome == Err(reason);
    assert log[q] == Settles(log[q].handler, Err(reason));
    assert log[q].handler in Drains(s) + s.toDispose + s.toDisposeLast;
  }

  lemma FailureStops(w: World, i: nat, reason: Reason)
    requires i < |w.tasks| && Stopper(w.tasks[i]) && Fits(Step(w, Resumes(i)))
    requires RejectedFirst(w.log, AwaitedBy(w.server, w.tasks[i]), reason)
    requires StopsWith(w, Step(w, Resumes(i)), i, reason)
    ensures StoppedFits(Step(w, Resumes(i)))
  {
    var next := Step(w, Resumes(i));
    StopperHandlers(w, i);
    LogGrows(w, next);
    LastWhileStopping(next);
    RejectedSome(w.server, w.tasks[i], w.log, reason);
    hide Step, Fits, SomeRejected, RejectedFirst, EverySucceeded, AllSucceeded;
  }

  lemma SuccessGoesOn(w: World, i: nat)
    requires i < |w.tasks| && Stopper(w.tasks[i]) && Fits(w) && Fits(Step(w, Resumes(i))) && StoppedFits(w)
    requires AllSucceeded(w.log, AwaitedBy(w.server, w.tasks[i])) && GoesOn(w, Step(w, Resumes(i)), i)
    ensures StoppedFits(Step(w, Resumes(i)))
  {
    var next := Step(w, Resumes(i));
    StopperHandlers(w, i);
    LogGrows(w, next);
    LastWhileStopping(w);
    LastWhileStopping(next);
    if next.tasks[i].Disposing? {
      OneStopper(next, i);
    }
    DisposingWhileStopping(w, i);
    hide Step, Fits, SomeRejected, AllSucceeded;
  }

  lemma OneStopper(w: World, i: nat)
    requires Fits(w) && i < |w.tasks| && w.tasks[i].Disposing?
    ensures forall j | 0 <= j < |w.tasks| :: !w.tasks[j].DisposingLast?
  {
    forall j | 0 <= j < |w.tasks|
      ensures !w.tasks[j].DisposingLast?
    {
      assert j < i ==> !(Stopper(w.tasks[j]) && Stopper(w.tasks[i]));
      assert i < j ==> !(Stopper(w.tasks[i]) && Stopper(w.tasks[j]));
    }
  }

  lemma DisposingWhileStopping(w: World, i: nat)
    requires Fits(w) && i < |w.tasks|
    ensures w.tasks[i].Disposing? || w.tasks[i].DisposingLast? ==> w.server.phase.Stopping?
  {
  }

  lemma StepKeepsStopped(w: World, e: Event)
    requires Fits(w) && StoppedFits(w)
    ensures StoppedFits(Step(w, e))
  {
    if Aside(w, e) {
      AsideKeepsStopped(w, e);
    } else {
      var task := w.tasks[e.task];
      FitsServer(w);
      StopperBarrier(w.server, task);
      StopperStep(w, e.task);
      StepFits(w, e);
      var handlers := AwaitedBy(w.server, task);
      var all := All(w.log, handlers);
      var reason := if all.Some? && all.value.Err? then all.value.reason else Falsy;
      AllIff(w.log, handlers, reason);
      hide Step, Fits, ServerFits, TaskFits, All, AllSucceeded, NoneRejected, RejectedFirst, StoppedFits, GoesOn,
           StopsWith;
      if all == Some(Ok) {
        SuccessGoesOn(w, e.task);
      } else if all.Some? {
        FailureStops(w, e.task, reason);
      }
    }
  }

  lemma {:induction false} RunStops(signals: bool, events: seq<Event>)
    ensures StoppedFits(Run(NewWorld(signals), events))
    decreases |events|
  {
    if events != [] {
      var before := events[..|events| - 1];
      RunFits(signals, before);
      RunStops(signals, before);
      hide Step, Fits, StoppedFits;
      StepKeepsStopped(Run(NewWorld(signals), before), events[|events| - 1]);
    }
  }

  /** In every run, a server that has stopped has done so well if and only if every handler that its
      listeners asked for, and the schema manager's and the signal listeners', has succeeded; otherwise
      it has stopped with what one of them was rejected with. */
  lemma StoppedWellIff(signals: bool, events: seq<Event>)
    requires Run(NewWorld(signals), events).server.phase.Stopped?
    ensures var w := Run(NewWorld(signals), events);
            && Asked(signals, events).Some?
            && RegisteredFor(w.server, Asked(signals, events).value) && SignalsFor(w.server, signals)
            && (w.server.phase == Stopped(None) <==> EverySucceeded(w.server, w.log))
            && (w.server.phase != Stopped(None) ==>
                  SomeRejected(w.server, w.log, w.server.phase.stopError.value))
  {
    var w := Run(NewWorld(signals), events);
    RunStops(signals, events);
    RunListens(signals, events);
    RegistersWhatIsAsked(signals, events);
    assert StoppedFits(w) && SettlesOnce(w.log);
    hide Run, EverySucceeded, SomeRejected, SettlesOnce, ListenersFit, RegisteredFor, SignalsFor;
    if w.server.phase.stopError.Some? {
      RejectedNotAll(w.server, w.log, w.server.phase.stopError.value);
    }
  }

  lemma RejectedNotAll(s: Server, log: seq<Item>, reason: Reason)
    requires SettlesOnce(log) && SomeRejected(s, log, reason)
    ensures !EverySucceeded(s, log)
  {
    var h :| h in Drains(s) + s.toDispose + s.toDisposeLast && Settles(h, Err(reason)) in log;
    assert Settles(h, Ok) !in log;
  }
}
