/** Whether the signal listeners have been removed when a signal is sent to the process again, and
    what becomes of the process. */
module Listeners {
  import opened Wrappers
  import opened Lifecycle
  import opened Phases
  import opened ShuttingDown
  import opened Signals

  predicate SettlesBegun(log: seq<Item>) {
    forall i | 0 <= i < |log| && log[i].Settles? :: Begins(log[i].handler) in log
  }

  predicate SettlesOnce(log: seq<Item>) {
    forall i, j | 0 <= i < j < |log| && log[i].Settles? && log[j].Settles? :: log[i].handler != log[j].handler
  }

  /** None of the listeners has begun to be removed. */
  predicate AllInPlace(log: seq<Item>) {
    Begins(RemoveListener(SIGINT)) !in log && Begins(RemoveListener(SIGTERM)) !in log
  }

  /** Some handler of the second group has not begun, or has failed. */
  ghost predicate Incomplete(s: Server, log: seq<Item>) {
    || (forall h | h in s.toDispose :: Begins(h) !in log)
    || (exists h, reason :: h in s.toDispose && Settles(h, Err(reason)) in log)
  }

  /** A started server listens until it removes its listeners, which it does only when every handler
      of the second group has succeeded. */
  ghost predicate ListenersFit(w: World) {
    && SettlesBegun(w.log) && SettlesOnce(w.log)
    && (Rank(w.server.phase) >= 3 ==>
          (w.server.listening <==> w.server.toDisposeLast != [] && AllInPlace(w.log)))
    && (w.server.phase.Stopped? && w.server.listening ==> Incomplete(w.server, w.log))
  }

  lemma {:induction false} FailureSettled(log: seq<Item>, handlers: seq<Handler>)
    requires FirstFailure(log, handlers).Some?
    ensures exists h :: h in handlers && Settles(h, Err(FirstFailure(log, handlers).value)) in log
  {
    var before := log[..|log| - 1];
    if FirstFailure(before, handlers).Some? {
      FailureSettled(before, handlers);
      assert forall item | item in before :: item in log;
    } else {
      assert log[|log| - 1] in log;
    }
  }

  /** A server that listens stops only when a handler of the first group, or of the second, has
      failed. */
  lemma StopsListening(w: World, i: nat, g: Segment, e: Event)
    requires Fits(w) && LogFits(w) && i < |w.tasks| && TaskStep(w, w.tasks[i], e) == Some(g)
    requires !w.server.phase.Stopped? && g.server.phase.Stopped? && g.server.listening
    ensures w.server.phase.Draining? ||
            exists h, reason :: h in w.server.toDispose && Settles(h, Err(reason)) in w.log
  {
    FitsServer(w);
    var task := w.tasks[i];
    hide Fits, LogFits, ServerFits;
    if Starter(task) {
      StarterEnters(w, task, e);
    } else if task.Disposing? {
      var outcome := All(w.log, w.server.toDispose).value;
      assert outcome.Err?;
      FailureSettled(w.log, w.server.toDispose);
    }
  }

  /** Handlers of one group begin, or nothing that this module is about happens. */
  lemma LogListens(log: seq<Item>, more: seq<Item>)
    requires SettlesBegun(log) && SettlesOnce(log)
    requires forall i | 0 <= i < |more| :: !more[i].Settles?
    ensures SettlesBegun(log + more) && SettlesOnce(log + more)
  {
    assert forall item | item in log :: item in log + more;
  }

  lemma PlainListens(w: World, next: World, task: Option<Task>, i: nat, g: Segment)
    requires ListenersFit(w) && LogFits(w) && Extends(w, next, task, i, g) && Plain(w.server, g)
    requires g.server.phase.Stopped? && !w.server.phase.Stopped? && g.server.listening ==>
               Incomplete(w.server, w.log)
    ensures ListenersFit(next)
  {
    LogListens(w.log, g.items);
    assert forall h :: Begins(h) in next.log <==> Begins(h) in w.log;
    assert forall item | item in w.log :: item in next.log;
    FitsServer(w);
    FitsServer(next);
    if Rank(w.server.phase) < 3 {
      NothingBegun(w);
    }
    hide SettlesBegun, SettlesOnce, LogFits, Fits, TaskFits, Plain;
    assert w.server.phase.Stopped? ==> next.server.phase.Stopped?;
  }

  lemma NothingBegun(w: World)
    requires LogFits(w) && Rank(w.server.phase) < 4
    ensures forall h :: Begins(h) !in w.log
  {
  }

  lemma AdmissionListens(w: World, next: World, task: Option<Task>, i: nat, g: Segment)
    requires ListenersFit(w) && Extends(w, next, task, i, g) && Admission(w.server, g)
    ensures ListenersFit(next)
  {
    LogListens(w.log, g.items);
    assert forall h :: Begins(h) in next.log <==> Begins(h) in w.log;
    hide SettlesBegun, SettlesOnce, Fits;
  }

  lemma GroupListens(w: World, next: World, task: Option<Task>, i: nat, g: Segment)
    requires ListenersFit(w) && Extends(w, next, task, i, g) && BeginsGroup(w.server, w.log, task, g)
    ensures ListenersFit(next)
  {
    FitsServer(w);
    HandlersDistinct(w.server);
    var s := w.server;
    var handlers := if g.task.DrainingServers? then Drains(s)
                    else if g.task.Disposing? then s.toDispose else s.toDisposeLast;
    var entered := if g.task.DisposingLast? then [] else [Enters(g.server.phase)];
    assert g.items == entered + BeginAll(handlers);
    LogListens(w.log, g.items);
    BeginAllHas(handlers);
    assert forall h :: Begins(h) in next.log <==> Begins(h) in w.log || h in handlers;
    assert SIGNAL_LISTENERS[0] == RemoveListener(SIGINT);
    hide SettlesBegun, SettlesOnce, Fits, All, BeginAll;
  }

  lemma BeginAllHas(handlers: seq<Handler>)
    ensures forall h :: Begins(h) in BeginAll(handlers) <==> h in handlers
  {
    forall h | h in handlers
      ensures Begins(h) in BeginAll(handlers)
    {
      var k :| 0 <= k < |handlers| && handlers[k] == h;
      assert BeginAll(handlers)[k] == Begins(h);
    }
  }

  lemma SettlingListens(w: World, handler: Handler, outcome: Outcome)
    requires ListenersFit(w) && Begins(handler) in w.log && !Settled(w, handler)
    ensures ListenersFit(w.(log := w.log + [Settles(handler, outcome)]))
  {
    var next := w.(log := w.log + [Settles(handler, outcome)]);
    assert forall item | item in w.log :: item in next.log;
    assert forall h :: Begins(h) in next.log <==> Begins(h) in w.log;
  }

  lemma HeardListens(w: World)
    requires ListenersFit(w)
    ensures ListenersFit(Hear(w))
  {
  }

  lemma StepListens(w: World, e: Event)
    requires Fits(w) && LogFits(w) && ListenersFit(w)
    ensures ListenersFit(Step(w, e))
  {
    if e.HandlerSettles? {
      if Step(w, e) != w {
        SettlingListens(w, e.handler, e.outcome);
      }
    } else {
      var from, task, i, g := StepExtends(w, e);
      HeardListens(w);
      HeardKeeps(w);
      if Step(w, e) != w {
        hide Step, LogFits, ListenersFit, Fits;
        SegmentListens(w, from, e, Step(w, e), task, i, g);
      }
    }
  }

  lemma SegmentListens(w: World, from: World, e: Event, next: World, task: Option<Task>, i: nat, g: Segment)
    requires Fits(w) && LogFits(w) && LogFits(from) && ListenersFit(from) && (from == w || from == Hear(w))
    requires Extends(from, next, task, i, g) && Classified(from.server, from.log, task, g)
    requires match task
             case Some(_) => from == w && i < |w.tasks| && TaskStep(w, w.tasks[i], e) == Some(g)
             case None => !w.server.phase.Stopped? ==> !g.server.phase.Stopped?
    ensures ListenersFit(next)
  {
    hide Extends, Plain, Admission, BeginsGroup, Fits, LogFits, ListenersFit, TaskStep;
    if Plain(from.server, g) {
      if g.server.phase.Stopped? && !w.server.phase.Stopped? && g.server.listening {
        StopsIncomplete(w, i, g, e);
      }
      PlainListens(from, next, task, i, g);
    } else if Admission(from.server, g) {
      AdmissionListens(from, next, task, i, g);
    } else {
      GroupListens(from, next, task, i, g);
    }
  }

  lemma StopsIncomplete(w: World, i: nat, g: Segment, e: Event)
    requires Fits(w) && LogFits(w) && i < |w.tasks| && TaskStep(w, w.tasks[i], e) == Some(g)
    requires !w.server.phase.Stopped? && g.server.phase.Stopped? && g.server.listening
    ensures Incomplete(w.server, w.log)
  {
    StopsListening(w, i, g, e);
    FitsServer(w);
    HandlersDistinct(w.server);
    hide TaskStep, Fits, TaskFits, ServerFits;
    if w.server.phase.Draining? {
      forall h | h in w.server.toDispose
        ensures Begins(h) !in w.log
      {
        assert Group(h) == 2 && Stage(w) == 1;
      }
    }
  }

  lemma {:induction false} RunListens(signals: bool, events: seq<Event>)
    ensures ListenersFit(Run(NewWorld(signals), events))
    decreases |events|
  {
    if events != [] {
      var before := events[..|events| - 1];
      RunFits(signals, before);
      RunKeepsLog(signals, before);
      RunListens(signals, before);
      hide Step, ListenersFit, LogFits, Fits;
      StepListens(Run(NewWorld(signals), before), events[|events| - 1]);
    } else {
      NewListens(signals);
    }
  }

  lemma NewListens(signals: bool)
    ensures ListenersFit(NewWorld(signals))
  {
  }

  /** Handlers that have not begun, or have failed, have not succeeded. */
  lemma IncompleteFails(s: Server, log: seq<Item>)
    requires Incomplete(s, log) && SettlesBegun(log) && SettlesOnce(log) && s.toDispose != []
    ensures !(forall h | h in s.toDispose :: Settles(h, Ok) in log)
  {
    if forall h | h in s.toDispose :: Begins(h) !in log {
      assert s.toDispose[0] in s.toDispose;
      assert Settles(s.toDispose[0], Ok) !in log;
    } else {
      var h, reason :| h in s.toDispose && Settles(h, Err(reason)) in log;
      assert Settles(h, Ok) !in log;
    }
  }

  /** A listener begins to be removed only after every handler of the second group has succeeded. */
  lemma RemovalSucceeds(s: Server, log: seq<Item>, signal: Signal)
    requires Ordered(s, log) && Begins(RemoveListener(signal)) in log
    ensures forall h | h in s.toDispose :: Settles(h, Ok) in log
  {
    var q :| 0 <= q < |log| && log[q] == Begins(RemoveListener(signal));
    forall h | h in s.toDispose
      ensures Settles(h, Ok) in log
    {
      assert Precedes(log, Settles(h, Ok), Begins(RemoveListener(signal)));
      assert Settles(h, Ok) in log[..q];
    }
  }

  /** Of a stopped server that had listeners, they are in place if and only if some handler of the
      second group has not succeeded. */
  lemma InPlaceIff(w: World)
    requires Fits(w) && LogFits(w) && ListenersFit(w)
    requires w.server.phase.Stopped? && w.server.toDisposeLast != []
    ensures w.server.listening <==> !(forall h | h in w.server.toDispose :: Settles(h, Ok) in w.log)
  {
    FitsServer(w);
    var s := w.server;
    assert Ordered(s, w.log) && SettlesBegun(w.log) && SettlesOnce(w.log);
    assert s.toDispose != [];
    assert s.listening ==> Incomplete(s, w.log);
    assert !s.listening ==> !AllInPlace(w.log);
    hide Fits, TaskFits, ServerFits, LogFits, ListenersFit, Ordered, SettlesBegun, SettlesOnce, Incomplete;
    if s.listening {
      IncompleteFails(s, w.log);
    } else {
      RemovalSucceeds(s, w.log, if Begins(RemoveListener(SIGINT)) in w.log then SIGINT else SIGTERM);
    }
  }

  /** When a signal's call of `stop` ends well, the server has stopped and had listeners. */
  lemma EndsWellStopped(w: World, e: Event, signal: Signal)
    requires Fits(w) && EndsWell(w, e, signal)
    ensures Step(w, e).server.phase.Stopped? && Step(w, e).server.toDisposeLast != []
  {
    FitsServer(w);
    StepFits(w, e);
    if e.Resumes? {
      EndsWellSteps(w, e.task, signal);
      ResumedStops(w, e.task, signal);
    }
    hide Fits, All, TaskStep;
  }

  lemma ResumedStops(w: World, i: nat, signal: Signal)
    requires Fits(w) && EndsWell(w, Resumes(i), signal) && TaskStep(w, w.tasks[i], Resumes(i)).Some?
    ensures var s := TaskStep(w, w.tasks[i], Resumes(i)).value.server; s.phase.Stopped? && s.toDisposeLast != []
  {
    FitsServer(w);
    hide All;
  }

  /** In every run, when a signal is sent to the process again, the listeners are still in place if
      and only if some handler of the second group has not succeeded. */
  lemma ResentInPlaceIff(signals: bool, events: seq<Event>, e: Event, signal: Signal)
    ensures var w := Run(NewWorld(signals), events); var next := Step(w, e);
            Resends(signal) in NewItems(w, e) ==>
              && next.server.phase.Stopped? && next.server.receivedSignal
              && (next.server.listening <==> !(forall h | h in next.server.toDispose :: Settles(h, Ok) in next.log))
  {
    var w := Run(NewWorld(signals), events);
    ResendsIff(signals, events, e, signal);
    hide Run, Fits, LogFits, ListenersFit, Step, SignalsFit, EndsWell, NewItems;
    if Resends(signal) in NewItems(w, e) {
      RunFits(signals, events);
      RunKeepsLog(signals, events);
      RunListens(signals, events);
      SignalsEndOnce(signals, events);
      EndsWellStopped(w, e, signal);
      StepFits(w, e);
      StepKeepsLog(w, e);
      StepListens(w, e);
      StepKeepsSignals(w, e);
      InPlaceIff(Step(w, e));
      ResentWasReceived(Step(w, e), w, signal, e);
    }
  }

  lemma ResentWasReceived(next: World, w: World, signal: Signal, e: Event)
    requires SignalsFit(next) && next == Step(w, e) && Resends(signal) in NewItems(w, e)
    ensures next.server.receivedSignal
  {
    hide Step, ResendsJustified, OneFinal;
    var q :| 0 <= q < |NewItems(w, e)| && NewItems(w, e)[q] == Resends(signal);
    assert next.log[|w.log| + q] == Resends(signal);
  }

  // ---------------------------------------------------------------- the process lives on

  /** A server that has stopped with its listeners in place, after a signal has been received. */
  predicate Deaf(s: Server) {
    s.phase.Stopped? && s.listening && s.receivedSignal
  }

  lemma StepStaysDeaf(w: World, e: Event)
    requires Fits(w) && Deaf(w.server)
    ensures Deaf(Step(w, e).server) && w.log <= Step(w, e).log
    ensures e.Signalled? ==> Step(w, e) == w
  {
    StepFits(w, e);
    StepHears(w, e);
    if !e.HandlerSettles? && !e.Signalled? {
      var from, task, i, g := StepExtends(w, e);
      hide Step, Fits, Classified;
      if Step(w, e) != w {
        StoppedIsPlain(from.server, from.log, task, g);
        PlainStays(w, from, Step(w, e), task, i, g);
      }
    }
  }

  lemma StoppedIsPlain(s: Server, log: seq<Item>, task: Option<Task>, g: Segment)
    requires s.phase.Stopped? && Classified(s, log, task, g)
    ensures Plain(s, g)
  {
    hide Plain, All, BeginAll;
  }

  predicate Hears(s: Server, t: Server) {
    s.receivedSignal ==> t.receivedSignal
  }

  lemma StepHears(w: World, e: Event)
    ensures Hears(w.server, Step(w, e).server)
  {
    hide StartCall, StopCall, Ensure, TaskStep, Settled;
    CallsHear(w.server, e.Operation?, None);
    if e.Signalled? {
      CallsHear(w.server.(receivedSignal := true), false, Some(e.signal));
    } else if (e.SchemaLoads? || e.HooksStart? || e.LandingPageLoads? || e.Resumes?) && e.task < |w.tasks| {
      if TaskStep(w, w.tasks[e.task], e).Some? {
        CallHears(w, w.tasks[e.task], e);
      }
    }
  }

  lemma CallsHear(s: Server, forOperation: bool, signal: Option<Signal>)
    ensures Hears(s, StartCall(s, forOperation).server) && Hears(s, StopCall(s, signal).server)
    ensures Hears(s, Ensure(s, 0).server)
  {
  }

  lemma CallHears(w: World, task: Task, e: Event)
    requires TaskStep(w, task, e).Some?
    ensures Hears(w.server, TaskStep(w, task, e).value.server)
  {
    hide All, BeginAll;
  }

  lemma PlainStays(w: World, from: World, next: World, task: Option<Task>, i: nat, g: Segment)
    requires Deaf(w.server) && (from == w || from == Hear(w)) && Plain(from.server, g)
    requires Extends(from, next, task, i, g) && Advances(w.server.phase, next.server.phase)
    ensures next.server.phase.Stopped? && next.server.listening && w.log <= next.log
  {
    hide Fits;
  }

  lemma {:induction false} RunGrows(signals: bool, events: seq<Event>, more: seq<Event>)
    requires Deaf(Run(NewWorld(signals), events).server)
    ensures Deaf(Run(NewWorld(signals), events + more).server)
    ensures Run(NewWorld(signals), events).log <= Run(NewWorld(signals), events + more).log
    decreases |more|
  {
    if more == [] {
      assert events + more == events;
    } else {
      var before := more[..|more| - 1];
      assert (events + more)[..|events + more| - 1] == events + before;
      RunGrows(signals, events, before);
      RunFits(signals, events + before);
      hide Deaf, Step, Fits;
      StepStaysDeaf(Run(NewWorld(signals), events + before), more[|more| - 1]);
    }
  }

  /** After a signal has been sent again with the listeners in place, the process lives on: every
      signal, the one sent again too, is ignored, whatever else happens, and the signal handler
      neither exits nor sends another. */
  lemma ResentIsSwallowed(signals: bool, events: seq<Event>, more: seq<Event>, signal: Signal, arriving: Signal)
    requires var w := Run(NewWorld(signals), events); Resends(signal) in w.log && Deaf(w.server)
    ensures var w, later := Run(NewWorld(signals), events), Run(NewWorld(signals), events + more);
            && later.server.listening && Step(later, Signalled(arriving)) == later
            && w.log <= later.log
            && (forall q | |w.log| <= q < |later.log| :: !Final(later.log[q]))
  {
    RunGrows(signals, events, more);
    RunFits(signals, events + more);
    SignalsEndOnce(signals, events + more);
    var w, later := Run(NewWorld(signals), events), Run(NewWorld(signals), events + more);
    StepStaysDeaf(later, Signalled(arriving));
    hide Run, Step, Fits, SignalsFit;
    var p :| 0 <= p < |w.log| && w.log[p] == Resends(signal);
    assert later.log[p] == Resends(signal);
  }
}
