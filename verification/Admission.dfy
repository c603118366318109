/** When operations are admitted, wait or are refused. */
module Admission {
  import opened Wrappers
  import opened Lifecycle
  import opened Phases
  import opened Signals

  /** The event runs a turn of the loop of `_ensureStarted`: a request comes in, an operation is
      executed on a server that somebody has started, or a call that has started the server for its
      operation, or has awaited the start, goes on. */
  predicate RunsTurn(w: World, e: Event) {
    match e
    case Ensuring => true
    case Operation => w.server.phase != Initialized
    case Resumes(i) =>
      && i < |w.tasks|
      && (w.tasks[i].StartedForOperation? || (w.tasks[i].AwaitingStart? && Resolved(w.server, w.tasks[i].barrier)))
    case _ => false
  }

  /** The call that the event is about: one in progress, or a new one. */
  function CallOf(w: World, e: Event): nat {
    if e.Resumes? then e.task else |w.tasks|
  }

  predicate Serving(p: Phase) {
    p.Started? || p.Draining?
  }

  /** The error that an operation gets in each phase but those in which it is admitted or waits. */
  predicate RefusedWith(p: Phase, reason: Reason) {
    || (p == Initialized && reason == NotStarted)
    || (p == FailedToStart && reason == MissingConfiguration)
    || (p.Stopping? && reason == ServerIsStopping)
    || (p.Stopped? && reason == ServerHasStopped)
  }

  /** In every run an event admits an operation if and only if it runs a turn of the loop while the
      server is started or draining. A turn changes nothing else: its call is admitted then, awaits the
      barrier while the server is starting, and ends with the error of the phase in every other. */
  lemma AdmitsIff(signals: bool, events: seq<Event>, e: Event)
    ensures var w := Run(NewWorld(signals), events); var next := Step(w, e); var i := CallOf(w, e);
            && (Admits in NewItems(w, e) <==> RunsTurn(w, e) && Serving(w.server.phase))
            && (RunsTurn(w, e) ==>
                  && next.server == w.server && i < |next.tasks|
                  && next.log == w.log + (if Serving(w.server.phase) then [Admits] else [])
                  && (next.tasks[i].Admitted? <==> Serving(w.server.phase))
                  && (next.tasks[i].AwaitingStart? <==> w.server.phase.Starting?)
                  && (w.server.phase.Starting? ==> next.tasks[i].barrier == w.server.phase.barrier)
                  && (next.tasks[i].Ended? <==> !Serving(w.server.phase) && !w.server.phase.Starting?)
                  && (next.tasks[i].Ended? ==>
                        next.tasks[i].outcome.Err? && RefusedWith(w.server.phase, next.tasks[i].outcome.reason)))
  {
    var w := Run(NewWorld(signals), events);
    RunFits(signals, events);
    hide Run;
    if RunsTurn(w, e) {
      TurnAdmits(w, e);
    } else {
      OthersAdmitNothing(w, e);
    }
  }

  lemma TurnAdmits(w: World, e: Event)
    requires RunsTurn(w, e)
    ensures var waits := if e.Resumes? && w.tasks[e.task].AwaitingStart? then w.tasks[e.task].waits else 0;
            Step(w, e) == if e.Resumes? then Continue(w, e.task, Ensure(w.server, waits))
                          else Spawn(w, Ensure(w.server, waits))
    ensures NewItems(w, e) == if Serving(w.server.phase) then [Admits] else []
  {
  }

  lemma OthersAdmitNothing(w: World, e: Event)
    requires Fits(w) && !RunsTurn(w, e)
    ensures Admits !in NewItems(w, e)
  {
    FitsServer(w);
    hide StartCall, StopCall, Ensure, TaskStep, Fits, ServerFits, TaskFits;
    match e
    case Start => StartAdmitsNothing(w.server, false);
    case Stop => StopAdmitsNothing(w.server, None);
    case Operation => StartAdmitsNothing(w.server, true);
    case Ensuring =>
    case Signalled(signal) => StopAdmitsNothing(w.server.(receivedSignal := true), Some(signal));
    case HandlerSettles(_, _) =>
    case _ =>
      if e.task < |w.tasks| && TaskStep(w, w.tasks[e.task], e).Some? {
        CallAdmitsNothing(w, w.tasks[e.task], e);
      }
  }

  lemma StartAdmitsNothing(s: Server, forOperation: bool)
    ensures Admits !in StartCall(s, forOperation).items
  {
  }

  lemma EndAdmitsNothing(s: Server, signal: Option<Signal>, outcome: Outcome, before: seq<Item>)
    requires Admits !in before
    ensures Admits !in StopEnds(s, signal, outcome, before).items
  {
  }

  lemma StopAdmitsNothing(s: Server, signal: Option<Signal>)
    ensures Admits !in StopCall(s, signal).items
  {
    hide StopEnds;
    if s.phase.Stopped? {
      EndAdmitsNothing(s, signal, Later(s.phase.stopError), []);
    }
  }

  lemma CallAdmitsNothing(w: World, task: Task, e: Event)
    requires TaskFits(w.server, task) && TaskStep(w, task, e).Some?
    requires !(task.StartedForOperation? || task.AwaitingStart?)
    ensures Admits !in TaskStep(w, task, e).value.items
  {
    if Starter(task) {
      StarterEnters(w, task, e);
    } else {
      StopperAdmitsNothing(w, task, e);
    }
    hide TaskStep, TaskFits;
  }

  lemma StopperAdmitsNothing(w: World, task: Task, e: Event)
    requires TaskStep(w, task, e).Some? && (Stopper(task) || task.AwaitingStop?)
    ensures Admits !in TaskStep(w, task, e).value.items
  {
    hide All, StopEnds, BeginAll;
    var s := w.server;
    if task.AwaitingStop? {
      if s.phase.Stopped? {
        EndAdmitsNothing(s, task.signal, Later(s.phase.stopError), []);
      }
    } else {
      var outcome := All(w.log, if task.DrainingServers? then Drains(s) else
                                if task.Disposing? then s.toDispose else s.toDisposeLast).value;
      if outcome.Err? {
        var stopped := Enter(s, Stopped(Some(outcome.reason))).(barriers := s.barriers[task.barrier := true]);
        EndAdmitsNothing(stopped, task.signal, outcome, [Enters(stopped.phase)]);
      } else {
        EndAdmitsNothing(Enter(s, Stopped(None)), task.signal, Ok, [Enters(Stopped(None))]);
      }
    }
  }
}
