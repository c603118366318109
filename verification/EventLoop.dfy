/** The event loop that runs the segments of a server object, and what every run of it keeps. */
module EventLoop {
  import opened Wrappers
  import opened Lifecycle
  import opened Phases
  import opened ShuttingDown
  import opened StopCalls
  import opened Signals

  /** A server object, the calls in progress, and what has happened. */
  class Loop {
    const server: ApolloServer
    var tasks: seq<Task>
    var log: seq<Item>

    constructor (stopOnTerminationSignals: bool)
      ensures fresh(server) && Contents() == NewWorld(stopOnTerminationSignals)
    {
      server := new ApolloServer(stopOnTerminationSignals);
      tasks, log := [], [];
    }

    function Contents(): World
      reads this, server
    {
      World(server.Fields(), tasks, log)
    }

    /** Runs the segment of a call, if the event is what it awaits. */
    method Proceed(task: Task, e: Event) returns (awaited: bool, next: Task, items: seq<Item>)
      modifies server
      ensures awaited == TaskStep(old(Contents()), task, e).Some?
      ensures awaited ==> Segment(server.Fields(), next, items) == TaskStep(old(Contents()), task, e).value
      ensures !awaited ==> server.Fields() == old(server.Fields())
    {
      awaited, next, items := false, task, [];
      match task
      case LoadingSchema(barrier, forOperation) =>
        if e.SchemaLoads? && barrier < |server.barriers| {
          next, items := server.OnSchemaLoaded(barrier, forOperation, e.load);
          awaited := true;
        }
      case StartingHooks(barrier, forOperation) =>
        if e.HooksStart? && barrier < |server.barriers| {
          next, items := server.OnHooksStarted(barrier, forOperation, e.listeners);
          awaited := true;
        }
      case LoadingLandingPage(barrier, forOperation) =>
        if e.LandingPageLoads? && barrier < |server.barriers| {
          next, items := server.OnLandingPageLoaded(barrier, forOperation, e.outcome);
          awaited := true;
        }
      case Admitted =>
      case Ended(_) =>
      case _ =>
        if e.Resumes? {
          awaited, next, items := Wake(task);
        }
    }

    /** Runs the segment of a call that awaits a barrier or a group of handlers, once it has
        settled. */
    method Wake(task: Task) returns (awaited: bool, next: Task, items: seq<Item>)
      modifies server
      ensures awaited == Resume(old(Contents()), task).Some?
      ensures awaited ==> Segment(server.Fields(), next, items) == Resume(old(Contents()), task).value
      ensures !awaited ==> server.Fields() == old(server.Fields())
    {
      awaited, next, items := false, task, [];
      match task
      case StartedForOperation =>
        next, items := server.EnsureStarted(0);
        awaited := true;
      case AwaitingStart(barrier, waits) =>
        if barrier < |server.barriers| && server.barriers[barrier] {
          next, items := server.EnsureStarted(waits);
          awaited := true;
        }
      case AwaitingStop(barrier, signal) =>
        if barrier < |server.barriers| && server.barriers[barrier] {
          next, items := server.OnStopAwaited(signal);
          awaited := true;
        }
      case DrainingServers(barrier, signal) =>
        var all := All(log, if server.drainServers.None? then [] else server.drainServers.value);
        if barrier < |server.barriers| && all.Some? {
          next, items := server.OnDrained(barrier, signal, all.value);
          awaited := true;
        }
      case Disposing(barrier, signal) =>
        var all := All(log, server.toDispose);
        if barrier < |server.barriers| && all.Some? {
          next, items := server.OnDisposed(barrier, signal, all.value);
          awaited := true;
        }
      case DisposingLast(barrier, signal) =>
        var all := All(log, server.toDisposeLast);
        if barrier < |server.barriers| && all.Some? {
          next, items := server.OnDisposedLast(barrier, signal, all.value);
          awaited := true;
        }
      case _ =>
    }

    /** One event: a call begins, a signal arrives, a handler settles, or a call goes on. */
    method Handle(e: Event)
      modifies this, server
      ensures Contents() == Step(old(Contents()), e)
    {
      var task, items;
      match e {
        case Start => task, items := server.Start(false);
        case Stop => task, items := server.Stop(None);
        case Operation => task, items := server.ExecuteOperation();
        case Ensuring => task, items := server.EnsureStarted(0);
        case Signalled(signal) =>
          var handled;
          handled, task, items := server.OnSignal(signal);
          if !handled {
            return;
          }
        case HandlerSettles(handler, outcome) =>
          if Begins(handler) in log && !Settled(Contents(), handler) {
            log := log + [Settles(handler, outcome)];
          }
          return;
        case _ =>
          if e.task < |tasks| {
            var awaited;
            awaited, task, items := Proceed(tasks[e.task], e);
            if awaited {
              tasks, log := tasks[e.task := task], log + items;
            }
          }
          return;
      }
      tasks, log := tasks + [task], log + items;
    }

    /** A whole run of a new server. Whatever holds of every run of the model holds of this object:
        its handlers begin once each and in order, operations are admitted only while it runs, calls
        of `stop` report what they should, and its signal handler does its work at most once. */
    method RunAll(events: seq<Event>)
      requires server.Fields() == NewServer(server.stopOnTerminationSignals) && tasks == [] && log == []
      modifies this, server
      ensures Contents() == Run(NewWorld(server.stopOnTerminationSignals), events)
      ensures ServerFits(server.Fields())
      ensures EachBegunOnce(log) && Ordered(server.Fields(), log)
      ensures Precedes(log, Enters(Started), Admits) && ClosedAfterDraining(log)
      ensures ReportsFit(server.state, ReportsOf(log)) && Surprises !in log
      ensures OneFinal(log) && ResendsJustified(log)
    {
      ghost var w0 := NewWorld(server.stopOnTerminationSignals);
      for n := 0 to |events|
        invariant Contents() == Run(w0, events[..n])
      {
        Handle(events[n]);
        assert events[..n + 1][..n] == events[..n];
      }
      assert events[..|events|] == events;
      RunFits(server.stopOnTerminationSignals, events);
      DisposalInOrder(server.stopOnTerminationSignals, events);
      AdmissionOnlyWhileRunning(server.stopOnTerminationSignals, events);
      RunKeepsReports(server.stopOnTerminationSignals, events);
      SignalsEndOnce(server.stopOnTerminationSignals, events);
    }
  }
}
