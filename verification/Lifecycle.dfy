/** The life of an Apollo Server: `start`, `stop`, the signal handler and the operations act on one
    state, each in segments that run without interruption between two awaits. */
module Lifecycle {
  import opened Wrappers

  datatype Phase =
    | Initialized
    | Starting(barrier: nat)
    | FailedToStart
    | Started
    | Draining(barrier: nat)
    | Stopping(barrier: nat)
    | Stopped(stopError: Option<Reason>)

  /** What was thrown: an error of the server's own, something of a plugin or the gateway, or one
      of those values that JavaScript takes for false. */
  datatype Reason =
    | SurprisingStartState | ManyLandingPageRenderers                         // of `start`
    | NotStarted | MissingConfiguration | ServerIsStopping | ServerHasStopped  // of `_ensureStarted`
    | StopBeforeStarted | SurprisingPostStoppingState                         // of `stop`
    | Thrown(id: nat)
    | Falsy

  datatype Outcome = Ok | Err(reason: Reason)

  datatype Signal = SIGINT | SIGTERM

  /** The callbacks that shutting down calls. */
  datatype Handler =
    | DrainServer(n: nat)
    | StopSchemaManager
    | ServerWillStop
    | RemoveListener(signal: Signal)

  /** The fields of a server, with the barriers it has made and whether they are resolved. */
  datatype Server = Server(
    phase: Phase,
    barriers: seq<bool>,
    toDispose: seq<Handler>,
    toDisposeLast: seq<Handler>,
    drainServers: Option<seq<Handler>>,
    stopOnTerminationSignals: bool,
    listening: bool,
    receivedSignal: bool)

  function NewServer(stopOnTerminationSignals: bool): Server {
    Server(Initialized, [], [], [], None, stopOnTerminationSignals, false, false)
  }

  /** What an asynchronous call awaits. */
  datatype Task =
    | LoadingSchema(barrier: nat, forOperation: bool)
    | StartingHooks(barrier: nat, forOperation: bool)
    | LoadingLandingPage(barrier: nat, forOperation: bool)
    | StartedForOperation
    | AwaitingStart(barrier: nat, waits: nat)
    | DrainingServers(barrier: nat, signal: Option<Signal>)
    | Disposing(barrier: nat, signal: Option<Signal>)
    | DisposingLast(barrier: nat, signal: Option<Signal>)
    | AwaitingStop(barrier: nat, signal: Option<Signal>)
    | Admitted
    | Ended(outcome: Outcome)

  /** What happened, in order. */
  datatype Item =
    | Enters(phase: Phase)
    | Begins(handler: Handler)
    | Settles(handler: Handler, outcome: Outcome)
    | Admits
    | Reports(outcome: Outcome)   // a call of `stop` that saw the server commit to stopping ends
    | Surprises                   // "Surprising post-stopping state"
    | Exits
    | Resends(signal: Signal)

  /** One segment: the fields after it, what its call awaits next, and what happened. */
  datatype Segment = Segment(server: Server, task: Task, items: seq<Item>)

  function Enter(s: Server, phase: Phase): Server {
    s.(phase := phase)
  }

  function BeginAll(handlers: seq<Handler>): (items: seq<Item>)
    ensures |items| == |handlers|
    ensures forall i | 0 <= i < |handlers| :: items[i] == Begins(handlers[i])
  {
    seq(|handlers|, i requires 0 <= i < |handlers| => Begins(handlers[i]))
  }

  // ---------------------------------------------------------------- start

  function StartCall(s: Server, forOperation: bool): Segment {
    if s.phase != Initialized then
      Segment(s, Ended(Err(SurprisingStartState)), [])
    else
      var barrier := |s.barriers|;
      Segment(Enter(s, Starting(barrier)).(barriers := s.barriers + [false]),
              LoadingSchema(barrier, forOperation), [Enters(Starting(barrier))])
  }

  /** How the start of the schema manager goes. */
  datatype SchemaLoad = Loaded | NotLoaded(reason: Reason) | NoSchema(reason: Reason)

  function SchemaLoaded(s: Server, barrier: nat, forOperation: bool, load: SchemaLoad): Segment
    requires barrier < |s.barriers|
  {
    var managed := s.(toDispose := s.toDispose + [StopSchemaManager]);
    match load
    case NotLoaded(reason) => StartFails(s, barrier, reason)
    case NoSchema(reason) => StartFails(managed, barrier, reason)
    case Loaded => Segment(managed, StartingHooks(barrier, forOperation), [])
  }

  datatype LandingPage = NoLandingPage | OneLandingPage | ManyLandingPages

  /** How the `serverWillStart` hooks go, and what the listeners they return ask for. */
  datatype Listeners =
    | Rejected(reason: Reason)
    | Registered(willStop: bool, drains: nat, landingPage: LandingPage)

  function DrainCallbacks(n: nat): seq<Handler> {
    seq(n, i requires 0 <= i < n => DrainServer(i))
  }

  function HooksStarted(s: Server, barrier: nat, forOperation: bool, listeners: Listeners): Segment
    requires barrier < |s.barriers|
  {
    match listeners
    case Rejected(reason) => StartFails(s, barrier, reason)
    case Registered(willStop, drains, landingPage) =>
      var registered := Register(s, willStop, drains);
      match landingPage
      case ManyLandingPages =>
        StartFails(registered, barrier, ManyLandingPageRenderers)
      case OneLandingPage => Segment(registered, LoadingLandingPage(barrier, forOperation), [])
      case NoLandingPage => Launch(registered, barrier, forOperation)
  }

  function Register(s: Server, willStop: bool, drains: nat): Server {
    var willing := if willStop then s.(toDispose := s.toDispose + [ServerWillStop]) else s;
    if drains > 0 then willing.(drainServers := Some(DrainCallbacks(drains))) else willing
  }

  function LandingPageLoaded(s: Server, barrier: nat, forOperation: bool, outcome: Outcome): Segment
    requires barrier < |s.barriers|
  {
    match outcome
    case Ok => Launch(s, barrier, forOperation)
    case Err(reason) => StartFails(s, barrier, reason)
  }

  const SIGNAL_LISTENERS := [RemoveListener(SIGINT), RemoveListener(SIGTERM)]

  function Launch(s: Server, barrier: nat, forOperation: bool): Segment
    requires barrier < |s.barriers|
  {
    var started := Enter(s, Started).(barriers := s.barriers[barrier := true]);
    Segment(if s.stopOnTerminationSignals then
              started.(listening := true, toDisposeLast := s.toDisposeLast + SIGNAL_LISTENERS)
            else started,
            if forOperation then StartedForOperation else Ended(Ok), [Enters(Started)])
  }

  function StartFails(s: Server, barrier: nat, reason: Reason): Segment
    requires barrier < |s.barriers|
  {
    Segment(Enter(s, FailedToStart).(barriers := s.barriers[barrier := true]), Ended(Err(reason)),
            [Enters(FailedToStart)])
  }

  // ---------------------------------------------------------------- operations

  /** A turn of the loop of `_ensureStarted`, after so many waits. */
  function Ensure(s: Server, waits: nat): Segment {
    match s.phase
    case Initialized => Refuse(s, NotStarted)
    case Starting(barrier) => Segment(s, AwaitingStart(barrier, waits + 1), [])
    case FailedToStart => Refuse(s, MissingConfiguration)
    case Started => Segment(s, Admitted, [Admits])
    case Draining(_) => Segment(s, Admitted, [Admits])
    case Stopping(_) => Refuse(s, ServerIsStopping)
    case Stopped(_) => Refuse(s, ServerHasStopped)
  }

  function Refuse(s: Server, reason: Reason): Segment {
    Segment(s, Ended(Err(reason)), [])
  }

  /** `executeOperation` starts the server first if nobody has. */
  function OperationCall(s: Server): Segment {
    if s.phase == Initialized then StartCall(s, true) else Ensure(s, 0)
  }

  // ---------------------------------------------------------------- stop

  function StopCall(s: Server, signal: Option<Signal>): Segment {
    match s.phase
    case Stopped(stopError) => StopEnds(s, signal, Later(stopError), [])
    case Draining(barrier) => Segment(s, AwaitingStop(barrier, signal), [])
    case Stopping(barrier) => Segment(s, AwaitingStop(barrier, signal), [])
    case Started =>
      var barrier := |s.barriers|;
      Segment(Enter(s, Draining(barrier)).(barriers := s.barriers + [false]),
              DrainingServers(barrier, signal),
              [Enters(Draining(barrier))] + BeginAll(Drains(s)))
    case _ =>
      Refuse(s, StopBeforeStarted)
  }

  function Drains(s: Server): seq<Handler> {
    if s.drainServers.None? then [] else s.drainServers.value
  }

  /** What a call of `stop` reports when it finds the server stopped: it throws the stored error if
      that is not a value that counts as false. */
  function Later(stopError: Option<Reason>): Outcome {
    match stopError
    case None => Ok
    case Some(reason) => if reason == Falsy then Ok else Err(reason)
  }

  function First(stopError: Option<Reason>): Outcome {
    match stopError
    case None => Ok
    case Some(reason) => Err(reason)
  }

  /** A call of `stop` ends, and with it the signal handler that made the call, if one did. */
  function StopEnds(s: Server, signal: Option<Signal>, outcome: Outcome, before: seq<Item>): Segment {
    Segment(s, Ended(outcome),
            before + [Reports(outcome)] +
            match signal
            case None => []
            case Some(sig) => if outcome == Ok then [Resends(sig)] else [Exits])
  }

  /** The barrier that a parallel call of `stop` awaited is resolved. */
  function StopAwaited(s: Server, signal: Option<Signal>): Segment {
    match s.phase
    case Stopped(stopError) => StopEnds(s, signal, Later(stopError), [])
    case _ => Segment(s, Ended(Err(SurprisingPostStoppingState)), [Surprises])
  }

  function StopFails(s: Server, barrier: nat, signal: Option<Signal>, reason: Reason): Segment
    requires barrier < |s.barriers|
  {
    StopEnds(Enter(s, Stopped(Some(reason))).(barriers := s.barriers[barrier := true]),
             signal, Err(reason), [Enters(Stopped(Some(reason)))])
  }

  function Drained(s: Server, barrier: nat, signal: Option<Signal>, outcome: Outcome): Segment
    requires barrier < |s.barriers|
  {
    match outcome
    case Err(reason) => StopFails(s, barrier, signal, reason)
    case Ok => Segment(Enter(s, Stopping(barrier)), Disposing(barrier, signal),
                       [Enters(Stopping(barrier))] + BeginAll(s.toDispose))
  }

  function Disposed(s: Server, barrier: nat, signal: Option<Signal>, outcome: Outcome): Segment
    requires barrier < |s.barriers|
  {
    match outcome
    case Err(reason) => StopFails(s, barrier, signal, reason)
    case Ok => Segment(s.(listening := s.listening && s.toDisposeLast == []), DisposingLast(barrier, signal),
                       BeginAll(s.toDisposeLast))
  }

  /** The last segment; it leaves the barrier as it is. */
  function DisposedLast(s: Server, barrier: nat, signal: Option<Signal>, outcome: Outcome): Segment
    requires barrier < |s.barriers|
  {
    match outcome
    case Err(reason) => StopFails(s, barrier, signal, reason)
    case Ok => StopEnds(Enter(s, Stopped(None)), signal, Ok, [Enters(Stopped(None))])
  }

  // ---------------------------------------------------------------- the class

  /** The segments as the code writes them. Each method runs from one await to the next and gives
      what its call awaits then, and what happened. */
  class ApolloServer {
    var state: Phase
    var barriers: seq<bool>
    var toDispose: seq<Handler>
    var toDisposeLast: seq<Handler>
    var drainServers: Option<seq<Handler>>
    const stopOnTerminationSignals: bool
    var listening: bool
    var receivedSignal: bool

    constructor (stopOnTerminationSignals: bool)
      ensures Fields() == NewServer(stopOnTerminationSignals)
    {
      this.stopOnTerminationSignals := stopOnTerminationSignals;
      state, barriers, toDispose, toDisposeLast, drainServers := Initialized, [], [], [], None;
      listening, receivedSignal := false, false;
    }

    function Fields(): Server
      reads this
    {
      Server(state, barriers, toDispose, toDisposeLast, drainServers, stopOnTerminationSignals,
             listening, receivedSignal)
    }

    method Resolvable() returns (barrier: nat)
      modifies this`barriers
      ensures barrier == |old(barriers)| && barriers == old(barriers) + [false]
    {
      barrier := |barriers|;
      barriers := barriers + [false];
    }

    method Resolve(barrier: nat)
      requires barrier < |barriers|
      modifies this`barriers
      ensures barriers == old(barriers)[barrier := true]
    {
      barriers := barriers[barrier := true];
    }

    /** Calls every handler, in order. */
    method CallAll(handlers: seq<Handler>) returns (items: seq<Item>)
      ensures items == BeginAll(handlers)
    {
      items := [];
      for i := 0 to |handlers|
        invariant items == BeginAll(handlers[..i])
      {
        items := items + [Begins(handlers[i])];
      }
      assert handlers[..|handlers|] == handlers;
    }

    method Start(forOperation: bool) returns (task: Task, items: seq<Item>)
      modifies this
      ensures Segment(Fields(), task, items) == StartCall(old(Fields()), forOperation)
    {
      if state != Initialized {
        return Ended(Err(SurprisingStartState)), [];
      }
      var barrier := Resolvable();
      state := Starting(barrier);
      return LoadingSchema(barrier, forOperation), [Enters(state)];
    }

    method OnSchemaLoaded(barrier: nat, forOperation: bool, load: SchemaLoad) returns (task: Task, items: seq<Item>)
      requires barrier < |barriers|
      modifies this
      ensures Segment(Fields(), task, items) == SchemaLoaded(old(Fields()), barrier, forOperation, load)
    {
      if load.NotLoaded? {
        task, items := FailToStart(barrier, load.reason);
        return;
      }
      toDispose := toDispose + [StopSchemaManager];
      if load.NoSchema? {
        task, items := FailToStart(barrier, load.reason);
        return;
      }
      return StartingHooks(barrier, forOperation), [];
    }

    method OnHooksStarted(barrier: nat, forOperation: bool, listeners: Listeners)
      returns (task: Task, items: seq<Item>)
      requires barrier < |barriers|
      modifies this
      ensures Segment(Fields(), task, items) == HooksStarted(old(Fields()), barrier, forOperation, listeners)
    {
      if listeners.Rejected? {
        task, items := FailToStart(barrier, listeners.reason);
        return;
      }
      if listeners.willStop {
        toDispose := toDispose + [ServerWillStop];
      }
      if listeners.drains > 0 {
        drainServers := Some(DrainCallbacks(listeners.drains));
      }
      if listeners.landingPage.ManyLandingPages? {
        task, items := FailToStart(barrier, ManyLandingPageRenderers);
      } else if listeners.landingPage.OneLandingPage? {
        task, items := LoadingLandingPage(barrier, forOperation), [];
      } else {
        task, items := Finish(barrier, forOperation);
      }
    }

    method OnLandingPageLoaded(barrier: nat, forOperation: bool, outcome: Outcome)
      returns (task: Task, items: seq<Item>)
      requires barrier < |barriers|
      modifies this
      ensures Segment(Fields(), task, items) == LandingPageLoaded(old(Fields()), barrier, forOperation, outcome)
    {
      if outcome.Err? {
        task, items := FailToStart(barrier, outcome.reason);
      } else {
        task, items := Finish(barrier, forOperation);
      }
    }

    method Finish(barrier: nat, forOperation: bool) returns (task: Task, items: seq<Item>)
      requires barrier < |barriers|
      modifies this
      ensures Segment(Fields(), task, items) == Launch(old(Fields()), barrier, forOperation)
    {
      state := Started;
      MaybeRegisterTerminationSignalHandlers();
      Resolve(barrier);
      return if forOperation then StartedForOperation else Ended(Ok), [Enters(Started)];
    }

    method MaybeRegisterTerminationSignalHandlers()
      modifies this`listening, this`toDisposeLast
      ensures listening == (old(listening) || stopOnTerminationSignals)
      ensures toDisposeLast == old(toDisposeLast) + if stopOnTerminationSignals then SIGNAL_LISTENERS else []
    {
      if !stopOnTerminationSignals {
        return;
      }
      var signals := [SIGINT, SIGTERM];
      for i := 0 to |signals|
        invariant listening == (old(listening) || i > 0)
        invariant toDisposeLast == old(toDisposeLast) + SIGNAL_LISTENERS[..i]
      {
        listening := true;
        toDisposeLast := toDisposeLast + [RemoveListener(signals[i])];
      }
    }

    method FailToStart(barrier: nat, reason: Reason) returns (task: Task, items: seq<Item>)
      requires barrier < |barriers|
      modifies this`state, this`barriers
      ensures Segment(Fields(), task, items) == StartFails(old(Fields()), barrier, reason)
    {
      state := FailedToStart;
      Resolve(barrier);
      return Ended(Err(reason)), [Enters(FailedToStart)];
    }

    method EnsureStarted(waits: nat) returns (task: Task, items: seq<Item>)
      ensures Segment(Fields(), task, items) == Ensure(Fields(), waits)
    {
      items := [];
      match state
      case Initialized => task := Ended(Err(NotStarted));
      case Starting(barrier) => task := AwaitingStart(barrier, waits + 1);
      case FailedToStart => task := Ended(Err(MissingConfiguration));
      case Started => task, items := Admitted, [Admits];
      case Draining(_) => task, items := Admitted, [Admits];
      case Stopping(_) => task := Ended(Err(ServerIsStopping));
      case Stopped(_) => task := Ended(Err(ServerHasStopped));
    }

    method ExecuteOperation() returns (task: Task, items: seq<Item>)
      modifies this
      ensures Segment(Fields(), task, items) == OperationCall(old(Fields()))
    {
      if state == Initialized {
        task, items := Start(true);
      } else {
        task, items := EnsureStarted(0);
      }
    }

    method Stop(signal: Option<Signal>) returns (task: Task, items: seq<Item>)
      modifies this
      ensures Segment(Fields(), task, items) == StopCall(old(Fields()), signal)
    {
      match state {
        case Initialized => return Ended(Err(StopBeforeStarted)), [];
        case Starting(_) => return Ended(Err(StopBeforeStarted)), [];
        case FailedToStart => return Ended(Err(StopBeforeStarted)), [];
        case Stopped(stopError) =>
          task, items := ReportStop(signal, Later(stopError), []);
          return;
        case Stopping(barrier) => return AwaitingStop(barrier, signal), [];
        case Draining(barrier) => return AwaitingStop(barrier, signal), [];
        case Started =>
      }
      var barrier := Resolvable();
      state := Draining(barrier);
      items := [Enters(state)];
      if drainServers.Some? {
        var begun := CallAll(drainServers.value);
        items := items + begun;
      }
      task := DrainingServers(barrier, signal);
    }

    /** The signal handler. */
    method OnSignal(signal: Signal) returns (handled: bool, task: Task, items: seq<Item>)
      modifies this
      ensures handled == (old(listening) && !old(receivedSignal))
      ensures handled ==>
                Segment(Fields(), task, items) == StopCall(old(Fields()).(receivedSignal := true), Some(signal))
      ensures !handled ==> Fields() == old(Fields())
    {
      task, items := Ended(Ok), [];
      if !listening || receivedSignal {
        return false, task, items;
      }
      receivedSignal := true;
      task, items := Stop(Some(signal));
      handled := true;
    }

    method ReportStop(signal: Option<Signal>, outcome: Outcome, before: seq<Item>)
      returns (task: Task, items: seq<Item>)
      ensures Segment(Fields(), task, items) == StopEnds(Fields(), signal, outcome, before)
    {
      items := before + [Reports(outcome)];
      if signal.Some? {
        items := items + if outcome == Ok then [Resends(signal.value)] else [Exits];
      }
      task := Ended(outcome);
    }

    method OnStopAwaited(signal: Option<Signal>) returns (task: Task, items: seq<Item>)
      ensures Segment(Fields(), task, items) == StopAwaited(Fields(), signal)
    {
      if !state.Stopped? {
        return Ended(Err(SurprisingPostStoppingState)), [Surprises];
      }
      task, items := ReportStop(signal, Later(state.stopError), []);
    }

    method FailToStop(barrier: nat, signal: Option<Signal>, reason: Reason) returns (task: Task, items: seq<Item>)
      requires barrier < |barriers|
      modifies this`state, this`barriers
      ensures Segment(Fields(), task, items) == StopFails(old(Fields()), barrier, signal, reason)
    {
      state := Stopped(Some(reason));
      Resolve(barrier);
      task, items := ReportStop(signal, Err(reason), [Enters(state)]);
    }

    method OnDrained(barrier: nat, signal: Option<Signal>, outcome: Outcome) returns (task: Task, items: seq<Item>)
      requires barrier < |barriers|
      modifies this
      ensures Segment(Fields(), task, items) == Drained(old(Fields()), barrier, signal, outcome)
    {
      if outcome.Err? {
        task, items := FailToStop(barrier, signal, outcome.reason);
        return;
      }
      state := Stopping(barrier);
      items := CallAll(toDispose);
      return Disposing(barrier, signal), [Enters(state)] + items;
    }

    method OnDisposed(barrier: nat, signal: Option<Signal>, outcome: Outcome) returns (task: Task, items: seq<Item>)
      requires barrier < |barriers|
      modifies this
      ensures Segment(Fields(), task, items) == Disposed(old(Fields()), barrier, signal, outcome)
    {
      if outcome.Err? {
        task, items := FailToStop(barrier, signal, outcome.reason);
        return;
      }
      items := CallAll(toDisposeLast);
      if toDisposeLast != [] {
        listening := false;
      }
      task := DisposingLast(barrier, signal);
    }

    method OnDisposedLast(barrier: nat, signal: Option<Signal>, outcome: Outcome)
      returns (task: Task, items: seq<Item>)
      requires barrier < |barriers|
      modifies this
      ensures Segment(Fields(), task, items) == DisposedLast(old(Fields()), barrier, signal, outcome)
    {
      if outcome.Err? {
        task, items := FailToStop(barrier, signal, outcome.reason);
        return;
      }
      state := Stopped(None);
      task, items := ReportStop(signal, Ok, [Enters(state)]);
    }
  }

  // ---------------------------------------------------------------- whole runs

  datatype World = World(server: Server, tasks: seq<Task>, log: seq<Item>)

  function NewWorld(stopOnTerminationSignals: bool): World {
    World(NewServer(stopOnTerminationSignals), [], [])
  }

  /** What can happen next; an event that does not apply changes nothing. */
  datatype Event =
    | Start
    | Stop
    | Operation
    | Ensuring                                       // an integration's request
    | Signalled(signal: Signal)
    | SchemaLoads(task: nat, load: SchemaLoad)
    | HooksStart(task: nat, listeners: Listeners)
    | LandingPageLoads(task: nat, outcome: Outcome)
    | HandlerSettles(handler: Handler, outcome: Outcome)
    | Resumes(task: nat)                             // what the call awaits has settled

  /** `Promise.all`: it is rejected as soon as one handler is, and fulfilled when all are. */
  function All(log: seq<Item>, handlers: seq<Handler>): Option<Outcome> {
    match FirstFailure(log, handlers)
    case Some(reason) => Some(Err(reason))
    case None => if forall h | h in handlers :: Settles(h, Ok) in log then Some(Ok) else None
  }

  function FirstFailure(log: seq<Item>, handlers: seq<Handler>): Option<Reason> {
    if log == [] then None
    else match FirstFailure(log[..|log| - 1], handlers)
      case Some(reason) => Some(reason)
      case None =>
        match log[|log| - 1]
        case Settles(h, Err(reason)) => if h in handlers then Some(reason) else None
        case _ => None
  }

  function Spawn(w: World, segment: Segment): World {
    World(segment.server, w.tasks + [segment.task], w.log + segment.items)
  }

  function Continue(w: World, i: nat, segment: Segment): World
    requires i < |w.tasks|
  {
    World(segment.server, w.tasks[i := segment.task], w.log + segment.items)
  }

  predicate Settled(w: World, handler: Handler) {
    exists i | 0 <= i < |w.log| :: w.log[i].Settles? && w.log[i].handler == handler
  }

  predicate Resolved(s: Server, barrier: nat) {
    barrier < |s.barriers| && s.barriers[barrier]
  }

  function Step(w: World, e: Event): World {
    var s := w.server;
    match e
    case Start => Spawn(w, StartCall(s, false))
    case Stop => Spawn(w, StopCall(s, None))
    case Operation => Spawn(w, OperationCall(s))
    case Ensuring => Spawn(w, Ensure(s, 0))
    case Signalled(signal) =>
      if s.listening && !s.receivedSignal then Spawn(w, StopCall(s.(receivedSignal := true), Some(signal))) else w
    case HandlerSettles(handler, outcome) =>
      if Begins(handler) in w.log && !Settled(w, handler)
      then w.(log := w.log + [Settles(handler, outcome)]) else w
    case _ =>
      if e.task < |w.tasks| then
        var next := TaskStep(w, w.tasks[e.task], e);
        if next.None? then w else Continue(w, e.task, next.value)
      else w
  }

  /** The segment that a call runs on an event, if the event is what it awaits. */
  function TaskStep(w: World, task: Task, e: Event): Option<Segment> {
    var s := w.server;
    match task
    case LoadingSchema(barrier, forOperation) =>
      if e.SchemaLoads? && barrier < |s.barriers| then Some(SchemaLoaded(s, barrier, forOperation, e.load)) else None
    case StartingHooks(barrier, forOperation) =>
      if e.HooksStart? && barrier < |s.barriers|
      then Some(HooksStarted(s, barrier, forOperation, e.listeners)) else None
    case LoadingLandingPage(barrier, forOperation) =>
      if e.LandingPageLoads? && barrier < |s.barriers|
      then Some(LandingPageLoaded(s, barrier, forOperation, e.outcome)) else None
    case Admitted => None
    case Ended(_) => None
    case _ => if e.Resumes? then Resume(w, task) else None
  }

  function Resume(w: World, task: Task): Option<Segment> {
    var s := w.server;
    match task
    case StartedForOperation => Some(Ensure(s, 0))
    case AwaitingStart(barrier, waits) => if Resolved(s, barrier) then Some(Ensure(s, waits)) else None
    case AwaitingStop(barrier, signal) => if Resolved(s, barrier) then Some(StopAwaited(s, signal)) else None
    case DrainingServers(barrier, signal) =>
      if barrier < |s.barriers| && All(w.log, Drains(s)).Some?
      then Some(Drained(s, barrier, signal, All(w.log, Drains(s)).value)) else None
    case Disposing(barrier, signal) =>
      if barrier < |s.barriers| && All(w.log, s.toDispose).Some?
      then Some(Disposed(s, barrier, signal, All(w.log, s.toDispose).value)) else None
    case DisposingLast(barrier, signal) =>
      if barrier < |s.barriers| && All(w.log, s.toDisposeLast).Some?
      then Some(DisposedLast(s, barrier, signal, All(w.log, s.toDisposeLast).value)) else None
    case _ => None
  }

  function Run(w: World, events: seq<Event>): World
    decreases |events|
  {
    if events == [] then w else Step(Run(w, events[..|events| - 1]), events[|events| - 1])
  }
}
