/** The order in which a server closes admission and calls its shutdown handlers, in every run. */
module ShuttingDown {
  import opened Wrappers
  import opened Lifecycle
  import opened Phases

  /** At each occurrence of `b`, `a` has occurred before. */
  predicate Precedes(log: seq<Item>, a: Item, b: Item) {
    forall q | 0 <= q < |log| && log[q] == b :: a in log[..q]
  }

  lemma PrecedesGrows(log: seq<Item>, more: seq<Item>, a: Item, b: Item)
    requires Precedes(log, a, b)
    requires b in more ==> a in log
    ensures Precedes(log + more, a, b)
  {
    forall q | 0 <= q < |log + more| && (log + more)[q] == b
      ensures a in (log + more)[..q]
    {
      if q < |log| {
        assert (log + more)[..q] == log[..q];
      } else {
        assert b == more[q - |log|];
        assert (log + more)[..q] == log + more[..q - |log|];
      }
    }
  }

  /** The order in which the groups of handlers begin. */
  function Group(h: Handler): nat {
    match h
    case DrainServer(_) => 1
    case StopSchemaManager => 2
    case ServerWillStop => 2
    case RemoveListener(_) => 3
  }

  /** How many groups may have begun. */
  function Stage(w: World): nat {
    if Rank(w.server.phase) < 4 then 0
    else if w.server.phase.Draining? then 1
    else if exists i | 0 <= i < |w.tasks| :: w.tasks[i].Disposing? then 2
    else 3
  }

  predicate Quiet(items: seq<Item>) {
    forall i | 0 <= i < |items| :: !items[i].Begins?
  }

  /** No operation is admitted once the server has entered a phase after draining. */
  predicate ClosedAfterDraining(log: seq<Item>) {
    forall p, q | 0 <= p < q < |log| && log[p].Enters? && Rank(log[p].phase) >= 5 :: log[q] != Admits
  }

  predicate EachBegunOnce(log: seq<Item>) {
    forall p, q | 0 <= p < q < |log| && log[p].Begins? :: log[p] != log[q]
  }

  /** Before a handler of the second or third group begins, every drain callback has succeeded and
      admission has closed; before one of the third, every handler of the second has succeeded. */
  ghost predicate Ordered(s: Server, log: seq<Item>) {
    && (forall h | Group(h) >= 2 :: Precedes(log, Enters(Stopping(1)), Begins(h)))
    && (forall h, d | Group(h) >= 2 && d in Drains(s) :: Precedes(log, Settles(d, Ok), Begins(h)))
    && (forall h, d | Group(h) == 3 && d in s.toDispose :: Precedes(log, Settles(d, Ok), Begins(h)))
  }

  ghost predicate LogFits(w: World) {
    && (forall i | 0 <= i < |w.log| && w.log[i].Begins? :: Group(w.log[i].handler) <= Stage(w))
    && (forall i | 0 <= i < |w.log| && w.log[i].Enters? :: Rank(w.log[i].phase) <= Rank(w.server.phase))
    && (Rank(w.server.phase) >= 3 ==> Enters(Started) in w.log)
    && (w.server.phase.Stopping? ==>
          Enters(Stopping(1)) in w.log && forall d | d in Drains(w.server) :: Settles(d, Ok) in w.log)
    && Precedes(w.log, Enters(Started), Admits)
    && ClosedAfterDraining(w.log)
    && EachBegunOnce(w.log)
    && Ordered(w.server, w.log)
  }

  predicate SameHandlers(s: Server, t: Server) {
    s.toDispose == t.toDispose && s.toDisposeLast == t.toDisposeLast && s.drainServers == t.drainServers
  }

  /** The segment begins no handler and admits no operation. */
  predicate Plain(s: Server, g: Segment) {
    && Quiet(g.items) && Admits !in g.items && !g.task.Disposing?
    && (forall i | 0 <= i < |g.items| :: !g.items[i].Settles?)
    && (forall i | 0 <= i < |g.items| && g.items[i].Enters? :: Rank(g.items[i].phase) <= Rank(g.server.phase))
    && (Rank(s.phase) < 3 <= Rank(g.server.phase) ==> Enters(Started) in g.items)
    && (g.server.phase.Stopping? ==> s.phase.Stopping?)
    && (Rank(s.phase) >= 3 ==> SameHandlers(s, g.server) && g.server.listening == s.listening)
    && (Rank(s.phase) < 3 <= Rank(g.server.phase) && s.toDisposeLast == [] && !s.listening ==>
          g.server.listening == (g.server.toDisposeLast != []))
  }

  predicate Admission(s: Server, g: Segment) {
    3 <= Rank(s.phase) <= 4 && g == Segment(s, Admitted, [Admits])
  }

  /** The segment begins a group of handlers, after the group before it has succeeded. */
  predicate BeginsGroup(s: Server, log: seq<Item>, task: Option<Task>, g: Segment) {
    && SameHandlers(s, g.server)
    && g.server.listening == (s.listening && (g.task.DisposingLast? ==> s.toDisposeLast == []))
    && match g.task
       case DrainingServers(_, _) =>
         s.phase == Started && g.server.phase == Draining(1) && g.items == [Enters(Draining(1))] + BeginAll(Drains(s))
       case Disposing(_, _) =>
         && s.phase == Draining(1) && g.server.phase == Stopping(1) && All(log, Drains(s)) == Some(Ok)
         && g.items == [Enters(Stopping(1))] + BeginAll(s.toDispose)
       case DisposingLast(_, _) =>
         && s.phase == Stopping(1) && g.server.phase == Stopping(1) && All(log, s.toDispose) == Some(Ok)
         && task.Some? && task.value.Disposing? && g.items == BeginAll(s.toDisposeLast)
       case _ => false
  }

  predicate Classified(s: Server, log: seq<Item>, task: Option<Task>, g: Segment) {
    Plain(s, g) || Admission(s, g) || BeginsGroup(s, log, task, g)
  }

  lemma EnsureClassified(s: Server, waits: nat, log: seq<Item>, task: Option<Task>)
    ensures Classified(s, log, task, Ensure(s, waits))
  {
  }

  lemma StopEndsPlain(s: Server, from: Server, signal: Option<Signal>, outcome: Outcome, before: seq<Item>)
    requires Plain(from, Segment(s, Ended(outcome), before))
    ensures Plain(from, StopEnds(s, signal, outcome, before))
  {
  }

  lemma StopCallClassified(s: Server, signal: Option<Signal>, log: seq<Item>, task: Option<Task>)
    requires ServerFits(s)
    ensures Classified(s, log, task, StopCall(s, signal))
  {
    hide All, BeginAll;
    if s.phase.Stopped? {
      StopEndsPlain(s, s, signal, Later(s.phase.stopError), []);
    }
  }

  lemma StarterClassified(w: World, task: Task, e: Event)
    requires ServerFits(w.server) && TaskFits(w.server, task) && Starter(task)
    requires TaskStep(w, task, e).Some?
    ensures Plain(w.server, TaskStep(w, task, e).value)
  {
    hide ServerFits, Launch, StartFails, Plain;
    var s := w.server;
    match task
    case LoadingSchema(barrier, forOperation) =>
      LoadedPlain(s, barrier, forOperation, e.load);
    case StartingHooks(barrier, forOperation) =>
      var registered := if e.listeners.Registered? then Register(s, e.listeners.willStop, e.listeners.drains) else s;
      StartEndsPlain(s, registered, barrier, forOperation);
    case LoadingLandingPage(barrier, forOperation) =>
      StartEndsPlain(s, s, barrier, forOperation);
    case _ =>
  }

  lemma StartEndsPlain(s: Server, t: Server, barrier: nat, forOperation: bool)
    requires s.phase.Starting? && t.phase == s.phase && barrier < |t.barriers|
    requires t.toDisposeLast == s.toDisposeLast && t.listening == s.listening
    ensures Plain(s, Launch(t, barrier, forOperation))
    ensures forall reason :: Plain(s, StartFails(t, barrier, reason))
    ensures forall task: Task | !task.Disposing? :: Plain(s, Segment(t, task, []))
  {
  }

  lemma LoadedPlain(s: Server, barrier: nat, forOperation: bool, load: SchemaLoad)
    requires s.phase.Starting? && barrier < |s.barriers|
    ensures Plain(s, SchemaLoaded(s, barrier, forOperation, load))
  {
    StartEndsPlain(s, s, barrier, forOperation);
    StartEndsPlain(s, s.(toDispose := s.toDispose + [StopSchemaManager]), barrier, forOperation);
  }

  lemma StopFailsPlain(s: Server, barrier: nat, signal: Option<Signal>, reason: Reason)
    requires barrier < |s.barriers| && 4 <= Rank(s.phase) <= 5
    ensures Plain(s, StopFails(s, barrier, signal, reason))
  {
    var stopped := Enter(s, Stopped(Some(reason))).(barriers := s.barriers[barrier := true]);
    StopEndsPlain(stopped, s, signal, Err(reason), [Enters(Stopped(Some(reason)))]);
  }

  lemma StopperClassified(w: World, task: Task, e: Event)
    requires ServerFits(w.server) && TaskFits(w.server, task) && Stopper(task)
    requires TaskStep(w, task, e).Some?
    ensures Classified(w.server, w.log, Some(task), TaskStep(w, task, e).value)
  {
    hide All, BeginAll, StopFails, StopEnds, Plain, HandlersFit;
    var s := w.server;
    var outcome := All(w.log, if task.DrainingServers? then Drains(s) else
                              if task.Disposing? then s.toDispose else s.toDisposeLast).value;
    if outcome.Err? {
      StopFailsPlain(s, task.barrier, task.signal, outcome.reason);
    } else if task.DisposingLast? {
      StopSucceedsPlain(s, task.signal);
    }
  }

  lemma StopSucceedsPlain(s: Server, signal: Option<Signal>)
    requires s.phase.Stopping?
    ensures Plain(s, StopEnds(Enter(s, Stopped(None)), signal, Ok, [Enters(Stopped(None))]))
  {
    StopEndsPlain(Enter(s, Stopped(None)), s, signal, Ok, [Enters(Stopped(None))]);
  }

  lemma WaiterClassified(w: World, task: Task, e: Event)
    requires ServerFits(w.server) && TaskFits(w.server, task) && !Starter(task) && !Stopper(task)
    requires TaskStep(w, task, e).Some?
    ensures Classified(w.server, w.log, Some(task), TaskStep(w, task, e).value)
  {
    hide All, BeginAll, HandlersFit, StopEnds, Ensure, Plain, Classified;
    var s := w.server;
    match task
    case StartedForOperation => EnsureClassified(s, 0, w.log, Some(task));
    case AwaitingStart(_, waits) => EnsureClassified(s, waits, w.log, Some(task));
    case AwaitingStop(_, signal) =>
      AwaitedClassified(s, signal, w.log, Some(task));
    case _ =>
  }

  lemma AwaitedClassified(s: Server, signal: Option<Signal>, log: seq<Item>, task: Option<Task>)
    ensures Classified(s, log, task, StopAwaited(s, signal))
  {
    if s.phase.Stopped? {
      StopEndsPlain(s, s, signal, Later(s.phase.stopError), []);
    }
  }

  /** The next world is this one after a segment that a call, the `i`-th, has run. */
  ghost predicate Extends(w: World, next: World, task: Option<Task>, i: nat, g: Segment) {
    && Fits(w) && Fits(next) && Advances(w.server.phase, next.server.phase)
    && next.server == g.server && next.log == w.log + g.items
    && i < |next.tasks| && next.tasks[i] == g.task
    && |w.tasks| <= |next.tasks|
    && (forall k | 0 <= k < |next.tasks| && k != i :: k < |w.tasks| && next.tasks[k] == w.tasks[k])
    && (task.Some? ==> i < |w.tasks| && task.value == w.tasks[i])
  }

  lemma StageGrows(w: World, next: World, task: Option<Task>, i: nat, g: Segment)
    requires Extends(w, next, task, i, g)
    requires !g.task.Disposing?
    ensures Stage(w) <= Stage(next)
  {
    hide ServerFits, Alone;
    forall k | 0 <= k < |next.tasks| && next.tasks[k].Disposing?
      ensures w.tasks[k].Disposing?
    {
    }
  }

  lemma OrderedGrows(s: Server, t: Server, log: seq<Item>, more: seq<Item>)
    requires Ordered(s, log) && Quiet(more)
    requires SameHandlers(s, t) || Quiet(log)
    ensures Ordered(t, log + more)
  {
    forall h, a | Precedes(log, a, Begins(h))
      ensures Precedes(log + more, a, Begins(h))
    {
      PrecedesGrows(log, more, a, Begins(h));
    }
  }

  lemma PlainKeeps(w: World, next: World, task: Option<Task>, i: nat, g: Segment)
    requires LogFits(w) && Extends(w, next, task, i, g) && Plain(w.server, g)
    ensures LogFits(next)
  {
    StageGrows(w, next, task, i, g);
    hide Fits, Advances;
    OrderedGrows(w.server, next.server, w.log, g.items);
    PrecedesGrows(w.log, g.items, Enters(Started), Admits);
    hide Ordered, Stage, Precedes, SameHandlers;
  }

  lemma AdmissionKeeps(w: World, next: World, task: Option<Task>, i: nat, g: Segment)
    requires LogFits(w) && Extends(w, next, task, i, g) && Admission(w.server, g)
    ensures LogFits(next)
  {
    hide Fits, Advances;
    StageGrows(w, next, task, i, g);
    OrderedGrows(w.server, next.server, w.log, g.items);
    PrecedesGrows(w.log, g.items, Enters(Started), Admits);
    hide Ordered, Stage, Precedes, SameHandlers, Quiet;
  }

  /** Handlers of one group begin, none of which has begun before. */
  lemma BeginAllKeeps(s: Server, log: seq<Item>, handlers: seq<Handler>, group: nat)
    requires EachBegunOnce(log) && ClosedAfterDraining(log) && Ordered(s, log)
    requires Precedes(log, Enters(Started), Admits)
    requires forall i | 0 <= i < |log| && log[i].Begins? :: Group(log[i].handler) < group
    requires forall h | h in handlers :: Group(h) == group
    requires forall i, j | 0 <= i < j < |handlers| :: handlers[i] != handlers[j]
    requires group >= 2 ==> Enters(Stopping(1)) in log && forall d | d in Drains(s) :: Settles(d, Ok) in log
    requires group >= 3 ==> forall d | d in s.toDispose :: Settles(d, Ok) in log
    ensures var after := log + BeginAll(handlers);
            EachBegunOnce(after) && ClosedAfterDraining(after) && Ordered(s, after) &&
            Precedes(after, Enters(Started), Admits)
  {
    var more := BeginAll(handlers);
    forall a, b | Precedes(log, a, b) && (b in more ==> a in log)
      ensures Precedes(log + more, a, b)
    {
      PrecedesGrows(log, more, a, b);
    }
    hide Precedes;
    forall h | Begins(h) in more
      ensures Group(h) == group
    {
    }
  }

  lemma GroupBegins(w: World, next: World, entered: seq<Item>, handlers: seq<Handler>, group: nat)
    requires LogFits(w) && SameHandlers(w.server, next.server) && Stage(w) < group == Stage(next)
    requires next.log == w.log + entered + BeginAll(handlers)
    requires entered == [] || entered == [Enters(next.server.phase)]
    requires Rank(w.server.phase) <= Rank(next.server.phase) && 3 <= Rank(w.server.phase)
    requires next.server.phase.Stopping? ==>
               Enters(Stopping(1)) in w.log + entered && forall d | d in Drains(w.server) :: Settles(d, Ok) in w.log
    requires forall h | h in handlers :: Group(h) == group
    requires forall i, j | 0 <= i < j < |handlers| :: handlers[i] != handlers[j]
    requires group >= 2 ==>
               Enters(Stopping(1)) in w.log + entered && forall d | d in Drains(w.server) :: Settles(d, Ok) in w.log
    requires group >= 3 ==> forall d | d in w.server.toDispose :: Settles(d, Ok) in w.log
    ensures LogFits(next)
  {
    OrderedGrows(w.server, next.server, w.log, entered);
    PrecedesGrows(w.log, entered, Enters(Started), Admits);
    hide Ordered, Precedes, Stage;
    BeginAllKeeps(next.server, w.log + entered, handlers, group);
  }

  lemma HandlersDistinct(s: Server)
    requires HandlersFit(s)
    ensures forall h | h in Drains(s) :: Group(h) == 1
    ensures forall h | h in s.toDispose :: Group(h) == 2
    ensures forall h | h in s.toDisposeLast :: Group(h) == 3
    ensures forall i, j | 0 <= i < j < |Drains(s)| :: Drains(s)[i] != Drains(s)[j]
    ensures forall i, j | 0 <= i < j < |s.toDispose| :: s.toDispose[i] != s.toDispose[j]
    ensures forall i, j | 0 <= i < j < |s.toDisposeLast| :: s.toDisposeLast[i] != s.toDisposeLast[j]
  {
  }

  lemma GroupStages(w: World, next: World, task: Option<Task>, i: nat, g: Segment)
    requires Extends(w, next, task, i, g) && BeginsGroup(w.server, w.log, task, g)
    ensures Stage(w) + 1 == Stage(next) ==
            (if g.task.DrainingServers? then 1 else if g.task.Disposing? then 2 else 3)
  {
    hide ServerFits, All, BeginAll, SameHandlers;
    assert TaskFits(next.server, g.task);
    if g.task.DisposingLast? {
      forall k | 0 <= k < |next.tasks|
        ensures !next.tasks[k].Disposing?
      {
        assert Stopper(next.tasks[i]);
      }
      assert w.tasks[i].Disposing?;
    }
  }

  lemma EarlierSucceeded(w: World, task: Option<Task>, g: Segment)
    requires LogFits(w) && BeginsGroup(w.server, w.log, task, g)
    ensures !g.task.DrainingServers? ==> forall d | d in Drains(w.server) :: Settles(d, Ok) in w.log
    ensures g.task.DisposingLast? ==> forall d | d in w.server.toDispose :: Settles(d, Ok) in w.log
    ensures g.task.DisposingLast? ==> Enters(Stopping(1)) in w.log
  {
    hide Precedes, Ordered, Stage;
  }

  lemma GroupKeeps(w: World, next: World, task: Option<Task>, i: nat, g: Segment)
    requires LogFits(w) && Extends(w, next, task, i, g) && BeginsGroup(w.server, w.log, task, g)
    ensures LogFits(next)
  {
    var s := w.server;
    GroupStages(w, next, task, i, g);
    HandlersDistinct(s);
    var entered, handlers :=
      if g.task.DisposingLast? then [] else [Enters(g.server.phase)],
      if g.task.DrainingServers? then Drains(s) else if g.task.Disposing? then s.toDispose else s.toDisposeLast;
    assert next.log == w.log + entered + BeginAll(handlers);
    hide LogFits, Stage, Fits, Classified, All, BeginAll, Precedes;
    EarlierSucceeded(w, task, g);
    GroupBegins(w, next, entered, handlers, Stage(next));
  }

  lemma SegmentKeeps(w: World, next: World, task: Option<Task>, i: nat, g: Segment)
    requires LogFits(w) && Extends(w, next, task, i, g) && Classified(w.server, w.log, task, g)
    ensures LogFits(next)
  {
    hide LogFits, Extends, Plain, Admission, BeginsGroup;
    if Plain(w.server, g) {
      PlainKeeps(w, next, task, i, g);
    } else if Admission(w.server, g) {
      AdmissionKeeps(w, next, task, i, g);
    } else {
      GroupKeeps(w, next, task, i, g);
    }
  }

  function Hear(w: World): World {
    w.(server := w.server.(receivedSignal := true))
  }

  /** A new call runs its first segment. */
  lemma SpawnExtends(w: World, g: Segment)
    requires Fits(w) && Fits(Spawn(w, g)) && Advances(w.server.phase, g.server.phase)
    ensures Extends(w, Spawn(w, g), None, |w.tasks|, g)
  {
    hide Fits, Advances;
  }

  /** A call runs its next segment. */
  lemma ContinueExtends(w: World, i: nat, g: Segment)
    requires i < |w.tasks| && Fits(w) && Fits(Continue(w, i, g)) && Advances(w.server.phase, g.server.phase)
    ensures Extends(w, Continue(w, i, g), Some(w.tasks[i]), i, g)
  {
    hide Fits, Advances;
  }

  /** Every event but the settling of a handler changes nothing or runs a segment, after a signal
      that is heard has been noted. */
  lemma StepExtends(w: World, e: Event) returns (from: World, task: Option<Task>, i: nat, g: Segment)
    requires Fits(w)
    ensures from == w || from == Hear(w)
    ensures e.HandlerSettles? || Step(w, e) == w ||
            (Extends(from, Step(w, e), task, i, g) && Classified(from.server, from.log, task, g))
    ensures match task
            case Some(_) => from == w && i < |w.tasks| && TaskStep(w, w.tasks[i], e) == Some(g)
            case None => !w.server.phase.Stopped? ==> !g.server.phase.Stopped?
  {
    var s, next := w.server, Step(w, e);
    if !s.phase.Stopped? {
      CallsDoNotStop(s);
      CallsDoNotStop(Hear(w).server);
    }
    StepFits(w, e);
    FitsServer(w);
    from, task, i, g := w, None, |w.tasks|, Segment(s, Admitted, []);
    hide StartCall, StopCall, Ensure, TaskStep, Fits, Classified, ServerFits, Advances, Settled, TaskFits, Extends;
    match e
    case Start =>
      g := StartCall(s, false);
      StartCallPlain(s, false, w.log);
      SpawnExtends(w, g);
    case Stop =>
      g := StopCall(s, None);
      StopCallClassified(s, None, w.log, None);
      SpawnExtends(w, g);
    case Operation =>
      g := OperationCall(s);
      StartCallPlain(s, true, w.log);
      EnsureClassified(s, 0, w.log, None);
      SpawnExtends(w, g);
    case Ensuring =>
      g := Ensure(s, 0);
      EnsureClassified(s, 0, w.log, None);
      SpawnExtends(w, g);
    case Signalled(signal) =>
      if s.listening && !s.receivedSignal {
        from := Hear(w);
        HeardFits(w);
        FitsServer(from);
        g := StopCall(from.server, Some(signal));
        StopCallClassified(from.server, Some(signal), w.log, None);
        SpawnExtends(from, g);
      }
    case HandlerSettles(_, _) =>
    case _ =>
      if e.task < |w.tasks| && TaskStep(w, w.tasks[e.task], e).Some? {
        task, i := Some(w.tasks[e.task]), e.task;
        g := TaskStep(w, w.tasks[e.task], e).value;
        TaskStepClassified(w, w.tasks[e.task], e);
        ContinueExtends(w, e.task, g);
      }
  }

  lemma CallsDoNotStop(s: Server)
    requires !s.phase.Stopped?
    ensures forall forOperation :: !StartCall(s, forOperation).server.phase.Stopped?
    ensures forall signal :: !StopCall(s, signal).server.phase.Stopped?
    ensures !Ensure(s, 0).server.phase.Stopped?
  {
  }

  lemma StepKeepsLog(w: World, e: Event)
    requires Fits(w) && LogFits(w)
    ensures LogFits(Step(w, e))
  {
    if e.HandlerSettles? {
      SettlingKeeps(w, e.handler, e.outcome);
    } else {
      var from, task, i, g := StepExtends(w, e);
      if Step(w, e) != w {
        HeardKeeps(w);
        SegmentKeeps(from, Step(w, e), task, i, g);
      }
    }
    hide LogFits, Extends, Classified;
  }

  lemma StartCallPlain(s: Server, forOperation: bool, log: seq<Item>)
    ensures Classified(s, log, None, StartCall(s, forOperation))
  {
  }

  lemma TaskStepClassified(w: World, task: Task, e: Event)
    requires ServerFits(w.server) && TaskFits(w.server, task)
    requires TaskStep(w, task, e).Some?
    ensures Classified(w.server, w.log, Some(task), TaskStep(w, task, e).value)
  {
    hide TaskStep, Plain, Admission, BeginsGroup;
    if Starter(task) {
      StarterClassified(w, task, e);
    } else if Stopper(task) {
      StopperClassified(w, task, e);
    } else {
      WaiterClassified(w, task, e);
    }
  }

  lemma HeardKeeps(w: World)
    requires LogFits(w)
    ensures LogFits(Hear(w))
  {
    hide Precedes;
  }

  lemma SettlingKeeps(w: World, handler: Handler, outcome: Outcome)
    requires LogFits(w)
    ensures LogFits(w.(log := w.log + [Settles(handler, outcome)]))
  {
    OrderedGrows(w.server, w.server, w.log, [Settles(handler, outcome)]);
    PrecedesGrows(w.log, [Settles(handler, outcome)], Enters(Started), Admits);
    hide Ordered, Precedes, ServerFits, TaskFits;
  }

  lemma {:induction false} RunKeepsLog(signals: bool, events: seq<Event>)
    ensures LogFits(Run(NewWorld(signals), events))
    decreases |events|
  {
    if events != [] {
      var before := events[..|events| - 1];
      RunFits(signals, before);
      RunKeepsLog(signals, before);
      StepKeepsLog(Run(NewWorld(signals), before), events[|events| - 1]);
    }
  }

  /** In every run, operations are admitted only after the server has started and before it enters
      a phase after draining. */
  lemma AdmissionOnlyWhileRunning(signals: bool, events: seq<Event>)
    ensures var log := Run(NewWorld(signals), events).log;
            Precedes(log, Enters(Started), Admits) && ClosedAfterDraining(log)
  {
    RunKeepsLog(signals, events);
  }

  /** In every run, each handler begins at most once; the disposal handlers begin only after every
      drain callback has succeeded and admission has closed; and the last ones only after every
      other has succeeded. */
  lemma DisposalInOrder(signals: bool, events: seq<Event>)
    ensures var w := Run(NewWorld(signals), events); EachBegunOnce(w.log) && Ordered(w.server, w.log)
  {
    RunKeepsLog(signals, events);
  }
}
