/** A run in which stopping fails with a value that counts as false: the second call of `stop` does
    not report what the first reported, and a signal is sent to the process again with its listener in
    place, which swallows it. */
module FalsyRejection {
  import opened Wrappers
  import opened Lifecycle
  import opened StopCalls
  import opened Signals

  /** A server with one drain callback and the signal handler, as its run below changes it. */
  function Listening(phase: Phase, barriers: seq<bool>, receivedSignal: bool): Server {
    Server(phase, barriers, [StopSchemaManager], SIGNAL_LISTENERS, Some([DrainServer(0)]), true, true, receivedSignal)
  }

  const ONE_DRAIN := Registered(false, 1, NoLandingPage)
  const STARTED := [Enters(Starting(0)), Enters(Started)]
  const DRAINING := STARTED + ([Enters(Draining(1))] + [Begins(DrainServer(0))])
  const REJECTED := DRAINING + [Settles(DrainServer(0), Err(Falsy))]
  const STOPPED := REJECTED + ([Enters(Stopped(Some(Falsy)))] + [Reports(Err(Falsy))] + [])
  const RESENT := STOPPED + ([] + [Reports(Ok)] + [Resends(SIGTERM)])
  const SIGNALLED := AwaitingStop(1, Some(SIGTERM))

  lemma Starts()
    ensures Run(NewWorld(true), [Start] + [SchemaLoads(0, Loaded)] + [HooksStart(0, ONE_DRAIN)]) ==
            World(Listening(Started, [true], false), [Ended(Ok)], STARTED)
  {
    var w0 := NewWorld(true);
    var starting := Server(Starting(0), [false], [], [], None, true, false, false);
    RunStep(w0, [], Start, World(starting, [LoadingSchema(0, false)], STARTED[..1]));
    assert [] + [Start] == [Start];
    RunStep(w0, [Start], SchemaLoads(0, Loaded),
            World(starting.(toDispose := [StopSchemaManager]), [StartingHooks(0, false)], STARTED[..1]));
    assert DrainCallbacks(1) == [DrainServer(0)];
    RunStep(w0, [Start] + [SchemaLoads(0, Loaded)], HooksStart(0, ONE_DRAIN),
            World(Listening(Started, [true], false), [Ended(Ok)], STARTED));
  }

  lemma StopsAndHears(w: World)
    requires w == World(Listening(Started, [true], false), [Ended(Ok)], STARTED)
    ensures Step(Step(w, Stop), Signalled(SIGTERM)) ==
            World(Listening(Draining(1), [true, false], true),
                  [Ended(Ok), DrainingServers(1, None), SIGNALLED], DRAINING)
  {
    assert BeginAll([DrainServer(0)]) == [Begins(DrainServer(0))];
  }

  lemma Rejects(w: World)
    requires w == World(Listening(Draining(1), [true, false], true),
                        [Ended(Ok), DrainingServers(1, None), SIGNALLED], DRAINING)
    ensures Step(w, HandlerSettles(DrainServer(0), Err(Falsy))) == w.(log := REJECTED)
    ensures All(REJECTED, [DrainServer(0)]) == Some(Err(Falsy))
  {
    assert DRAINING[3] == Begins(DrainServer(0));
    NoFailure(DRAINING, [DrainServer(0)]);
    assert REJECTED[..4] == DRAINING && REJECTED[4] == Settles(DrainServer(0), Err(Falsy));
  }

  lemma FailsAndResends(w: World)
    requires w == World(Listening(Draining(1), [true, false], true),
                        [Ended(Ok), DrainingServers(1, None), SIGNALLED], REJECTED)
    requires All(REJECTED, [DrainServer(0)]) == Some(Err(Falsy))
    ensures Step(Step(w, Resumes(1)), Resumes(2)) ==
            World(Listening(Stopped(Some(Falsy)), [true, true], true),
                  [Ended(Ok), Ended(Err(Falsy)), Ended(Ok)], RESENT)
  {
    hide All;
    var failed := World(Listening(Stopped(Some(Falsy)), [true, true], true),
                        [Ended(Ok), Ended(Err(Falsy)), SIGNALLED], STOPPED);
    assert Step(w, Resumes(1)) == failed;
  }

  lemma ResentReports()
    ensures ReportsOf(RESENT) == [Err(Falsy), Ok]
    ensures RESENT[8] == Resends(SIGTERM)
    ensures forall handler :: Settles(handler, Ok) !in RESENT
  {
    var first, last := [Enters(Stopped(Some(Falsy))), Reports(Err(Falsy))], [Reports(Ok), Resends(SIGTERM)];
    NoReports(REJECTED);
    ReportsOfGrows(REJECTED, first);
    ReportsOfGrows(REJECTED + first, last);
    assert first[..1] == [Enters(Stopped(Some(Falsy)))] && first[..1][..0] == [];
    assert last[..1] == [Reports(Ok)] && last[..1][..0] == [];
    assert RESENT == REJECTED + first + last;
  }

  /** A run with two calls of `stop`, the second made by a signal, in which the drain callback is
      rejected with a value that counts as false: the first call is rejected, the second succeeds and
      sends the signal to the process again, and no handler has succeeded: the listener is still in
      place, and ignores it. */
  lemma FalsyRejectionRun() returns (events: seq<Event>)
    ensures var w := Run(NewWorld(true), events);
            && w.server.phase == Stopped(Some(Falsy))
            && ReportsOf(w.log) == [Err(Falsy), Ok]
            && Resends(SIGTERM) in w.log
            && (forall handler :: Settles(handler, Ok) !in w.log)
            && w.server.listening && Step(w, Signalled(SIGTERM)) == w
  {
    Starts();
    hide Step;
    var w0 := NewWorld(true);
    events := [Start] + [SchemaLoads(0, Loaded)] + [HooksStart(0, ONE_DRAIN)];
    var w := Run(w0, events);
    StopsAndHears(w);
    RunStep(w0, events, Stop, Step(w, Stop));
    RunStep(w0, events + [Stop], Signalled(SIGTERM), Step(Step(w, Stop), Signalled(SIGTERM)));
    events, w := events + [Stop] + [Signalled(SIGTERM)], Step(Step(w, Stop), Signalled(SIGTERM));
    Rejects(w);
    RunStep(w0, events, HandlerSettles(DrainServer(0), Err(Falsy)), w.(log := REJECTED));
    events, w := events + [HandlerSettles(DrainServer(0), Err(Falsy))], w.(log := REJECTED);
    FailsAndResends(w);
    RunStep(w0, events, Resumes(1), Step(w, Resumes(1)));
    RunStep(w0, events + [Resumes(1)], Resumes(2), Step(Step(w, Resumes(1)), Resumes(2)));
    Swallows(Step(Step(w, Resumes(1)), Resumes(2)));
    events := events + [Resumes(1)] + [Resumes(2)];
    ResentReports();
  }

  lemma Swallows(w: World)
    requires w.server.listening && w.server.receivedSignal
    ensures Step(w, Signalled(SIGTERM)) == w
  {
  }
}
