/** The cache of persisted queries as one of several tenants of a store: what every run keeps about
    it survives what the HTTP cache writes there, and what the store loses. */
module SharedStore {
  import opened Wrappers
  import opened Pipeline
  import opened SharedCaches
  import P = Prefixing

  /** The requests and their writes, and the store that both tenants write. */
  datatype State = State(world: World, store: map<string, string>)

  /** An event of the pipeline, an operation of the HTTP cache on its view, or the store losing the
      entry under a full key. */
  datatype Happening = OfPipeline(e: Event) | OfHttpCache(op: P.Op<string>) | Loses(full: string)

  /** The pipeline reads and writes the store under its prefix. */
  function Happen(env: Env, config: Config, s: State, h: Happening): State {
    match h
    case OfHttpCache(op) => s.(store := P.Apply(s.store, op, P.HTTP_CACHE_PREFIX))
    case Loses(full) => s.(store := s.store - {full})
    case OfPipeline(RegisterCommits(k)) =>
      if k < |s.world.registers| then
        s.(store := s.store[P.APQ_CACHE_PREFIX + s.world.registers[k].queryHash := s.world.registers[k].query])
      else s
    case OfPipeline(QueryLost(queryHash)) => s.(store := s.store - {P.APQ_CACHE_PREFIX + queryHash})
    case OfPipeline(e) => s.(world := Step(env, config, Seen(s), e).(queries := map[]))
  }

  /** What the pipeline sees: the store under its prefix. */
  function Seen(s: State): World {
    s.world.(queries := P.View(s.store, P.APQ_CACHE_PREFIX))
  }

  function RunShared(env: Env, config: Config, happenings: seq<Happening>): State
    decreases |happenings|
  {
    if happenings == [] then State(EMPTY, map[])
    else
      Happen(env, config, RunShared(env, config, happenings[..|happenings| - 1]), happenings[|happenings| - 1])
  }

  /** What the pipeline notices of what happens. */
  function Noticed(h: Happening): seq<Event> {
    match h
    case OfPipeline(e) => [e]
    case OfHttpCache(_) => []
    case Loses(full) =>
      if P.APQ_CACHE_PREFIX <= full then [QueryLost(full[|P.APQ_CACHE_PREFIX|..])] else []
  }

  function Projection(happenings: seq<Happening>): seq<Event>
    decreases |happenings|
  {
    if happenings == [] then []
    else Projection(happenings[..|happenings| - 1]) + Noticed(happenings[|happenings| - 1])
  }

  lemma Apart()
    ensures P.Incomparable(P.HTTP_CACHE_PREFIX, P.APQ_CACHE_PREFIX)
  {
    assert P.APQ_CACHE_PREFIX[0] != P.HTTP_CACHE_PREFIX[0];
  }

  lemma HttpCacheUnseen(s: State, op: P.Op<string>)
    ensures Seen(s.(store := P.Apply(s.store, op, P.HTTP_CACHE_PREFIX))) == Seen(s)
  {
    hide P.View, P.Apply;
    Apart();
    P.OperationOnViews(s.store, P.HTTP_CACHE_PREFIX, P.APQ_CACHE_PREFIX, op);
  }

  lemma LossSeen(s: State, full: string)
    ensures Seen(s.(store := s.store - {full})) ==
            if P.APQ_CACHE_PREFIX <= full
            then Seen(s).(queries := Seen(s).queries - {full[|P.APQ_CACHE_PREFIX|..]}) else Seen(s)
  {
    hide P.View;
    P.ViewLose(s.store, P.APQ_CACHE_PREFIX, full);
  }

  lemma WriteSeen(s: State, queryHash: string, query: string)
    ensures Seen(s.(store := s.store[P.APQ_CACHE_PREFIX + queryHash := query])) ==
            Seen(s).(queries := Seen(s).queries[queryHash := query])
  {
    hide P.View;
    P.ViewSet(s.store, P.APQ_CACHE_PREFIX, queryHash, query);
  }

  lemma StepSeen(env: Env, config: Config, s: State, e: Event)
    requires !e.RegisterCommits? && !e.QueryLost?
    ensures Seen(s.(world := Step(env, config, Seen(s), e).(queries := map[]))) == Step(env, config, Seen(s), e)
  {
    hide P.View, Step;
    StepKeepsQueries(env, config, Seen(s), e);
  }

  lemma HappenSeen(env: Env, config: Config, s: State, h: Happening)
    ensures Seen(Happen(env, config, s, h)) ==
            if Noticed(h) == [] then Seen(s) else Step(env, config, Seen(s), Noticed(h)[0])
  {
    hide P.View, P.Apply, Seen, Advance;
    assert Seen(s).registers == s.world.registers by {
      SeenRegisters(s);
    }
    match h
    case OfHttpCache(op) => HttpCacheUnseen(s, op);
    case Loses(full) => LossSeen(s, full);
    case OfPipeline(RegisterCommits(k)) =>
      if k < |s.world.registers| {
        WriteSeen(s, s.world.registers[k].queryHash, s.world.registers[k].query);
      }
    case OfPipeline(QueryLost(queryHash)) =>
      LossSeen(s, P.APQ_CACHE_PREFIX + queryHash);
      assert (P.APQ_CACHE_PREFIX + queryHash)[|P.APQ_CACHE_PREFIX|..] == queryHash;
    case OfPipeline(e) =>
      hide Step;
      StepSeen(env, config, s, e);
  }

  lemma SeenRegisters(s: State)
    ensures Seen(s).registers == s.world.registers
  {
  }

  lemma StepKeepsQueries(env: Env, config: Config, w: World, e: Event)
    requires !e.RegisterCommits? && !e.QueryLost?
    ensures Step(env, config, w, e).queries == w.queries
  {
    hide Advance;
  }

  /** A run over the shared store is, to the pipeline, a run over a store of its own. */
  lemma {:induction false} SharedRun(env: Env, config: Config, happenings: seq<Happening>)
    ensures Seen(RunShared(env, config, happenings)) == Run(env, config, EMPTY, Projection(happenings))
    decreases |happenings|
  {
    hide Step, Happen;
    if happenings == [] {
      assert P.View<string>(map[], P.APQ_CACHE_PREFIX) == map[];
    } else {
      var before, h := happenings[..|happenings| - 1], happenings[|happenings| - 1];
      SharedRun(env, config, before);
      HappenSeen(env, config, RunShared(env, config, before), h);
      var earlier := Projection(before);
      if Noticed(h) == [] {
        assert earlier + Noticed(h) == earlier;
      } else {
        assert Noticed(h) == [Noticed(h)[0]];
        assert (earlier + Noticed(h))[..|earlier|] == earlier;
      }
    }
  }

  /** In every run of the pipeline over a store that the HTTP cache writes too, and that may lose any
      entry, what stands under the prefix and a hash is a query with that hash that has parsed,
      validated and passed didResolveOperation. */
  lemma SharedQueriesSound(env: Env, config: Config, happenings: seq<Happening>, queryHash: string)
    requires InjectiveOn(env, Queries(Projection(happenings)))
    requires P.APQ_CACHE_PREFIX + queryHash in RunShared(env, config, happenings).store
    ensures var s := RunShared(env, config, happenings); var query := s.store[P.APQ_CACHE_PREFIX + queryHash];
            env.sha256(query) == queryHash && Passed(env, s.world.processes, query)
  {
    hide Run, RunShared, Passed;
    SharedRun(env, config, happenings);
    CachesSound(env, config, Projection(happenings));
    var s := RunShared(env, config, happenings);
    P.ViewLookup(s.store, P.APQ_CACHE_PREFIX, queryHash);
    assert Seen(s).queries[queryHash] == s.store[P.APQ_CACHE_PREFIX + queryHash];
  }
}
