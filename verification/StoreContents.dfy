/** What stands in the two caches of the pipeline, what is written to them, and that requests come to
    an end. */
module StoreContents {
  import opened Wrappers
  import opened Pipeline
  import opened HookGrammar
  import opened Answers

  // ---------------------------------------------------------------- the cache of persisted queries

  /** The `k`-th event performed a write of this query under the hash. */
  predicate Stored(env: Env, config: Config, events: seq<Event>, k: nat, queryHash: string, query: string) {
    && k < |events| && events[k].RegisterCommits?
    && var registers := Run(env, config, EMPTY, events[..k]).registers;
       events[k].write < |registers| && registers[events[k].write] == Register(queryHash, query)
  }

  /** The event neither loses what stands under the hash nor writes there. */
  predicate SparesQuery(w: World, e: Event, queryHash: string) {
    && e != QueryLost(queryHash)
    && (e.RegisterCommits? && e.write < |w.registers| ==> w.registers[e.write].queryHash != queryHash)
  }

  /** No event after the `k`-th one has lost what stands under the hash or written there. */
  predicate SparedSince(env: Env, config: Config, events: seq<Event>, k: nat, queryHash: string) {
    forall j | k < j < |events| :: SparesQuery(Run(env, config, EMPTY, events[..j]), events[j], queryHash)
  }

  ghost predicate QueryStands(env: Env, config: Config, events: seq<Event>, queryHash: string, query: string) {
    exists k: nat ::
      Stored(env, config, events, k, queryHash, query) && SparedSince(env, config, events, k, queryHash)
  }

  /** In every run, what stands under a hash in the cache of persisted queries, and so what a read of it
      finds, is what was last written there, if nothing has lost it since. */
  lemma {:induction false} QueriesAre(env: Env, config: Config, events: seq<Event>, queryHash: string, query: string)
    ensures Lookup(Run(env, config, EMPTY, events).queries, queryHash) == Some(query) <==>
            QueryStands(env, config, events, queryHash, query)
    decreases |events|
  {
    if events != [] {
      hide Step, QueryStands, SparesQuery;
      var before, e := events[..|events| - 1], events[|events| - 1];
      var w := Run(env, config, EMPTY, before);
      QueriesAre(env, config, before, queryHash, query);
      StepStores(env, config, w, e, queryHash);
      if SparesQuery(w, e, queryHash) {
        StandsLonger(env, config, before, e, queryHash, query);
        assert before + [e] == events;
      } else {
        StandsAnew(env, config, before, e, queryHash, query);
        assert before + [e] == events;
      }
    } else {
      NothingStands(env, config, queryHash, query);
    }
  }

  lemma NothingStands(env: Env, config: Config, queryHash: string, query: string)
    ensures !QueryStands(env, config, [], queryHash, query)
  {
  }

  lemma StepStores(env: Env, config: Config, w: World, e: Event, queryHash: string)
    ensures Lookup(Step(env, config, w, e).queries, queryHash) ==
            if SparesQuery(w, e, queryHash) then Lookup(w.queries, queryHash)
            else if e.RegisterCommits? then Some(w.registers[e.write].query) else None
  {
    hide Advance;
  }

  lemma EarlierSame(env: Env, config: Config, before: seq<Event>, e: Event, k: nat, queryHash: string, query: string)
    requires k < |before|
    ensures Stored(env, config, before + [e], k, queryHash, query) <==> Stored(env, config, before, k, queryHash, query)
    ensures SparedSince(env, config, before + [e], k, queryHash) <==>
            SparedSince(env, config, before, k, queryHash) && SparesQuery(Run(env, config, EMPTY, before), e, queryHash)
  {
    hide Run, SparesQuery;
    forall j: nat | j <= |before|
      ensures (before + [e])[..j] == before[..j]
    {
    }
    assert before[..|before|] == before;
  }

  lemma StandsLonger(env: Env, config: Config, before: seq<Event>, e: Event, queryHash: string, query: string)
    requires SparesQuery(Run(env, config, EMPTY, before), e, queryHash)
    ensures QueryStands(env, config, before + [e], queryHash, query) <==>
            QueryStands(env, config, before, queryHash, query)
  {
    LastStored(env, config, before, e, queryHash, query);
    hide Run, SparesQuery, Stored, SparedSince;
    forall k: nat | k < |before|
      ensures Stored(env, config, before + [e], k, queryHash, query) &&
              SparedSince(env, config, before + [e], k, queryHash) <==>
              Stored(env, config, before, k, queryHash, query) && SparedSince(env, config, before, k, queryHash)
    {
      EarlierSame(env, config, before, e, k, queryHash, query);
    }
    NotBeyond(env, config, before, queryHash, query);
    NotBeyond(env, config, before + [e], queryHash, query);
  }

  lemma NotBeyond(env: Env, config: Config, events: seq<Event>, queryHash: string, query: string)
    ensures forall k: nat | Stored(env, config, events, k, queryHash, query) :: k < |events|
  {
  }

  /** The last event writes the query, or not. */
  lemma LastStored(env: Env, config: Config, before: seq<Event>, e: Event, queryHash: string, query: string)
    ensures var w := Run(env, config, EMPTY, before);
            Stored(env, config, before + [e], |before|, queryHash, query) <==>
            e.RegisterCommits? && e.write < |w.registers| && w.registers[e.write] == Register(queryHash, query)
    ensures Stored(env, config, before + [e], |before|, queryHash, query) ==>
              !SparesQuery(Run(env, config, EMPTY, before), e, queryHash)
    ensures SparedSince(env, config, before + [e], |before|, queryHash)
  {
    assert (before + [e])[..|before|] == before;
    hide Run;
  }

  lemma StandsAnew(env: Env, config: Config, before: seq<Event>, e: Event, queryHash: string, query: string)
    requires !SparesQuery(Run(env, config, EMPTY, before), e, queryHash)
    ensures var w := Run(env, config, EMPTY, before);
            QueryStands(env, config, before + [e], queryHash, query) <==>
            e.RegisterCommits? && w.registers[e.write].query == query
  {
    LastStored(env, config, before, e, queryHash, query);
    hide Run, Stored, SparedSince;
    forall k: nat | k < |before|
      ensures !SparedSince(env, config, before + [e], k, queryHash)
    {
      EarlierSame(env, config, before, e, k, queryHash, query);
    }
    NotBeyond(env, config, before + [e], queryHash, query);
  }

  // ---------------------------------------------------------------- the document store

  /** Does this event end validation, without errors, for a request with a document store? */
  predicate Keeps(config: Config, w: World, e: Event) {
    && e.HooksReturn? && e.process < |w.processes| && w.processes[e.process].stage.ValidationEnds?
    && w.processes[e.process].document.Some? && config.documentStore
  }

  /** In every run, an event sets off a write to the document store if and only if it is one of those,
      and the write is of the request's document under its hash. */
  lemma KeepsIff(env: Env, config: Config, w: World, e: Event)
    ensures Step(env, config, w, e).keeps ==
            if Keeps(config, w, e)
            then w.keeps + [Keep(w.processes[e.process].queryHash, w.processes[e.process].document.value)]
            else w.keeps
  {
    if !e.Arrives? && !e.RegisterCommits? && !e.KeepCommits? && !e.QueryLost? && !e.DocumentLost? {
      if e.process < |w.processes| {
        AdvanceKeeps(env, config, w, w.processes[e.process], e);
      }
    }
    hide Advance;
  }

  lemma AdvanceKeeps(env: Env, config: Config, w: World, p: Process, e: Event)
    ensures Advance(env, config, w, p, e).keep ==
            if e.HooksReturn? && p.stage.ValidationEnds? && p.document.Some? && config.documentStore
            then Some(Keep(p.queryHash, p.document.value)) else None
  {
  }

  /** A performed write stands in the document store, and a lost document does not; no other event
      changes what stands there. */
  lemma DocumentsAre(env: Env, config: Config, w: World, e: Event, queryHash: string)
    ensures Lookup(Step(env, config, w, e).documents, queryHash) ==
            if e == DocumentLost(queryHash) then None
            else if e.KeepCommits? && e.write < |w.keeps| && w.keeps[e.write].queryHash == queryHash
            then Some(w.keeps[e.write].document)
            else Lookup(w.documents, queryHash)
  {
    hide Advance;
  }

  /** A request whose source is resolved reads the document store if and only if there is one; and what
      the read finds it takes for its document, without parsing, and parses if it finds nothing. */
  lemma DocumentFoundIff(env: Env, config: Config, w: World, i: nat)
    requires i < |w.processes|
    ensures var p, next := w.processes[i], Step(env, config, w, HooksReturn(i)).processes[i];
            p.stage.ResolvingSource? ==>
              if config.documentStore then next == p.(stage := ReadingDocument)
              else next.stage.ParsingStarts? && next.hooks == p.hooks + [ParsingDidStart]
    ensures var p, next := w.processes[i], Step(env, config, w, StoreAnswers(i)).processes[i];
            p.stage.ReadingDocument? ==>
              if p.queryHash in w.documents
              then next.stage.ResolvingOperation? && next.document == Some(w.documents[p.queryHash]) &&
                   next.hooks == p.hooks + [DidResolveOperation]
              else next.stage.ParsingStarts? && next.hooks == p.hooks + [ParsingDidStart]
  {
  }

  // ---------------------------------------------------------------- requests come to an end

  /** What the request awaits at each stage. */
  predicate Awaits(stage: Stage, e: Event) {
    match stage
    case ReadingQuery => e.StoreAnswers? || e.StoreFails?
    case ReadingDocument => e.StoreAnswers? || e.StoreFails?
    case Responding => e.PluginResponds? || e.HookThrows?
    case Executing => e.Executes? || e.HookThrows?
    case Answered(_) => false
    case Rejected => false
    case _ => e.HooksReturn? || e.HookThrows?
  }

  /** How many such events there may be, at most, before the request is answered or rejected. */
  function Left(stage: Stage): nat {
    match stage
    case Initializing => 16
    case ReadingQuery => 15
    case ResolvingSource => 14
    case ReadingDocument => 13
    case ParsingStarts => 12
    case ValidationStarts => 11
    case ValidationEnds => 10
    case ResolvingOperation => 9
    case Responding => 8
    case ExecutionStarts => 7
    case Executing => 6
    case ExecutionErrs(_, _) => 5
    case ExecutionEnds(_) => 4
    case ExecutionFails(_) => 3
    case ParsingFails => 3
    case ValidationFails(_) => 3
    case Erring(_) => 2
    case Sending(_) => 1
    case Answered(_) => 0
    case Rejected => 0
  }

  /** In every run, every event that a request awaits takes it further, and no other event of its own
      changes it; so after sixteen of them at most it has been answered or rejected. */
  lemma RequestsProceed(env: Env, config: Config, events: seq<Event>, e: Event, i: nat)
    requires i < |Run(env, config, EMPTY, events).processes| && Concerns(e, i)
    ensures var p := Run(env, config, EMPTY, events).processes[i];
            var next := Step(env, config, Run(env, config, EMPTY, events), e).processes[i];
            if Awaits(p.stage, e) then Left(next.stage) < Left(p.stage) else next == p
  {
    var w := Run(env, config, EMPTY, events);
    assert events[..|events|] == events;
    RunTraced(HistoryOf(env, config, events, i));
    TracedHasDocument(HistoryOf(env, config, events, i), w.processes[i]);
    StepGrows(env, config, w, e);
    StepAt(env, config, w, e, i);
    hide Run, Step, Traced, Advance, Left;
    AdvanceProceeds(env, config, w, w.processes[i], e);
  }

  lemma TracedHasDocument(h: History, p: Process)
    requires Traced(h, p)
    ensures p.stage.ValidationStarts? || p.stage.ValidationEnds? ==> p.document.Some?
  {
  }

  predicate Proceeds(p: Process, next: Process) {
    Left(next.stage) < Left(p.stage)
  }

  lemma AdvanceProceeds(env: Env, config: Config, w: World, p: Process, e: Event)
    requires p.stage.ValidationStarts? || p.stage.ValidationEnds? ==> p.document.Some?
    requires e.HooksReturn? || e.HookThrows? || e.StoreAnswers? || e.StoreFails? || e.PluginResponds? || e.Executes?
    ensures var next := Advance(env, config, w, p, e).process;
            if Awaits(p.stage, e) then Proceeds(p, next) else next == p
  {
    hide Responded, Executed, HooksReturned, QueryRead, DocumentRead, HookThrew, BeginParsing, Left;
    if e.HooksReturn? {
      ReturnedProceeds(env, config, p, e);
    } else if e.HookThrows? {
      ThrewProceeds(p, e);
    } else if e.StoreAnswers? || e.StoreFails? {
      ReadProceeds(env, p, Lookup(w.queries, p.queryHash), Lookup(w.documents, p.queryHash));
    } else if e.PluginResponds? && p.stage.Responding? {
      RespondedProceeds(env, p, e.response);
    } else if e.Executes? && p.stage.Executing? {
      ExecutedProceeds(env, p, e.result);
    }
  }

  lemma ThrewProceeds(p: Process, e: Event)
    requires e.HookThrows?
    ensures if Awaits(p.stage, e) then Proceeds(p, HookThrew(p, e.error)) else HookThrew(p, e.error) == p
  {
    CaughtProceeds(p, e.error);
    hide ExecutionThrew, SendErrorResponse, Listed;
  }

  lemma CaughtProceeds(p: Process, error: Error)
    ensures Left(SendErrorResponse(p, Listed(error)).stage) == 2 && Left(ExecutionThrew(p, error).stage) == 3
    ensures Left(ExecutionThrew(p.(interrupted := true), error).stage) == 3 && Left(Reject(p).stage) == 0
  {
    hide Listed;
  }

  lemma ReadProceeds(env: Env, p: Process, query: Option<string>, document: Option<Document>)
    ensures p.stage.ReadingQuery? ==> Proceeds(p, QueryRead(p, query)) && Proceeds(p, Reject(p))
    ensures p.stage.ReadingDocument? ==> Proceeds(p, DocumentRead(env, p, document)) && Proceeds(p, BeginParsing(p))
  {
  }

  lemma RespondedProceeds(env: Env, p: Process, response: Option<Response>)
    requires p.stage.Responding?
    ensures Proceeds(p, Responded(env, p, response))
  {
    hide FormatAndSend;
    if response.Some? {
      SendingProceeds(env, p, response.value, []);
    }
  }

  lemma ExecutedProceeds(env: Env, p: Process, result: Execution)
    requires p.stage.Executing?
    ensures Proceeds(p, Executed(env, p, result))
  {
    hide ResultErrors;
  }

  lemma SendingProceeds(env: Env, p: Process, response: Response, errors: seq<Error>)
    ensures Left(FormatAndSend(env, p, response).stage) <= 1 && Left(RespondToErrors(env, p, errors).stage) <= 1
  {
    hide ErrorResponse, Send, Left;
    forall sent
      ensures Left(Send(env, p, sent).stage) <= 1
    {
      SendProceeds(env, p, sent);
    }
    CaughtProceeds(p, TypeError);
  }

  lemma SendProceeds(env: Env, p: Process, response: Response)
    ensures Left(Send(env, p, response).stage) <= 1
  {
    hide Settable;
  }

  lemma ReturnedProceeds(env: Env, config: Config, p: Process, e: Event)
    requires p.stage.ValidationStarts? || p.stage.ValidationEnds? ==> p.document.Some?
    requires e.HooksReturn?
    ensures var next := HooksReturned(env, config, p).process;
            if Awaits(p.stage, e) then Proceeds(p, next) else next == p
  {
    hide Begin, FormatAndSend, RespondToErrors, FormatResult, OperationResolved, ParsingStarted, ValidationStarted,
         ValidationEnded;
    match p.stage
    case ParsingStarts => CheckingProceeds(env, config, p);
    case ValidationStarts => CheckingProceeds(env, config, p);
    case ValidationEnds => CheckingProceeds(env, config, p);
    case Initializing => BeginProceeds(env, config, p);
    case ResolvingOperation => OperationProceeds(p);
    case ExecutionErrs(result, errors) => FormattingProceeds(env, p, result, errors);
    case ExecutionEnds(response) => SendingProceeds(env, p, response, []);
    case Erring(errors) => SendingProceeds(env, p, Response(None, None, None), errors);
    case _ =>
  }

  lemma CheckingProceeds(env: Env, config: Config, p: Process)
    requires p.stage.ValidationStarts? || p.stage.ValidationEnds? ==> p.document.Some?
    ensures p.stage.ParsingStarts? ==> Proceeds(p, ParsingStarted(env, p))
    ensures p.stage.ValidationStarts? ==> Proceeds(p, ValidationStarted(env, p))
    ensures p.stage.ValidationEnds? ==> Proceeds(p, ValidationEnded(env, config, p).process)
  {
  }

  lemma BeginProceeds(env: Env, config: Config, p: Process)
    requires p.stage.Initializing?
    ensures Proceeds(p, Begin(env, config, p))
  {
  }

  lemma OperationProceeds(p: Process)
    requires p.stage.ResolvingOperation?
    ensures Proceeds(p, OperationResolved(p).process)
  {
  }

  lemma FormattingProceeds(env: Env, p: Process, result: Execution, errors: seq<Error>)
    requires p.stage.ExecutionErrs?
    ensures Proceeds(p, FormatResult(env, p, result, errors))
  {
  }
}
