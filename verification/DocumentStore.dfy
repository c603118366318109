/** The document store is transparent: every run with it matches a run without it. */
module DocumentStore {
  import opened Wrappers
  import opened Pipeline
  import opened SharedCaches

  function With(persistedQueries: bool): Config {
    Config(persistedQueries, true)
  }

  function Without(persistedQueries: bool): Config {
    Config(persistedQueries, false)
  }

  /** The hooks that a document found in the store saves. */
  predicate Saved(hook: Hook) {
    hook.ParsingDidStart? || hook.ParsingDidEnd? || hook.ValidationDidStart? || hook.ValidationDidEnd?
  }

  function OtherHooks(hooks: seq<Hook>): seq<Hook> {
    if hooks == [] then []
    else OtherHooks(hooks[..|hooks| - 1]) + if Saved(hooks[|hooks| - 1]) then [] else [hooks[|hooks| - 1]]
  }

  lemma {:induction false} OtherHooksAdd(a: seq<Hook>, b: seq<Hook>)
    ensures OtherHooks(a + b) == OtherHooks(a) + OtherHooks(b)
    decreases |b|
  {
    if b == [] {
      assert a + b == a;
    } else {
      assert (a + b)[..|a + b| - 1] == a + b[..|b| - 1];
      OtherHooksAdd(a, b[..|b| - 1]);
    }
  }

  /** Equal requests, but for calls of the saved hooks. */
  predicate Equal(p: Process, q: Process) {
    q == p.(hooks := q.hooks) && OtherHooks(p.hooks) == OtherHooks(q.hooks)
  }

  /** A request and the same one without the store, which parses while this one reads the store. */
  predicate Matches(p: Process, q: Process) {
    if p.stage.ReadingDocument? then q.stage.ParsingStarts? && Equal(p, q.(stage := p.stage)) else Equal(p, q)
  }

  predicate Alike(w: World, v: World) {
    && w.queries == v.queries && w.registers == v.registers
    && |w.processes| == |v.processes|
    && (forall i | 0 <= i < |w.processes| :: Matches(w.processes[i], v.processes[i]))
  }

  // ---------------------------------------------------------------- the run without the store

  predicate ReadsDocument(w: World, i: nat) {
    i < |w.processes| && w.processes[i].stage.ReadingDocument?
  }

  /** An event of the document store, or one that finds its request reading the store: an answer to
      that read, or the end of a hook, which such a request does not await. */
  predicate OfStore(w: World, e: Event) {
    match e
    case KeepCommits(_) => true
    case DocumentLost(_) => true
    case StoreAnswers(i) => ReadsDocument(w, i)
    case StoreFails(i) => ReadsDocument(w, i)
    case HooksReturn(i) => ReadsDocument(w, i)
    case HookThrows(i, _) => ReadsDocument(w, i)
    case _ => false
  }

  /** What happens without the store when this happens with it: if a document is found, it is
      parsed and validated instead, and no other event of the store happens. */
  function Expand(w: World, e: Event): seq<Event> {
    if !OfStore(w, e) then [e]
    else if e.StoreAnswers? && w.processes[e.process].queryHash in w.documents then
      [HooksReturn(e.process)] + [HooksReturn(e.process)] + [HooksReturn(e.process)]
    else []
  }

  function Expansion(env: Env, persistedQueries: bool, events: seq<Event>): seq<Event>
    decreases |events|
  {
    if events == [] then []
    else
      var before := events[..|events| - 1];
      Expansion(env, persistedQueries, before) +
      Expand(Run(env, With(persistedQueries), EMPTY, before), events[|events| - 1])
  }

  // ---------------------------------------------------------------- one event

  lemma InvokeEqual(p: Process, q: Process, hooks: seq<Hook>, stage: Stage)
    requires Equal(p, q)
    ensures Equal(Invoke(p, hooks, stage), Invoke(q, hooks, stage))
    ensures Equal(Invoke(p.(interrupted := true), hooks, stage), Invoke(q.(interrupted := true), hooks, stage))
  {
    OtherHooksAdd(p.hooks, hooks);
    OtherHooksAdd(q.hooks, hooks);
  }

  lemma SendEqual(env: Env, p: Process, q: Process, response: Response)
    requires Equal(p, q)
    ensures Equal(Send(env, p, response), Send(env, q, response)) && Equal(Reject(p), Reject(q))
  {
    InvokeEqual(p, q, [WillSendResponse], Sending(response));
    hide Invoke, OtherHooks, Settable;
  }

  lemma RespondEqual(env: Env, p: Process, q: Process, errors: seq<Error>)
    requires Equal(p, q)
    ensures Equal(RespondToErrors(env, p, errors), RespondToErrors(env, q, errors))
  {
    hide Equal, Send, Reject, ErrorResponse;
    match ErrorResponse(env, errors)
    case Made(response) => SendEqual(env, p, q, response);
    case Threw(_) => SendEqual(env, p, q, Response(None, None, None));
  }

  lemma FormatEqual(env: Env, p: Process, q: Process, response: Response)
    requires Equal(p, q)
    ensures Equal(FormatAndSend(env, p, response), FormatAndSend(env, q, response))
  {
    assert p.request == q.request;
    hide Equal, Send, Reject;
    match env.formatResponse(response, p.request)
    case Replaced(other) => SendEqual(env, p, q, other);
    case _ => SendEqual(env, p, q, response);
  }

  lemma EndEqual(env: Env, p: Process, q: Process, errors: seq<Error>, response: Response)
    requires Equal(p, q)
    ensures Equal(SendErrorResponse(p, errors), SendErrorResponse(q, errors))
    ensures Equal(RespondToErrors(env, p, errors), RespondToErrors(env, q, errors))
    ensures Equal(Reject(p), Reject(q))
    ensures Equal(FormatAndSend(env, p, response), FormatAndSend(env, q, response))
  {
    hide Equal, Send, Reject, Invoke, RespondToErrors, FormatAndSend;
    InvokeEqual(p, q, [DidEncounterErrors], Erring(errors));
    SendEqual(env, p, q, response);
    RespondEqual(env, p, q, errors);
    FormatEqual(env, p, q, response);
  }

  lemma ExecutedEqual(env: Env, p: Process, q: Process, result: Execution, errors: seq<Error>)
    requires Equal(p, q)
    ensures Equal(Executed(env, p, result), Executed(env, q, result))
    ensures Equal(FormatResult(env, p, result, errors), FormatResult(env, q, result, errors))
  {
    hide Invoke, Equal, ResultErrors;
    match env.formatErrors(errors) {
      case Made(formatted) =>
        InvokeEqual(p, q, [ExecutionDidEnd], ExecutionEnds(Response(result.data, Some(formatted), result.http)));
      case Threw(error) => InvokeEqual(p, q, [ExecutionDidEnd], ExecutionFails(error));
    }
    match result.errors
    case None => InvokeEqual(p, q, [ExecutionDidEnd], ExecutionEnds(Response(result.data, None, result.http)));
    case Some(es) =>
      match ResultErrors(env, es) {
        case Threw(error) => InvokeEqual(p, q, [ExecutionDidEnd], ExecutionFails(error));
        case Made(converted) => InvokeEqual(p, q, [DidEncounterErrors], ExecutionErrs(result, converted));
      }
  }

  lemma ResolveSourceEqual(p: Process, q: Process, query: string, queryHash: string)
    requires Equal(p, q)
    ensures Equal(ResolveSource(p, query, queryHash), ResolveSource(q, query, queryHash))
  {
    InvokeEqual(p.(source := query, queryHash := queryHash), q.(source := query, queryHash := queryHash),
                [DidResolveSource], ResolvingSource);
  }

  lemma BeginEqual(env: Env, config: Config, other: Config, p: Process, q: Process)
    requires Equal(p, q) && p.stage.Initializing? && config.persistedQueries == other.persistedQueries
    ensures Equal(Begin(env, config, p), Begin(env, other, q))
  {
    hide SendErrorResponse, Reject, ResolveSource, OtherHooks;
    forall errors
      ensures Equal(SendErrorResponse(p, errors), SendErrorResponse(q, errors))
    {
      EndEqual(env, p, q, errors, Response(None, None, None));
    }
    EndEqual(env, p, q, [], Response(None, None, None));
    if p.request.query.Text? {
      var query := p.request.query.text;
      ResolveSourceEqual(p, q, query, env.sha256(query));
      ResolveSourceEqual(p.(persistedQueryRegister := true), q.(persistedQueryRegister := true),
                         query, env.sha256(query));
    }
  }

  lemma ParsingStartedEqual(env: Env, p: Process, q: Process)
    requires Equal(p, q)
    ensures Equal(ParsingStarted(env, p), ParsingStarted(env, q))
  {
    hide OtherHooks;
    match env.parse(p.source)
    case None => InvokeEqual(p, q, [ParsingDidEnd], ParsingFails);
    case Some(document) =>
      InvokeEqual(p.(document := Some(document)), q.(document := Some(document)),
                  [ParsingDidEnd, ValidationDidStart], ValidationStarts);
  }

  lemma ValidationStartedEqual(env: Env, p: Process, q: Process)
    requires Equal(p, q) && p.document.Some?
    ensures Equal(ValidationStarted(env, p), ValidationStarted(env, q))
  {
    hide OtherHooks;
    var errors := env.validate(p.document.value);
    InvokeEqual(p, q, [ValidationDidEnd], if errors == [] then ValidationEnds else ValidationFails(errors));
  }

  lemma CheckingEqual(env: Env, persistedQueries: bool, p: Process, q: Process)
    requires Equal(p, q)
    requires p.stage.ParsingStarts? || p.stage.ValidationStarts? || p.stage.ValidationEnds?
    ensures Equal(HooksReturned(env, With(persistedQueries), p).process,
                  HooksReturned(env, Without(persistedQueries), q).process)
  {
    hide ParsingStarted, ValidationStarted, ResolveOperation, OtherHooks;
    if p.stage.ParsingStarts? {
      ParsingStartedEqual(env, p, q);
    } else if p.document.Some? {
      ValidationStartedEqual(env, p, q);
      ResolveOperationEqual(env, p, q, p.document.value);
    }
  }

  lemma ResolveOperationEqual(env: Env, p: Process, q: Process, document: Document)
    requires Equal(p, q)
    ensures Equal(ResolveOperation(env, p, document), ResolveOperation(env, q, document))
  {
    var operation := env.getOperationAST(document, p.request.operationName);
    InvokeEqual(p.(document := Some(document), operation := operation),
                q.(document := Some(document), operation := operation), [DidResolveOperation], ResolvingOperation);
  }

  lemma ResolvedEqual(p: Process, q: Process)
    requires Equal(p, q) && p.stage.ResolvingOperation?
    ensures Equal(OperationResolved(p).process, OperationResolved(q).process)
    ensures OperationResolved(p).register == OperationResolved(q).register
  {
    var error := CheckOperation(p.request, p.operation);
    if error.Some? {
      InvokeEqual(p, q, [DidEncounterErrors], Erring([error.value]));
    }
    InvokeEqual(p, q, [ResponseForOperation], Responding);
    hide Invoke, OtherHooks;
  }

  lemma SourceResolvedMatches(persistedQueries: bool, p: Process, q: Process)
    requires Equal(p, q) && p.stage.ResolvingSource?
    ensures Matches(SourceResolved(With(persistedQueries), p), SourceResolved(Without(persistedQueries), q))
  {
    OtherHooksAdd(q.hooks, [ParsingDidStart]);
    assert OtherHooks([ParsingDidStart]) == [] by {
      assert [ParsingDidStart][..0] == [];
    }
  }

  lemma HooksReturnedMatches(env: Env, persistedQueries: bool, p: Process, q: Process)
    requires Equal(p, q) && !p.stage.ReadingDocument?
    ensures var turn := HooksReturned(env, With(persistedQueries), p);
            var other := HooksReturned(env, Without(persistedQueries), q);
            Matches(turn.process, other.process) && turn.register == other.register
  {
    if p.stage.ResolvingSource? {
      SourceResolvedMatches(persistedQueries, p, q);
    } else {
      HooksReturnedEqual(env, persistedQueries, p, q);
      NotReading(env, With(persistedQueries), p);
    }
    hide HooksReturned, OtherHooks;
  }

  lemma HooksReturnedEqual(env: Env, persistedQueries: bool, p: Process, q: Process)
    requires Equal(p, q) && !p.stage.ResolvingSource?
    ensures var turn := HooksReturned(env, With(persistedQueries), p);
            var other := HooksReturned(env, Without(persistedQueries), q);
            Equal(turn.process, other.process) && turn.register == other.register
  {
    assert q == p.(hooks := q.hooks);
    hide Begin, OperationResolved, Equal, Invoke, ParsingStarted, ValidationStarted, ResolveOperation;
    match p.stage
    case Initializing => BeginEqual(env, With(persistedQueries), Without(persistedQueries), p, q);
    case ParsingStarts => CheckingEqual(env, persistedQueries, p, q);
    case ValidationStarts => CheckingEqual(env, persistedQueries, p, q);
    case ValidationEnds => CheckingEqual(env, persistedQueries, p, q);
    case ResolvingOperation => ResolvedEqual(p, q);
    case _ => RestEqual(env, persistedQueries, p, q);
  }

  lemma NotReading(env: Env, config: Config, p: Process)
    requires !p.stage.ResolvingSource? && !p.stage.ReadingDocument?
    ensures !HooksReturned(env, config, p).process.stage.ReadingDocument?
  {
    hide Begin, ParsingStarted, ValidationStarted, ValidationEnded, OperationResolved, FormatAndSend, RespondToErrors,
         FormatResult;
    SegmentsNotReading(env, config, p);
    match p.stage
    case ExecutionEnds(response) => FormatNotReading(env, p, response);
    case ParsingFails =>
    case ValidationFails(_) =>
    case ExecutionErrs(result, errors) => ExecutedNotReading(env, p, result, errors);
    case ExecutionFails(_) =>
    case Erring(_) => FormatNotReading(env, p, Response(None, None, None));
    case Sending(_) =>
    case _ =>
  }

  lemma SegmentsNotReading(env: Env, config: Config, p: Process)
    requires !p.stage.ReadingDocument?
    ensures !Begin(env, config, p).stage.ReadingDocument?
    ensures !ParsingStarted(env, p).stage.ReadingDocument?
    ensures !OperationResolved(p).process.stage.ReadingDocument?
    ensures p.document.Some? ==> !ValidationStarted(env, p).stage.ReadingDocument?
    ensures p.document.Some? ==> !ValidationEnded(env, config, p).process.stage.ReadingDocument?
  {
    hide CheckOperation;
  }

  lemma FormatNotReading(env: Env, p: Process, response: Response)
    ensures !FormatAndSend(env, p, response).stage.ReadingDocument?
    ensures forall errors :: !RespondToErrors(env, p, errors).stage.ReadingDocument?
  {
    hide ErrorResponse, Settable;
  }

  lemma ExecutedNotReading(env: Env, p: Process, result: Execution, errors: seq<Error>)
    ensures !Executed(env, p, result).stage.ReadingDocument?
    ensures !FormatResult(env, p, result, errors).stage.ReadingDocument?
  {
    hide ResultErrors;
  }

  lemma RestEqual(env: Env, persistedQueries: bool, p: Process, q: Process)
    requires Equal(p, q)
    requires !(p.stage.Initializing? || p.stage.ResolvingSource? || p.stage.ParsingStarts? ||
               p.stage.ValidationStarts? || p.stage.ValidationEnds? || p.stage.ResolvingOperation?)
    ensures var turn := HooksReturned(env, With(persistedQueries), p);
            var other := HooksReturned(env, Without(persistedQueries), q);
            Equal(turn.process, other.process) && turn.register == other.register
  {
    hide FormatAndSend, SendErrorResponse, SendResponse, OtherHooks, RespondToErrors, FormatResult;
    var none := Response(None, None, None);
    match p.stage
    case ParsingFails => EndEqual(env, p, q, [Syntax], none);
    case ValidationFails(errors) => EndEqual(env, p, q, errors, none);
    case ExecutionErrs(result, errors) => ExecutedEqual(env, p, q, result, errors);
    case ExecutionEnds(response) => EndEqual(env, p, q, [], response);
    case ExecutionFails(error) => EndEqual(env, p, q, Listed(error), none);
    case Erring(errors) => EndEqual(env, p, q, errors, none);
    case _ =>
  }

  lemma EqualMatches(p: Process, q: Process)
    requires Equal(p, q) && !p.stage.ReadingDocument?
    ensures Matches(p, q)
  {
  }

  lemma HookThrewMatches(env: Env, p: Process, q: Process, error: Error)
    requires Equal(p, q) && !p.stage.ReadingDocument?
    ensures Matches(HookThrew(p, error), HookThrew(q, error))
  {
    HookThrewStage(p, error);
    HookThrewEqual(env, p, q, error);
    hide HookThrew, Equal;
    EqualMatches(HookThrew(p, error), HookThrew(q, error));
  }

  lemma HookThrewStage(p: Process, error: Error)
    requires !p.stage.ReadingDocument?
    ensures !HookThrew(p, error).stage.ReadingDocument?
  {
  }

  lemma HookThrewEqual(env: Env, p: Process, q: Process, error: Error)
    requires Equal(p, q)
    ensures Equal(HookThrew(p, error), HookThrew(q, error))
  {
    hide Equal, ExecutionThrew, SendErrorResponse, Reject, FormatAndSend, SendResponse;
    EqualStages(p, q);
    if p.stage.Executing? || p.stage.ExecutionErrs? || p.stage.ExecutionEnds? {
      ExecutionThrewEqual(p, q, error);
    } else {
      EndEqual(env, p, q, Listed(error), Response(None, None, None));
    }
  }

  lemma EqualStages(p: Process, q: Process)
    requires Equal(p, q)
    ensures p.stage == q.stage
  {
  }

  lemma ExecutionThrewEqual(p: Process, q: Process, error: Error)
    requires Equal(p, q)
    ensures Equal(ExecutionThrew(p, error), ExecutionThrew(q, error))
    ensures Equal(ExecutionThrew(p.(interrupted := true), error), ExecutionThrew(q.(interrupted := true), error))
  {
    InvokeEqual(p, q, [ExecutionDidEnd], ExecutionFails(error));
    hide Equal, Invoke;
  }

  /** A request that finds no document parses, as the other one does already. */
  lemma MissMatches(p: Process, q: Process)
    requires p.stage.ReadingDocument? && Matches(p, q)
    ensures Matches(BeginParsing(p), q)
  {
    OtherHooksAdd(p.hooks, [ParsingDidStart]);
    assert OtherHooks([ParsingDidStart]) == [] by {
      assert [ParsingDidStart][..0] == [];
    }
  }

  /** The other request parses and validates the document that this one finds. */
  function Checks(env: Env, config: Config, q: Process): Process {
    var parsed := HooksReturned(env, config, q).process;
    var validated := HooksReturned(env, config, parsed).process;
    HooksReturned(env, config, validated).process
  }

  lemma HitMatches(env: Env, persistedQueries: bool, p: Process, q: Process, document: Document)
    requires p.stage.ReadingDocument? && Matches(p, q) && ValidParse(env, p.source, document)
    ensures Matches(ResolveOperation(env, p, document), Checks(env, Without(persistedQueries), q))
  {
    var config := Without(persistedQueries);
    var parsed := HooksReturned(env, config, q).process;
    var validated := HooksReturned(env, config, parsed).process;
    var saved := [ParsingDidEnd, ValidationDidStart];
    assert parsed == q.(document := Some(document), hooks := q.hooks + saved, stage := ValidationStarts);
    assert validated == parsed.(hooks := parsed.hooks + [ValidationDidEnd], stage := ValidationEnds);
    OtherHooksAdd(q.hooks, saved);
    OtherHooksAdd(parsed.hooks, [ValidationDidEnd]);
    SavedOnly();
    hide HooksReturned;
    ResolveOperationEqual(env, p.(document := Some(document)), validated.(stage := p.stage), document);
    ResolvesFrom(env, p, validated, document);
    CheckedResolves(env, config, validated, document);
  }

  lemma SavedOnly()
    ensures OtherHooks([ParsingDidEnd, ValidationDidStart]) == [] && OtherHooks([ValidationDidEnd]) == []
  {
    assert [ParsingDidEnd, ValidationDidStart][..1] == [ParsingDidEnd];
    assert [ParsingDidEnd][..0] == [] && [ValidationDidEnd][..0] == [];
  }

  /** What resolving the operation does not depend on. */
  lemma ResolvesFrom(env: Env, p: Process, q: Process, document: Document)
    ensures ResolveOperation(env, p.(document := Some(document)), document) == ResolveOperation(env, p, document)
    ensures ResolveOperation(env, q.(stage := p.stage), document) == ResolveOperation(env, q, document)
  {
  }

  lemma CheckedResolves(env: Env, config: Config, q: Process, document: Document)
    requires q.stage.ValidationEnds? && q.document == Some(document)
    ensures HooksReturned(env, config, q).process == ResolveOperation(env, q, document)
  {
  }

  lemma ReadMatches(env: Env, p: Process, q: Process, query: Option<string>)
    requires Equal(p, q) && p.stage.ReadingQuery?
    ensures Matches(QueryRead(p, query), QueryRead(q, query)) && Matches(Reject(p), Reject(q))
  {
    EndEqual(env, p, q, [PersistedQueryNotFound], Response(None, None, None));
    EqualMatches(Reject(p), Reject(q));
    if query.Some? && query.value != "" {
      HitEqual(p, q);
      ResolveSourceEqual(p.(persistedQueryHit := true), q.(persistedQueryHit := true), query.value, p.queryHash);
    }
    assert q.queryHash == p.queryHash;
    assert !QueryRead(p, query).stage.ReadingDocument?;
    hide Equal, Matches, ResolveSource, SendErrorResponse, Reject;
    EqualMatches(QueryRead(p, query), QueryRead(q, query));
  }

  lemma HitEqual(p: Process, q: Process)
    requires Equal(p, q)
    ensures Equal(p.(persistedQueryHit := true), q.(persistedQueryHit := true))
  {
  }

  /** Any other event does the same to both requests. */
  lemma AdvanceMatches(env: Env, persistedQueries: bool, w: World, v: World, p: Process, q: Process, e: Event)
    requires Matches(p, q) && w.queries == v.queries
    requires p.stage.ReadingDocument? ==> !e.HooksReturn? && !e.HookThrows? && !e.StoreAnswers? && !e.StoreFails?
    ensures var turn := Advance(env, With(persistedQueries), w, p, e);
            var other := Advance(env, Without(persistedQueries), v, q, e);
            Matches(turn.process, other.process) && turn.register == other.register
  {
    hide OtherHooks, HooksReturned, HookThrew, QueryRead, FormatAndSend, Executed;
    match e
    case HooksReturn(_) => HooksReturnedMatches(env, persistedQueries, p, q);
    case HookThrows(_, error) => HookThrewMatches(env, p, q, error);
    case StoreAnswers(_) =>
      if p.stage.ReadingQuery? {
        ReadMatches(env, p, q, Lookup(w.queries, p.queryHash));
      }
    case StoreFails(_) =>
      if p.stage.ReadingQuery? {
        ReadMatches(env, p, q, None);
      }
    case PluginResponds(_, Some(response)) =>
      if p.stage.Responding? {
        EndEqual(env, p, q, [], response);
        FormatNotReading(env, p, response);
      }
    case PluginResponds(_, None) =>
      if p.stage.Responding? {
        InvokeEqual(p, q, [ExecutionDidStart], ExecutionStarts);
      }
    case Executes(_, result) =>
      if p.stage.Executing? {
        ExecutedEqual(env, p, q, result, []);
        ExecutedNotReading(env, p, result, []);
      }
    case _ =>
  }

  // ---------------------------------------------------------------- whole runs

  lemma ThreeSteps(env: Env, config: Config, v: World, i: nat)
    requires i < |v.processes| && v.processes[i].stage.ParsingStarts?
    requires env.parse(v.processes[i].source).Some? && env.validate(env.parse(v.processes[i].source).value) == []
    requires !config.documentStore
    ensures var e := HooksReturn(i);
            Step(env, config, Step(env, config, Step(env, config, v, e), e), e) ==
            v.(processes := v.processes[i := Checks(env, config, v.processes[i])])
  {
    var q := v.processes[i];
    var parsed := HooksReturned(env, config, q);
    var validated := HooksReturned(env, config, parsed.process);
    var resolved := HooksReturned(env, config, validated.process);
    assert parsed == Only(parsed.process) && validated == Only(validated.process) && resolved == Only(resolved.process);
    hide HooksReturned;
    SilentProgress(v, i, parsed.process);
    var v1 := v.(processes := v.processes[i := parsed.process]);
    SilentProgress(v1, i, validated.process);
    var v2 := v1.(processes := v1.processes[i := validated.process]);
    SilentProgress(v2, i, resolved.process);
    assert v2.processes[i := resolved.process] == v.processes[i := resolved.process];
  }

  lemma SilentProgress(w: World, i: nat, p: Process)
    requires i < |w.processes|
    ensures Progress(w, i, Only(p)) == w.(processes := w.processes[i := p])
  {
    assert w.registers + [] == w.registers && w.keeps + [] == w.keeps;
  }

  /** An event that happens in both runs. */
  lemma SameStep(env: Env, persistedQueries: bool, w: World, v: World, e: Event)
    requires Alike(w, v) && Expand(w, e) == [e]
    ensures Alike(Step(env, With(persistedQueries), w, e), Step(env, Without(persistedQueries), v, e))
  {
    match e
    case Arrives(_) =>
    case RegisterCommits(_) =>
    case KeepCommits(_) =>
    case QueryLost(_) =>
    case DocumentLost(_) =>
    case _ =>
      if e.process < |w.processes| {
        var i := e.process;
        var p, q := w.processes[i], v.processes[i];
        assert Matches(p, q);
        assert Reading(p) ==> !e.HooksReturn? && !e.HookThrows? && !e.StoreAnswers? && !e.StoreFails?;
        AdvanceMatches(env, persistedQueries, w, v, p, q, e);
        var turn := Advance(env, With(persistedQueries), w, p, e);
        var other := Advance(env, Without(persistedQueries), v, q, e);
        hide Matches, Advance, Expand;
        ProgressAlike(w, v, i, turn, other);
      }
  }

  predicate Reading(p: Process) {
    p.stage.ReadingDocument?
  }

  lemma ProgressAlike(w: World, v: World, i: nat, turn: Turn, other: Turn)
    requires Alike(w, v) && i < |w.processes|
    requires Matches(turn.process, other.process) && turn.register == other.register
    ensures Alike(Progress(w, i, turn), Progress(v, i, other))
  {
    hide Matches;
  }

  /** An event of the store, or one that a request that reads the store ignores. */
  lemma StoreStep(env: Env, persistedQueries: bool, seen: set<string>, w: World, v: World, e: Event)
    requires InjectiveOn(env, seen) && Sound(env, seen, w) && Alike(w, v) && Expand(w, e) != [e]
    ensures Alike(Step(env, With(persistedQueries), w, e), Run(env, Without(persistedQueries), v, Expand(w, e)))
  {
    hide Matches, Advance, Sound, InjectiveOn, Run;
    var config := With(persistedQueries);
    if e.KeepCommits? || e.DocumentLost? {
      RunNothing(env, Without(persistedQueries), v);
    } else {
      var i := e.process;
      var p, q := w.processes[i], v.processes[i];
      assert Matches(p, q);
      if e.StoreAnswers? && p.queryHash in w.documents {
        FoundStep(env, persistedQueries, seen, w, v, i);
      } else {
        RunNothing(env, Without(persistedQueries), v);
        NotFoundMatches(env, config, w, p, q, e);
        SilentProgress(w, i, Advance(env, config, w, p, e).process);
      }
    }
  }

  lemma RunNothing(env: Env, config: Config, v: World)
    ensures Run(env, config, v, []) == v
  {
  }

  /** A request that finds no document, or that is reading the store when a hook ends. */
  lemma NotFoundMatches(env: Env, config: Config, w: World, p: Process, q: Process, e: Event)
    requires Matches(p, q) && p.stage.ReadingDocument?
    requires e.StoreFails? || e.HooksReturn? || e.HookThrows? || (e.StoreAnswers? && p.queryHash !in w.documents)
    ensures Advance(env, config, w, p, e) == Only(Advance(env, config, w, p, e).process)
    ensures Matches(Advance(env, config, w, p, e).process, q)
  {
    MissMatches(p, q);
    hide OtherHooks;
  }

  /** A request that finds a document, and the other one after it has parsed and validated. */
  lemma FoundMatches(env: Env, persistedQueries: bool, seen: set<string>, w: World, p: Process, q: Process, i: nat)
    requires InjectiveOn(env, seen) && Sound(env, seen, w) && ProcessSound(env, seen, p)
    requires Matches(p, q) && p.stage.ReadingDocument? && p.queryHash in w.documents
    ensures var document := w.documents[p.queryHash];
            && Advance(env, With(persistedQueries), w, p, StoreAnswers(i)) == Only(ResolveOperation(env, p, document))
            && Matches(ResolveOperation(env, p, document), Checks(env, Without(persistedQueries), q))
            && q.stage.ParsingStarts? && ValidParse(env, q.source, document)
  {
    StoreAnswersSound(env, With(persistedQueries), seen, w, p, i);
    var document := w.documents[p.queryHash];
    HitMatches(env, persistedQueries, p, q, document);
    assert Advance(env, With(persistedQueries), w, p, StoreAnswers(i)) == Only(ResolveOperation(env, p, document));
    assert q.source == p.source;
    hide Advance, Sound, InjectiveOn, ResolveOperation, Checks;
  }

  lemma FoundStep(env: Env, persistedQueries: bool, seen: set<string>, w: World, v: World, i: nat)
    requires InjectiveOn(env, seen) && Sound(env, seen, w) && Alike(w, v)
    requires ReadsDocument(w, i) && w.processes[i].queryHash in w.documents
    ensures Alike(Step(env, With(persistedQueries), w, StoreAnswers(i)),
                  Run(env, Without(persistedQueries), v, [HooksReturn(i)] + [HooksReturn(i)] + [HooksReturn(i)]))
  {
    hide Matches, Advance, Sound, InjectiveOn, ResolveOperation, Checks, Run;
    var p, q, e := w.processes[i], v.processes[i], HooksReturn(i);
    var other := Without(persistedQueries);
    assert Matches(p, q);
    SoundProcess(env, seen, w, i);
    FoundMatches(env, persistedQueries, seen, w, p, q, i);
    ThreeSteps(env, other, v, i);
    RunThree(env, other, v, e);
    SilentProgress(w, i, ResolveOperation(env, p, w.documents[p.queryHash]));
  }

  lemma RunThree(env: Env, config: Config, v: World, e: Event)
    ensures Run(env, config, v, [e] + [e] + [e]) ==
            Step(env, config, Step(env, config, Step(env, config, v, e), e), e)
  {
    var one := [e];
    var two := one + [e];
    assert one[..0] == [] && two[..1] == one && (two + [e])[..2] == two;
    assert Run(env, config, v, one) == Step(env, config, v, e);
    assert Run(env, config, v, two) == Step(env, config, Run(env, config, v, one), e);
  }

  lemma {:induction false} RunAdds(env: Env, config: Config, v: World, before: seq<Event>, more: seq<Event>)
    ensures Run(env, config, v, before + more) == Run(env, config, Run(env, config, v, before), more)
    decreases |more|
  {
    if more == [] {
      assert before + more == before;
    } else {
      assert (before + more)[..|before + more| - 1] == before + more[..|more| - 1];
      RunAdds(env, config, v, before, more[..|more| - 1]);
    }
  }

  lemma {:induction false} RunsAlike(env: Env, persistedQueries: bool, seen: set<string>, events: seq<Event>)
    requires InjectiveOn(env, seen) && Queries(events) <= seen
    ensures Alike(Run(env, With(persistedQueries), EMPTY, events),
                  Run(env, Without(persistedQueries), EMPTY, Expansion(env, persistedQueries, events)))
    decreases |events|
  {
    if events != [] {
      var before, e := events[..|events| - 1], events[|events| - 1];
      assert forall e | e in before :: e in events;
      assert Queries(before) <= Queries(events);
      RunsAlike(env, persistedQueries, seen, before);
      RunSoundWithin(env, With(persistedQueries), seen, before);
      var w := Run(env, With(persistedQueries), EMPTY, before);
      var earlier := Expansion(env, persistedQueries, before);
      var v := Run(env, Without(persistedQueries), EMPTY, earlier);
      RunAdds(env, Without(persistedQueries), EMPTY, earlier, Expand(w, e));
      hide Alike, Sound, InjectiveOn, Step, Expand;
      if Expand(w, e) == [e] {
        SameStep(env, persistedQueries, w, v, e);
        RunOne(env, Without(persistedQueries), v, e);
      } else {
        StoreStep(env, persistedQueries, seen, w, v, e);
      }
    }
  }

  lemma RunOne(env: Env, config: Config, v: World, e: Event)
    ensures Run(env, config, v, [e]) == Step(env, config, v, e)
  {
    assert [e][..0] == [];
  }

  /** All events but the returns of hooks: requests, hooks and execution that throw, the answers of
      plugins and of execution, reads of either cache, and what becomes of the two caches. */
  function OtherThanReturns(events: seq<Event>): seq<Event> {
    if events == [] then []
    else
      OtherThanReturns(events[..|events| - 1]) +
      if events[|events| - 1].HooksReturn? then [] else [events[|events| - 1]]
  }

  /** Those of a run with the store that are not events of the store. */
  function Remaining(env: Env, persistedQueries: bool, events: seq<Event>): seq<Event>
    decreases |events|
  {
    if events == [] then []
    else
      var before, e := events[..|events| - 1], events[|events| - 1];
      Remaining(env, persistedQueries, before) +
      if e.HooksReturn? || OfStore(Run(env, With(persistedQueries), EMPTY, before), e) then [] else [e]
  }

  lemma {:induction false} OtherThanReturnsAdd(a: seq<Event>, b: seq<Event>)
    ensures OtherThanReturns(a + b) == OtherThanReturns(a) + OtherThanReturns(b)
    decreases |b|
  {
    if b == [] {
      assert a + b == a;
    } else {
      assert (a + b)[..|a + b| - 1] == a + b[..|b| - 1];
      OtherThanReturnsAdd(a, b[..|b| - 1]);
    }
  }

  lemma ExpandRemains(w: World, e: Event)
    ensures OtherThanReturns(Expand(w, e)) == if e.HooksReturn? || OfStore(w, e) then [] else [e]
  {
    assert [e][..0] == [];
    if Expand(w, e) != [e] && Expand(w, e) != [] {
      var one := [HooksReturn(e.process)];
      assert one[..0] == [] && OtherThanReturns(one) == [];
      OtherThanReturnsAdd(one, one);
      OtherThanReturnsAdd(one + one, one);
      assert Expand(w, e) == one + one + one;
    }
  }

  /** The matching run has the same events as the run with the store, but for those of the store
      and for returns of hooks: no request, throw, read or answer is added, lost or moved. */
  lemma {:induction false} ExpansionRemains(env: Env, persistedQueries: bool, events: seq<Event>)
    ensures OtherThanReturns(Expansion(env, persistedQueries, events)) == Remaining(env, persistedQueries, events)
    decreases |events|
  {
    hide Run, Expand, OtherThanReturns, OfStore;
    if events == [] {
      NothingRemains();
    } else {
      var before, e := events[..|events| - 1], events[|events| - 1];
      var w := Run(env, With(persistedQueries), EMPTY, before);
      ExpansionRemains(env, persistedQueries, before);
      assert Expansion(env, persistedQueries, events) == Expansion(env, persistedQueries, before) + Expand(w, e);
      hide Expansion;
      OtherThanReturnsAdd(Expansion(env, persistedQueries, before), Expand(w, e));
      ExpandRemains(w, e);
    }
  }

  lemma NothingRemains()
    ensures OtherThanReturns([]) == []
  {
  }

  /** A hook that ends or throws does nothing to a request that reads the store, so the matching run
      misses nothing by not having it. */
  lemma HooksIgnoredByReader(env: Env, config: Config, w: World, e: Event)
    requires (e.HooksReturn? || e.HookThrows?) && OfStore(w, e)
    ensures Step(env, config, w, e) == w
  {
    var p := w.processes[e.process];
    assert Advance(env, config, w, p, e) == Only(p);
    SilentProgress(w, e.process, p);
  }

  /** For every run with the document store, whatever it loses, fails to read or fails to write,
      there is a run without it in which everything happens as before, but that a document found
      is parsed and validated instead. Every request has the same query, document and operation,
      stands at the same stage, is answered with the same response and has had the same hooks
      called, but for those of parsing and validation; and the same queries are registered. */
  lemma StoreIsTransparent(env: Env, persistedQueries: bool, events: seq<Event>) returns (plain: seq<Event>)
    requires InjectiveOn(env, Queries(events))
    ensures plain == Expansion(env, persistedQueries, events)
    ensures OtherThanReturns(plain) == Remaining(env, persistedQueries, events)
    ensures var w := Run(env, With(persistedQueries), EMPTY, events);
            var v := Run(env, Without(persistedQueries), EMPTY, plain);
            && w.queries == v.queries && w.registers == v.registers && |w.processes| == |v.processes|
            && forall i | 0 <= i < |w.processes| :: SameAnswer(w.processes[i], v.processes[i])
  {
    plain := Expansion(env, persistedQueries, events);
    ExpansionRemains(env, persistedQueries, events);
    RunsAlike(env, persistedQueries, Queries(events), events);
  }

  /** The same request with the same query, hash, document, operation and metrics, at the same stage
      and so with the same response if it is answered; it may still read the store when the other
      one parses. */
  predicate SameAnswer(p: Process, q: Process) {
    && p.request == q.request && p.source == q.source && p.queryHash == q.queryHash
    && p.document == q.document && p.operation == q.operation
    && p.persistedQueryHit == q.persistedQueryHit && p.persistedQueryRegister == q.persistedQueryRegister
    && p.interrupted == q.interrupted
    && (p.stage == q.stage || (p.stage.ReadingDocument? && q.stage.ParsingStarts?))
    && OtherHooks(p.hooks) == OtherHooks(q.hooks)
  }
}
