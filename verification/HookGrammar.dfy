/** The order in which the pipeline calls the hooks of plugins for one request. */
module HookGrammar {
  import opened Wrappers
  import opened Pipeline

  /** The ways a request can go when no hook but didResolveOperation throws; `found` says whether
      its document was in the store. */
  datatype Course =
    | NoSource
    | SyntaxError
    | ValidationError
    | OperationRefused(found: bool)
    | PluginResponse(found: bool)
    | Success(found: bool)
    | ErrorsInResult(found: bool)
    | ExecutionError(found: bool)

  /** The hooks called until the document is there. */
  function Checking(found: bool): seq<Hook> {
    [DidResolveSource] +
    if found then [] else [ParsingDidStart, ParsingDidEnd, ValidationDidStart, ValidationDidEnd]
  }

  function Resolving(found: bool): seq<Hook> {
    Checking(found) + [DidResolveOperation]
  }

  function Executing(found: bool): seq<Hook> {
    Resolving(found) + [ResponseForOperation, ExecutionDidStart]
  }

  /** The hooks of a course but the last one. */
  function Before(c: Course): seq<Hook> {
    match c
    case NoSource => [DidEncounterErrors]
    case SyntaxError => [DidResolveSource, ParsingDidStart, ParsingDidEnd, DidEncounterErrors]
    case ValidationError => Checking(false) + [DidEncounterErrors]
    case OperationRefused(found) => Resolving(found) + [DidEncounterErrors]
    case PluginResponse(found) => Resolving(found) + [ResponseForOperation]
    case Success(found) => Executing(found) + [ExecutionDidEnd]
    case ErrorsInResult(found) => Executing(found) + [DidEncounterErrors, ExecutionDidEnd]
    case ExecutionError(found) => Executing(found) + [ExecutionDidEnd, DidEncounterErrors]
  }

  function Sentence(c: Course): seq<Hook> {
    Before(c) + [WillSendResponse]
  }

  /** The hooks that have been called when a request of this course is at a stage. */
  predicate Spoken(stage: Stage, c: Course, hooks: seq<Hook>) {
    match stage
    case Initializing => hooks == []
    case ReadingQuery => hooks == []
    case ResolvingSource => hooks == [DidResolveSource]
    case ReadingDocument => hooks == [DidResolveSource]
    case ParsingStarts => hooks == [DidResolveSource, ParsingDidStart]
    case ParsingFails => hooks == [DidResolveSource, ParsingDidStart, ParsingDidEnd]
    case ValidationStarts => hooks == [DidResolveSource, ParsingDidStart, ParsingDidEnd, ValidationDidStart]
    case ValidationEnds => hooks == Checking(false)
    case ValidationFails(_) => hooks == Checking(false)
    case ResolvingOperation => c.Success? && hooks == Resolving(c.found)
    case Responding => c.Success? && hooks == Resolving(c.found) + [ResponseForOperation]
    case ExecutionStarts => c.Success? && hooks == Executing(c.found)
    case Executing => c.Success? && hooks == Executing(c.found)
    case ExecutionErrs(_, _) => c.Success? && hooks == Executing(c.found) + [DidEncounterErrors]
    case ExecutionEnds(_) => (c.Success? || c.ErrorsInResult?) && hooks == Before(c)
    case ExecutionFails(_) => c.Success? && hooks == Before(c)
    case Erring(_) => hooks == Before(c) && hooks[|hooks| - 1] == DidEncounterErrors
    case Sending(_) => hooks == Sentence(c)
    case Answered(_) => hooks == Sentence(c)
    case Rejected => false
  }

  ghost predicate Grammatical(p: Process) {
    !p.interrupted ==> exists c :: Spoken(p.stage, c, p.hooks)
  }

  /** An error response from a stage ends a course. */
  function Failing(stage: Stage, c: Course): Course {
    match stage
    case ParsingFails => SyntaxError
    case ValidationFails(_) => ValidationError
    case ResolvingOperation => if c.Success? then OperationRefused(c.found) else c
    case ExecutionFails(_) => if c.Success? then ExecutionError(c.found) else c
    case _ => NoSource
  }

  lemma ErrorsSpoken(p: Process, c: Course, errors: seq<Error>)
    requires Spoken(p.stage, c, p.hooks)
    requires p.stage.Initializing? || p.stage.ReadingQuery? || p.stage.ParsingFails? || p.stage.ValidationFails? ||
             p.stage.ResolvingOperation? || p.stage.ExecutionFails?
    ensures Spoken(Erring(errors), Failing(p.stage, c), SendErrorResponse(p, errors).hooks)
  {
  }

  lemma ResponseSpoken(p: Process, c: Course, response: Response)
    requires Spoken(p.stage, c, p.hooks)
    requires p.stage.Responding? || p.stage.ExecutionEnds? || p.stage.Erring?
    ensures Spoken(Sending(response), if p.stage.Responding? then PluginResponse(c.found) else c,
                   SendResponse(p, response).hooks)
  {
  }

  lemma HooksReturnedSpoken(env: Env, config: Config, p: Process, c: Course)
    requires Spoken(p.stage, c, p.hooks) && !p.interrupted
    ensures Grammatical(HooksReturned(env, config, p).process)
  {
    hide Spoken, Begin, SourceResolved, ParsingStarted, ValidationStarted, ValidationEnded, OperationResolved,
         FormatAndSend, RespondToErrors, FormatResult;
    assert Grammatical(p);
    match p.stage
    case Initializing => BeginSpoken(env, config, p, c);
    case ResolvingSource => SourceSpoken(config, p, c);
    case ParsingStarts => ParsingSpoken(env, p, c);
    case ParsingFails => ErrorsSpoken(p, c, [Syntax]);
    case ValidationStarts =>
      if p.document.Some? {
        ValidatingSpoken(env, p, c);
      }
    case ValidationEnds =>
      if p.document.Some? {
        ValidatedSpoken(env, config, p, c);
      }
    case ValidationFails(errors) => ErrorsSpoken(p, c, errors);
    case ResolvingOperation => ResolvedSpoken(p, c);
    case ExecutionStarts => ExecutingSpoken(p, c);
    case ExecutionErrs(result, errors) => FormatResultSpoken(env, p, c, result, errors);
    case ExecutionEnds(response) => FormatSpoken(env, p, c, response);
    case ExecutionFails(error) => ErrorsSpoken(p, c, Listed(error));
    case Erring(errors) => RespondSpoken(env, p, c, errors);
    case Sending(response) => AnsweredSpoken(p, c, response);
    case _ =>
  }

  lemma ResolvedSpoken(p: Process, c: Course)
    requires Spoken(p.stage, c, p.hooks) && p.stage.ResolvingOperation?
    ensures Grammatical(OperationResolved(p).process)
  {
    var error := CheckOperation(p.request, p.operation);
    if error.Some? {
      ErrorsSpoken(p, c, [error.value]);
    } else {
      assert Spoken(Responding, c, OperationResolved(p).process.hooks);
    }
  }

  lemma ExecutingSpoken(p: Process, c: Course)
    requires Spoken(p.stage, c, p.hooks) && p.stage.ExecutionStarts?
    ensures Grammatical(p.(stage := Stage.Executing))
  {
    assert Spoken(Stage.Executing, c, p.hooks);
  }

  lemma AnsweredSpoken(p: Process, c: Course, response: Response)
    requires Spoken(p.stage, c, p.hooks) && p.stage.Sending?
    ensures Grammatical(p.(stage := Answered(response)))
  {
    assert Spoken(Answered(response), c, p.hooks);
  }

  lemma FormatResultSpoken(env: Env, p: Process, c: Course, result: Execution, errors: seq<Error>)
    requires Spoken(p.stage, c, p.hooks) && p.stage.ExecutionErrs?
    ensures Grammatical(FormatResult(env, p, result, errors))
  {
    var next := FormatResult(env, p, result, errors);
    if env.formatErrors(errors).Made? {
      assert next.hooks == p.hooks + [ExecutionDidEnd];
      hide Executing;
      assert next.hooks == Before(ErrorsInResult(c.found));
      assert Spoken(next.stage, ErrorsInResult(c.found), next.hooks);
    }
  }

  lemma ExecutedSpoken(env: Env, p: Process, c: Course, result: Execution)
    requires Spoken(p.stage, c, p.hooks) && p.stage.Executing?
    ensures Grammatical(Executed(env, p, result))
  {
    hide Executing, ResultErrors;
    var next := Executed(env, p, result);
    assert next.hooks == p.hooks + [if next.stage.ExecutionErrs? then DidEncounterErrors else ExecutionDidEnd];
    assert Spoken(next.stage, c, next.hooks);
  }

  lemma RespondSpoken(env: Env, p: Process, c: Course, errors: seq<Error>)
    requires Spoken(p.stage, c, p.hooks) && p.stage.Erring?
    ensures Grammatical(RespondToErrors(env, p, errors))
  {
    var response := ErrorResponse(env, errors);
    hide ErrorResponse, Settable;
    if response.Made? {
      ResponseSpoken(p, c, response.value);
    }
    hide Spoken;
  }

  lemma SourceSpoken(config: Config, p: Process, c: Course)
    requires Spoken(p.stage, c, p.hooks) && p.stage.ResolvingSource?
    ensures Grammatical(SourceResolved(config, p))
  {
    var next := SourceResolved(config, p);
    assert [DidResolveSource] + [ParsingDidStart] == [DidResolveSource, ParsingDidStart];
    assert Spoken(next.stage, c, next.hooks);
  }

  lemma ParsingSpoken(env: Env, p: Process, c: Course)
    requires Spoken(p.stage, c, p.hooks) && p.stage.ParsingStarts?
    ensures Grammatical(ParsingStarted(env, p))
  {
    var next := ParsingStarted(env, p);
    var parsing := [DidResolveSource, ParsingDidStart];
    assert parsing + [ParsingDidEnd] == [DidResolveSource, ParsingDidStart, ParsingDidEnd];
    assert parsing + [ParsingDidEnd, ValidationDidStart] ==
           [DidResolveSource, ParsingDidStart, ParsingDidEnd, ValidationDidStart];
    assert Spoken(next.stage, c, next.hooks);
  }

  lemma ValidatingSpoken(env: Env, p: Process, c: Course)
    requires Spoken(p.stage, c, p.hooks) && p.stage.ValidationStarts? && p.document.Some?
    ensures Grammatical(ValidationStarted(env, p))
  {
    var next := ValidationStarted(env, p);
    assert next.hooks == [DidResolveSource, ParsingDidStart, ParsingDidEnd, ValidationDidStart] + [ValidationDidEnd];
    assert next.hooks == Checking(false);
    assert Spoken(next.stage, c, next.hooks);
  }

  lemma ValidatedSpoken(env: Env, config: Config, p: Process, c: Course)
    requires Spoken(p.stage, c, p.hooks) && p.stage.ValidationEnds? && p.document.Some?
    ensures Grammatical(ValidationEnded(env, config, p).process)
  {
    var next := ValidationEnded(env, config, p).process;
    hide Checking;
    assert next.hooks == Resolving(false);
    assert Spoken(next.stage, Success(false), next.hooks);
  }

  lemma BeginSpoken(env: Env, config: Config, p: Process, c: Course)
    requires p.stage.Initializing? && Spoken(p.stage, c, p.hooks)
    ensures Grammatical(Begin(env, config, p))
  {
    hide Spoken, SendErrorResponse, ResolveSource, Grammatical;
    forall errors
      ensures Grammatical(SendErrorResponse(p, errors))
    {
      StartsSpoken(p, c, errors, "", "");
    }
    StartsSpoken(p, c, [], "", "");
    if p.request.query.Text? {
      var query := p.request.query.text;
      StartsSpoken(p, c, [], query, env.sha256(query));
      StartsSpoken(p.(persistedQueryRegister := true), c, [], query, env.sha256(query));
    }
    if p.request.persistedQuery.Some? {
      WaitsSpoken(p, c, p.request.persistedQuery.value.sha256Hash);
    }
  }

  lemma WaitsSpoken(p: Process, c: Course, queryHash: string)
    requires p.stage.Initializing? && Spoken(p.stage, c, p.hooks)
    ensures Grammatical(p.(queryHash := queryHash, stage := ReadingQuery)) && Grammatical(Reject(p))
  {
    assert Spoken(ReadingQuery, c, p.hooks);
  }

  lemma StartsSpoken(p: Process, c: Course, errors: seq<Error>, query: string, queryHash: string)
    requires (p.stage.Initializing? || p.stage.ReadingQuery?) && Spoken(p.stage, c, p.hooks)
    ensures Grammatical(SendErrorResponse(p, errors)) && Grammatical(ResolveSource(p, query, queryHash))
  {
    ErrorsSpoken(p, c, errors);
    assert [] + [DidResolveSource] == [DidResolveSource];
    assert Spoken(ResolvingSource, c, ResolveSource(p, query, queryHash).hooks);
  }

  lemma FormatSpoken(env: Env, p: Process, c: Course, response: Response)
    requires Spoken(p.stage, c, p.hooks) && (p.stage.Responding? || p.stage.ExecutionEnds?)
    ensures Grammatical(FormatAndSend(env, p, response))
  {
    var formatted := env.formatResponse(response, p.request);
    ResponseSpoken(p, c, if formatted.Replaced? then formatted.response else response);
    hide Spoken, Settable;
  }

  lemma HookThrewSpoken(p: Process, c: Course, error: Error)
    requires Spoken(p.stage, c, p.hooks)
    ensures Grammatical(HookThrew(p, error))
  {
    assert Grammatical(p);
    if p.stage.ResolvingOperation? {
      ErrorsSpoken(p, c, Listed(error));
    } else if p.stage.Executing? {
      ThrewSpoken(p, c, error);
    }
    hide Spoken;
  }

  lemma ThrewSpoken(p: Process, c: Course, error: Error)
    requires Spoken(p.stage, c, p.hooks) && p.stage.Executing?
    ensures Grammatical(ExecutionThrew(p, error))
  {
    hide Executing;
    var next := ExecutionThrew(p, error);
    assert next.hooks == p.hooks + [ExecutionDidEnd];
    assert Spoken(next.stage, c, next.hooks);
  }

  lemma AdvanceGrammatical(env: Env, config: Config, w: World, p: Process, e: Event)
    requires Grammatical(p)
    ensures Grammatical(Advance(env, config, w, p, e).process)
  {
    var next := Advance(env, config, w, p, e).process;
    AdvanceInterrupts(env, config, w, p, e);
    if !p.interrupted {
      var c :| Spoken(p.stage, c, p.hooks);
      match e
      case HooksReturn(_) => HooksReturnedSpoken(env, config, p, c);
      case HookThrows(_, error) => HookThrewSpoken(p, c, error);
      case StoreAnswers(_) => ReadSpoken(env, p, c, Lookup(w.queries, p.queryHash), Lookup(w.documents, p.queryHash));
      case StoreFails(_) => ReadSpoken(env, p, c, None, None);
      case PluginResponds(_, Some(response)) =>
        if p.stage.Responding? {
          FormatSpoken(env, p, c, response);
        }
      case PluginResponds(_, None) =>
        if p.stage.Responding? {
          assert next.hooks == Executing(c.found);
          assert Spoken(next.stage, c, next.hooks);
        }
      case Executes(_, result) =>
        if p.stage.Executing? {
          ExecutedSpoken(env, p, c, result);
        }
      case _ =>
    }
  }

  lemma ReadSpoken(env: Env, p: Process, c: Course, query: Option<string>, document: Option<Document>)
    requires Spoken(p.stage, c, p.hooks)
    ensures p.stage.ReadingQuery? ==> Grammatical(QueryRead(p, query))
    ensures p.stage.ReadingDocument? ==> Grammatical(DocumentRead(env, p, document)) && Grammatical(BeginParsing(p))
  {
    if p.stage.ReadingQuery? {
      ErrorsSpoken(p, c, [PersistedQueryNotFound]);
      assert Spoken(QueryRead(p, query).stage, if QueryRead(p, query).stage.Erring? then NoSource else c,
                    QueryRead(p, query).hooks);
    } else if p.stage.ReadingDocument? {
      assert Spoken(BeginParsing(p).stage, c, BeginParsing(p).hooks);
      if document.Some? {
        assert DocumentRead(env, p, document).hooks == Resolving(true);
        assert Spoken(DocumentRead(env, p, document).stage, Success(true), DocumentRead(env, p, document).hooks);
      }
    }
  }

  lemma {:induction false} RunGrammatical(env: Env, config: Config, events: seq<Event>, i: nat)
    requires i < |Run(env, config, EMPTY, events).processes|
    ensures Grammatical(Run(env, config, EMPTY, events).processes[i])
    decreases |events|
  {
    if events != [] {
      hide Grammatical, Advance, Step;
      var w, e := Run(env, config, EMPTY, events[..|events| - 1]), events[|events| - 1];
      StepAt(env, config, w, e, i);
      if i < |w.processes| {
        RunGrammatical(env, config, events[..|events| - 1], i);
        AdvanceGrammatical(env, config, w, w.processes[i], e);
      } else {
        NewGrammatical(e.request);
      }
    }
  }

  lemma NewGrammatical(request: Request)
    ensures Grammatical(NewProcess(request))
  {
    assert Spoken(Initializing, NoSource, []);
  }

  /** The response sets headers that cannot be set. */
  predicate HeadersFail(env: Env, response: Response) {
    response.http.Some? && !env.headersSettable(response.http.value.headers)
  }

  /** Errors that no response can be made of: converting or formatting them throws, or the headers
      of the response cannot be set. */
  predicate Unanswerable(env: Env, errors: seq<Error>) {
    match ErrorResponse(env, errors)
    case Made(response) => HeadersFail(env, response)
    case Threw(_) => true
  }

  /** A response that cannot be sent: formatResponse throws, or the headers of what it leaves cannot
      be set. */
  predicate Unsendable(env: Env, request: Request, response: Response) {
    match env.formatResponse(response, request)
    case Same => HeadersFail(env, response)
    case Replaced(other) => HeadersFail(env, other)
    case FormatThrows => true
  }

  /** Does this event interrupt the request? A hook that it awaits throws, other than
      didResolveOperation, or a validation rule, or what prepares the context for execution; its read
      of the cache of persisted queries fails; its query is null beside a hash; errors cannot be
      formatted or made into a response; or its response cannot be sent. Execution may throw. */
  predicate Interrupts(env: Env, config: Config, p: Process, e: Event) {
    match e
    case HookThrows(_, _) =>
      !p.stage.ReadingQuery? && !p.stage.ReadingDocument? && !p.stage.Answered? && !p.stage.Rejected? &&
      !p.stage.ResolvingOperation? && !p.stage.Executing?
    case StoreFails(_) => p.stage.ReadingQuery?
    case HooksReturn(_) => (
      match p.stage
      case Initializing =>
        config.persistedQueries && p.request.query.Null? &&
        p.request.persistedQuery.Some? && p.request.persistedQuery.value.version == 1
      case ExecutionErrs(_, errors) => env.formatErrors(errors).Threw?
      case ExecutionEnds(response) => Unsendable(env, p.request, response)
      case Erring(errors) => Unanswerable(env, errors)
      case _ => false)
    case PluginResponds(_, Some(response)) => p.stage.Responding? && Unsendable(env, p.request, response)
    case _ => false
  }

  predicate Concerns(e: Event, i: nat) {
    match e
    case HooksReturn(j) => i == j
    case HookThrows(j, _) => i == j
    case StoreAnswers(j) => i == j
    case StoreFails(j) => i == j
    case PluginResponds(j, _) => i == j
    case Executes(j, _) => i == j
    case _ => false
  }

  /** No event of the run interrupts the `i`-th request. */
  predicate Undisturbed(env: Env, config: Config, events: seq<Event>, i: nat)
    decreases |events|
  {
    events != [] ==>
      var before, e := events[..|events| - 1], events[|events| - 1];
      var w := Run(env, config, EMPTY, before);
      && Undisturbed(env, config, before, i)
      && !(Concerns(e, i) && i < |w.processes| && Interrupts(env, config, w.processes[i], e))
  }

  lemma AdvanceInterrupts(env: Env, config: Config, w: World, p: Process, e: Event)
    ensures Advance(env, config, w, p, e).process.interrupted <==> p.interrupted || Interrupts(env, config, p, e)
  {
    if e.HooksReturn? {
      ReturningInterrupts(env, config, p, e);
    } else if e.PluginResponds? && e.response.Some? {
      EndingInterrupts(env, p, [], e.response.value);
    } else if e.Executes? {
      ExecutionInterrupts(env, p, e.result, []);
    }
    hide HooksReturned, FormatAndSend, Unsendable, Executed;
  }

  lemma EndingInterrupts(env: Env, p: Process, errors: seq<Error>, response: Response)
    ensures FormatAndSend(env, p, response).interrupted <==> p.interrupted || Unsendable(env, p.request, response)
    ensures RespondToErrors(env, p, errors).interrupted <==> p.interrupted || Unanswerable(env, errors)
  {
    hide ErrorResponse;
  }

  lemma ExecutionInterrupts(env: Env, p: Process, result: Execution, errors: seq<Error>)
    ensures Executed(env, p, result).interrupted == p.interrupted
    ensures FormatResult(env, p, result, errors).interrupted <==> p.interrupted || env.formatErrors(errors).Threw?
  {
    hide ResultErrors;
  }

  lemma ReturningInterrupts(env: Env, config: Config, p: Process, e: Event)
    requires e.HooksReturn?
    ensures HooksReturned(env, config, p).process.interrupted <==> p.interrupted || Interrupts(env, config, p, e)
  {
    hide CheckOperation, FormatAndSend, RespondToErrors, FormatResult, Unsendable, Unanswerable;
    match p.stage
    case ExecutionErrs(result, errors) => ExecutionInterrupts(env, p, result, errors);
    case ExecutionEnds(response) => EndingInterrupts(env, p, [], response);
    case Erring(errors) => EndingInterrupts(env, p, errors, Response(None, None, None));
    case _ =>
  }

  /** The flag of a request says whether an event of the run interrupted it. */
  lemma {:induction false} InterruptedIff(env: Env, config: Config, events: seq<Event>, i: nat)
    requires i < |Run(env, config, EMPTY, events).processes|
    ensures Run(env, config, EMPTY, events).processes[i].interrupted <==> !Undisturbed(env, config, events, i)
    decreases |events|
  {
    if events != [] {
      hide Advance, Interrupts, Step;
      var before, e := events[..|events| - 1], events[|events| - 1];
      var w := Run(env, config, EMPTY, before);
      StepAt(env, config, w, e, i);
      if i < |w.processes| {
        InterruptedIff(env, config, before, i);
        AdvanceInterrupts(env, config, w, w.processes[i], e);
      } else {
        NotThereUndisturbed(env, config, before, i);
      }
    }
  }

  /** What an event does to one request. */
  lemma StepAt(env: Env, config: Config, w: World, e: Event, i: nat)
    requires i < |Step(env, config, w, e).processes|
    ensures i < |w.processes| ==>
              Step(env, config, w, e).processes[i] ==
              if Concerns(e, i) then Advance(env, config, w, w.processes[i], e).process else w.processes[i]
    ensures i >= |w.processes| ==> e.Arrives? && Step(env, config, w, e).processes[i] == NewProcess(e.request)
  {
    hide Advance;
  }

  lemma {:induction false} NotThereUndisturbed(env: Env, config: Config, events: seq<Event>, i: nat)
    requires i >= |Run(env, config, EMPTY, events).processes|
    ensures Undisturbed(env, config, events, i)
    decreases |events|
  {
    if events != [] {
      hide Advance, Interrupts, Step;
      var w := Run(env, config, EMPTY, events[..|events| - 1]);
      StepGrows(env, config, w, events[|events| - 1]);
      NotThereUndisturbed(env, config, events[..|events| - 1], i);
    }
  }

  lemma StepGrows(env: Env, config: Config, w: World, e: Event)
    ensures |w.processes| <= |Step(env, config, w, e).processes|
  {
    hide Advance;
  }

  /** In every run, a request that is answered, and that no event has interrupted, has had its hooks
      called in the order of one of the courses. */
  lemma AnsweredInOrder(env: Env, config: Config, events: seq<Event>, i: nat)
    requires i < |Run(env, config, EMPTY, events).processes|
    requires Run(env, config, EMPTY, events).processes[i].stage.Answered?
    requires Undisturbed(env, config, events, i)
    ensures exists c :: Run(env, config, EMPTY, events).processes[i].hooks == Sentence(c)
  {
    hide Run, Sentence, Undisturbed;
    InterruptedIff(env, config, events, i);
    RunGrammatical(env, config, events, i);
  }

  /** Only a request that an event has interrupted is rejected without a response. */
  lemma RejectedWasInterrupted(env: Env, config: Config, events: seq<Event>, i: nat)
    requires i < |Run(env, config, EMPTY, events).processes|
    requires Run(env, config, EMPTY, events).processes[i].stage.Rejected?
    ensures !Undisturbed(env, config, events, i)
  {
    hide Run, Undisturbed;
    InterruptedIff(env, config, events, i);
    RunGrammatical(env, config, events, i);
  }

  predicate AtMostOnce(hooks: seq<Hook>, hook: Hook) {
    forall j, k | 0 <= j < k < |hooks| && hooks[j] == hook :: hooks[k] != hook
  }

  /** In every course, willSendResponse is called once and last, didEncounterErrors at most once,
      and executionDidEnd exactly once if executionDidStart is, and otherwise not at all. */
  lemma CourseCounts(c: Course)
    ensures var hooks := Sentence(c);
            && hooks[|hooks| - 1] == WillSendResponse && AtMostOnce(hooks, WillSendResponse)
            && AtMostOnce(hooks, DidEncounterErrors)
            && AtMostOnce(hooks, ExecutionDidStart) && AtMostOnce(hooks, ExecutionDidEnd)
            && (ExecutionDidEnd in hooks <==> ExecutionDidStart in hooks)
  {
    var start, rest := Parts(c);
    assert Sentence(c) == start + (rest + [WillSendResponse]);
    hide Before, Sentence;
    forall hook | hook !in start
      ensures hook in Sentence(c) <==> hook in rest + [WillSendResponse]
      ensures AtMostOnce(rest + [WillSendResponse], hook) ==> AtMostOnce(Sentence(c), hook)
    {
      RestDecides(start, rest + [WillSendResponse], hook);
    }
    hide AtMostOnce;
    RestCounts(rest);
  }

  lemma RestDecides(start: seq<Hook>, rest: seq<Hook>, hook: Hook)
    requires hook !in start
    ensures hook in start + rest <==> hook in rest
    ensures AtMostOnce(rest, hook) ==> AtMostOnce(start + rest, hook)
  {
    if AtMostOnce(rest, hook) {
      forall j, k | 0 <= j < k < |start + rest| && (start + rest)[j] == hook
        ensures (start + rest)[k] != hook
      {
        assert j >= |start| && rest[j - |start|] == hook && rest[k - |start|] == (start + rest)[k];
      }
    }
  }

  lemma RestCounts(rest: seq<Hook>)
    requires ShortRest(rest)
    ensures var all := rest + [WillSendResponse];
            && (forall hook :: AtMostOnce(all, hook))
            && (ExecutionDidEnd in all <==> ExecutionDidStart in all)
  {
    var all := rest + [WillSendResponse];
    forall hook
      ensures AtMostOnce(all, hook)
    {
    }
    assert |rest| >= 2 ==> all[0] == ExecutionDidStart && (all[1] == ExecutionDidEnd || all[2] == ExecutionDidEnd);
  }

  /** None of the hooks counted above. */
  predicate Uncounted(hooks: seq<Hook>) {
    && DidEncounterErrors !in hooks && WillSendResponse !in hooks
    && ExecutionDidStart !in hooks && ExecutionDidEnd !in hooks
  }

  predicate ShortRest(rest: seq<Hook>) {
    || rest == [] || rest == [DidEncounterErrors]
    || rest == [ExecutionDidStart, ExecutionDidEnd]
    || rest == [ExecutionDidStart, DidEncounterErrors, ExecutionDidEnd]
    || rest == [ExecutionDidStart, ExecutionDidEnd, DidEncounterErrors]
  }

  /** A course begins with hooks that are not counted, and goes on in one of five ways. */
  lemma Parts(c: Course) returns (start: seq<Hook>, rest: seq<Hook>)
    ensures Before(c) == start + rest && Uncounted(start) && ShortRest(rest)
  {
    var found := if c.NoSource? || c.SyntaxError? || c.ValidationError? then false else c.found;
    StartUncounted(found);
    hide Resolving, Checking, Uncounted;
    var started := Resolving(found) + [ResponseForOperation];
    assert Executing(found) == started + [ExecutionDidStart] by {
      assert [ResponseForOperation] + [ExecutionDidStart] == [ResponseForOperation, ExecutionDidStart];
    }
    match c
    case NoSource => start, rest := [], [DidEncounterErrors];
    case SyntaxError => start, rest := [DidResolveSource, ParsingDidStart, ParsingDidEnd], [DidEncounterErrors];
    case ValidationError => start, rest := Checking(false), [DidEncounterErrors];
    case OperationRefused(_) => start, rest := Resolving(found), [DidEncounterErrors];
    case PluginResponse(_) => start, rest := started, [];
    case Success(_) => start, rest := started, [ExecutionDidStart, ExecutionDidEnd];
    case ErrorsInResult(_) => start, rest := started, [ExecutionDidStart, DidEncounterErrors, ExecutionDidEnd];
    case ExecutionError(_) => start, rest := started, [ExecutionDidStart, ExecutionDidEnd, DidEncounterErrors];
  }

  lemma StartUncounted(found: bool)
    ensures Uncounted([]) && Uncounted([DidResolveSource, ParsingDidStart, ParsingDidEnd])
    ensures Uncounted(Checking(found)) && Uncounted(Checking(false)) && Uncounted(Resolving(found))
    ensures Uncounted(Resolving(found) + [ResponseForOperation])
  {
  }
}
