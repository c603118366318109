/** How requests end, whether or not hooks throw: when didEncounterErrors is followed by
    willSendResponse, and when it is not. */
module Endings {
  import opened Wrappers
  import opened Pipeline
  import opened HookGrammar

  /** The hooks end with willSendResponse, and it is called nowhere before. */
  predicate Sent(hooks: seq<Hook>) {
    hooks != [] && hooks[|hooks| - 1] == WillSendResponse && WillSendResponse !in hooks[..|hooks| - 1]
  }

  /** The stages that a request can be at once didEncounterErrors has been called for it. */
  predicate AfterErrors(s: Stage) {
    || s.ExecutionErrs? || s.ExecutionEnds? || s.ExecutionFails? || s.Erring? || s.Sending? || s.Answered?
    || s.Rejected?
  }

  predicate EndsRight(p: Process) {
    && (p.stage.Sending? || p.stage.Answered? ==> Sent(p.hooks))
    && (!p.stage.Sending? && !p.stage.Answered? && !p.stage.Rejected? ==> WillSendResponse !in p.hooks)
    && (p.stage.Rejected? && WillSendResponse in p.hooks ==> Sent(p.hooks))
    && (DidEncounterErrors in p.hooks ==> AfterErrors(p.stage))
    && (p.stage.Erring? || p.stage.ExecutionErrs? ==> DidEncounterErrors in p.hooks)
  }

  lemma InvokeEnds(p: Process, hooks: seq<Hook>, stage: Stage)
    requires EndsRight(p) && WillSendResponse !in hooks
    requires !p.stage.Sending? && !p.stage.Answered? && !p.stage.Rejected?
    requires !stage.Sending? && !stage.Answered? && !stage.Rejected?
    requires AfterErrors(p.stage) || DidEncounterErrors in hooks ==> AfterErrors(stage)
    requires stage.Erring? || stage.ExecutionErrs? ==> DidEncounterErrors in hooks
    ensures EndsRight(Invoke(p, hooks, stage))
    ensures EndsRight(Invoke(p.(interrupted := true), hooks, stage))
  {
    assert forall h :: h in p.hooks + hooks <==> h in p.hooks || h in hooks;
  }

  lemma SentEnds(p: Process, response: Response)
    requires EndsRight(p) && !p.stage.Sending? && !p.stage.Answered? && !p.stage.Rejected?
    ensures EndsRight(SendResponse(p, response)) && EndsRight(Reject(p))
  {
    var next := SendResponse(p, response);
    assert next.hooks == p.hooks + [WillSendResponse];
    assert next.hooks[..|p.hooks|] == p.hooks;
    assert DidEncounterErrors in next.hooks ==> DidEncounterErrors in p.hooks;
  }

  lemma SendEnds(env: Env, p: Process, response: Response, errors: seq<Error>)
    requires EndsRight(p) && !p.stage.Sending? && !p.stage.Answered? && !p.stage.Rejected?
    ensures EndsRight(FormatAndSend(env, p, response)) && EndsRight(Reject(p))
    ensures EndsRight(RespondToErrors(env, p, errors))
  {
    hide EndsRight, SendResponse, Reject, ErrorResponse, Settable;
    SentEnds(p, response);
    var formatted := env.formatResponse(response, p.request);
    if formatted.Replaced? {
      SentEnds(p, formatted.response);
    }
    var answer := ErrorResponse(env, errors);
    if answer.Made? {
      SentEnds(p, answer.value);
    }
  }

  lemma ErrorsEnd(p: Process, errors: seq<Error>)
    requires EndsRight(p) && !p.stage.Sending? && !p.stage.Answered? && !p.stage.Rejected?
    ensures EndsRight(SendErrorResponse(p, errors))
  {
    InvokeEnds(p, [DidEncounterErrors], Erring(errors));
  }

  lemma BeginEnds(env: Env, config: Config, p: Process)
    requires EndsRight(p) && p.stage.Initializing?
    ensures EndsRight(Begin(env, config, p))
  {
    hide SendErrorResponse, Reject, Invoke;
    forall errors
      ensures EndsRight(SendErrorResponse(p, errors))
    {
      ErrorsEnd(p, errors);
    }
    SentEnds(p, Response(None, None, None));
    if p.request.query.Text? {
      var hashed := p.(source := p.request.query.text, queryHash := env.sha256(p.request.query.text));
      InvokeEnds(hashed, [DidResolveSource], ResolvingSource);
      InvokeEnds(hashed.(persistedQueryRegister := true), [DidResolveSource], ResolvingSource);
    }
    hide EndsRight;
  }

  lemma CheckingEnds(env: Env, config: Config, p: Process)
    requires EndsRight(p)
    requires p.stage.ResolvingSource? || p.stage.ParsingStarts? || p.stage.ValidationStarts? || p.stage.ValidationEnds?
    ensures EndsRight(HooksReturned(env, config, p).process)
  {
    var next := HooksReturned(env, config, p).process;
    CheckingHooks(env, config, p);
    assert WillSendResponse !in p.hooks && DidEncounterErrors !in p.hooks;
    hide HooksReturned;
  }

  /** The hooks that parsing and validation add. */
  lemma CheckingHooks(env: Env, config: Config, p: Process)
    requires p.stage.ResolvingSource? || p.stage.ParsingStarts? || p.stage.ValidationStarts? || p.stage.ValidationEnds?
    ensures var next := HooksReturned(env, config, p).process;
            && (forall h | h == WillSendResponse || h == DidEncounterErrors :: h in next.hooks ==> h in p.hooks)
            && !next.stage.Sending? && !next.stage.Answered? && !next.stage.Rejected?
            && !next.stage.Erring? && !next.stage.ExecutionErrs?
  {
  }

  lemma ResolvedEnds(p: Process)
    requires EndsRight(p) && p.stage.ResolvingOperation?
    ensures EndsRight(OperationResolved(p).process)
  {
    var error := CheckOperation(p.request, p.operation);
    if error.Some? {
      ErrorsEnd(p, [error.value]);
    } else {
      InvokeEnds(p, [ResponseForOperation], Responding);
    }
    hide Invoke;
  }

  lemma ExecutedEnds(env: Env, p: Process, result: Execution, errors: seq<Error>)
    requires EndsRight(p) && (p.stage.Executing? || p.stage.ExecutionErrs?)
    ensures EndsRight(Executed(env, p, result)) && EndsRight(FormatResult(env, p, result, errors))
  {
    hide Invoke, EndsRight, ResultErrors;
    match env.formatErrors(errors) {
      case Made(formatted) =>
        InvokeEnds(p, [ExecutionDidEnd], ExecutionEnds(Response(result.data, Some(formatted), result.http)));
      case Threw(error) => InvokeEnds(p, [ExecutionDidEnd], ExecutionFails(error));
    }
    match result.errors
    case None => InvokeEnds(p, [ExecutionDidEnd], ExecutionEnds(Response(result.data, None, result.http)));
    case Some(es) =>
      match ResultErrors(env, es) {
        case Threw(error) => InvokeEnds(p, [ExecutionDidEnd], ExecutionFails(error));
        case Made(converted) => InvokeEnds(p, [DidEncounterErrors], ExecutionErrs(result, converted));
      }
  }

  lemma HooksReturnedEnds(env: Env, config: Config, p: Process)
    requires EndsRight(p)
    ensures EndsRight(HooksReturned(env, config, p).process)
  {
    hide Begin, ParsingStarted, ValidationStarted, ValidationEnded, SourceResolved, OperationResolved,
         SendErrorResponse, FormatAndSend, RespondToErrors, FormatResult;
    match p.stage
    case Initializing => BeginEnds(env, config, p);
    case ResolvingSource => CheckingEnds(env, config, p);
    case ParsingStarts => CheckingEnds(env, config, p);
    case ParsingFails => ErrorsEnd(p, [Syntax]);
    case ValidationStarts => CheckingEnds(env, config, p);
    case ValidationEnds => CheckingEnds(env, config, p);
    case ValidationFails(errors) => ErrorsEnd(p, errors);
    case ResolvingOperation => ResolvedEnds(p);
    case ExecutionErrs(result, errors) => ExecutedEnds(env, p, result, errors);
    case ExecutionEnds(response) => SendEnds(env, p, response, []);
    case ExecutionFails(error) => ErrorsEnd(p, Listed(error));
    case Erring(errors) => SendEnds(env, p, Response(None, None, None), errors);
    case _ =>
  }

  lemma HookThrewEnds(p: Process, error: Error)
    requires EndsRight(p)
    ensures EndsRight(HookThrew(p, error))
  {
    hide Invoke, SendErrorResponse, Reject;
    if p.stage.ResolvingOperation? {
      ErrorsEnd(p, Listed(error));
    } else if p.stage.Executing? || p.stage.ExecutionErrs? || p.stage.ExecutionEnds? {
      InvokeEnds(p, [ExecutionDidEnd], ExecutionFails(error));
    } else {
      RejectEnds(p);
    }
    hide EndsRight;
  }

  lemma RejectEnds(p: Process)
    requires EndsRight(p)
    ensures EndsRight(Reject(p))
  {
  }

  lemma ReadEnds(env: Env, p: Process, query: Option<string>, document: Option<Document>)
    requires EndsRight(p)
    ensures p.stage.ReadingQuery? ==> EndsRight(QueryRead(p, query))
    ensures p.stage.ReadingDocument? ==> EndsRight(DocumentRead(env, p, document)) && EndsRight(BeginParsing(p))
  {
    assert forall h: Hook, more: seq<Hook> :: h in p.hooks + more <==> h in p.hooks || h in more;
  }

  lemma AdvanceEnds(env: Env, config: Config, w: World, p: Process, e: Event)
    requires EndsRight(p)
    ensures EndsRight(Advance(env, config, w, p, e).process)
  {
    hide HooksReturned, HookThrew, QueryRead, DocumentRead, FormatAndSend, BeginParsing, Executed, Reject, Invoke;
    match e
    case HooksReturn(_) => HooksReturnedEnds(env, config, p);
    case HookThrows(_, error) => HookThrewEnds(p, error);
    case StoreAnswers(_) => ReadEnds(env, p, Lookup(w.queries, p.queryHash), Lookup(w.documents, p.queryHash));
    case StoreFails(_) =>
      ReadEnds(env, p, None, None);
      RejectEnds(p);
    case PluginResponds(_, Some(response)) =>
      if p.stage.Responding? {
        SendEnds(env, p, response, []);
      }
    case PluginResponds(_, None) =>
      if p.stage.Responding? {
        InvokeEnds(p, [ExecutionDidStart], ExecutionStarts);
      }
    case Executes(_, result) =>
      if p.stage.Executing? {
        ExecutedEnds(env, p, result, []);
      }
    case _ =>
  }

  lemma {:induction false} RunEnds(env: Env, config: Config, events: seq<Event>, i: nat)
    requires i < |Run(env, config, EMPTY, events).processes|
    ensures EndsRight(Run(env, config, EMPTY, events).processes[i])
    decreases |events|
  {
    if events != [] {
      hide EndsRight, Advance, Step;
      var w, e := Run(env, config, EMPTY, events[..|events| - 1]), events[|events| - 1];
      StepAt(env, config, w, e, i);
      if i < |w.processes| {
        RunEnds(env, config, events[..|events| - 1], i);
        AdvanceEnds(env, config, w, w.processes[i], e);
      } else {
        NewEnds(e.request);
      }
    }
  }

  lemma NewEnds(request: Request)
    ensures EndsRight(NewProcess(request))
  {
  }

  /** In every run, whatever throws, willSendResponse has been called once and last for every request
      that is answered, and never for one that is not yet sending its response. */
  lemma AnsweredWasSent(env: Env, config: Config, events: seq<Event>, i: nat)
    requires i < |Run(env, config, EMPTY, events).processes|
    ensures var p := Run(env, config, EMPTY, events).processes[i];
            && (p.stage.Answered? ==> Sent(p.hooks))
            && (WillSendResponse in p.hooks ==>
                  Sent(p.hooks) && (p.stage.Sending? || p.stage.Answered? || p.stage.Rejected?))
  {
    hide Run;
    RunEnds(env, config, events, i);
  }

  /** What leaves a request without willSendResponse although didEncounterErrors has been called: a
      didEncounterErrors hook throws while the error response is made, or that response cannot be
      made of the errors, because converting or formatting them throws or its headers cannot be set;
      an executionDidEnd hook throws in the catch block; or the response that execution led to
      cannot be sent, because formatResponse throws or its headers cannot be set. */
  predicate CutsOff(env: Env, p: Process, e: Event) {
    || (e.HookThrows? && (p.stage.Erring? || p.stage.ExecutionFails?))
    || (e.HooksReturn? && p.stage.Erring? && Unanswerable(env, p.stage.errors))
    || (e.HooksReturn? && p.stage.ExecutionEnds? && Unsendable(env, p.request, p.stage.response))
  }

  lemma RejectionCutsOff(env: Env, config: Config, w: World, p: Process, e: Event)
    requires EndsRight(p) && !p.stage.Rejected? && DidEncounterErrors in p.hooks
    requires Advance(env, config, w, p, e).process.stage.Rejected?
    ensures Advance(env, config, w, p, e).process.hooks == p.hooks && !p.stage.Answered?
    ensures CutsOff(env, p, e) <==> !p.stage.Sending?
  {
    assert AfterErrors(p.stage);
    match p.stage
    case Erring(errors) => RespondingRejects(env, p, errors, Response(None, None, None));
    case ExecutionEnds(response) => RespondingRejects(env, p, [], response);
    case _ =>
    hide EndsRight, FormatAndSend, RespondToErrors, Unanswerable, Unsendable, ResultErrors;
  }

  lemma RespondingRejects(env: Env, p: Process, errors: seq<Error>, response: Response)
    ensures RespondToErrors(env, p, errors) == Reject(p) || RespondToErrors(env, p, errors).stage.Sending?
    ensures FormatAndSend(env, p, response) == Reject(p) || FormatAndSend(env, p, response).stage.Sending?
    ensures RespondToErrors(env, p, errors).stage.Rejected? <==> Unanswerable(env, errors)
    ensures FormatAndSend(env, p, response).stage.Rejected? <==> Unsendable(env, p.request, response)
  {
    hide ErrorResponse;
  }

  /** The event rejects the `i`-th request, for which didEncounterErrors has been called. */
  predicate RejectsErring(env: Env, config: Config, w: World, e: Event, i: nat) {
    && Concerns(e, i) && i < |w.processes| && i < |Step(env, config, w, e).processes|
    && !w.processes[i].stage.Rejected? && Step(env, config, w, e).processes[i].stage.Rejected?
    && DidEncounterErrors in w.processes[i].hooks
  }

  /** In every run, an event that rejects a request for which didEncounterErrors has been called
      leaves it without willSendResponse if and only if it cuts it off in one of those ways; the only
      other way is that willSendResponse itself throws. */
  lemma CutOffIff(env: Env, config: Config, events: seq<Event>, e: Event, i: nat)
    ensures var w := Run(env, config, EMPTY, events);
            RejectsErring(env, config, w, e, i) ==>
              && (WillSendResponse !in Step(env, config, w, e).processes[i].hooks <==> CutsOff(env, w.processes[i], e))
              && (!CutsOff(env, w.processes[i], e) <==> w.processes[i].stage.Sending?)
  {
    hide Run, Step, Advance, CutsOff;
    var w := Run(env, config, EMPTY, events);
    if RejectsErring(env, config, w, e, i) {
      RunEnds(env, config, events, i);
      StepAt(env, config, w, e, i);
      RejectionCutsOff(env, config, w, w.processes[i], e);
      assert w.processes[i].stage.Sending? ==> Sent(w.processes[i].hooks);
    }
  }

  // ---------------------------------------------------------------- runs that show it

  /** The run so far has had one request, which stands like this. */
  predicate Stands(env: Env, config: Config, events: seq<Event>, p: Process) {
    Run(env, config, EMPTY, events).processes == [p]
  }

  lemma Goes(env: Env, config: Config, events: seq<Event>, p: Process, e: Event)
    requires Stands(env, config, events, p) && Concerns(e, 0) && !e.StoreAnswers?
    ensures Stands(env, config, events + [e], Advance(env, config, EMPTY, p, e).process)
  {
    assert (events + [e])[..|events|] == events;
    var w := Run(env, config, EMPTY, events);
    assert Advance(env, config, w, p, e) == Advance(env, config, EMPTY, p, e);
    hide Advance;
  }

  lemma Arrive(env: Env, config: Config, request: Request)
    ensures Stands(env, config, [Arrives(request)], NewProcess(request))
  {
    assert [Arrives(request)][..0] == [];
  }

  /** A request without a query whose didEncounterErrors hook throws: it is rejected, and
      willSendResponse is not called. */
  lemma CutOffRun(env: Env, config: Config) returns (events: seq<Event>)
    ensures |Run(env, config, EMPTY, events).processes| == 1
    ensures var p := Run(env, config, EMPTY, events).processes[0];
            p.stage.Rejected? && DidEncounterErrors in p.hooks && WillSendResponse !in p.hooks
  {
    var p := NewProcess(Request(Undefined, None, None, None));
    Arrive(env, config, p.request);
    events := [Arrives(p.request)];
    Goes(env, config, events, p, HooksReturn(0));
    events, p := events + [HooksReturn(0)], SendErrorResponse(p, [NoQuery]);
    Goes(env, config, events, p, HookThrows(0, Thrown(0)));
    events, p := events + [HookThrows(0, Thrown(0))], Reject(p);
    assert p.hooks == [] + [DidEncounterErrors];
    hide Run;
  }

  /** The hooks of a request without a document in the store, until it is executed. */
  const EXECUTING := HookGrammar.Executing(false)

  /** A request for a valid query has been parsed and validated. */
  lemma ValidatedRun(env: Env, query: string, document: Document) returns (events: seq<Event>, p: Process)
    requires query != "" && env.parse(query) == Some(document) && env.validate(document) == []
    ensures Stands(env, Config(false, false), events, p) && p.stage.ValidationEnds? && p.hooks == Checking(false)
    ensures p.document == Some(document) && p.request.httpMethod == None && !p.persistedQueryRegister
    ensures forall e | e in events :: !e.HookThrows?
  {
    var config, e := Config(false, false), HooksReturn(0);
    p := NewProcess(Request(Text(query), None, None, None));
    Arrive(env, config, p.request);
    events := [Arrives(p.request)];
    Goes(env, config, events, p, e);
    events, p := events + [e], ResolveSource(p, query, env.sha256(query));
    Goes(env, config, events, p, e);
    events, p := events + [e], BeginParsing(p);
    Goes(env, config, events, p, e);
    events, p := events + [e], ParsingStarted(env, p);
    Goes(env, config, events, p, e);
    events, p := events + [e], ValidationStarted(env, p);
    hide Stands;
  }

  /** Its operation is resolved. */
  lemma RespondingRun(env: Env, query: string, document: Document) returns (events: seq<Event>, p: Process)
    requires query != "" && env.parse(query) == Some(document) && env.validate(document) == []
    ensures Stands(env, Config(false, false), events, p) && p.stage.Responding?
    ensures p.hooks == Resolving(false) + [ResponseForOperation]
    ensures forall e | e in events :: !e.HookThrows?
  {
    var config, e := Config(false, false), HooksReturn(0);
    events, p := ValidatedRun(env, query, document);
    hide Checking, Stands;
    Goes(env, config, events, p, e);
    events, p := events + [e], ResolveOperation(env, p, document);
    Goes(env, config, events, p, e);
    events, p := events + [e], OperationResolved(p).process;
  }

  /** It comes to be executed. */
  lemma ExecutingRun(env: Env, query: string, document: Document) returns (events: seq<Event>, p: Process)
    requires query != "" && env.parse(query) == Some(document) && env.validate(document) == []
    ensures Stands(env, Config(false, false), events, p) && p.stage.Executing? && p.hooks == EXECUTING
    ensures forall e | e in events :: !e.HookThrows?
  {
    var config, e := Config(false, false), HooksReturn(0);
    events, p := RespondingRun(env, query, document);
    hide Checking, Stands;
    Goes(env, config, events, p, PluginResponds(0, None));
    events, p := events + [PluginResponds(0, None)], Responded(env, p, None);
    Goes(env, config, events, p, e);
    events, p := events + [e], p.(stage := Stage.Executing);
    hide Resolving;
    assert [ResponseForOperation] + [ExecutionDidStart] == [ResponseForOperation, ExecutionDidStart];
  }

  /** Converting a single error. */
  lemma OneError(env: Env, error: Error)
    ensures error.Nullish? ==> FromGraphQLErrors(env, [error]) == Threw(TypeError)
    ensures !error.Nullish? && env.fromGraphQLError(error).Made? ==>
              FromGraphQLErrors(env, [error]) == Made([env.fromGraphQLError(error).value])
    ensures !error.Nullish? && env.userInputError(error).Made? ==>
              ResultErrors(env, [error]) == Made([env.userInputError(error).value])
  {
    assert [error][1..] == [];
    assert FromGraphQLErrors(env, []) == Made([]) && ResultErrors(env, []) == Made([]);
    assert forall converted: Error :: [converted] + [] == [converted];
  }

  /** Its result has errors, and execution ends. */
  lemma ErrorsRun(env: Env, query: string, document: Document) returns (events: seq<Event>, p: Process)
    requires query != "" && env.parse(query) == Some(document) && env.validate(document) == []
    requires env.userInputError(Thrown(0)).Made?
    requires forall errors :: env.formatErrors(errors).Made?
    ensures Stands(env, Config(false, false), events, p) && p.stage.ExecutionEnds? && p.stage.response.http == None
    ensures p.hooks == EXECUTING + [DidEncounterErrors] + [ExecutionDidEnd]
    ensures forall e | e in events :: !e.HookThrows?
  {
    var config := Config(false, false);
    events, p := ExecutingRun(env, query, document);
    hide Stands;
    var result := Execution(None, Some([Thrown(0)]), None);
    var errors := [env.userInputError(Thrown(0)).value];
    OneError(env, Thrown(0));
    Goes(env, config, events, p, Executes(0, result));
    events, p := events + [Executes(0, result)], Executed(env, p, result);
    Goes(env, config, events, p, HooksReturn(0));
    events, p := events + [HooksReturn(0)], FormatResult(env, p, result, errors);
  }

  /** An executionDidEnd hook then throws. */
  lemma EndThrowsRun(env: Env, query: string, document: Document) returns (events: seq<Event>, p: Process)
    requires query != "" && env.parse(query) == Some(document) && env.validate(document) == []
    requires env.userInputError(Thrown(0)).Made?
    requires forall errors :: env.formatErrors(errors).Made?
    ensures Stands(env, Config(false, false), events, p) && p.stage == ExecutionFails(Thrown(1))
    ensures p.hooks == EXECUTING + [DidEncounterErrors] + [ExecutionDidEnd] + [ExecutionDidEnd]
  {
    var config, error := Config(false, false), Thrown(1);
    events, p := ErrorsRun(env, query, document);
    hide Stands, HookGrammar.Executing;
    Goes(env, config, events, p, HookThrows(0, error));
    events, p := events + [HookThrows(0, error)], ExecutionThrew(p.(interrupted := true), error);
  }

  lemma FailureErrs(env: Env, config: Config, p: Process, e: Event)
    requires p.stage.ExecutionFails? && !p.stage.error.Several? && e == HooksReturn(0)
    ensures Advance(env, config, EMPTY, p, e).process == SendErrorResponse(p, [p.stage.error])
  {
  }

  /** And didEncounterErrors is called again. */
  lemma RepeatedErrorsRun(env: Env, query: string, document: Document) returns (events: seq<Event>, p: Process)
    requires query != "" && env.parse(query) == Some(document) && env.validate(document) == []
    requires env.userInputError(Thrown(0)).Made?
    requires forall errors :: env.formatErrors(errors).Made?
    ensures Stands(env, Config(false, false), events, p) && p.stage == Erring([Thrown(1)])
    ensures !AtMostOnce(p.hooks, DidEncounterErrors)
  {
    var config, e, error := Config(false, false), HooksReturn(0), Thrown(1);
    events, p := EndThrowsRun(env, query, document);
    hide Stands, HookGrammar.Executing, AtMostOnce, Advance;
    Goes(env, config, events, p, e);
    FailureErrs(env, config, p, e);
    events, p := events + [e], SendErrorResponse(p, [error]);
    RepeatedErrors(EXECUTING, EXECUTING + [DidEncounterErrors] + [ExecutionDidEnd]);
  }

  lemma RepeatedErrors(executing: seq<Hook>, first: seq<Hook>)
    requires first == executing + [DidEncounterErrors] + [ExecutionDidEnd]
    ensures !AtMostOnce(first + [ExecutionDidEnd] + [DidEncounterErrors], DidEncounterErrors)
  {
    var hooks := first + [ExecutionDidEnd] + [DidEncounterErrors];
    assert hooks[|executing|] == DidEncounterErrors && hooks[|first| + 1] == DidEncounterErrors;
  }

  /** For a request for any valid query whose result has errors, didEncounterErrors can be called
      twice: an executionDidEnd hook throws, once, and the request is answered. */
  lemma DoubleCallRun(env: Env, query: string, document: Document) returns (events: seq<Event>)
    requires query != "" && env.parse(query) == Some(document) && env.validate(document) == []
    requires env.userInputError(Thrown(0)).Made? && env.fromGraphQLError(Thrown(1)).Made?
    requires forall errors :: env.formatErrors(errors).Made?
    ensures |Run(env, Config(false, false), EMPTY, events).processes| == 1
    ensures var p := Run(env, Config(false, false), EMPTY, events).processes[0];
            p.stage.Answered? && !AtMostOnce(p.hooks, DidEncounterErrors)
  {
    hide Run, AtMostOnce;
    var config, e, error := Config(false, false), HooksReturn(0), Thrown(1);
    var p;
    events, p := RepeatedErrorsRun(env, query, document);
    OneError(env, error);
    assert [error][0] == error && ErrorHttp([error]) == None;
    var response := ErrorResponse(env, [error]).value;
    var twice := p.hooks;
    Goes(env, config, events, p, e);
    events, p := events + [e], SendResponse(p, response);
    Goes(env, config, events, p, e);
    events, p := events + [e], p.(stage := Answered(response));
    StillRepeated(twice, WillSendResponse, DidEncounterErrors);
  }

  lemma StillRepeated(hooks: seq<Hook>, last: Hook, hook: Hook)
    requires !AtMostOnce(hooks, hook)
    ensures !AtMostOnce(hooks + [last], hook)
  {
    var j, k :| 0 <= j < k < |hooks| && hooks[j] == hook && hooks[k] == hook;
    assert (hooks + [last])[j] == hook && (hooks + [last])[k] == hook;
  }

  /** It can be left without willSendResponse though no hook throws: formatResponse throws. */
  lemma FormatThrowsRun(env: Env, query: string, document: Document) returns (events: seq<Event>)
    requires query != "" && env.parse(query) == Some(document) && env.validate(document) == []
    requires env.userInputError(Thrown(0)).Made?
    requires forall errors :: env.formatErrors(errors).Made?
    requires forall response, request :: env.formatResponse(response, request).FormatThrows?
    ensures |Run(env, Config(false, false), EMPTY, events).processes| == 1
    ensures var p := Run(env, Config(false, false), EMPTY, events).processes[0];
            p.stage.Rejected? && DidEncounterErrors in p.hooks && WillSendResponse !in p.hooks
    ensures forall e | e in events :: !e.HookThrows?
  {
    hide Run;
    var config := Config(false, false);
    var p;
    events, p := ErrorsRun(env, query, document);
    Goes(env, config, events, p, HooksReturn(0));
    events := events + [HooksReturn(0)];
    assert p.hooks[|EXECUTING|] == DidEncounterErrors;
  }

  /** And so it can for any valid query, whatever is formatted how, when didResolveOperation throws
      null or undefined and nothing else throws: no error response can be made of that. */
  lemma NullishErrorRun(env: Env, query: string, document: Document) returns (events: seq<Event>)
    requires query != "" && env.parse(query) == Some(document) && env.validate(document) == []
    ensures |Run(env, Config(false, false), EMPTY, events).processes| == 1
    ensures var p := Run(env, Config(false, false), EMPTY, events).processes[0];
            p.stage.Rejected? && DidEncounterErrors in p.hooks && WillSendResponse !in p.hooks
    ensures |events| >= 2 && events[|events| - 2] == HookThrows(0, Nullish)
    ensures forall j | 0 <= j < |events| && j != |events| - 2 :: !events[j].HookThrows?
    ensures var p := Run(env, Config(false, false), EMPTY, events[..|events| - 2]).processes;
            |p| == 1 && p[0].stage.ResolvingOperation?
  {
    hide Run;
    var config := Config(false, false);
    var p;
    events, p := ValidatedRun(env, query, document);
    hide Checking;
    Goes(env, config, events, p, HooksReturn(0));
    events, p := events + [HooksReturn(0)], ResolveOperation(env, p, document);
    var before := events;
    Goes(env, config, events, p, HookThrows(0, Nullish));
    events, p := events + [HookThrows(0, Nullish)], SendErrorResponse(p, [Nullish]);
    OneError(env, Nullish);
    Goes(env, config, events, p, HooksReturn(0));
    events, p := events + [HooksReturn(0)], Reject(p);
    assert events[..|events| - 2] == before;
    assert p.hooks == Checking(false) + [DidResolveOperation] + [DidEncounterErrors];
    CheckingSendsNothing();
  }

  lemma CheckingSendsNothing()
    ensures WillSendResponse !in Checking(false)
  {
  }
}
