/** Which GET requests get as far as executing an operation or registering a query. */
module GetRequests {
  import opened Wrappers
  import opened Pipeline

  /** The operation of a request that has gone past didResolveOperation is the one it names in its
      document, and the first plugin has let it pass. */
  predicate OperationFits(env: Env, p: Process) {
    && (p.stage.ResolvingOperation? || ResponseForOperation in p.hooks ==>
          p.document.Some? && p.operation == env.getOperationAST(p.document.value, p.request.operationName))
    && (ResponseForOperation in p.hooks ==> CheckOperation(p.request, p.operation).None?)
    && (Executable(p.stage) || ExecutionDidStart in p.hooks ==> ResponseForOperation in p.hooks)
    && (Unresolved(p.stage) ==> ResponseForOperation !in p.hooks)
  }

  predicate Executable(s: Stage) {
    s.Responding? || s.ExecutionStarts? || s.Executing? || s.ExecutionErrs? || s.ExecutionEnds? || s.ExecutionFails?
  }

  predicate Unresolved(s: Stage) {
    || s.Initializing? || s.ReadingQuery? || s.ResolvingSource? || s.ReadingDocument? || s.ParsingStarts?
    || s.ValidationStarts? || s.ValidationEnds? || s.ResolvingOperation?
  }

  lemma InvokeFits(env: Env, p: Process, hooks: seq<Hook>, stage: Stage)
    requires OperationFits(env, p) && ResponseForOperation !in hooks
    requires Executable(stage) || ExecutionDidStart in hooks ==> Executable(p.stage)
    requires Unresolved(stage) ==> Unresolved(p.stage) && !stage.ResolvingOperation?
    ensures OperationFits(env, Invoke(p, hooks, stage))
    ensures OperationFits(env, Invoke(p.(interrupted := true), hooks, stage))
  {
    assert forall h :: h in p.hooks + hooks <==> h in p.hooks || h in hooks;
  }

  lemma RejectFits(env: Env, p: Process)
    requires OperationFits(env, p)
    ensures OperationFits(env, Reject(p))
  {
  }

  lemma SendFits(env: Env, p: Process, response: Response)
    requires OperationFits(env, p)
    ensures OperationFits(env, Send(env, p, response))
  {
    RejectFits(env, p);
    InvokeFits(env, p, [WillSendResponse], Sending(response));
    hide OperationFits, Reject, Invoke, Settable;
  }

  lemma EndFits(env: Env, p: Process, errors: seq<Error>, response: Response)
    requires OperationFits(env, p)
    ensures OperationFits(env, SendErrorResponse(p, errors))
    ensures OperationFits(env, Reject(p))
    ensures OperationFits(env, FormatAndSend(env, p, response))
    ensures OperationFits(env, RespondToErrors(env, p, errors))
  {
    InvokeFits(env, p, [DidEncounterErrors], Erring(errors));
    RejectFits(env, p);
    hide OperationFits, Send, Reject, Invoke, ErrorResponse;
    forall r
      ensures OperationFits(env, Send(env, p, r))
    {
      SendFits(env, p, r);
    }
  }

  lemma BeginFits(env: Env, config: Config, p: Process)
    requires OperationFits(env, p) && p.stage.Initializing?
    ensures OperationFits(env, Begin(env, config, p))
  {
    hide SendErrorResponse, Reject;
    forall errors
      ensures OperationFits(env, SendErrorResponse(p, errors))
    {
      EndFits(env, p, errors, Response(None, None, None));
    }
    EndFits(env, p, [], Response(None, None, None));
  }

  lemma CheckingFits(env: Env, config: Config, p: Process)
    requires OperationFits(env, p)
    requires p.stage.ResolvingSource? || p.stage.ParsingStarts? || p.stage.ValidationStarts? || p.stage.ValidationEnds?
    ensures OperationFits(env, HooksReturned(env, config, p).process)
  {
    assert forall h: Hook, more: seq<Hook> :: h in p.hooks + more <==> h in p.hooks || h in more;
  }

  lemma ResolvedFits(env: Env, p: Process)
    requires OperationFits(env, p) && p.stage.ResolvingOperation?
    ensures OperationFits(env, OperationResolved(p).process)
  {
    var error := CheckOperation(p.request, p.operation);
    if error.Some? {
      EndFits(env, p, [error.value], Response(None, None, None));
    } else {
      assert OperationResolved(p).process.hooks[|p.hooks|] == ResponseForOperation;
    }
  }

  lemma ExecutedFits(env: Env, p: Process, result: Execution, errors: seq<Error>)
    requires OperationFits(env, p) && Executable(p.stage)
    ensures OperationFits(env, FormatResult(env, p, result, errors))
    ensures OperationFits(env, Executed(env, p, result))
  {
    hide Invoke, ResultErrors, OperationFits;
    match env.formatErrors(errors) {
      case Made(formatted) =>
        InvokeFits(env, p, [ExecutionDidEnd], ExecutionEnds(Response(result.data, Some(formatted), result.http)));
      case Threw(error) => InvokeFits(env, p, [ExecutionDidEnd], ExecutionFails(error));
    }
    match result.errors
    case None => InvokeFits(env, p, [ExecutionDidEnd], ExecutionEnds(Response(result.data, None, result.http)));
    case Some(es) =>
      match ResultErrors(env, es) {
        case Threw(error) => InvokeFits(env, p, [ExecutionDidEnd], ExecutionFails(error));
        case Made(converted) => InvokeFits(env, p, [DidEncounterErrors], ExecutionErrs(result, converted));
      }
  }

  lemma HooksReturnedFits(env: Env, config: Config, p: Process)
    requires OperationFits(env, p)
    ensures OperationFits(env, HooksReturned(env, config, p).process)
  {
    var none := Response(None, None, None);
    assert p.hooks + [] == p.hooks;
    match p.stage
    case Initializing => BeginFits(env, config, p);
    case ResolvingSource => CheckingFits(env, config, p);
    case ParsingStarts => CheckingFits(env, config, p);
    case ParsingFails => EndFits(env, p, [Syntax], none);
    case ValidationStarts => CheckingFits(env, config, p);
    case ValidationEnds => CheckingFits(env, config, p);
    case ValidationFails(errors) => EndFits(env, p, errors, none);
    case ResolvingOperation => ResolvedFits(env, p);
    case ExecutionStarts => InvokeFits(env, p, [], Executing);
    case ExecutionErrs(result, errors) => ExecutedFits(env, p, result, errors);
    case ExecutionEnds(response) => EndFits(env, p, [], response);
    case ExecutionFails(error) => EndFits(env, p, Listed(error), none);
    case Erring(errors) => EndFits(env, p, errors, none);
    case Sending(response) => InvokeFits(env, p, [], Answered(response));
    case _ =>
  }

  lemma AdvanceFits(env: Env, config: Config, w: World, p: Process, e: Event)
    requires OperationFits(env, p)
    ensures OperationFits(env, Advance(env, config, w, p, e).process)
  {
    hide OperationFits, HooksReturned, QueryRead, DocumentRead, BeginParsing, FormatAndSend, SendErrorResponse,
         Executed, Reject, Invoke;
    match e
    case HooksReturn(_) => HooksReturnedFits(env, config, p);
    case HookThrows(_, error) =>
      EndFits(env, p, Listed(error), Response(None, None, None));
      if Executable(p.stage) {
        InvokeFits(env, p, [ExecutionDidEnd], ExecutionFails(error));
      }
    case StoreAnswers(_) => ReadFits(env, p, Lookup(w.queries, p.queryHash), Lookup(w.documents, p.queryHash));
    case StoreFails(_) =>
      EndFits(env, p, [], Response(None, None, None));
      ReadFits(env, p, None, None);
    case PluginResponds(_, Some(response)) => EndFits(env, p, [], response);
    case PluginResponds(_, None) =>
      if p.stage.Responding? {
        InvokeFits(env, p, [ExecutionDidStart], ExecutionStarts);
      }
    case Executes(_, result) =>
      if p.stage.Executing? {
        ExecutedFits(env, p, result, []);
      }
    case _ =>
  }

  lemma ReadFits(env: Env, p: Process, query: Option<string>, document: Option<Document>)
    requires OperationFits(env, p)
    ensures p.stage.ReadingQuery? ==> OperationFits(env, QueryRead(p, query))
    ensures p.stage.ReadingDocument? ==>
              OperationFits(env, DocumentRead(env, p, document)) && OperationFits(env, BeginParsing(p))
  {
    EndFits(env, p, [PersistedQueryNotFound], Response(None, None, None));
    assert forall h: Hook, more: seq<Hook> :: h in p.hooks + more <==> h in p.hooks || h in more;
  }

  lemma {:induction false} RunFits(env: Env, config: Config, events: seq<Event>, i: nat)
    requires i < |Run(env, config, EMPTY, events).processes|
    ensures OperationFits(env, Run(env, config, EMPTY, events).processes[i])
    decreases |events|
  {
    if events != [] {
      var w, e := Run(env, config, EMPTY, events[..|events| - 1]), events[|events| - 1];
      hide OperationFits, Advance;
      if i < |w.processes| {
        RunFits(env, config, events[..|events| - 1], i);
        AdvanceFits(env, config, w, w.processes[i], e);
      } else {
        NewFits(env, e.request);
      }
    }
  }

  lemma NewFits(env: Env, request: Request)
    ensures OperationFits(env, NewProcess(request))
  {
  }

  predicate IsQuery(operation: Option<Operation>) {
    operation.Some? && operation.value.kind == Query
  }

  /** In every run, a GET request that has come as far as responseForOperation, or execution, names
      a query of its document. */
  lemma GetExecutesOnlyQueries(env: Env, config: Config, events: seq<Event>, i: nat)
    requires i < |Run(env, config, EMPTY, events).processes|
    ensures var p := Run(env, config, EMPTY, events).processes[i];
            p.request.httpMethod == Some("GET") &&
            (ResponseForOperation in p.hooks || ExecutionDidStart in p.hooks || Executable(p.stage)) ==>
              p.document.Some? && IsQuery(env.getOperationAST(p.document.value, p.request.operationName))
  {
    RunFits(env, config, events, i);
  }

  /** A segment registers a query if and only if didResolveOperation has just let its request pass,
      and a GET request passes only with a query. */
  lemma AdvanceRegisters(env: Env, config: Config, w: World, p: Process, e: Event)
    ensures Advance(env, config, w, p, e).register ==
            if e.HooksReturn? && p.stage.ResolvingOperation? && p.persistedQueryRegister &&
               (p.request.httpMethod == Some("GET") ==> IsQuery(p.operation))
            then Some(Register(p.queryHash, p.source)) else None
  {
  }

  /** Does this event end didResolveOperation for a request that brought query and hash, and that,
      if it is a GET, names a query of its document? */
  predicate Registers(env: Env, w: World, e: Event) {
    && e.HooksReturn? && e.process < |w.processes|
    && var p := w.processes[e.process];
       && p.stage.ResolvingOperation? && p.persistedQueryRegister && p.document.Some?
       && (p.request.httpMethod == Some("GET") ==>
             IsQuery(env.getOperationAST(p.document.value, p.request.operationName)))
  }

  /** In every run, an event sets off a write to the cache of persisted queries if and only if it is
      one of those, and the write is of the request's query under its hash. */
  lemma RegistersIff(env: Env, config: Config, events: seq<Event>, e: Event)
    ensures var w := Run(env, config, EMPTY, events);
            Step(env, config, w, e).registers ==
            if Registers(env, w, e)
            then w.registers + [Register(w.processes[e.process].queryHash, w.processes[e.process].source)]
            else w.registers
  {
    var w := Run(env, config, EMPTY, events);
    if !e.Arrives? && !e.RegisterCommits? && !e.KeepCommits? && !e.QueryLost? && !e.DocumentLost? &&
       e.process < |w.processes| {
      var p := w.processes[e.process];
      RunFits(env, config, events, e.process);
      assert p.stage.ResolvingOperation? ==>
          p.document.Some? && p.operation == env.getOperationAST(p.document.value, p.request.operationName);
      AdvanceRegisters(env, config, w, p, e);
      hide Run, Advance, OperationFits, IsQuery;
    }
  }

  /** In every run, a GET request has a query written to the cache only if it names a query of its
      document. */
  lemma GetRegistersOnlyQueries(env: Env, config: Config, events: seq<Event>, e: Event)
    requires var w := Run(env, config, EMPTY, events); Step(env, config, w, e).registers != w.registers
    ensures var w := Run(env, config, EMPTY, events);
            && e.HooksReturn? && e.process < |w.processes|
            && var p := w.processes[e.process];
               p.request.httpMethod == Some("GET") ==>
                 p.document.Some? && IsQuery(env.getOperationAST(p.document.value, p.request.operationName))
  {
    hide Run, Step;
    RegistersIff(env, config, events, e);
  }
}
