/** The segments of `processGraphQLRequest` as code that updates one request. */
module RequestCode {
  import opened Wrappers
  import opened Pipeline
  import opened SharedCaches

  /** One request on its way. Each method runs one segment, updating the fields step by step. */
  class RequestPipeline {
    const env: Env
    const config: Config
    const request: Request
    var source: string
    var queryHash: string
    var document: Option<Document>
    var operation: Option<Operation>
    var persistedQueryHit: bool
    var persistedQueryRegister: bool
    var stage: Stage
    var hooks: seq<Hook>
    var interrupted: bool

    constructor (env: Env, config: Config, request: Request)
      ensures this.env == env && this.config == config && State() == NewProcess(request)
    {
      this.env, this.config, this.request := env, config, request;
      source, queryHash, document, operation := "", "", None, None;
      persistedQueryHit, persistedQueryRegister := false, false;
      stage, hooks, interrupted := Initializing, [], false;
    }

    function State(): Process
      reads this
    {
      Process(request, source, queryHash, document, operation, persistedQueryHit, persistedQueryRegister,
              stage, hooks, interrupted)
    }

    method InvokeHook(hook: Hook)
      modifies this`hooks
      ensures hooks == old(hooks) + [hook]
    {
      hooks := hooks + [hook];
    }

    method SendErrorResponse(errors: seq<Error>)
      modifies this
      ensures State() == Pipeline.SendErrorResponse(old(State()), errors)
    {
      InvokeHook(DidEncounterErrors);
      stage := Erring(errors);
    }

    /** Sets the headers of the response, which may throw, and calls willSendResponse. */
    method SendResponse(response: Response)
      modifies this
      ensures State() == Pipeline.Send(env, old(State()), response)
    {
      if response.http.Some? && !env.headersSettable(response.http.value.headers) {
        Reject();
        return;
      }
      InvokeHook(WillSendResponse);
      stage := Sending(response);
    }

    /** The rest of `sendErrorResponse`, after didEncounterErrors. */
    method RespondToErrors(errors: seq<Error>)
      modifies this
      ensures State() == Pipeline.RespondToErrors(env, old(State()), errors)
    {
      var converted: seq<Error> := [];
      assert errors[0..] == errors;
      assert FromGraphQLErrors(env, errors).Made? ==>
          [] + FromGraphQLErrors(env, errors).value == FromGraphQLErrors(env, errors).value;
      for i := 0 to |errors|
        invariant State() == old(State())
        invariant FromGraphQLErrors(env, errors) == Prepend(converted, FromGraphQLErrors(env, errors[i..]))
      {
        if errors[i].Nullish? || env.fromGraphQLError(errors[i]).Threw? {
          Reject();
          return;
        }
        ghost var before := converted;
        converted := converted + [env.fromGraphQLError(errors[i]).value];
        assert errors[i..][1..] == errors[i + 1..];
        PrependStep(before, converted[|before|], FromGraphQLErrors(env, errors[i + 1..]));
      }
      assert errors[|errors|..] == [] && converted + [] == converted;
      var formatted := env.formatErrors(converted);
      if formatted.Threw? {
        Reject();
        return;
      }
      SendResponse(Response(None, Some(formatted.value), ErrorHttp(errors)));
    }

    method Reject()
      modifies this
      ensures State() == Pipeline.Reject(old(State()))
    {
      stage, interrupted := Rejected, true;
    }

    method Begin()
      modifies this
      ensures State() == Pipeline.Begin(env, config, old(State()))
    {
      var query := request.query;
      if request.persistedQuery.Some? {
        if !config.persistedQueries {
          SendErrorResponse([PersistedQueryNotSupported]);
          return;
        } else if request.persistedQuery.value.version != 1 {
          SendErrorResponse([UnsupportedVersion]);
          return;
        }
        var hash := request.persistedQuery.value.sha256Hash;
        if query == Undefined {
          queryHash, stage := hash, ReadingQuery;
          return;
        }
        if query == Null {
          Reject();
          return;
        }
        if hash != env.sha256(query.text) {
          SendErrorResponse([ShaMismatch]);
          return;
        }
        persistedQueryRegister := true;
        ResolveSource(query.text, hash);
      } else if query.Text? && query.text != "" {
        ResolveSource(query.text, env.sha256(query.text));
      } else {
        SendErrorResponse([NoQuery]);
      }
    }

    method ResolveSource(query: string, hash: string)
      modifies this
      ensures State() == Pipeline.ResolveSource(old(State()), query, hash)
    {
      queryHash := hash;
      source := query;
      InvokeHook(DidResolveSource);
      stage := ResolvingSource;
    }

    method OnQueryRead(query: Option<string>)
      modifies this
      ensures State() == QueryRead(old(State()), query)
    {
      if query.Some? && query.value != "" {
        persistedQueryHit := true;
        ResolveSource(query.value, queryHash);
      } else {
        SendErrorResponse([PersistedQueryNotFound]);
      }
    }

    method OnSourceResolved()
      modifies this
      ensures State() == SourceResolved(config, old(State()))
    {
      if config.documentStore {
        stage := ReadingDocument;
      } else {
        BeginParsing();
      }
    }

    method BeginParsing()
      modifies this
      ensures State() == Pipeline.BeginParsing(old(State()))
    {
      InvokeHook(ParsingDidStart);
      stage := ParsingStarts;
    }

    method OnDocumentRead(found: Option<Document>)
      modifies this
      ensures State() == DocumentRead(env, old(State()), found)
    {
      if found.None? {
        BeginParsing();
      } else {
        document := found;
        ResolveOperation(found.value);
      }
    }

    method OnParsingStarted()
      modifies this
      ensures State() == ParsingStarted(env, old(State()))
    {
      var parsed := env.parse(source);
      if parsed.None? {
        InvokeHook(ParsingDidEnd);
        stage := ParsingFails;
        return;
      }
      document := parsed;
      InvokeHook(ParsingDidEnd);
      InvokeHook(ValidationDidStart);
      stage := ValidationStarts;
      assert old(hooks) + [ParsingDidEnd] + [ValidationDidStart] == old(hooks) + [ParsingDidEnd, ValidationDidStart];
    }

    method OnValidationStarted()
      requires document.Some?
      modifies this
      ensures State() == ValidationStarted(env, old(State()))
    {
      var validationErrors := env.validate(document.value);
      InvokeHook(ValidationDidEnd);
      if |validationErrors| == 0 {
        stage := ValidationEnds;
      } else {
        stage := ValidationFails(validationErrors);
      }
    }

    method OnValidationEnded() returns (keep: Option<Keep>)
      requires document.Some?
      modifies this
      ensures Turn(State(), None, keep) == ValidationEnded(env, config, old(State()))
    {
      keep := None;
      if config.documentStore {
        keep := Some(Keep(queryHash, document.value));
      }
      ResolveOperation(document.value);
    }

    method ResolveOperation(resolved: Document)
      modifies this
      ensures State() == Pipeline.ResolveOperation(env, old(State()), resolved)
    {
      document := Some(resolved);
      operation := env.getOperationAST(resolved, request.operationName);
      InvokeHook(DidResolveOperation);
      stage := ResolvingOperation;
    }

    method OnOperationResolved() returns (register: Option<Register>)
      modifies this
      ensures Turn(State(), register, None) == OperationResolved(old(State()))
    {
      register := None;
      var error := CheckOperation(request, operation);
      if error.Some? {
        SendErrorResponse([error.value]);
        return;
      }
      if persistedQueryRegister {
        register := Some(Register(queryHash, source));
      }
      InvokeHook(ResponseForOperation);
      stage := Responding;
    }

    method OnResponded(response: Option<Response>)
      modifies this
      ensures State() == Responded(env, old(State()), response)
    {
      if response.None? {
        InvokeHook(ExecutionDidStart);
        stage := ExecutionStarts;
      } else {
        FormatAndSend(response.value);
      }
    }

    method OnExecuted(result: Execution)
      modifies this
      ensures State() == Executed(env, old(State()), result)
    {
      if result.errors.None? {
        InvokeHook(ExecutionDidEnd);
        stage := ExecutionEnds(Response(result.data, None, result.http));
        return;
      }
      var resultErrors := ResultErrors(env, result.errors.value);
      if resultErrors.Threw? {
        OnExecutionThrew(resultErrors.error);
        return;
      }
      InvokeHook(DidEncounterErrors);
      stage := ExecutionErrs(result, resultErrors.value);
    }

    method OnErrorsEncountered(result: Execution, resultErrors: seq<Error>)
      modifies this
      ensures State() == FormatResult(env, old(State()), result, resultErrors)
    {
      var formatted := env.formatErrors(resultErrors);
      if formatted.Threw? {
        interrupted := true;
        OnExecutionThrew(formatted.error);
        return;
      }
      InvokeHook(ExecutionDidEnd);
      stage := ExecutionEnds(Response(result.data, Some(formatted.value), result.http));
    }

    method OnExecutionThrew(error: Error)
      modifies this
      ensures State() == ExecutionThrew(old(State()), error)
    {
      InvokeHook(ExecutionDidEnd);
      stage := ExecutionFails(error);
    }

    method FormatAndSend(response: Response)
      modifies this
      ensures State() == Pipeline.FormatAndSend(env, old(State()), response)
    {
      var formatted := env.formatResponse(response, request);
      if formatted.FormatThrows? {
        Reject();
      } else {
        SendResponse(if formatted.Replaced? then formatted.response else response);
      }
    }

    /** The segment that runs when the hooks that the request awaits have returned. */
    method OnHooksReturned() returns (register: Option<Register>, keep: Option<Keep>)
      modifies this
      ensures Turn(State(), register, keep) == HooksReturned(env, config, old(State()))
    {
      register, keep := None, None;
      match stage {
        case Initializing => Begin();
        case ResolvingSource => OnSourceResolved();
        case ParsingStarts => OnParsingStarted();
        case ParsingFails => SendErrorResponse([Syntax]);
        case ValidationStarts =>
          if document.Some? {
            OnValidationStarted();
          }
        case ValidationEnds =>
          if document.Some? {
            keep := OnValidationEnded();
          }
        case ValidationFails(errors) => SendErrorResponse(errors);
        case ResolvingOperation => register := OnOperationResolved();
        case ExecutionStarts => stage := Executing;
        case ExecutionErrs(result, errors) => OnErrorsEncountered(result, errors);
        case ExecutionEnds(response) => FormatAndSend(response);
        case ExecutionFails(error) => SendErrorResponse(Listed(error));
        case Erring(errors) => RespondToErrors(errors);
        case Sending(response) => stage := Answered(response);
        case _ =>
      }
    }

    /** The segment that runs when one of those hooks, or execution, has thrown: in the two try
        blocks it is caught, and elsewhere it rejects the request. */
    method OnHookThrew(error: Error)
      modifies this
      ensures State() == HookThrew(old(State()), error)
    {
      match stage
      case ReadingQuery =>
      case ReadingDocument =>
      case Answered(_) =>
      case Rejected =>
      case ResolvingOperation => SendErrorResponse(Listed(error));
      case Executing => OnExecutionThrew(error);
      case ExecutionErrs(_, _) =>
        interrupted := true;
        OnExecutionThrew(error);
      case ExecutionEnds(_) =>
        interrupted := true;
        OnExecutionThrew(error);
      case _ => Reject();
    }

    /** A read of one of the caches fails: of the document store, which is as if it had nothing. */
    method OnStoreFailed()
      modifies this
      ensures State() == if old(stage).ReadingQuery? then Pipeline.Reject(old(State()))
                         else if old(stage).ReadingDocument? then Pipeline.BeginParsing(old(State()))
                         else old(State())
    {
      if stage.ReadingQuery? {
        Reject();
      } else if stage.ReadingDocument? {
        BeginParsing();
      }
    }

    /** Runs the segment that an event sets off, with the caches as they are. */
    method Handle(e: Event, queries: map<string, string>, documents: map<string, Document>)
      returns (register: Option<Register>, keep: Option<Keep>)
      modifies this
      ensures Turn(State(), register, keep) ==
              Advance(env, config, World(queries, documents, [], [], []), old(State()), e)
    {
      register, keep := None, None;
      match e
      case HooksReturn(_) => register, keep := OnHooksReturned();
      case HookThrows(_, error) => OnHookThrew(error);
      case StoreAnswers(_) =>
        if stage.ReadingQuery? {
          OnQueryRead(Lookup(queries, queryHash));
        } else if stage.ReadingDocument? {
          OnDocumentRead(Lookup(documents, queryHash));
        }
      case StoreFails(_) => OnStoreFailed();
      case PluginResponds(_, response) =>
        if stage.Responding? {
          OnResponded(response);
        }
      case Executes(_, result) =>
        if stage.Executing? {
          OnExecuted(result);
        }
      case _ =>
    }
  }

  /** What a conversion gives once the first elements have been converted. */
  function Prepend(first: seq<Error>, rest: Attempt<seq<Error>>): Attempt<seq<Error>> {
    match rest
    case Made(others) => Made(first + others)
    case Threw(error) => Threw(error)
  }

  lemma PrependStep(first: seq<Error>, next: Error, rest: Attempt<seq<Error>>)
    ensures Prepend(first, Prepend([next], rest)) == Prepend(first + [next], rest)
  {
    if rest.Made? {
      assert first + ([next] + rest.value) == first + [next] + rest.value;
    }
  }

  // ---------------------------------------------------------------- concurrent requests

  /** The requests in progress, each an object of its own, and the two caches that they share. */
  class Requests {
    const env: Env
    const config: Config
    var queries: map<string, string>
    var documents: map<string, Document>
    var registers: seq<Register>
    var keeps: seq<Keep>
    var processes: seq<RequestPipeline>

    constructor (env: Env, config: Config)
      ensures this.env == env && this.config == config && Valid() && Contents() == EMPTY && processes == []
    {
      this.env, this.config := env, config;
      queries, documents, registers, keeps, processes := map[], map[], [], [], [];
    }

    /** No two requests are one object. */
    ghost predicate Valid()
      reads this, processes
    {
      && (forall i | 0 <= i < |processes| :: processes[i].env == env && processes[i].config == config)
      && (forall i, j | 0 <= i < j < |processes| :: processes[i] != processes[j])
    }

    ghost function Contents(): World
      reads this, processes
    {
      World(queries, documents, registers, keeps, States(processes))
    }

    /** A request arrives. */
    method Accept(request: Request)
      requires Valid()
      modifies this`processes
      ensures Valid() && Contents() == old(Contents()).(processes := old(Contents()).processes + [NewProcess(request)])
      ensures exists p: RequestPipeline :: fresh(p) && processes == old(processes) + [p]
    {
      var process := new RequestPipeline(env, config, request);
      processes := processes + [process];
      assert processes[..|processes| - 1] == old(processes);
    }

    /** A request runs a segment. */
    method Proceed(i: nat, e: Event)
      requires Valid() && i < |processes|
      modifies this`registers, this`keeps, processes[i]
      ensures Valid()
      ensures Contents() ==
              Progress(old(Contents()), i, Advance(env, config, old(Contents()), old(processes[i].State()), e))
    {
      hide Advance, States;
      ghost var before := Contents();
      var register, keep := processes[i].Handle(e, queries, documents);
      ghost var turn := Turn(processes[i].State(), register, keep);
      assert Advance(env, config, before, before.processes[i], e) == turn by {
        OnlyCachesRead(env, config, before, before.processes[i], e);
      }
      if register.Some? {
        registers := registers + [register.value];
      }
      if keep.Some? {
        keeps := keeps + [keep.value];
      }
      assert States(processes) == before.processes[i := turn.process];
      assert registers == before.registers + if register.Some? then [register.value] else [];
      assert keeps == before.keeps + if keep.Some? then [keep.value] else [];
    }

    /** A cache performs a write or loses an entry. */
    method Update(e: Event)
      requires Valid() && (e.RegisterCommits? || e.KeepCommits? || e.QueryLost? || e.DocumentLost?)
      modifies this`queries, this`documents
      ensures Valid() && Contents() == Step(env, config, old(Contents()), e)
    {
      hide States, Advance;
      match e
      case RegisterCommits(k) =>
        if k < |registers| {
          queries := queries[registers[k].queryHash := registers[k].query];
        }
      case KeepCommits(k) =>
        if k < |keeps| {
          documents := documents[keeps[k].queryHash := keeps[k].document];
        }
      case QueryLost(queryHash) => queries := queries - {queryHash};
      case DocumentLost(queryHash) => documents := documents - {queryHash};
    }

    /** One event: a request arrives or runs a segment, or a cache performs a write or loses an
        entry. */
    method Handle(e: Event)
      requires Valid()
      modifies this, processes
      ensures Valid() && Contents() == Step(env, config, old(Contents()), e)
      ensures |processes| >= |old(processes)|
      ensures forall i | 0 <= i < |processes| ::
                if i < |old(processes)| then processes[i] == old(processes[i]) else fresh(processes[i])
    {
      hide Advance, States, Progress;
      match e
      case Arrives(request) => Accept(request);
      case RegisterCommits(_) => Update(e);
      case KeepCommits(_) => Update(e);
      case QueryLost(_) => Update(e);
      case DocumentLost(_) => Update(e);
      case _ =>
        if e.process < |processes| {
          Proceed(e.process, e);
        }
    }

    /** A whole run from empty caches. Whatever holds of every run of the model holds of these
        objects: their caches stay sound. */
    method Serve(events: seq<Event>)
      requires Valid() && Contents() == EMPTY
      modifies this, processes
      ensures Valid() && Contents() == Run(env, config, EMPTY, events)
      ensures InjectiveOn(env, Queries(events)) ==>
                && (forall h | h in queries ::
                      env.sha256(queries[h]) == h && Passed(env, States(processes), queries[h]))
                && (forall h, q | h in documents && q in Queries(events) && env.sha256(q) == h ::
                      ValidParse(env, q, documents[h]))
    {
      assert processes == [];
      for n := 0 to |events|
        invariant Valid() && Contents() == Run(env, config, EMPTY, events[..n])
        invariant forall i | 0 <= i < |processes| :: fresh(processes[i])
      {
        Handle(events[n]);
        assert events[..n + 1][..n] == events[..n];
      }
      assert events[..|events|] == events;
      if InjectiveOn(env, Queries(events)) {
        CachesSound(env, config, events);
      }
    }
  }

  /** A segment looks at nothing of the world but the caches. */
  lemma OnlyCachesRead(env: Env, config: Config, w: World, p: Process, e: Event)
    ensures Advance(env, config, w, p, e) == Advance(env, config, World(w.queries, w.documents, [], [], []), p, e)
  {
    hide HooksReturned, HookThrew, QueryRead, DocumentRead, Responded, Executed;
  }

  ghost function States(processes: seq<RequestPipeline>): (states: seq<Process>)
    reads processes
    ensures |states| == |processes|
    ensures forall i | 0 <= i < |processes| :: states[i] == processes[i].State()
  {
    if processes == [] then [] else States(processes[..|processes| - 1]) + [processes[|processes| - 1].State()]
  }
}
