/** `processGraphQLRequest`: concurrent requests that share the cache of persisted queries and the
    document store, each in segments that run without interruption between two awaits. */
module Pipeline {
  import opened Wrappers

  // ---------------------------------------------------------------- requests and responses

  datatype Document = Document(id: nat)

  datatype OperationKind = Query | Mutation | Subscription

  datatype Operation = Operation(kind: OperationKind, name: Option<string>)

  datatype Source = Undefined | Null | Text(text: string)

  datatype PersistedQuery = PersistedQuery(version: int, sha256Hash: string)

  /** A request, with the method of the HTTP request that it came in, if it came in one. */
  datatype Request = Request(query: Source, persistedQuery: Option<PersistedQuery>,
                             operationName: Option<string>, httpMethod: Option<string>)

  type Headers = seq<(string, string)>

  /** What is thrown or reported. JavaScript lets any value be thrown: null and undefined are
      `Nullish`, and an array is `Several`. */
  datatype Error =
    | PersistedQueryNotSupported | PersistedQueryNotFound
    | UnsupportedVersion | ShaMismatch | NoQuery
    | Syntax | Invalid(rule: nat)
    | HttpQueryError(statusCode: nat, headers: Headers) | TypeError
    | Thrown(id: nat)
    | Nullish
    | Several(errors: seq<Error>)

  datatype Http = Http(status: Option<nat>, headers: Headers)

  datatype Response = Response(data: Option<nat>, errors: Option<seq<Error>>, http: Option<Http>)

  /** What execution gives. */
  datatype Execution = Execution(data: Option<nat>, errors: Option<seq<Error>>, http: Option<Http>)

  datatype Formatted = Same | Replaced(response: Response) | FormatThrows

  /** What a call gives, or throws. */
  datatype Attempt<+T> = Made(value: T) | Threw(error: Error)

  /** The functions that the pipeline is given: they stand for one schema, one set of rules and one
      set of parse options, for the conversion and formatting of errors, which may throw, and for
      whether a list of headers can be set. */
  datatype Env = Env(
    sha256: string -> string,
    parse: string -> Option<Document>,
    validate: Document -> seq<Error>,
    getOperationAST: (Document, Option<string>) -> Option<Operation>,
    fromGraphQLError: Error -> Attempt<Error>,
    userInputError: Error -> Attempt<Error>,
    formatErrors: seq<Error> -> Attempt<seq<Error>>,
    formatResponse: (Response, Request) -> Formatted,
    headersSettable: Headers -> bool)

  datatype Config = Config(persistedQueries: bool, documentStore: bool)

  /** The hooks of plugins, as they are called. */
  datatype Hook =
    | DidResolveSource
    | ParsingDidStart | ParsingDidEnd
    | ValidationDidStart | ValidationDidEnd
    | DidResolveOperation
    | ResponseForOperation
    | ExecutionDidStart | ExecutionDidEnd
    | DidEncounterErrors
    | WillSendResponse

  /** What a request awaits. */
  datatype Stage =
    | Initializing                          // requestDidStart and the data sources
    | ReadingQuery                          // the cache of persisted queries
    | ResolvingSource
    | ReadingDocument                       // the document store
    | ParsingStarts
    | ParsingFails
    | ValidationStarts
    | ValidationEnds
    | ValidationFails(errors: seq<Error>)
    | ResolvingOperation
    | Responding
    | ExecutionStarts
    | Executing
    | ExecutionErrs(result: Execution, errors: seq<Error>)  // didEncounterErrors
    | ExecutionEnds(response: Response)
    | ExecutionFails(error: Error)          // executionDidEnd after an error
    | Erring(errors: seq<Error>)            // didEncounterErrors of sendErrorResponse
    | Sending(response: Response)           // willSendResponse
    | Answered(response: Response)
    | Rejected

  /** A request on its way: its context, the hooks called for it, and whether a hook other than
      didResolveOperation, or something else that it does not handle, has thrown. */
  datatype Process = Process(
    request: Request,
    source: string,
    queryHash: string,
    document: Option<Document>,
    operation: Option<Operation>,
    persistedQueryHit: bool,
    persistedQueryRegister: bool,
    stage: Stage,
    hooks: seq<Hook>,
    interrupted: bool)

  function NewProcess(request: Request): Process {
    Process(request, "", "", None, None, false, false, Initializing, [], false)
  }

  /** A write to one of the caches that nobody awaits. */
  datatype Register = Register(queryHash: string, query: string)
  datatype Keep = Keep(queryHash: string, document: Document)

  /** A segment: the request after it, and the writes it has set off. */
  datatype Turn = Turn(process: Process, register: Option<Register>, keep: Option<Keep>)

  function Only(p: Process): Turn {
    Turn(p, None, None)
  }

  function Invoke(p: Process, hooks: seq<Hook>, stage: Stage): Process {
    p.(hooks := p.hooks + hooks, stage := stage)
  }

  function Reject(p: Process): Process {
    p.(stage := Rejected, interrupted := true)
  }

  function SendErrorResponse(p: Process, errors: seq<Error>): Process {
    Invoke(p, [DidEncounterErrors], Erring(errors))
  }

  function SendResponse(p: Process, response: Response): Process {
    Invoke(p, [WillSendResponse], Sending(response))
  }

  /** Can the headers of the response be set? */
  predicate Settable(env: Env, response: Response) {
    response.http.Some? ==> env.headersSettable(response.http.value.headers)
  }

  /** `sendResponse`: setting the headers may throw, before willSendResponse is called. */
  function Send(env: Env, p: Process, response: Response): Process {
    if Settable(env, response) then SendResponse(p, response) else Reject(p)
  }

  /** A single error is wrapped into an array; an array that was thrown is taken as it is. */
  function Listed(error: Error): seq<Error> {
    if error.Several? then error.errors else [error]
  }

  /** Reading the message of null or undefined throws; other values may make it throw too. */
  function FromGraphQLErrors(env: Env, errors: seq<Error>): Attempt<seq<Error>> {
    if errors == [] then Made([])
    else
      match if errors[0].Nullish? then Threw(TypeError) else env.fromGraphQLError(errors[0])
      case Threw(error) => Threw(error)
      case Made(converted) =>
        match FromGraphQLErrors(env, errors[1..])
        case Threw(error) => Threw(error)
        case Made(others) => Made([converted] + others)
  }

  /** The errors of a result, those of variables as user input errors. */
  function ResultErrors(env: Env, errors: seq<Error>): Attempt<seq<Error>> {
    if errors == [] then Made([])
    else
      match if errors[0].Nullish? then Threw(TypeError) else env.userInputError(errors[0])
      case Threw(error) => Threw(error)
      case Made(converted) =>
        match ResultErrors(env, errors[1..])
        case Threw(error) => Threw(error)
        case Made(others) => Made([converted] + others)
  }

  const NO_CACHE: Headers := [("Cache-Control", "private, no-cache, must-revalidate")]
  const ALLOW_POST: Headers := [("Allow", "POST")]

  /** The response to errors, unless converting or formatting them throws. */
  function ErrorResponse(env: Env, errors: seq<Error>): Attempt<Response> {
    match FromGraphQLErrors(env, errors)
    case Threw(error) => Threw(error)
    case Made(converted) =>
      match env.formatErrors(converted)
      case Threw(error) => Threw(error)
      case Made(formatted) => Made(Response(None, Some(formatted), ErrorHttp(errors)))
  }

  function ErrorHttp(errors: seq<Error>): Option<Http> {
    if forall i | 0 <= i < |errors| :: errors[i].PersistedQueryNotSupported? || errors[i].PersistedQueryNotFound?
    then Some(Http(Some(200), NO_CACHE))
    else if |errors| == 1 && errors[0].HttpQueryError? then Some(Http(Some(errors[0].statusCode), errors[0].headers))
    else None
  }

  /** The rest of `sendErrorResponse`, after didEncounterErrors. */
  function RespondToErrors(env: Env, p: Process, errors: seq<Error>): Process {
    match ErrorResponse(env, errors)
    case Made(response) => Send(env, p, response)
    case Threw(_) => Reject(p)
  }

  // ---------------------------------------------------------------- the segments

  /** The query and its hash, or what goes wrong. */
  function Begin(env: Env, config: Config, p: Process): Process {
    match p.request.persistedQuery
    case Some(persisted) =>
      if !config.persistedQueries then SendErrorResponse(p, [PersistedQueryNotSupported])
      else if persisted.version != 1 then SendErrorResponse(p, [UnsupportedVersion])
      else (
        match p.request.query
        case Undefined => p.(queryHash := persisted.sha256Hash, stage := ReadingQuery)
        case Null => Reject(p)  // hashing it throws
        case Text(query) =>
          if persisted.sha256Hash != env.sha256(query) then SendErrorResponse(p, [ShaMismatch])
          else ResolveSource(p.(persistedQueryRegister := true), query, persisted.sha256Hash)
      )
    case None =>
      if p.request.query.Text? && p.request.query.text != ""
      then ResolveSource(p, p.request.query.text, env.sha256(p.request.query.text))
      else SendErrorResponse(p, [NoQuery])
  }

  function ResolveSource(p: Process, query: string, queryHash: string): Process {
    Invoke(p.(source := query, queryHash := queryHash), [DidResolveSource], ResolvingSource)
  }

  function QueryRead(p: Process, query: Option<string>): Process {
    if query.Some? && query.value != ""
    then ResolveSource(p.(persistedQueryHit := true), query.value, p.queryHash)
    else SendErrorResponse(p, [PersistedQueryNotFound])
  }

  function SourceResolved(config: Config, p: Process): Process {
    if config.documentStore then p.(stage := ReadingDocument) else BeginParsing(p)
  }

  function DocumentRead(env: Env, p: Process, document: Option<Document>): Process {
    if document.Some? then ResolveOperation(env, p, document.value) else BeginParsing(p)
  }

  function BeginParsing(p: Process): Process {
    Invoke(p, [ParsingDidStart], ParsingStarts)
  }

  function ParsingStarted(env: Env, p: Process): Process {
    match env.parse(p.source)
    case None => Invoke(p, [ParsingDidEnd], ParsingFails)
    case Some(document) =>
      Invoke(p.(document := Some(document)), [ParsingDidEnd, ValidationDidStart], ValidationStarts)
  }

  function ValidationStarted(env: Env, p: Process): Process
    requires p.document.Some?
  {
    var errors := env.validate(p.document.value);
    Invoke(p, [ValidationDidEnd], if errors == [] then ValidationEnds else ValidationFails(errors))
  }

  function ValidationEnded(env: Env, config: Config, p: Process): Turn
    requires p.document.Some?
  {
    Turn(ResolveOperation(env, p, p.document.value), None,
         if config.documentStore then Some(Keep(p.queryHash, p.document.value)) else None)
  }

  function ResolveOperation(env: Env, p: Process, document: Document): Process {
    var operation := env.getOperationAST(document, p.request.operationName);
    Invoke(p.(document := Some(document), operation := operation), [DidResolveOperation], ResolvingOperation)
  }

  /** The plugin that comes first in every HTTP request: its didResolveOperation hook throws if a
      GET asks for anything but a query, and also if it asks for no operation of the document. */
  function CheckOperation(request: Request, operation: Option<Operation>): Option<Error> {
    if request.httpMethod != Some("GET") then None
    else if operation.None? then Some(TypeError)
    else if operation.value.kind != Query then Some(HttpQueryError(405, ALLOW_POST))
    else None
  }

  function OperationResolved(p: Process): Turn {
    var error := CheckOperation(p.request, p.operation);
    if error.Some? then Only(SendErrorResponse(p, [error.value]))
    else
      Turn(Invoke(p, [ResponseForOperation], Responding),
           if p.persistedQueryRegister then Some(Register(p.queryHash, p.source)) else None, None)
  }

  function Responded(env: Env, p: Process, response: Option<Response>): Process {
    match response
    case Some(r) => FormatAndSend(env, p, r)
    case None => Invoke(p, [ExecutionDidStart], ExecutionStarts)
  }

  function Executed(env: Env, p: Process, result: Execution): Process {
    match result.errors
    case None => Invoke(p, [ExecutionDidEnd], ExecutionEnds(Response(result.data, None, result.http)))
    case Some(errors) =>
      match ResultErrors(env, errors)
      case Threw(error) => ExecutionThrew(p, error)
      case Made(resultErrors) => Invoke(p, [DidEncounterErrors], ExecutionErrs(result, resultErrors))
  }

  /** After didEncounterErrors has been called for the errors of a result: formatting them may
      throw, into the catch block. */
  function FormatResult(env: Env, p: Process, result: Execution, errors: seq<Error>): Process {
    match env.formatErrors(errors)
    case Made(formatted) =>
      Invoke(p, [ExecutionDidEnd], ExecutionEnds(Response(result.data, Some(formatted), result.http)))
    case Threw(error) => ExecutionThrew(p.(interrupted := true), error)
  }

  /** The catch block around execution. */
  function ExecutionThrew(p: Process, error: Error): Process {
    Invoke(p, [ExecutionDidEnd], ExecutionFails(error))
  }

  function FormatAndSend(env: Env, p: Process, response: Response): Process {
    match env.formatResponse(response, p.request)
    case Same => Send(env, p, response)
    case Replaced(other) => Send(env, p, other)
    case FormatThrows => Reject(p)
  }

  /** The segment that runs when the hooks that the request awaits have returned. */
  function HooksReturned(env: Env, config: Config, p: Process): Turn {
    match p.stage
    case Initializing => Only(Begin(env, config, p))
    case ResolvingSource => Only(SourceResolved(config, p))
    case ParsingStarts => Only(ParsingStarted(env, p))
    case ParsingFails => Only(SendErrorResponse(p, [Syntax]))
    case ValidationStarts => if p.document.Some? then Only(ValidationStarted(env, p)) else Only(p)
    case ValidationEnds => if p.document.Some? then ValidationEnded(env, config, p) else Only(p)
    case ValidationFails(errors) => Only(SendErrorResponse(p, errors))
    case ResolvingOperation => OperationResolved(p)
    case ExecutionStarts => Only(p.(stage := Executing))
    case ExecutionErrs(result, errors) => Only(FormatResult(env, p, result, errors))
    case ExecutionEnds(response) => Only(FormatAndSend(env, p, response))
    case ExecutionFails(error) => Only(SendErrorResponse(p, Listed(error)))
    case Erring(errors) => Only(RespondToErrors(env, p, errors))
    case Sending(response) => Only(p.(stage := Answered(response)))
    case _ => Only(p)
  }

  /** The segment that runs when one of those hooks has thrown, or execution, or the code that runs
      right after them: a validation rule, or what prepares the context for execution. */
  function HookThrew(p: Process, error: Error): Process {
    match p.stage
    case ReadingQuery => p
    case ReadingDocument => p
    case Answered(_) => p
    case Rejected => p
    case ResolvingOperation => SendErrorResponse(p, Listed(error))
    case Executing => ExecutionThrew(p, error)
    case ExecutionErrs(_, _) => ExecutionThrew(p.(interrupted := true), error)
    case ExecutionEnds(_) => ExecutionThrew(p.(interrupted := true), error)
    case _ => Reject(p)
  }

  // ---------------------------------------------------------------- concurrent requests

  datatype World = World(
    queries: map<string, string>,       // the cache of persisted queries
    documents: map<string, Document>,   // the document store
    registers: seq<Register>,           // the writes set off to either
    keeps: seq<Keep>,
    processes: seq<Process>)

  const EMPTY := World(map[], map[], [], [], [])

  /** What can happen next; an event that does not apply changes nothing. A write may be performed
      at any time after it was set off, or never. */
  datatype Event =
    | Arrives(request: Request)
    | HooksReturn(process: nat)
    | HookThrows(process: nat, error: Error)
    | StoreAnswers(process: nat)
    | StoreFails(process: nat)
    | PluginResponds(process: nat, response: Option<Response>)
    | Executes(process: nat, result: Execution)
    | RegisterCommits(write: nat)
    | KeepCommits(write: nat)
    | QueryLost(queryHash: string)
    | DocumentLost(queryHash: string)

  function Progress(w: World, i: nat, turn: Turn): World
    requires i < |w.processes|
  {
    w.(processes := w.processes[i := turn.process],
       registers := w.registers + (if turn.register.Some? then [turn.register.value] else []),
       keeps := w.keeps + (if turn.keep.Some? then [turn.keep.value] else []))
  }

  /** The segment that a request runs on an event. */
  function Advance(env: Env, config: Config, w: World, p: Process, e: Event): Turn {
    match e
    case HooksReturn(_) => HooksReturned(env, config, p)
    case HookThrows(_, error) => Only(HookThrew(p, error))
    case StoreAnswers(_) =>
      Only(if p.stage.ReadingQuery? then QueryRead(p, Lookup(w.queries, p.queryHash))
           else if p.stage.ReadingDocument? then DocumentRead(env, p, Lookup(w.documents, p.queryHash))
           else p)
    case StoreFails(_) =>
      Only(if p.stage.ReadingQuery? then Reject(p)
           else if p.stage.ReadingDocument? then BeginParsing(p)
           else p)
    case PluginResponds(_, response) => Only(if p.stage.Responding? then Responded(env, p, response) else p)
    case Executes(_, result) => Only(if p.stage.Executing? then Executed(env, p, result) else p)
    case _ => Only(p)
  }

  function Step(env: Env, config: Config, w: World, e: Event): World {
    match e
    case Arrives(request) => w.(processes := w.processes + [NewProcess(request)])
    case RegisterCommits(k) =>
      if k < |w.registers| then w.(queries := w.queries[w.registers[k].queryHash := w.registers[k].query]) else w
    case KeepCommits(k) =>
      if k < |w.keeps| then w.(documents := w.documents[w.keeps[k].queryHash := w.keeps[k].document]) else w
    case QueryLost(queryHash) => w.(queries := w.queries - {queryHash})
    case DocumentLost(queryHash) => w.(documents := w.documents - {queryHash})
    case _ =>
      if e.process < |w.processes|
      then Progress(w, e.process, Advance(env, config, w, w.processes[e.process], e))
      else w
  }

  function Run(env: Env, config: Config, w: World, events: seq<Event>): World
    decreases |events|
  {
    if events == [] then w
    else Step(env, config, Run(env, config, w, events[..|events| - 1]), events[|events| - 1])
  }
}
