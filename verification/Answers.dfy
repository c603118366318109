/** What requests are answered with, and what they are executed with, said by the events of the run. */
module Answers {
  import opened Wrappers
  import opened Pipeline
  import opened HookGrammar

  /** The `i`-th request, in a run of these events. */
  datatype History = History(env: Env, config: Config, events: seq<Event>, i: nat, request: Request)

  function After(h: History, e: Event): History {
    h.(events := h.events + [e])
  }

  function WorldAt(h: History, k: nat): World
    requires k <= |h.events|
  {
    Run(h.env, h.config, EMPTY, h.events[..k])
  }

  /** The `k`-th event found the request at this stage. */
  predicate Found(h: History, k: nat, e: Event, stage: Stage) {
    && k < |h.events| && h.events[k] == e
    && h.i < |WorldAt(h, k).processes| && WorldAt(h, k).processes[h.i].stage == stage
  }

  // ---------------------------------------------------------------- what happened to the request

  ghost predicate WasExecuted(h: History, result: Execution) {
    exists k: nat :: Found(h, k, Executes(h.i, result), Stage.Executing)
  }

  ghost predicate PluginGave(h: History, response: Response) {
    exists k: nat :: Found(h, k, PluginResponds(h.i, Some(response)), Responding)
  }

  /** A hook, or execution, threw this inside one of the two try blocks. */
  ghost predicate Caught(h: History, error: Error) {
    exists k: nat, stage: Stage ::
      && Found(h, k, HookThrows(h.i, error), stage)
      && (stage.ResolvingOperation? || stage.Executing? || stage.ExecutionErrs? || stage.ExecutionEnds?)
  }

  /** The read of the cache of persisted queries found this under the request's hash. */
  ghost predicate ReadGave(h: History, stored: Option<string>) {
    exists k: nat ::
      && Found(h, k, StoreAnswers(h.i), ReadingQuery) && h.request.persistedQuery.Some?
      && stored == Lookup(WorldAt(h, k).queries, h.request.persistedQuery.value.sha256Hash)
  }

  // ---------------------------------------------------------------- the query, document and operation

  predicate Supported(h: History) {
    h.config.persistedQueries && h.request.persistedQuery.Some? && h.request.persistedQuery.value.version == 1
  }

  /** The query is the request's own, with the hash that it brought, if any; or the one stored under
      the hash that it brought instead. */
  ghost predicate SourceIs(h: History, query: string) {
    if h.request.query == Text(query)
    then (h.request.persistedQuery.None? && query != "") ||
         (Supported(h) && h.env.sha256(query) == h.request.persistedQuery.value.sha256Hash)
    else Supported(h) && h.request.query == Undefined && query != "" && ReadGave(h, Some(query))
  }

  function HashOf(h: History, query: string): string {
    if h.request.persistedQuery.Some? then h.request.persistedQuery.value.sha256Hash else h.env.sha256(query)
  }

  /** The document is the valid parse of the query, or was found in the document store under its
      hash. */
  ghost predicate DocumentIs(h: History, query: string, document: Document) {
    || (h.env.parse(query) == Some(document) && h.env.validate(document) == [])
    || (exists k: nat :: Found(h, k, StoreAnswers(h.i), ReadingDocument) &&
                         Lookup(WorldAt(h, k).documents, HashOf(h, query)) == Some(document))
  }

  // ---------------------------------------------------------------- errors

  /** Every error is converted, none being null or undefined. */
  predicate Converts(convert: Error -> Attempt<Error>, errors: seq<Error>, converted: seq<Error>) {
    && |converted| == |errors|
    && forall j | 0 <= j < |errors| :: !errors[j].Nullish? && convert(errors[j]) == Made(converted[j])
  }

  /** The result's errors could not be reported, because converting one threw this, or formatting
      them did. */
  ghost predicate ReportingThrew(h: History, error: Error) {
    exists result ::
      && WasExecuted(h, result) && result.errors.Some?
      && ((exists j | 0 <= j < |result.errors.value| ::
             if result.errors.value[j].Nullish? then error == TypeError
             else h.env.userInputError(result.errors.value[j]) == Threw(error)) ||
          (exists converted ::
             && Converts(h.env.userInputError, result.errors.value, converted)
             && h.env.formatErrors(converted) == Threw(error)))
  }

  /** A GET that asks for no operation, or for one that is not a query. */
  ghost predicate GetRefused(h: History, errors: seq<Error>) {
    exists query, document ::
      && SourceIs(h, query) && DocumentIs(h, query, document) && h.request.httpMethod == Some("GET")
      && match h.env.getOperationAST(document, h.request.operationName)
         case None => errors == [TypeError]
         case Some(operation) => operation.kind != Query && errors == [HttpQueryError(405, [("Allow", "POST")])]
  }

  /** Why a request is answered with these errors. */
  ghost predicate Caused(h: History, errors: seq<Error>) {
    || (errors == [PersistedQueryNotSupported] && h.request.persistedQuery.Some? && !h.config.persistedQueries)
    || (errors == [UnsupportedVersion] && h.request.persistedQuery.Some? && h.config.persistedQueries &&
        h.request.persistedQuery.value.version != 1)
    || (errors == [ShaMismatch] && Supported(h) && h.request.query.Text? &&
        h.env.sha256(h.request.query.text) != h.request.persistedQuery.value.sha256Hash)
    || (errors == [PersistedQueryNotFound] && Supported(h) && h.request.query == Undefined &&
        (ReadGave(h, None) || ReadGave(h, Some(""))))
    || (errors == [NoQuery] && h.request.persistedQuery.None? &&
        (!h.request.query.Text? || h.request.query.text == ""))
    || (errors == [Syntax] && exists query :: SourceIs(h, query) && h.env.parse(query) == None)
    || (errors != [] && exists query :: SourceIs(h, query) && h.env.parse(query).Some? &&
                                        h.env.validate(h.env.parse(query).value) == errors)
    || GetRefused(h, errors)
    || (exists error :: (Caught(h, error) || ReportingThrew(h, error)) &&
                        errors == if error.Several? then error.errors else [error])
  }

  // ---------------------------------------------------------------- answers

  /** The response to a result: its data and extensions of the HTTP response, and its errors converted
      and formatted, if it has any. */
  ghost predicate AnswersResult(h: History, result: Execution, response: Response) {
    && response.data == result.data && response.http == result.http
    && match result.errors
       case None => response.errors == None
       case Some(errors) =>
         exists converted ::
           Converts(h.env.userInputError, errors, converted) && response.errors.Some? &&
           h.env.formatErrors(converted) == Made(response.errors.value)
  }

  /** The response to errors: they are converted and formatted; persisted queries that are not
      supported or not found give the status 200 and are not to be cached, and a single error with a
      status of its own gives that. */
  ghost predicate AnswersErrors(h: History, errors: seq<Error>, response: Response) {
    && response.data == None
    && (exists converted ::
          Converts(h.env.fromGraphQLError, errors, converted) && response.errors.Some? &&
          h.env.formatErrors(converted) == Made(response.errors.value))
    && response.http ==
       if forall error | error in errors :: error.PersistedQueryNotSupported? || error.PersistedQueryNotFound?
       then Some(Http(Some(200), [("Cache-Control", "private, no-cache, must-revalidate")]))
       else if |errors| == 1 && errors[0].HttpQueryError? then Some(Http(Some(errors[0].statusCode), errors[0].headers))
       else None
  }

  /** What execution came to, or a plugin gave instead. */
  ghost predicate Resulted(h: History, made: Response) {
    PluginGave(h, made) || exists result :: WasExecuted(h, result) && AnswersResult(h, result, made)
  }

  /** Where a response comes from: it is the one to the result, or the plugin's, unless formatResponse
      has replaced it; or the one to errors that the request has run into. */
  ghost predicate ComesFrom(h: History, response: Response) {
    || (exists made :: Resulted(h, made) &&
                       (h.env.formatResponse(made, h.request) == Replaced(response) ||
                        (h.env.formatResponse(made, h.request) == Same && made == response)))
    || (exists errors :: Caused(h, errors) && AnswersErrors(h, errors, response))
  }

  // ---------------------------------------------------------------- what every stage knows

  ghost predicate SourceRight(h: History, p: Process) {
    && SourceIs(h, p.source) && p.queryHash == HashOf(h, p.source)
    && (p.persistedQueryHit <==> h.request.query == Undefined)
    && (p.persistedQueryRegister <==> h.request.persistedQuery.Some? && h.request.query != Undefined)
  }

  ghost predicate OperationRight(h: History, p: Process) {
    && SourceRight(h, p) && p.document.Some? && DocumentIs(h, p.source, p.document.value)
    && p.operation == h.env.getOperationAST(p.document.value, h.request.operationName)
  }

  ghost predicate Traced(h: History, p: Process) {
    && p.request == h.request
    && match p.stage
       case Initializing => !p.persistedQueryHit && !p.persistedQueryRegister
       case ReadingQuery =>
         && Supported(h) && h.request.query == Undefined && p.queryHash == h.request.persistedQuery.value.sha256Hash
         && !p.persistedQueryHit && !p.persistedQueryRegister
       case ResolvingSource => SourceRight(h, p)
       case ReadingDocument => SourceRight(h, p)
       case ParsingStarts => SourceRight(h, p)
       case ParsingFails => SourceRight(h, p) && h.env.parse(p.source) == None
       case ValidationStarts => SourceRight(h, p) && p.document.Some? && h.env.parse(p.source) == p.document
       case ValidationEnds =>
         && SourceRight(h, p) && p.document.Some? && h.env.parse(p.source) == p.document
         && h.env.validate(p.document.value) == []
       case ValidationFails(errors) =>
         && SourceRight(h, p) && p.document.Some? && h.env.parse(p.source) == p.document
         && h.env.validate(p.document.value) == errors && errors != []
       case ResolvingOperation => OperationRight(h, p)
       case Responding => OperationRight(h, p)
       case ExecutionStarts => OperationRight(h, p)
       case Executing => OperationRight(h, p)
       case ExecutionErrs(result, errors) =>
         && WasExecuted(h, result) && result.errors.Some?
         && Converts(h.env.userInputError, result.errors.value, errors)
       case ExecutionEnds(response) => exists result :: WasExecuted(h, result) && AnswersResult(h, result, response)
       case ExecutionFails(error) => Caught(h, error) || ReportingThrew(h, error)
       case Erring(errors) => Caused(h, errors)
       case Sending(response) => ComesFrom(h, response)
       case Answered(response) => ComesFrom(h, response)
       case Rejected => true
  }

  // ---------------------------------------------------------------- events only add

  lemma FoundLater(h: History, k: nat, e: Event, stage: Stage, more: Event)
    requires Found(h, k, e, stage)
    ensures Found(After(h, more), k, e, stage) && WorldAt(After(h, more), k) == WorldAt(h, k)
  {
    assert After(h, more).events[..k] == h.events[..k];
  }

  lemma NowFound(h: History, e: Event, p: Process)
    requires h.i < |WorldAt(h, |h.events|).processes| && WorldAt(h, |h.events|).processes[h.i] == p
    ensures Found(After(h, e), |h.events|, e, p.stage) && WorldAt(After(h, e), |h.events|) == WorldAt(h, |h.events|)
  {
    assert After(h, e).events[..|h.events|] == h.events[..|h.events|];
  }

  lemma HappenedLater(h: History, more: Event)
    ensures forall result | WasExecuted(h, result) :: WasExecuted(After(h, more), result)
    ensures forall response | PluginGave(h, response) :: PluginGave(After(h, more), response)
    ensures forall error | Caught(h, error) :: Caught(After(h, more), error)
    ensures forall stored | ReadGave(h, stored) :: ReadGave(After(h, more), stored)
    ensures forall query, document | DocumentIs(h, query, document) :: DocumentIs(After(h, more), query, document)
  {
    forall k: nat, e, stage | Found(h, k, e, stage)
      ensures Found(After(h, more), k, e, stage) && WorldAt(After(h, more), k) == WorldAt(h, k)
    {
      FoundLater(h, k, e, stage, more);
    }
    hide Found, WorldAt;
  }

  lemma SourcesLater(h: History, more: Event)
    ensures forall query | SourceIs(h, query) :: SourceIs(After(h, more), query)
    ensures forall errors | GetRefused(h, errors) :: GetRefused(After(h, more), errors)
    ensures forall error | ReportingThrew(h, error) :: ReportingThrew(After(h, more), error)
  {
    HappenedLater(h, more);
    hide WasExecuted, PluginGave, Caught, ReadGave, DocumentIs, Converts;
  }

  lemma CausesLater(h: History, more: Event)
    ensures forall errors | Caused(h, errors) :: Caused(After(h, more), errors)
    ensures forall response | ComesFrom(h, response) :: ComesFrom(After(h, more), response)
  {
    HappenedLater(h, more);
    SourcesLater(h, more);
    hide WasExecuted, PluginGave, Caught, ReadGave, DocumentIs, SourceIs, GetRefused, ReportingThrew;
    forall errors | Caused(h, errors)
      ensures Caused(After(h, more), errors)
    {
    }
    hide Caused;
    var next := After(h, more);
    assert forall result, response :: AnswersResult(h, result, response) <==> AnswersResult(next, result, response);
    assert forall errors, response :: AnswersErrors(h, errors, response) <==> AnswersErrors(next, errors, response);
    hide AnswersResult, AnswersErrors;
  }

  lemma TracedLater(h: History, p: Process, more: Event)
    requires Traced(h, p)
    ensures Traced(After(h, more), p)
  {
    HappenedLater(h, more);
    SourcesLater(h, more);
    CausesLater(h, more);
    hide WasExecuted, PluginGave, Caught, ReadGave, DocumentIs, SourceIs, GetRefused, ReportingThrew, Caused, ComesFrom,
         Converts;
  }

  // ---------------------------------------------------------------- segment by segment

  lemma ErringTraced(h: History, p: Process, errors: seq<Error>)
    requires p.request == h.request && Caused(h, errors)
    ensures Traced(h, SendErrorResponse(p, errors))
  {
    hide Caused;
  }

  lemma ResolveTraced(h: History, p: Process, query: string, queryHash: string)
    requires p.request == h.request && SourceIs(h, query) && queryHash == HashOf(h, query)
    requires p.persistedQueryHit <==> h.request.query == Undefined
    requires p.persistedQueryRegister <==> h.request.persistedQuery.Some? && h.request.query != Undefined
    ensures Traced(h, ResolveSource(p, query, queryHash))
  {
    hide SourceIs;
  }

  lemma BeginTraced(h: History, p: Process)
    requires Traced(h, p) && p.stage.Initializing?
    ensures Traced(h, Begin(h.env, h.config, p))
  {
    hide ReadGave, ReportingThrew, Caught, GetRefused, Caused, SourceIs, Traced;
    var request := h.request;
    assert p.request == request && !p.persistedQueryHit && !p.persistedQueryRegister by {
      InitialTraced(h, p);
    }
    BeginCauses(h);
    match request.persistedQuery
    case Some(persisted) =>
      if !h.config.persistedQueries {
        ErringTraced(h, p, [PersistedQueryNotSupported]);
      } else if persisted.version != 1 {
        ErringTraced(h, p, [UnsupportedVersion]);
      } else {
        match request.query
        case Undefined => ReadingTraced(h, p);
        case Null => RejectTraced(h, p);
        case Text(query) =>
          if persisted.sha256Hash != h.env.sha256(query) {
            ErringTraced(h, p, [ShaMismatch]);
          } else {
            ResolveTraced(h, p.(persistedQueryRegister := true), query, persisted.sha256Hash);
          }
      }
    case None =>
      if request.query.Text? && request.query.text != "" {
        ResolveTraced(h, p, request.query.text, h.env.sha256(request.query.text));
      } else {
        ErringTraced(h, p, [NoQuery]);
      }
  }

  lemma InitialTraced(h: History, p: Process)
    requires Traced(h, p)
    ensures p.request == h.request
    ensures p.stage.Initializing? || p.stage.ReadingQuery? ==> !p.persistedQueryHit && !p.persistedQueryRegister
  {
  }

  lemma RejectTraced(h: History, p: Process)
    requires p.request == h.request
    ensures Traced(h, Reject(p))
  {
  }

  lemma ReadingTraced(h: History, p: Process)
    requires p.request == h.request && Supported(h) && h.request.query == Undefined
    requires !p.persistedQueryHit && !p.persistedQueryRegister
    ensures Traced(h, p.(queryHash := h.request.persistedQuery.value.sha256Hash, stage := ReadingQuery))
  {
  }

  lemma BeginCauses(h: History)
    ensures var r := h.request;
            if r.persistedQuery.None? then
              if r.query.Text? && r.query.text != "" then SourceIs(h, r.query.text) else Caused(h, [NoQuery])
            else if !h.config.persistedQueries then Caused(h, [PersistedQueryNotSupported])
            else if r.persistedQuery.value.version != 1 then Caused(h, [UnsupportedVersion])
            else
              r.query.Text? ==>
                if r.persistedQuery.value.sha256Hash != h.env.sha256(r.query.text) then Caused(h, [ShaMismatch])
                else SourceIs(h, r.query.text)
  {
    hide ReadGave, ReportingThrew, Caught, GetRefused;
  }

  lemma QueryReadTraced(h: History, p: Process, stored: Option<string>)
    requires Traced(h, p) && p.stage.ReadingQuery? && ReadGave(h, stored)
    ensures Traced(h, QueryRead(p, stored))
  {
    hide ReadGave, ReportingThrew, Caught, GetRefused;
    if stored.Some? && stored.value != "" {
      ResolveTraced(h, p.(persistedQueryHit := true), stored.value, p.queryHash);
    } else {
      assert Caused(h, [PersistedQueryNotFound]);
      ErringTraced(h, p, [PersistedQueryNotFound]);
    }
    hide Traced, Caused, SourceIs;
  }

  lemma ResolveOperationTraced(h: History, p: Process, document: Document)
    requires p.request == h.request && SourceRight(h, p) && DocumentIs(h, p.source, document)
    ensures Traced(h, ResolveOperation(h.env, p, document))
  {
    hide DocumentIs, SourceIs;
  }

  /** The segments of parsing and validation. */
  lemma CheckingTraced(h: History, p: Process)
    requires Traced(h, p)
    requires p.stage.ResolvingSource? || p.stage.ReadingDocument? || p.stage.ParsingStarts? || p.stage.ParsingFails? ||
             p.stage.ValidationStarts? || p.stage.ValidationEnds? || p.stage.ValidationFails?
    ensures Traced(h, HooksReturned(h.env, h.config, p).process)
    ensures p.stage.ReadingDocument? ==> Traced(h, BeginParsing(p))
  {
    hide SourceIs, ReadGave, ReportingThrew, Caught, GetRefused;
    match p.stage
    case ParsingFails => ErringTraced(h, p, [Syntax]);
    case ValidationFails(errors) => ErringTraced(h, p, errors);
    case ValidationEnds => ResolveOperationTraced(h, p, p.document.value);
    case _ =>
  }

  lemma OperationResolvedTraced(h: History, p: Process)
    requires Traced(h, p) && p.stage.ResolvingOperation?
    ensures Traced(h, OperationResolved(p).process)
  {
    hide SourceIs, DocumentIs, ReadGave, ReportingThrew, Caught;
    var error := CheckOperation(p.request, p.operation);
    if error.Some? {
      assert GetRefused(h, [error.value]);
      ErringTraced(h, p, [error.value]);
    }
  }

  lemma CaughtTraced(h: History, p: Process, error: Error)
    requires p.request == h.request && (Caught(h, error) || ReportingThrew(h, error))
    ensures Traced(h, SendErrorResponse(p, Listed(error)))
    ensures Traced(h, ExecutionThrew(p, error)) && Traced(h, ExecutionThrew(p.(interrupted := true), error))
  {
    hide SourceIs, ReadGave, ReportingThrew, Caught, GetRefused;
    ErringTraced(h, p, Listed(error));
  }

  // ---------------------------------------------------------------- execution

  lemma {:induction false} ConvertedAre(env: Env, errors: seq<Error>)
    ensures match FromGraphQLErrors(env, errors)
            case Made(converted) => Converts(env.fromGraphQLError, errors, converted)
            case Threw(_) => true
  {
    if errors != [] {
      ConvertedAre(env, errors[1..]);
    }
  }

  lemma {:induction false} ResultErrorsAre(env: Env, errors: seq<Error>)
    ensures match ResultErrors(env, errors)
            case Made(converted) => Converts(env.userInputError, errors, converted)
            case Threw(error) =>
              exists j | 0 <= j < |errors| ::
                if errors[j].Nullish? then error == TypeError else env.userInputError(errors[j]) == Threw(error)
  {
    if errors != [] {
      ResultErrorsAre(env, errors[1..]);
      if ResultErrors(env, errors).Threw? && !errors[0].Nullish? && env.userInputError(errors[0]).Made? {
        var error := ResultErrors(env, errors).error;
        var j :| 0 <= j < |errors[1..]| && if errors[1..][j].Nullish? then error == TypeError
                                           else env.userInputError(errors[1..][j]) == Threw(error);
        assert errors[j + 1] == errors[1..][j];
      }
    }
  }

  lemma ExecutedTraced(h: History, p: Process, result: Execution)
    requires p.request == h.request && WasExecuted(h, result)
    ensures Traced(h, Executed(h.env, p, result))
  {
    hide WasExecuted, Converts, ResultErrors, Caught;
    match result.errors
    case None => assert AnswersResult(h, result, Response(result.data, None, result.http));
    case Some(errors) =>
      ResultErrorsAre(h.env, errors);
      match ResultErrors(h.env, errors)
      case Threw(error) =>
        assert ReportingThrew(h, error);
        CaughtTraced(h, p, error);
      case Made(_) =>
  }

  lemma FormatResultTraced(h: History, p: Process)
    requires Traced(h, p) && p.stage.ExecutionErrs?
    ensures Traced(h, FormatResult(h.env, p, p.stage.result, p.stage.errors))
  {
    hide WasExecuted, Converts, Caught;
    var ExecutionErrs(result, errors) := p.stage;
    match h.env.formatErrors(errors)
    case Made(formatted) => assert AnswersResult(h, result, Response(result.data, Some(formatted), result.http));
    case Threw(error) =>
      assert ReportingThrew(h, error);
      CaughtTraced(h, p, error);
  }

  // ---------------------------------------------------------------- sending

  lemma SendTraced(h: History, p: Process, response: Response)
    requires p.request == h.request && ComesFrom(h, response)
    ensures Traced(h, Send(h.env, p, response))
  {
    RejectTraced(h, p);
    hide ComesFrom, Settable;
  }

  lemma FormattedTraced(h: History, p: Process, made: Response)
    requires p.request == h.request && Resulted(h, made)
    ensures Traced(h, FormatAndSend(h.env, p, made))
  {
    hide Resulted, Caused, AnswersErrors, Send, Traced;
    match h.env.formatResponse(made, p.request)
    case Same => SendTraced(h, p, made);
    case Replaced(other) => SendTraced(h, p, other);
    case FormatThrows => RejectTraced(h, p);
  }

  lemma ErrorResponseAnswers(h: History, errors: seq<Error>)
    ensures match ErrorResponse(h.env, errors)
            case Made(response) => AnswersErrors(h, errors, response)
            case Threw(_) => true
  {
    ConvertedAre(h.env, errors);
    hide Converts, FromGraphQLErrors;
    assert forall i | 0 <= i < |errors| :: errors[i] in errors;
  }

  lemma ErrorsTraced(h: History, p: Process, errors: seq<Error>)
    requires p.request == h.request && Caused(h, errors)
    ensures Traced(h, RespondToErrors(h.env, p, errors))
  {
    ErrorResponseAnswers(h, errors);
    hide Caused, AnswersErrors, ErrorResponse, Resulted, Send, Traced;
    match ErrorResponse(h.env, errors)
    case Made(response) => SendTraced(h, p, response);
    case Threw(_) => RejectTraced(h, p);
  }

  // ---------------------------------------------------------------- whole runs

  /** The hooks that the request awaits have returned. */
  lemma ReturnedTraced(h: History, p: Process)
    requires Traced(h, p)
    ensures Traced(h, HooksReturned(h.env, h.config, p).process)
  {
    hide Caused, ComesFrom, SourceRight, OperationRight, AnswersResult, WasExecuted, Caught, ReportingThrew, Converts;
    match p.stage
    case Initializing => BeginTraced(h, p);
    case ResolvingOperation => OperationResolvedTraced(h, p);
    case ExecutionErrs(_, _) => FormatResultTraced(h, p);
    case ExecutionEnds(response) => FormattedTraced(h, p, response);
    case ExecutionFails(error) => CaughtTraced(h, p, error);
    case Erring(errors) => ErrorsTraced(h, p, errors);
    case ExecutionStarts => StageTraced(h, p);
    case Sending(_) => StageTraced(h, p);
    case _ =>
      if p.stage.ResolvingSource? || p.stage.ParsingStarts? || p.stage.ParsingFails? || p.stage.ValidationStarts? ||
         p.stage.ValidationEnds? || p.stage.ValidationFails? {
        CheckingTraced(h, p);
      }
      hide Traced;
  }

  lemma StageTraced(h: History, p: Process)
    requires Traced(h, p)
    ensures p.stage.ExecutionStarts? ==> Traced(h, p.(stage := Stage.Executing))
    ensures p.stage.Sending? ==> Traced(h, p.(stage := Answered(p.stage.response)))
  {
    hide ComesFrom, SourceIs, DocumentIs;
  }

  /** The event is the last one of the history, and found the request like this. */
  predicate Now(h: History, w: World, p: Process, e: Event) {
    && h.events != [] && w == WorldAt(h, |h.events| - 1)
    && h.i < |w.processes| && w.processes[h.i] == p && Found(h, |h.events| - 1, e, p.stage)
  }

  lemma ThrewTraced(h: History, w: World, p: Process, error: Error)
    requires Traced(h, p) && Now(h, w, p, HookThrows(h.i, error))
    ensures Traced(h, HookThrew(p, error))
  {
    hide Found, WorldAt, Traced, ComesFrom, Caused;
    InitialTraced(h, p);
    if p.stage.ResolvingOperation? || p.stage.Executing? || p.stage.ExecutionErrs? || p.stage.ExecutionEnds? {
      assert Caught(h, error);
      CaughtTraced(h, p, error);
    } else {
      RejectTraced(h, p);
    }
  }

  lemma ReadTraced(h: History, w: World, p: Process)
    requires Traced(h, p) && Now(h, w, p, StoreAnswers(h.i))
    ensures p.stage.ReadingQuery? ==> Traced(h, QueryRead(p, Lookup(w.queries, p.queryHash)))
    ensures p.stage.ReadingDocument? ==> Traced(h, DocumentRead(h.env, p, Lookup(w.documents, p.queryHash)))
  {
    hide Found, WorldAt, SourceIs;
    if p.stage.ReadingQuery? {
      assert ReadGave(h, Lookup(w.queries, p.queryHash));
      QueryReadTraced(h, p, Lookup(w.queries, p.queryHash));
    } else if p.stage.ReadingDocument? {
      CheckingTraced(h, p);
      if Lookup(w.documents, p.queryHash).Some? {
        ResolveOperationTraced(h, p, Lookup(w.documents, p.queryHash).value);
      }
    }
    hide Traced;
  }

  lemma RespondedTraced(h: History, w: World, p: Process, response: Option<Response>)
    requires Traced(h, p) && p.stage.Responding? && Now(h, w, p, PluginResponds(h.i, response))
    ensures Traced(h, Responded(h.env, p, response))
  {
    hide Found, WorldAt, SourceIs, DocumentIs, WasExecuted, AnswersResult;
    if response.Some? {
      assert PluginGave(h, response.value);
      FormattedTraced(h, p, response.value);
    }
    hide Caused, ComesFrom;
  }

  lemma AdvanceTraced(h: History, w: World, p: Process, e: Event)
    requires Traced(h, p) && Now(h, w, p, e) && Concerns(e, h.i)
    ensures Traced(h, Advance(h.env, h.config, w, p, e).process)
  {
    hide HooksReturned, QueryRead, DocumentRead, HookThrew, Responded, Executed;
    match e
    case HooksReturn(_) =>
      hide Traced;
      ReturnedTraced(h, p);
    case HookThrows(_, error) =>
      hide Traced;
      ThrewTraced(h, w, p, error);
    case StoreAnswers(_) =>
      hide Traced;
      ReadTraced(h, w, p);
    case StoreFails(_) => FailedTraced(h, p);
    case PluginResponds(_, response) =>
      hide Traced;
      if p.stage.Responding? {
        RespondedTraced(h, w, p, response);
      }
    case Executes(_, result) =>
      if p.stage.Executing? {
        NowExecuted(h, w, p, result);
        InitialTraced(h, p);
        hide Traced;
        ExecutedTraced(h, p, result);
      }
    case _ =>
  }

  lemma FailedTraced(h: History, p: Process)
    requires Traced(h, p)
    ensures p.stage.ReadingQuery? ==> Traced(h, Reject(p))
    ensures p.stage.ReadingDocument? ==> Traced(h, BeginParsing(p))
  {
    hide SourceIs;
    if p.stage.ReadingDocument? {
      CheckingTraced(h, p);
    }
    hide SourceRight;
  }

  lemma NowExecuted(h: History, w: World, p: Process, result: Execution)
    requires p.stage.Executing? && Now(h, w, p, Executes(h.i, result))
    ensures WasExecuted(h, result)
  {
    hide Found;
  }

  lemma {:induction false} RunTraced(h: History)
    requires h.i < |WorldAt(h, |h.events|).processes|
    ensures WorldAt(h, |h.events|).processes[h.i].request == h.request ==>
              Traced(h, WorldAt(h, |h.events|).processes[h.i])
    decreases |h.events|
  {
    hide Traced, Advance, Step;
    assert h.events[..|h.events|] == h.events;
    if h.events != [] {
      var e := h.events[|h.events| - 1];
      var before := h.(events := h.events[..|h.events| - 1]);
      assert before.events[..|before.events|] == before.events && After(before, e) == h;
      var w := Run(h.env, h.config, EMPTY, before.events);
      StepAt(h.env, h.config, w, e, h.i);
      if h.i < |w.processes| {
        var p := w.processes[h.i];
        RequestStays(h.env, h.config, w, p, e);
        if p.request == h.request {
          RunTraced(before);
          TracedLater(before, p, e);
          NowFound(before, e, p);
          if Concerns(e, h.i) {
            AdvanceTraced(h, w, p, e);
          }
        }
      } else {
        NewTraced(h, e.request);
      }
    }
  }

  lemma RequestStays(env: Env, config: Config, w: World, p: Process, e: Event)
    ensures Advance(env, config, w, p, e).process.request == p.request
  {
    hide HooksReturned, ErrorResponse, ResultErrors, Settable;
    if e.HooksReturn? {
      ReturnedRequestStays(env, config, p);
    }
  }

  lemma ReturnedRequestStays(env: Env, config: Config, p: Process)
    ensures HooksReturned(env, config, p).process.request == p.request
  {
    hide Begin, FormatAndSend, RespondToErrors, FormatResult;
    match p.stage
    case Initializing => BeginRequestStays(env, config, p);
    case ExecutionEnds(response) => EndRequestStays(env, p, [], response);
    case Erring(errors) => EndRequestStays(env, p, errors, Response(None, None, None));
    case ExecutionErrs(result, errors) => FormatRequestStays(env, p, result, errors);
    case _ =>
  }

  lemma BeginRequestStays(env: Env, config: Config, p: Process)
    ensures Begin(env, config, p).request == p.request
  {
  }

  lemma EndRequestStays(env: Env, p: Process, errors: seq<Error>, response: Response)
    ensures RespondToErrors(env, p, errors).request == p.request
    ensures FormatAndSend(env, p, response).request == p.request
  {
    hide ErrorResponse, Settable;
  }

  lemma FormatRequestStays(env: Env, p: Process, result: Execution, errors: seq<Error>)
    ensures FormatResult(env, p, result, errors).request == p.request
  {
  }

  lemma NewTraced(h: History, request: Request)
    ensures request == h.request ==> Traced(h, NewProcess(request))
  {
  }

  function HistoryOf(env: Env, config: Config, events: seq<Event>, i: nat): History
    requires i < |Run(env, config, EMPTY, events).processes|
  {
    History(env, config, events, i, Run(env, config, EMPTY, events).processes[i].request)
  }

  /** In every run, every response that a request is answered with comes from what was executed for it,
      from a plugin, or from an error that it has run into. */
  lemma AnswersComeFrom(env: Env, config: Config, events: seq<Event>, i: nat)
    requires i < |Run(env, config, EMPTY, events).processes|
    requires Run(env, config, EMPTY, events).processes[i].stage.Answered?
    ensures ComesFrom(HistoryOf(env, config, events, i), Run(env, config, EMPTY, events).processes[i].stage.response)
  {
    var h := HistoryOf(env, config, events, i);
    assert events[..|events|] == events;
    RunTraced(h);
    hide Run, ComesFrom;
  }

  /** In every run, from the time when its operation is resolved to its execution, a request has the
      query, the document, the operation and the marks for metrics that it should have. */
  lemma ExecutesOwnOperation(env: Env, config: Config, events: seq<Event>, i: nat)
    requires i < |Run(env, config, EMPTY, events).processes|
    requires var stage := Run(env, config, EMPTY, events).processes[i].stage;
             stage.ResolvingOperation? || stage.Responding? || stage.Executing?
    ensures var h, p := HistoryOf(env, config, events, i), Run(env, config, EMPTY, events).processes[i];
            && SourceIs(h, p.source) && p.queryHash == HashOf(h, p.source)
            && p.document.Some? && DocumentIs(h, p.source, p.document.value)
            && p.operation == env.getOperationAST(p.document.value, p.request.operationName)
            && (p.persistedQueryHit <==> p.request.query == Undefined)
            && (p.persistedQueryRegister <==> p.request.persistedQuery.Some? && p.request.query != Undefined)
  {
    var h := HistoryOf(env, config, events, i);
    assert events[..|events|] == events;
    RunTraced(h);
    hide Run, SourceIs, DocumentIs;
  }
}
