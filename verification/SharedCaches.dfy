/** What every run of the pipeline keeps about its two caches. Each of the two invariants needs the
    other: a document found under a hash is the document of the query found under it only because
    both stand under the hash of their query. */
module SharedCaches {
  import opened Wrappers
  import opened Pipeline

  /** The queries that requests have brought. */
  function Queries(events: seq<Event>): set<string> {
    set e | e in events && e.Arrives? && e.request.query.Text? :: e.request.query.text
  }

  ghost predicate InjectiveOn(env: Env, queries: set<string>) {
    forall q, r | q in queries && r in queries && env.sha256(q) == env.sha256(r) :: q == r
  }

  /** The document is the valid parse of the query. */
  predicate ValidParse(env: Env, query: string, document: Document) {
    env.parse(query) == Some(document) && env.validate(document) == []
  }

  /** The query has parsed, validated and passed didResolveOperation in some request. */
  predicate Passed(env: Env, processes: seq<Process>, query: string) {
    exists i | 0 <= i < |processes| ::
      && processes[i].source == query && ResponseForOperation in processes[i].hooks
      && processes[i].document.Some? && ValidParse(env, query, processes[i].document.value)
  }

  predicate QuerySound(env: Env, seen: set<string>, processes: seq<Process>, queryHash: string, query: string) {
    query in seen && env.sha256(query) == queryHash && Passed(env, processes, query)
  }

  ghost predicate DocumentSound(env: Env, seen: set<string>, queryHash: string, document: Document) {
    exists query :: query in seen && env.sha256(query) == queryHash && ValidParse(env, query, document)
  }

  /** How far a request is. */
  predicate Sourced(s: Stage) {
    && !s.Initializing? && !s.ReadingQuery? && !s.Erring? && !s.Sending? && !s.Answered? && !s.Rejected?
  }

  predicate Checked(s: Stage) {
    || s.ValidationEnds? || s.ResolvingOperation? || s.Responding? || s.ExecutionStarts? || s.Executing?
    || s.ExecutionErrs? || s.ExecutionEnds? || s.ExecutionFails?
  }

  predicate ProcessSound(env: Env, seen: set<string>, p: Process) {
    && (p.request.query.Text? ==> p.request.query.text in seen)
    && (Sourced(p.stage) ==> p.source in seen && env.sha256(p.source) == p.queryHash)
    && (p.stage.ParsingStarts? || p.stage.ReadingDocument? ==> p.document == None)
    && (p.stage.ValidationStarts? ==> p.document.Some? && env.parse(p.source) == p.document)
    && (Checked(p.stage) ==> p.document.Some? && ValidParse(env, p.source, p.document.value))
    && (ResponseForOperation in p.hooks ==> p.document.Some? && ValidParse(env, p.source, p.document.value))
    && (p.stage.Initializing? || p.stage.ReadingQuery? || p.stage.ResolvingSource? ==>
          p.document == None && ResponseForOperation !in p.hooks)
    && (p.stage.ReadingDocument? || p.stage.ParsingStarts? || p.stage.ValidationStarts? ==>
          ResponseForOperation !in p.hooks)
  }

  ghost predicate Sound(env: Env, seen: set<string>, w: World) {
    && (forall h | h in w.queries :: QuerySound(env, seen, w.processes, h, w.queries[h]))
    && (forall h | h in w.documents :: DocumentSound(env, seen, h, w.documents[h]))
    && (forall k | 0 <= k < |w.registers| ::
          QuerySound(env, seen, w.processes, w.registers[k].queryHash, w.registers[k].query))
    && (forall k | 0 <= k < |w.keeps| ::
          DocumentSound(env, seen, w.keeps[k].queryHash, w.keeps[k].document))
    && (forall i | 0 <= i < |w.processes| :: ProcessSound(env, seen, w.processes[i]))
  }

  /** A segment keeps the request sound, sets off only sound writes, and takes back no approval. */
  ghost predicate TurnSound(env: Env, seen: set<string>, p: Process, turn: Turn) {
    && ProcessSound(env, seen, turn.process)
    && (turn.register.Some? ==>
          var register := turn.register.value;
          && register.query in seen && env.sha256(register.query) == register.queryHash
          && Passed(env, [turn.process], register.query))
    && (turn.keep.Some? ==> DocumentSound(env, seen, turn.keep.value.queryHash, turn.keep.value.document))
    && (ResponseForOperation in p.hooks ==>
          ResponseForOperation in turn.process.hooks && turn.process.source == p.source &&
          turn.process.document == p.document)
  }

  /** A stage at which nothing is said of the document any more. */
  predicate Closing(s: Stage) {
    s.ParsingFails? || s.ValidationFails? || s.Erring? || s.Sending? || s.Answered? || s.Rejected?
  }

  lemma InvokeSound(env: Env, seen: set<string>, p: Process, hooks: seq<Hook>, stage: Stage)
    requires ProcessSound(env, seen, p) && ResponseForOperation !in hooks
    requires Sourced(stage) ==> Sourced(p.stage)
    requires Checked(stage) ==> Checked(p.stage)
    requires Closing(stage) || Checked(stage)
    ensures TurnSound(env, seen, p, Only(Invoke(p, hooks, stage)))
    ensures TurnSound(env, seen, p, Only(Invoke(p.(interrupted := true), hooks, stage)))
  {
    assert forall h :: h in p.hooks + hooks <==> h in p.hooks || h in hooks;
  }

  lemma EndSound(env: Env, seen: set<string>, p: Process, errors: seq<Error>, response: Response)
    requires ProcessSound(env, seen, p)
    ensures TurnSound(env, seen, p, Only(SendErrorResponse(p, errors)))
    ensures TurnSound(env, seen, p, Only(Send(env, p, response)))
    ensures TurnSound(env, seen, p, Only(Reject(p)))
  {
    InvokeSound(env, seen, p, [DidEncounterErrors], Erring(errors));
    InvokeSound(env, seen, p, [WillSendResponse], Sending(response));
    assert p.hooks + [] == p.hooks;
    InvokeSound(env, seen, p, [], Rejected);
    hide Invoke;
  }

  lemma RespondSound(env: Env, seen: set<string>, p: Process, errors: seq<Error>)
    requires ProcessSound(env, seen, p)
    ensures TurnSound(env, seen, p, Only(RespondToErrors(env, p, errors)))
  {
    var response := ErrorResponse(env, errors);
    EndSound(env, seen, p, [], if response.Made? then response.value else Response(None, None, None));
    hide ErrorResponse, Send, Reject;
  }

  lemma BeginSound(env: Env, config: Config, seen: set<string>, p: Process)
    requires ProcessSound(env, seen, p) && p.stage.Initializing?
    ensures TurnSound(env, seen, p, Only(Begin(env, config, p)))
  {
    hide SendErrorResponse, Reject;
    forall errors
      ensures TurnSound(env, seen, p, Only(SendErrorResponse(p, errors)))
    {
      EndSound(env, seen, p, errors, Response(None, None, None));
    }
    EndSound(env, seen, p, [], Response(None, None, None));
  }

  lemma ParsingSound(env: Env, config: Config, seen: set<string>, p: Process)
    requires ProcessSound(env, seen, p) && (p.stage.ResolvingSource? || p.stage.ParsingStarts?)
    ensures TurnSound(env, seen, p, HooksReturned(env, config, p))
  {
    if p.stage.ParsingStarts? && env.parse(p.source).None? {
      InvokeSound(env, seen, p, [ParsingDidEnd], ParsingFails);
    }
  }

  lemma ResolveOperationSound(env: Env, seen: set<string>, p: Process, document: Document)
    requires ProcessSound(env, seen, p) && Sourced(p.stage) && ValidParse(env, p.source, document)
    requires ResponseForOperation in p.hooks ==> p.document == Some(document)
    ensures TurnSound(env, seen, p, Only(ResolveOperation(env, p, document)))
  {
  }

  lemma ValidationSound(env: Env, config: Config, seen: set<string>, p: Process)
    requires ProcessSound(env, seen, p) && (p.stage.ValidationStarts? || p.stage.ValidationEnds?)
    ensures TurnSound(env, seen, p, HooksReturned(env, config, p))
  {
    if p.stage.ValidationEnds? {
      ResolveOperationSound(env, seen, p, p.document.value);
    }
  }

  lemma OperationSound(env: Env, seen: set<string>, p: Process)
    requires ProcessSound(env, seen, p) && p.stage.ResolvingOperation?
    ensures TurnSound(env, seen, p, OperationResolved(p))
  {
    var error := CheckOperation(p.request, p.operation);
    if error.Some? {
      EndSound(env, seen, p, [error.value], Response(None, None, None));
    } else {
      var next := Invoke(p, [ResponseForOperation], Responding);
      assert next.hooks[|p.hooks|] == ResponseForOperation;
      assert [next][0] == next;
    }
  }

  lemma FormatSound(env: Env, seen: set<string>, p: Process, response: Response)
    requires ProcessSound(env, seen, p)
    ensures TurnSound(env, seen, p, Only(FormatAndSend(env, p, response)))
  {
    var formatted := env.formatResponse(response, p.request);
    EndSound(env, seen, p, [], if formatted.Replaced? then formatted.response else response);
    hide Send, Reject;
  }

  lemma ExecutionSound(env: Env, config: Config, seen: set<string>, p: Process)
    requires ProcessSound(env, seen, p)
    requires p.stage.ExecutionStarts? || p.stage.ExecutionErrs? || p.stage.ExecutionEnds?
    ensures TurnSound(env, seen, p, HooksReturned(env, config, p))
  {
    hide TurnSound, ProcessSound;
    match p.stage
    case ExecutionStarts =>
      assert p.hooks + [] == p.hooks;
      InvokeSound(env, seen, p, [], Executing);
    case ExecutionErrs(result, errors) => FormatResultSound(env, seen, p, result, errors);
    case ExecutionEnds(response) => FormatSound(env, seen, p, response);
    case _ =>
  }

  lemma FormatResultSound(env: Env, seen: set<string>, p: Process, result: Execution, errors: seq<Error>)
    requires ProcessSound(env, seen, p) && Checked(p.stage)
    ensures TurnSound(env, seen, p, Only(FormatResult(env, p, result, errors)))
  {
    match env.formatErrors(errors)
    case Made(formatted) =>
      InvokeSound(env, seen, p, [ExecutionDidEnd], ExecutionEnds(Response(result.data, Some(formatted), result.http)));
    case Threw(error) => InvokeSound(env, seen, p, [ExecutionDidEnd], ExecutionFails(error));
  }

  lemma ExecutedSound(env: Env, seen: set<string>, p: Process, result: Execution)
    requires ProcessSound(env, seen, p) && Checked(p.stage)
    ensures TurnSound(env, seen, p, Only(Executed(env, p, result)))
  {
    match result.errors
    case None => InvokeSound(env, seen, p, [ExecutionDidEnd], ExecutionEnds(Response(result.data, None, result.http)));
    case Some(errors) =>
      match ResultErrors(env, errors) {
        case Threw(error) => InvokeSound(env, seen, p, [ExecutionDidEnd], ExecutionFails(error));
        case Made(converted) => InvokeSound(env, seen, p, [DidEncounterErrors], ExecutionErrs(result, converted));
      }
  }

  lemma HooksReturnedSound(env: Env, config: Config, seen: set<string>, p: Process)
    requires ProcessSound(env, seen, p)
    ensures TurnSound(env, seen, p, HooksReturned(env, config, p))
  {
    var none := Response(None, None, None);
    match p.stage
    case Initializing => BeginSound(env, config, seen, p);
    case ResolvingSource => ParsingSound(env, config, seen, p);
    case ParsingStarts => ParsingSound(env, config, seen, p);
    case ParsingFails => EndSound(env, seen, p, [Syntax], none);
    case ValidationStarts => ValidationSound(env, config, seen, p);
    case ValidationEnds => ValidationSound(env, config, seen, p);
    case ValidationFails(errors) => EndSound(env, seen, p, errors, none);
    case ResolvingOperation => OperationSound(env, seen, p);
    case ExecutionStarts => ExecutionSound(env, config, seen, p);
    case ExecutionErrs(_, _) => ExecutionSound(env, config, seen, p);
    case ExecutionEnds(_) => ExecutionSound(env, config, seen, p);
    case ExecutionFails(error) => EndSound(env, seen, p, Listed(error), none);
    case Erring(errors) => RespondSound(env, seen, p, errors);
    case Sending(response) =>
      assert p.hooks + [] == p.hooks;
      InvokeSound(env, seen, p, [], Answered(response));
    case _ =>
  }

  lemma HookThrewSound(env: Env, seen: set<string>, p: Process, error: Error)
    requires ProcessSound(env, seen, p)
    ensures TurnSound(env, seen, p, Only(HookThrew(p, error)))
  {
    EndSound(env, seen, p, Listed(error), Response(None, None, None));
    if Checked(p.stage) {
      InvokeSound(env, seen, p, [ExecutionDidEnd], ExecutionFails(error));
    }
    hide SendErrorResponse, Reject, Invoke;
  }

  lemma QueryReadSound(env: Env, seen: set<string>, p: Process, query: Option<string>)
    requires ProcessSound(env, seen, p) && p.stage.ReadingQuery?
    requires query.Some? ==> query.value in seen && env.sha256(query.value) == p.queryHash
    ensures TurnSound(env, seen, p, Only(QueryRead(p, query)))
  {
    EndSound(env, seen, p, [PersistedQueryNotFound], Response(None, None, None));
    hide SendErrorResponse;
  }

  lemma DocumentReadSound(env: Env, seen: set<string>, p: Process, document: Option<Document>)
    requires ProcessSound(env, seen, p) && p.stage.ReadingDocument?
    requires document.Some? ==> ValidParse(env, p.source, document.value)
    ensures TurnSound(env, seen, p, Only(DocumentRead(env, p, document)))
  {
    if document.Some? {
      ResolveOperationSound(env, seen, p, document.value);
    }
  }

  /** What the two caches answer is what the request would have worked out for itself. */
  lemma StoreAnswersSound(env: Env, config: Config, seen: set<string>, w: World, p: Process, i: nat)
    requires InjectiveOn(env, seen) && Sound(env, seen, w) && ProcessSound(env, seen, p)
    ensures TurnSound(env, seen, p, Advance(env, config, w, p, StoreAnswers(i)))
    ensures p.stage.ReadingDocument? && p.queryHash in w.documents ==>
              ValidParse(env, p.source, w.documents[p.queryHash])
  {
    if p.stage.ReadingDocument? {
      if p.queryHash in w.documents {
        assert DocumentSound(env, seen, p.queryHash, w.documents[p.queryHash]);
      }
      DocumentReadSound(env, seen, p, Lookup(w.documents, p.queryHash));
    } else if p.stage.ReadingQuery? {
      assert p.queryHash in w.queries ==> QuerySound(env, seen, w.processes, p.queryHash, w.queries[p.queryHash]);
      QueryReadSound(env, seen, p, Lookup(w.queries, p.queryHash));
    }
    hide DocumentRead, QueryRead;
  }

  lemma AdvanceSound(env: Env, config: Config, seen: set<string>, w: World, p: Process, e: Event)
    requires InjectiveOn(env, seen) && Sound(env, seen, w) && ProcessSound(env, seen, p)
    ensures TurnSound(env, seen, p, Advance(env, config, w, p, e))
  {
    hide HooksReturned, HookThrew, FormatAndSend, Executed, BeginParsing, Sound, InjectiveOn;
    match e
    case HooksReturn(_) => HooksReturnedSound(env, config, seen, p);
    case HookThrows(_, error) => HookThrewSound(env, seen, p, error);
    case StoreAnswers(i) => StoreAnswersSound(env, config, seen, w, p, i);
    case StoreFails(_) =>
      EndSound(env, seen, p, [], Response(None, None, None));
      if p.stage.ReadingDocument? {
        DocumentReadSound(env, seen, p, None);
      }
    case PluginResponds(_, Some(response)) => FormatSound(env, seen, p, response);
    case PluginResponds(_, None) =>
      if p.stage.Responding? {
        InvokeSound(env, seen, p, [ExecutionDidStart], ExecutionStarts);
      }
    case Executes(_, result) =>
      if p.stage.Executing? {
        ExecutedSound(env, seen, p, result);
      }
    case _ =>
  }

  lemma PassedStays(env: Env, ps: seq<Process>, i: nat, p: Process, query: string)
    requires i < |ps| && Passed(env, ps, query)
    requires ResponseForOperation in ps[i].hooks ==>
               ResponseForOperation in p.hooks && p.source == ps[i].source && p.document == ps[i].document
    ensures Passed(env, ps[i := p], query)
  {
    var j :| 0 <= j < |ps| && ps[j].source == query && ResponseForOperation in ps[j].hooks &&
             ps[j].document.Some? && ValidParse(env, query, ps[j].document.value);
    assert ps[i := p][j] == if j == i then p else ps[j];
  }

  lemma ProgressSound(env: Env, seen: set<string>, w: World, i: nat, turn: Turn)
    requires Sound(env, seen, w) && i < |w.processes| && TurnSound(env, seen, w.processes[i], turn)
    ensures Sound(env, seen, Progress(w, i, turn))
  {
    var next := Progress(w, i, turn);
    forall query | Passed(env, w.processes, query)
      ensures Passed(env, next.processes, query)
    {
      PassedStays(env, w.processes, i, turn.process, query);
    }
    if turn.register.Some? {
      assert next.processes[i] == turn.process;
      assert Passed(env, next.processes, turn.register.value.query);
    }
    hide Passed, ProcessSound, DocumentSound;
  }

  lemma ArrivalSound(env: Env, seen: set<string>, w: World, request: Request)
    requires Sound(env, seen, w)
    requires request.query.Text? ==> request.query.text in seen
    ensures Sound(env, seen, w.(processes := w.processes + [NewProcess(request)]))
  {
    var processes := w.processes + [NewProcess(request)];
    forall query | Passed(env, w.processes, query)
      ensures Passed(env, processes, query)
    {
      var j :| 0 <= j < |w.processes| && w.processes[j].source == query &&
               ResponseForOperation in w.processes[j].hooks && w.processes[j].document.Some? &&
               ValidParse(env, query, w.processes[j].document.value);
      assert processes[j] == w.processes[j];
    }
    hide Passed, DocumentSound;
  }

  lemma StoreStepSound(env: Env, config: Config, seen: set<string>, w: World, e: Event)
    requires Sound(env, seen, w)
    requires e.RegisterCommits? || e.KeepCommits? || e.QueryLost? || e.DocumentLost?
    ensures Sound(env, seen, Step(env, config, w, e))
  {
    hide Passed, ProcessSound, DocumentSound, Advance;
  }

  lemma StepSound(env: Env, config: Config, seen: set<string>, w: World, e: Event)
    requires InjectiveOn(env, seen) && Sound(env, seen, w)
    requires e.Arrives? && e.request.query.Text? ==> e.request.query.text in seen
    ensures Sound(env, seen, Step(env, config, w, e))
  {
    match e
    case Arrives(request) => ArrivalSound(env, seen, w, request);
    case RegisterCommits(_) => StoreStepSound(env, config, seen, w, e);
    case KeepCommits(_) => StoreStepSound(env, config, seen, w, e);
    case QueryLost(_) => StoreStepSound(env, config, seen, w, e);
    case DocumentLost(_) => StoreStepSound(env, config, seen, w, e);
    case _ =>
      if e.process < |w.processes| {
        hide TurnSound, Sound, Advance;
        assert ProcessSound(env, seen, w.processes[e.process]) by {
          SoundProcess(env, seen, w, e.process);
        }
        AdvanceSound(env, config, seen, w, w.processes[e.process], e);
        ProgressSound(env, seen, w, e.process, Advance(env, config, w, w.processes[e.process], e));
      }
  }

  lemma SoundProcess(env: Env, seen: set<string>, w: World, i: nat)
    requires Sound(env, seen, w) && i < |w.processes|
    ensures ProcessSound(env, seen, w.processes[i])
  {
  }

  lemma {:induction false} RunSoundWithin(env: Env, config: Config, seen: set<string>, events: seq<Event>)
    requires InjectiveOn(env, seen) && Queries(events) <= seen
    ensures Sound(env, seen, Run(env, config, EMPTY, events))
    decreases |events|
  {
    if events != [] {
      var before, last := events[..|events| - 1], events[|events| - 1];
      assert forall e | e in before :: e in events;
      assert Queries(before) <= Queries(events);
      assert last in events;
      RunSoundWithin(env, config, seen, before);
      StepSound(env, config, seen, Run(env, config, EMPTY, before), last);
    }
  }

  /** In every interleaving of requests with delayed, lost or failing writes: what stands in the
      cache of persisted queries under a hash is a query with that hash that has parsed, validated
      and passed didResolveOperation; what stands in the document store under a hash is the valid
      parse of every query with that hash; and a request goes on from validation only with the
      valid parse of its own query, wherever it has it from. */
  lemma CachesSound(env: Env, config: Config, events: seq<Event>)
    requires InjectiveOn(env, Queries(events))
    ensures var w := Run(env, config, EMPTY, events); var seen := Queries(events);
            && (forall h | h in w.queries ::
                  env.sha256(w.queries[h]) == h && Passed(env, w.processes, w.queries[h]))
            && (forall h | h in w.documents ::
                  (exists q :: q in seen && env.sha256(q) == h) &&
                  (forall q | q in seen && env.sha256(q) == h :: ValidParse(env, q, w.documents[h])))
            && (forall i | 0 <= i < |w.processes| && Checked(w.processes[i].stage) ::
                  w.processes[i].document.Some? &&
                  ValidParse(env, w.processes[i].source, w.processes[i].document.value))
  {
    var seen := Queries(events);
    RunSoundWithin(env, config, seen, events);
    var w := Run(env, config, EMPTY, events);
    forall h | h in w.queries
      ensures env.sha256(w.queries[h]) == h && Passed(env, w.processes, w.queries[h])
    {
      assert QuerySound(env, seen, w.processes, h, w.queries[h]);
    }
    forall h, q | h in w.documents && q in seen && env.sha256(q) == h
      ensures ValidParse(env, q, w.documents[h])
    {
      assert DocumentSound(env, seen, h, w.documents[h]);
    }
    forall h | h in w.documents
      ensures exists q :: q in seen && env.sha256(q) == h
    {
      assert DocumentSound(env, seen, h, w.documents[h]);
    }
    forall i | 0 <= i < |w.processes| && Checked(w.processes[i].stage)
      ensures w.processes[i].document.Some? && ValidParse(env, w.processes[i].source, w.processes[i].document.value)
    {
      assert ProcessSound(env, seen, w.processes[i]);
    }
  }
}
