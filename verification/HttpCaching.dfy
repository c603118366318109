/** `HTTPCache`: HTTP responses kept in the shared store, by concurrent fetches. */
module HttpCaching {
  import opened Wrappers

  type Headers = map<string, string>

  datatype Request = Request(url: string, verb: string, headers: Headers)

  datatype Response = Response(status: int, headers: Headers, body: string)

  /** A cache policy is what it was made from: a request, the head of the response and the time,
      and, for a revalidated one, the policy it replaces. The library gives it its meaning. */
  datatype Policy =
    | Made(request: Request, status: int, headers: Headers, at: real)
    | Revised(previous: Policy, request: Request, status: int, headers: Headers, at: real)

  /** The operations of the `http-cache-semantics` library. Ages are in seconds. */
  datatype Library = Library(
    age: (Policy, real) -> real,
    satisfiesWithoutRevalidation: (Policy, Request, real) -> bool,
    storable: Policy -> bool,
    timeToLive: (Policy, real) -> real,  // in milliseconds
    status: Policy -> int,
    responseHeaders: (Policy, real) -> Headers,
    revalidationHeaders: (Policy, Request) -> Headers,
    modified: (Policy, Request, Response, real) -> bool)

  /** What the store keeps under a key. */
  datatype Entry = Entry(policy: Policy, ttlOverride: Option<real>, body: string)

  /** One call of `fetch`: its cache key, its request and the `ttl` of its cache options. */
  datatype Call = Call(key: string, request: Request, ttlOf: (Response, Request) -> Option<real>)

  function KeyOf(cacheKey: Option<string>, request: Request): string {
    match cacheKey
    case Some(key) => if key == "" then request.url else key
    case None => request.url
  }

  /** JavaScript's reading of an optional number as a condition. */
  predicate Truthy(ttl: Option<real>) {
    ttl.Some? && ttl.value != 0.0
  }

  predicate Successful(status: int) {
    200 <= status <= 299
  }

  /** `Math.round`. */
  function Round(x: real): real {
    (x + 0.5).Floor as real
  }

  /** May the entry be served without asking the origin? */
  predicate Usable(lib: Library, entry: Entry, request: Request, now: real) {
    || (Truthy(entry.ttlOverride) && lib.age(entry.policy, now) < entry.ttlOverride.value)
    || (!Truthy(entry.ttlOverride) && lib.satisfiesWithoutRevalidation(entry.policy, request, now))
  }

  function Served(lib: Library, entry: Entry, now: real): Response {
    Response(lib.status(entry.policy), lib.responseHeaders(entry.policy, now), entry.body)
  }

  /** The request that is sent to the origin: conditional if there is an entry to revalidate. */
  function Outgoing(lib: Library, request: Request, basis: Option<Entry>): Request {
    if basis.None? then request
    else request.(headers := lib.revalidationHeaders(basis.value.policy, request))
  }

  /** An answer of the origin to a call that had this entry to revalidate, or none. */
  datatype Exchange = Exchange(call: Call, basis: Option<Entry>, response: Response, at: real)

  /** Did the origin send a body of its own, rather than confirm the stored one? */
  predicate Full(lib: Library, x: Exchange) {
    x.basis.Some? ==>
      lib.modified(x.basis.value.policy, Outgoing(lib, x.call.request, x.basis), x.response, x.at)
  }

  function PolicyAfter(lib: Library, x: Exchange): Policy {
    var sent := Outgoing(lib, x.call.request, x.basis);
    match x.basis
    case None => Made(sent, x.response.status, x.response.headers, x.at)
    case Some(entry) => Revised(entry.policy, sent, x.response.status, x.response.headers, x.at)
  }

  function ResponseAfter(lib: Library, x: Exchange): Response {
    match x.basis
    case None => x.response
    case Some(entry) =>
      var policy := PolicyAfter(lib, x);
      Response(lib.status(policy), lib.responseHeaders(policy, x.at),
               if Full(lib, x) then x.response.body else entry.body)
  }

  /** An entry on its way to the store, with its time to live in seconds. */
  datatype Write = Write(entry: Entry, ttl: real)

  /** How long the entry counts as fresh. */
  function Freshness(lib: Library, policy: Policy, ttlOverride: Option<real>, now: real): real {
    match ttlOverride
    case None => Round(lib.timeToLive(policy, now) / 1000.0)
    case Some(ttl) => ttl
  }

  /** May a response be stored at all? */
  predicate Admitted(lib: Library, policy: Policy, ttlOverride: Option<real>, request: Request) {
    || (Truthy(ttlOverride) && Successful(lib.status(policy)))
    || (request.verb == "GET" && lib.storable(policy))
  }

  /** What a fetch writes to the store after an exchange, if anything. */
  function WriteAfter(lib: Library, x: Exchange): Option<Write> {
    var policy, response := PolicyAfter(lib, x), ResponseAfter(lib, x);
    var ttlOverride := x.call.ttlOf(response, x.call.request);
    var freshness := Freshness(lib, policy, ttlOverride, x.at);
    if !Admitted(lib, policy, ttlOverride, x.call.request) || freshness <= 0.0 then None
    else
      var ttl := if "ETag" in response.headers then freshness * 2.0 else freshness;
      Some(Write(Entry(policy, ttlOverride, response.body), ttl))
  }

  // ---------------------------------------------------------------- one segment at a time

  /** What a fetch does next after a segment between two awaits. */
  datatype Outcome =
    | Ask(basis: Option<Entry>)                 // sends the request to the origin
    | Put(write: Write, response: Response)     // writes to the store, then answers
    | Answer(response: Response)

  /** The segment that begins when the store has answered. */
  function AfterRead(lib: Library, call: Call, found: Option<Entry>, now: real): Outcome {
    match found
    case None => Ask(None)
    case Some(entry) =>
      if Usable(lib, entry, call.request, now) then Answer(Served(lib, entry, now)) else Ask(found)
  }

  /** The segment that begins when the origin has answered. */
  function AfterExchange(lib: Library, x: Exchange): Outcome {
    match WriteAfter(lib, x)
    case None => Answer(ResponseAfter(lib, x))
    case Some(write) => Put(write, ResponseAfter(lib, x))
  }

  /** Fills an object with the headers of a message, whose names are distinct. */
  method HeadersToObject(headers: seq<(string, string)>) returns (fields: Headers)
    requires forall i, j | 0 <= i < j < |headers| :: headers[i].0 != headers[j].0
    ensures forall i | 0 <= i < |headers| :: headers[i].0 in fields && fields[headers[i].0] == headers[i].1
    ensures forall name | name in fields :: exists i :: 0 <= i < |headers| && headers[i].0 == name
  {
    fields := map[];
    for n := 0 to |headers|
      invariant forall i | 0 <= i < n :: headers[i].0 in fields && fields[headers[i].0] == headers[i].1
      invariant forall name | name in fields :: exists i :: 0 <= i < n && headers[i].0 == name
    {
      var (name, value) := headers[n];
      fields := fields[name := value];
    }
  }

  /** The segments of `fetch` as the code writes them. */
  class HTTPCache {
    const lib: Library

    constructor (lib: Library)
      ensures this.lib == lib
    {
      this.lib := lib;
    }

    /** From the answer of the store to the next await or the end. */
    method Resume(call: Call, found: Option<Entry>, now: real) returns (outcome: Outcome)
      ensures outcome == AfterRead(lib, call, found, now)
    {
      if found.None? {
        return Ask(None);
      }
      var Entry(policy, ttlOverride, body) := found.value;
      if Truthy(ttlOverride) {
        if lib.age(policy, now) < ttlOverride.value {
          return Answer(Response(lib.status(policy), lib.responseHeaders(policy, now), body));
        }
      } else if lib.satisfiesWithoutRevalidation(policy, call.request, now) {
        return Answer(Response(lib.status(policy), lib.responseHeaders(policy, now), body));
      }
      return Ask(found);
    }

    /** From the answer of the origin to the write or the end. */
    method Receive(call: Call, basis: Option<Entry>, response: Response, now: real) returns (outcome: Outcome)
      ensures outcome == AfterExchange(lib, Exchange(call, basis, response, now))
    {
      if basis.None? {
        var policy := Made(call.request, response.status, response.headers, now);
        outcome := StoreResponseAndReturnClone(response, call, policy, now);
      } else {
        var Entry(policy, _, body) := basis.value;
        var revalidationHeaders := lib.revalidationHeaders(policy, call.request);
        var revalidationRequest := call.request.(headers := revalidationHeaders);
        var revalidatedPolicy := Revised(policy, revalidationRequest, response.status, response.headers, now);
        var modified := lib.modified(policy, revalidationRequest, response, now);
        outcome := StoreResponseAndReturnClone(
          Response(lib.status(revalidatedPolicy), lib.responseHeaders(revalidatedPolicy, now),
                   if modified then response.body else body),
          call, revalidatedPolicy, now);
      }
    }

    method StoreResponseAndReturnClone(response: Response, call: Call, policy: Policy, now: real)
      returns (outcome: Outcome)
      ensures forall x: Exchange |
                && x.call == call && x.at == now && PolicyAfter(lib, x) == policy
                && ResponseAfter(lib, x) == response ::
                outcome == AfterExchange(lib, x)
    {
      var ttlOverride := call.ttlOf(response, call.request);
      if !(Truthy(ttlOverride) && lib.status(policy) >= 200 && lib.status(policy) <= 299) &&
         !(call.request.verb == "GET" && lib.storable(policy)) {
        return Answer(response);
      }
      var ttl: real;
      if ttlOverride.None? {
        ttl := Round(lib.timeToLive(policy, now) / 1000.0);
      } else {
        ttl := ttlOverride.value;
      }
      if ttl <= 0.0 {
        return Answer(response);
      }
      if "ETag" in response.headers {
        ttl := ttl * 2.0;
      }
      return Put(Write(Entry(policy, ttlOverride, response.body), ttl), response);
    }
  }

  // ---------------------------------------------------------------- concurrent fetches

  /** A stored entry is there until the given time, unless it is lost or replaced before. */
  datatype Stored = Stored(entry: Entry, until: real)

  datatype Fetch =
    | Reading(call: Call)                                    // awaits the store
    | Found(call: Call, found: Option<Entry>)                // the store has answered
    | Asking(call: Call, basis: Option<Entry>)               // awaits the origin
    | Writing(call: Call, write: Write, response: Response)  // awaits the store
    | Done(response: Response)
    | Rejected

  /** A response served without asking the origin, and how many exchanges had taken place. */
  datatype Hit = Hit(call: Call, entry: Entry, response: Response, at: real, exchanges: nat)

  /** The view of the store under the prefix of HTTP responses, the fetches, and, for the record,
      what the origin has sent and what has been served without it. */
  datatype World = World(now: real, store: map<string, Stored>, fetches: seq<Fetch>,
                         exchanges: seq<Exchange>, hits: seq<Hit>)

  const EMPTY := World(0.0, map[], [], [], [])

  /** What can happen; events that do not apply change nothing. */
  datatype Event =
    | Tick(elapsed: real)
    | Begin(request: Request, cacheKey: Option<string>, ttlOf: (Response, Request) -> Option<real>)
    | StoreAnswers(fetch: nat)
    | Resumes(fetch: nat)
    | OriginAnswers(fetch: nat, response: Response)
    | Commits(fetch: nat, known: bool)     // the store performs a write, and says so or is rejected
    | Fails(fetch: nat)                    // whatever the fetch awaits is rejected
    | Loses(key: string)                   // the store drops an entry

  /** What a read of the store finds. */
  function Lookup(w: World, key: string): Option<Entry> {
    if key in w.store && w.now < w.store[key].until then Some(w.store[key].entry) else None
  }

  function Become(w: World, i: nat, fetch: Fetch): World
    requires i < |w.fetches|
  {
    w.(fetches := w.fetches[i := fetch])
  }

  function Continue(call: Call, outcome: Outcome): Fetch {
    match outcome
    case Ask(basis) => Asking(call, basis)
    case Put(write, response) => Writing(call, write, response)
    case Answer(response) => Done(response)
  }

  function Step(lib: Library, w: World, e: Event): World {
    match e
    case Tick(elapsed) => if elapsed > 0.0 then w.(now := w.now + elapsed) else w
    case Begin(request, cacheKey, ttlOf) =>
      w.(fetches := w.fetches + [Reading(Call(KeyOf(cacheKey, request), request, ttlOf))])
    case Loses(key) => w.(store := w.store - {key})
    case StoreAnswers(i) =>
      if i < |w.fetches| && w.fetches[i].Reading? then
        Become(w, i, Found(w.fetches[i].call, Lookup(w, w.fetches[i].call.key)))
      else w
    case Resumes(i) =>
      if i < |w.fetches| && w.fetches[i].Found? then ResumeStep(lib, w, i) else w
    case OriginAnswers(i, response) =>
      if i < |w.fetches| && w.fetches[i].Asking? then OriginStep(lib, w, i, response) else w
    case Commits(i, known) =>
      if i < |w.fetches| && w.fetches[i].Writing? then CommitStep(w, i, known) else w
    case Fails(i) =>
      if i < |w.fetches| && !w.fetches[i].Done? then Become(w, i, Rejected) else w
  }

  function ResumeStep(lib: Library, w: World, i: nat): World
    requires i < |w.fetches| && w.fetches[i].Found?
  {
    var Found(call, found) := w.fetches[i];
    var outcome := AfterRead(lib, call, found, w.now);
    var next := Become(w, i, Continue(call, outcome));
    if found.Some? && outcome.Answer? then
      next.(hits := w.hits + [Hit(call, found.value, outcome.response, w.now, |w.exchanges|)])
    else next
  }

  function OriginStep(lib: Library, w: World, i: nat, response: Response): World
    requires i < |w.fetches| && w.fetches[i].Asking?
  {
    var Asking(call, basis) := w.fetches[i];
    var x := Exchange(call, basis, response, w.now);
    Become(w, i, Continue(call, AfterExchange(lib, x))).(exchanges := w.exchanges + [x])
  }

  function CommitStep(w: World, i: nat, known: bool): World
    requires i < |w.fetches| && w.fetches[i].Writing?
  {
    var Writing(call, write, response) := w.fetches[i];
    Become(w, i, if known then Done(response) else Rejected).(
      store := w.store[call.key := Stored(write.entry, w.now + write.ttl)])
  }

  function Run(lib: Library, w: World, events: seq<Event>): World
    decreases |events|
  {
    if events == [] then w else Step(lib, Run(lib, w, events[..|events| - 1]), events[|events| - 1])
  }

  // ---------------------------------------------------------------- where entries come from

  /** One of the first `n` exchanges produced the entry for the key; and if it had an entry to
      revalidate, that one came from an exchange before it. */
  ghost predicate Sourced(lib: Library, exchanges: seq<Exchange>, n: nat, key: string, entry: Entry)
    requires n <= |exchanges|
    decreases n
  {
    exists j: nat | j < n :: Produced(lib, exchanges[j], key, entry) &&
                             (exchanges[j].basis.Some? ==>
                                Sourced(lib, exchanges, j, key, exchanges[j].basis.value))
  }

  predicate Produced(lib: Library, x: Exchange, key: string, entry: Entry) {
    x.call.key == key && WriteAfter(lib, x).Some? && WriteAfter(lib, x).value.entry == entry
  }

  /** The request with the headers that make it conditional on the entry. */
  function Conditional(lib: Library, request: Request, entry: Entry): (r: Request)
    ensures r.url == request.url && r.verb == request.verb
  {
    Request(request.url, request.verb, lib.revalidationHeaders(entry.policy, request))
  }

  /** The origin confirmed the body of the entry to revalidate. */
  predicate Confirms(lib: Library, x: Exchange) {
    && x.basis.Some?
    && !lib.modified(x.basis.value.policy, Conditional(lib, x.call.request, x.basis.value), x.response, x.at)
  }

  /** The origin sent this body for the key. */
  predicate Sent(lib: Library, x: Exchange, key: string, body: string) {
    x.call.key == key && !Confirms(lib, x) && x.response.body == body
  }

  /** What the caller gets for an exchange: the response itself or, if there was an entry to
      revalidate, what its renewed policy says, with the body sent or confirmed. */
  predicate AnswersAs(lib: Library, x: Exchange, answer: Response) {
    match x.basis
    case None => answer == x.response
    case Some(entry) =>
      var policy := Revised(entry.policy, Conditional(lib, x.call.request, entry),
                            x.response.status, x.response.headers, x.at);
      && answer.status == lib.status(policy) && answer.headers == lib.responseHeaders(policy, x.at)
      && answer.body == (if Confirms(lib, x) then entry.body else x.response.body)
  }

  lemma AnsweredAs(lib: Library, x: Exchange, answer: Response)
    ensures AnswersAs(lib, x, answer) <==> answer == ResponseAfter(lib, x)
  {
  }

  lemma {:induction false} SourcedLater(lib: Library, xs: seq<Exchange>, x: Exchange, n: nat, key: string, entry: Entry)
    requires n <= |xs| && Sourced(lib, xs, n, key, entry)
    ensures Sourced(lib, xs + [x], n, key, entry)
    ensures Sourced(lib, xs + [x], |xs| + 1, key, entry)
    decreases n
  {
    var j: nat :| j < n && Produced(lib, xs[j], key, entry) &&
                  (xs[j].basis.Some? ==> Sourced(lib, xs, j, key, xs[j].basis.value));
    assert (xs + [x])[j] == xs[j];
    if xs[j].basis.Some? {
      SourcedLater(lib, xs, x, j, key, xs[j].basis.value);
    }
  }

  /** The body of a sourced entry was sent by the origin for its key. */
  lemma {:induction false} SourcedWasSent(lib: Library, xs: seq<Exchange>, n: nat, key: string, entry: Entry)
    requires n <= |xs| && Sourced(lib, xs, n, key, entry)
    ensures exists j: nat | j < n :: Sent(lib, xs[j], key, entry.body)
    decreases n
  {
    var j: nat :| j < n && Produced(lib, xs[j], key, entry) &&
                  (xs[j].basis.Some? ==> Sourced(lib, xs, j, key, xs[j].basis.value));
    if Full(lib, xs[j]) {
      assert Sent(lib, xs[j], key, entry.body);
    } else {
      SourcedWasSent(lib, xs, j, key, xs[j].basis.value);
    }
  }

  // ---------------------------------------------------------------- what every run keeps

  ghost predicate EntrySourced(lib: Library, w: World, key: string, entry: Entry) {
    Sourced(lib, w.exchanges, |w.exchanges|, key, entry)
  }

  ghost predicate FetchSound(lib: Library, w: World, fetch: Fetch) {
    match fetch
    case Found(call, Some(entry)) => EntrySourced(lib, w, call.key, entry)
    case Asking(call, Some(entry)) => EntrySourced(lib, w, call.key, entry)
    case Writing(call, write, _) => EntrySourced(lib, w, call.key, write.entry)
    case _ => true
  }

  ghost predicate HitSound(lib: Library, w: World, hit: Hit) {
    && hit.exchanges <= |w.exchanges|
    && Sourced(lib, w.exchanges, hit.exchanges, hit.call.key, hit.entry)
    && Usable(lib, hit.entry, hit.call.request, hit.at)
    && hit.response == Served(lib, hit.entry, hit.at)
  }

  ghost predicate Inv(lib: Library, w: World) {
    && (forall key | key in w.store :: EntrySourced(lib, w, key, w.store[key].entry))
    && (forall i | 0 <= i < |w.fetches| :: FetchSound(lib, w, w.fetches[i]))
    && (forall i | 0 <= i < |w.hits| :: HitSound(lib, w, w.hits[i]))
  }

  lemma StepKeepsInv(lib: Library, w: World, e: Event)
    requires Inv(lib, w)
    ensures Inv(lib, Step(lib, w, e))
  {
    hide Sourced, AfterRead, AfterExchange, ResumeStep, OriginStep, CommitStep;
    if e.OriginAnswers? && e.fetch < |w.fetches| && w.fetches[e.fetch].Asking? {
      OriginKeepsInv(lib, w, e.fetch, e.response);
    } else if e.Resumes? && e.fetch < |w.fetches| && w.fetches[e.fetch].Found? {
      ResumeKeepsInv(lib, w, e.fetch);
    } else if e.Commits? && e.fetch < |w.fetches| && w.fetches[e.fetch].Writing? {
      CommitKeepsInv(lib, w, e.fetch, e.known);
    }
  }

  lemma ResumeKeepsInv(lib: Library, w: World, i: nat)
    requires Inv(lib, w) && i < |w.fetches| && w.fetches[i].Found?
    ensures Inv(lib, ResumeStep(lib, w, i))
  {
    hide Sourced, Usable, Served;
    assert FetchSound(lib, w, w.fetches[i]);
  }

  lemma CommitKeepsInv(lib: Library, w: World, i: nat, known: bool)
    requires Inv(lib, w) && i < |w.fetches| && w.fetches[i].Writing?
    ensures Inv(lib, CommitStep(w, i, known))
  {
    hide Sourced, HitSound;
    assert FetchSound(lib, w, w.fetches[i]);
    HitsStay(lib, w, CommitStep(w, i, known));
  }

  lemma HitsStay(lib: Library, w: World, next: World)
    requires w.exchanges == next.exchanges
    ensures forall hit | HitSound(lib, w, hit) :: HitSound(lib, next, hit)
  {
    hide Sourced;
  }

  lemma OriginKeepsInv(lib: Library, w: World, i: nat, response: Response)
    requires Inv(lib, w) && i < |w.fetches| && w.fetches[i].Asking?
    ensures Inv(lib, OriginStep(lib, w, i, response))
  {
    var next := OriginStep(lib, w, i, response);
    var Asking(call, basis) := w.fetches[i];
    var x := Exchange(call, basis, response, w.now);
    var n := |w.exchanges|;
    assert next.exchanges == w.exchanges + [x] && next.exchanges[n] == x;
    forall m: nat, key, entry | m <= n && Sourced(lib, w.exchanges, m, key, entry)
      ensures Sourced(lib, next.exchanges, m, key, entry) && EntrySourced(lib, next, key, entry)
    {
      SourcedLater(lib, w.exchanges, x, m, key, entry);
    }
    if WriteAfter(lib, x).Some? {
      var entry := WriteAfter(lib, x).value.entry;
      assert FetchSound(lib, w, w.fetches[i]);
      assert Produced(lib, next.exchanges[n], call.key, entry);
      assert Sourced(lib, next.exchanges, n + 1, call.key, entry);
    }
    forall k | 0 <= k < |next.fetches|
      ensures FetchSound(lib, next, next.fetches[k])
    {
      if k != i {
        assert FetchSound(lib, w, w.fetches[k]);
      }
    }
    forall k | 0 <= k < |next.hits|
      ensures HitSound(lib, next, next.hits[k])
    {
      assert HitSound(lib, w, w.hits[k]);
    }
  }

  lemma {:induction false} RunKeepsInv(lib: Library, events: seq<Event>)
    ensures Inv(lib, Run(lib, EMPTY, events))
    decreases |events|
  {
    if events != [] {
      RunKeepsInv(lib, events[..|events| - 1]);
      StepKeepsInv(lib, Run(lib, EMPTY, events[..|events| - 1]), events[|events| - 1]);
    }
  }

  /** A body served without asking the origin is one the origin sent before, for the same key. */
  lemma HitsWereSent(lib: Library, events: seq<Event>, k: nat)
    requires k < |Run(lib, EMPTY, events).hits|
    ensures var w := Run(lib, EMPTY, events); var hit := w.hits[k];
            && hit.exchanges <= |w.exchanges|
            && exists j: nat | j < hit.exchanges :: Sent(lib, w.exchanges[j], hit.call.key, hit.response.body)
  {
    RunKeepsInv(lib, events);
    var w := Run(lib, EMPTY, events);
    assert HitSound(lib, w, w.hits[k]);
    SourcedWasSent(lib, w.exchanges, w.hits[k].exchanges, w.hits[k].call.key, w.hits[k].entry);
  }

  /** The `j`-th exchange was for the key and gave the entry its policy, made from the request it
      sent and the response it got and, if it had an entry to revalidate, replacing that one's
      policy; and it gave the entry the body the origin sent or, if the origin answered that nothing
      was modified, the body of that entry, which came from an exchange before it. */
  ghost predicate CameFrom(lib: Library, exchanges: seq<Exchange>, j: nat, key: string, entry: Entry)
    requires j < |exchanges|
  {
    var x := exchanges[j];
    && x.call.key == key
    && (match x.basis
        case None =>
          entry.policy == Made(x.call.request, x.response.status, x.response.headers, x.at)
        case Some(basis) =>
          && entry.policy == Revised(basis.policy, Conditional(lib, x.call.request, basis),
                                     x.response.status, x.response.headers, x.at)
          && Sourced(lib, exchanges, j, key, basis))
    && entry.body == if Confirms(lib, x) then x.basis.value.body else x.response.body
  }

  /** The entry has the override that the exchange's call asked for, and one that may be kept: a
      positive one, if there is one, beside a status from 200 to 299, or beside the answer to a GET
      that HTTP lets a cache store. */
  ghost predicate KeptRightly(lib: Library, x: Exchange, entry: Entry) {
    && (forall answer | AnswersAs(lib, x, answer) :: entry.ttlOverride == x.call.ttlOf(answer, x.call.request))
    && (entry.ttlOverride.Some? ==> entry.ttlOverride.value > 0.0)
    && ((entry.ttlOverride.Some? && 200 <= lib.status(entry.policy) <= 299) ||
        (x.call.request.verb == "GET" && lib.storable(entry.policy)))
  }

  lemma SourcedCameFrom(lib: Library, xs: seq<Exchange>, n: nat, key: string, entry: Entry)
    requires n <= |xs| && Sourced(lib, xs, n, key, entry)
    ensures exists j: nat | j < n :: CameFrom(lib, xs, j, key, entry) && KeptRightly(lib, xs[j], entry)
  {
    var j: nat :| j < n && Produced(lib, xs[j], key, entry) &&
                  (xs[j].basis.Some? ==> Sourced(lib, xs, j, key, xs[j].basis.value));
    assert CameFrom(lib, xs, j, key, entry);
    assert KeptRightly(lib, xs[j], entry) by {
      forall answer
        ensures AnswersAs(lib, xs[j], answer) <==> answer == ResponseAfter(lib, xs[j])
      {
        AnsweredAs(lib, xs[j], answer);
      }
    }
  }

  /** Every entry in the store came from one exchange for its key, and was rightly kept. */
  lemma StoredCameFrom(lib: Library, events: seq<Event>, key: string)
    requires key in Run(lib, EMPTY, events).store
    ensures var w := Run(lib, EMPTY, events); var entry := w.store[key].entry;
            exists j: nat | j < |w.exchanges| ::
              CameFrom(lib, w.exchanges, j, key, entry) && KeptRightly(lib, w.exchanges[j], entry)
  {
    RunKeepsInv(lib, events);
    var w := Run(lib, EMPTY, events);
    SourcedCameFrom(lib, w.exchanges, |w.exchanges|, key, w.store[key].entry);
  }

  /** So did every entry that was served without asking the origin, from an exchange before. */
  lemma HitsCameFrom(lib: Library, events: seq<Event>, k: nat)
    requires k < |Run(lib, EMPTY, events).hits|
    ensures var w := Run(lib, EMPTY, events); var hit := w.hits[k];
            && hit.exchanges <= |w.exchanges| && hit.response.body == hit.entry.body
            && exists j: nat | j < hit.exchanges ::
                 CameFrom(lib, w.exchanges, j, hit.call.key, hit.entry) && KeptRightly(lib, w.exchanges[j], hit.entry)
  {
    RunKeepsInv(lib, events);
    var w := Run(lib, EMPTY, events);
    assert HitSound(lib, w, w.hits[k]);
    SourcedCameFrom(lib, w.exchanges, w.hits[k].exchanges, w.hits[k].call.key, w.hits[k].entry);
  }

  /** A policy is at least as old as the response it was last made from: the resident time of
      section 4.2.3 of RFC 7234. */
  ghost predicate AgesWithTime(lib: Library) {
    forall policy, now :: lib.age(policy, now) >= now - policy.at
  }

  /** An entry is served under its override only while its age is below it, so that the origin sent
      or confirmed its body less than that long ago. */
  lemma HitsUnderOverride(lib: Library, events: seq<Event>, k: nat)
    requires AgesWithTime(lib)
    requires k < |Run(lib, EMPTY, events).hits| && Run(lib, EMPTY, events).hits[k].entry.ttlOverride.Some?
    ensures var w := Run(lib, EMPTY, events); var hit := w.hits[k]; var ttl := hit.entry.ttlOverride.value;
            && ttl > 0.0 && lib.age(hit.entry.policy, hit.at) < ttl
            && hit.exchanges <= |w.exchanges| && hit.response.body == hit.entry.body
            && exists j: nat | j < hit.exchanges ::
                 CameFrom(lib, w.exchanges, j, hit.call.key, hit.entry) && hit.at - w.exchanges[j].at < ttl
  {
    RunKeepsInv(lib, events);
    var w := Run(lib, EMPTY, events);
    var hit := w.hits[k];
    assert HitSound(lib, w, hit);
    SourcedCameFrom(lib, w.exchanges, hit.exchanges, hit.call.key, hit.entry);
    var j: nat :| j < hit.exchanges && CameFrom(lib, w.exchanges, j, hit.call.key, hit.entry) &&
                  KeptRightly(lib, w.exchanges[j], hit.entry);
    assert w.exchanges[j].at == hit.entry.policy.at;
  }

  // ---------------------------------------------------------------- how long entries last

  /** The event neither writes the key nor loses it. */
  predicate Spares(w: World, e: Event, key: string) {
    && e != Loses(key)
    && (e.Commits? && e.fetch < |w.fetches| && w.fetches[e.fetch].Writing? ==> w.fetches[e.fetch].call.key != key)
  }

  predicate RunSpares(lib: Library, w: World, events: seq<Event>, key: string)
    decreases |events|
  {
    events != [] ==>
      var before := events[..|events| - 1];
      RunSpares(lib, w, before, key) && Spares(Run(lib, w, before), events[|events| - 1], key)
  }

  lemma {:induction false} SparedStays(lib: Library, w: World, events: seq<Event>, key: string)
    requires RunSpares(lib, w, events, key) && key in w.store
    ensures key in Run(lib, w, events).store && Run(lib, w, events).store[key] == w.store[key]
    decreases |events|
  {
    if events != [] {
      SparedStays(lib, w, events[..|events| - 1], key);
    }
  }

  /** How long, in seconds, an entry counts as fresh: its override or, without one, what HTTP grants
      it, rounded to the nearest whole number. */
  predicate CountsAsFresh(lib: Library, policy: Policy, ttlOverride: Option<real>, now: real, seconds: real) {
    match ttlOverride
    case Some(ttl) => seconds == ttl
    case None =>
      && seconds == seconds.Floor as real
      && seconds - 0.5 <= lib.timeToLive(policy, now) / 1000.0 < seconds + 0.5
  }

  lemma FreshnessCounts(lib: Library, policy: Policy, ttlOverride: Option<real>, now: real)
    ensures CountsAsFresh(lib, policy, ttlOverride, now, Freshness(lib, policy, ttlOverride, now))
  {
  }

  /** A written entry is found by every fetch of its key that reads the store while the entry counts
      as fresh, and for twice as long if it carries an ETag to revalidate it by, and by none after
      that, as long as nothing else writes or drops its key. */
  lemma EntryLasts(lib: Library, w: World, i: nat, known: bool, x: Exchange, events: seq<Event>, j: nat)
    returns (freshness: real)
    requires i < |w.fetches| && w.fetches[i].Writing?
    requires w.fetches[i] == Continue(x.call, AfterExchange(lib, x))
    requires RunSpares(lib, Step(lib, w, Commits(i, known)), events, x.call.key)
    ensures var Writing(_, write, response) := w.fetches[i];
            var later := Run(lib, Step(lib, w, Commits(i, known)), events);
            && AnswersAs(lib, x, response)
            && write.entry.ttlOverride == x.call.ttlOf(response, x.call.request)
            && CountsAsFresh(lib, write.entry.policy, write.entry.ttlOverride, x.at, freshness)
            && freshness > 0.0
            && (j < |later.fetches| && later.fetches[j].Reading? && later.fetches[j].call.key == x.call.key ==>
                  Step(lib, later, StoreAnswers(j)).fetches[j] ==
                  Found(later.fetches[j].call,
                        if later.now - w.now < (if "ETag" in response.headers then freshness + freshness else freshness)
                        then Some(write.entry) else None))
  {
    var policy, response := PolicyAfter(lib, x), ResponseAfter(lib, x);
    freshness := Freshness(lib, policy, x.call.ttlOf(response, x.call.request), x.at);
    FreshnessCounts(lib, policy, x.call.ttlOf(response, x.call.request), x.at);
    AnsweredAs(lib, x, response);
    SparedStays(lib, Step(lib, w, Commits(i, known)), events, x.call.key);
  }
}
