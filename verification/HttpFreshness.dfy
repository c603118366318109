/** When the HTTP cache asks the origin, what it serves without asking, what it keeps, and what its
    callers get. */
module HttpFreshness {
  import opened Wrappers
  import opened HttpCaching

  /** The entry is younger than its override or, without one, good enough for the request by HTTP. */
  predicate Fresh(lib: Library, entry: Entry, request: Request, now: real) {
    match entry.ttlOverride
    case Some(ttl) => lib.age(entry.policy, now) < ttl
    case None => lib.satisfiesWithoutRevalidation(entry.policy, request, now)
  }

  /** An entry as the caller gets it: what its policy says at the time, and its body. */
  predicate AsStored(lib: Library, entry: Entry, now: real, response: Response) {
    && response.status == lib.status(entry.policy)
    && response.headers == lib.responseHeaders(entry.policy, now)
    && response.body == entry.body
  }

  lemma SourcedOverride(lib: Library, xs: seq<Exchange>, n: nat, key: string, entry: Entry)
    requires n <= |xs| && Sourced(lib, xs, n, key, entry)
    ensures entry.ttlOverride.Some? ==> entry.ttlOverride.value > 0.0
  {
    SourcedCameFrom(lib, xs, n, key, entry);
  }

  /** In every run, whatever is served without asking the origin was fresh then, and was served as
      stored. */
  lemma HitsWereFresh(lib: Library, events: seq<Event>, k: nat)
    requires k < |Run(lib, EMPTY, events).hits|
    ensures var hit := Run(lib, EMPTY, events).hits[k];
            && Fresh(lib, hit.entry, hit.call.request, hit.at)
            && AsStored(lib, hit.entry, hit.at, hit.response)
  {
    RunKeepsInv(lib, events);
    var w := Run(lib, EMPTY, events);
    hide Run, Sourced;
    assert HitSound(lib, w, w.hits[k]);
    SourcedOverride(lib, w.exchanges, w.hits[k].exchanges, w.hits[k].call.key, w.hits[k].entry);
  }

  /** In every run a fetch that has found an entry asks the origin, with the entry to revalidate, if
      and only if the entry is not fresh then; otherwise it answers with the entry, and that is a
      hit. A fetch that has found none asks the origin. */
  lemma AsksIff(lib: Library, events: seq<Event>, i: nat)
    requires i < |Run(lib, EMPTY, events).fetches| && Run(lib, EMPTY, events).fetches[i].Found?
    ensures var w := Run(lib, EMPTY, events); var next := Step(lib, w, Resumes(i));
            match w.fetches[i].found
            case None => next.fetches[i] == Asking(w.fetches[i].call, None) && next.hits == w.hits
            case Some(entry) =>
              && (next.fetches[i].Asking? <==> !Fresh(lib, entry, w.fetches[i].call.request, w.now))
              && (next.fetches[i].Asking? ==> next.fetches[i] == Asking(w.fetches[i].call, Some(entry)) &&
                                              next.hits == w.hits)
              && (!next.fetches[i].Asking? ==>
                    && next.fetches[i].Done? && AsStored(lib, entry, w.now, next.fetches[i].response)
                    && |next.hits| == |w.hits| + 1 && next.hits[|w.hits|].entry == entry
                    && next.hits[|w.hits|].response == next.fetches[i].response)
  {
    RunKeepsInv(lib, events);
    var w := Run(lib, EMPTY, events);
    hide Run, Sourced;
    assert FetchSound(lib, w, w.fetches[i]);
    if w.fetches[i].found.Some? {
      SourcedOverride(lib, w.exchanges, |w.exchanges|, w.fetches[i].call.key, w.fetches[i].found.value);
    }
  }

  /** May this be kept: beside an override and a status from 200 to 299, or in answer to a GET if HTTP
      lets a cache store it? */
  predicate MayKeep(lib: Library, policy: Policy, ttlOverride: Option<real>, request: Request) {
    || (ttlOverride.Some? && ttlOverride.value != 0.0 && 200 <= lib.status(policy) <= 299)
    || (request.verb == "GET" && lib.storable(policy))
  }

  /** When the origin answers, the fetch has its answer, and keeps it, under the policy of the
      exchange and with the override its call asked for, if and only if it may be kept and counts as
      fresh for more than no time; otherwise it answers at once. */
  lemma KeepsIff(lib: Library, w: World, i: nat, response: Response)
    requires i < |w.fetches| && w.fetches[i].Asking?
    ensures var Asking(call, basis) := w.fetches[i];
            var x := Exchange(call, basis, response, w.now);
            var fetch := Step(lib, w, OriginAnswers(i, response)).fetches[i];
            && (fetch.Done? || (fetch.Writing? && fetch.call == call))
            && AnswersAs(lib, x, fetch.response)
            && (forall policy, freshness |
                  && PolicyIs(lib, x, policy)
                  && CountsAsFresh(lib, policy, call.ttlOf(fetch.response, call.request), w.now, freshness) ::
                  && (fetch.Writing? <==>
                        MayKeep(lib, policy, call.ttlOf(fetch.response, call.request), call.request) && freshness > 0.0)
                  && (fetch.Writing? ==>
                        fetch.write.entry ==
                        Entry(policy, call.ttlOf(fetch.response, call.request), fetch.response.body)))
  {
    var Asking(call, basis) := w.fetches[i];
    var x := Exchange(call, basis, response, w.now);
    AnsweredAs(lib, x, ResponseAfter(lib, x));
    var ttlOverride := call.ttlOf(ResponseAfter(lib, x), call.request);
    forall policy, freshness | PolicyIs(lib, x, policy) && CountsAsFresh(lib, policy, ttlOverride, w.now, freshness)
      ensures policy == PolicyAfter(lib, x) && freshness == Freshness(lib, policy, ttlOverride, w.now)
    {
      if ttlOverride.None? {
        NearestIs(lib.timeToLive(policy, w.now) / 1000.0, freshness);
      }
    }
    hide ResponseAfter, PolicyAfter, Freshness, PolicyIs, CountsAsFresh, AnswersAs;
  }

  lemma NearestIs(x: real, seconds: real)
    requires seconds == seconds.Floor as real && seconds - 0.5 <= x < seconds + 0.5
    ensures seconds == Round(x)
  {
    FloorIs(x + 0.5, seconds.Floor);
  }

  lemma FloorIs(x: real, n: int)
    requires n as real <= x < n as real + 1.0
    ensures x.Floor == n
  {
    assert (x.Floor as real) <= x < (x.Floor as real) + 1.0;
    assert (x.Floor - n) as real == x.Floor as real - n as real;
  }

  /** The policy made from what was sent and received, replacing the one revalidated, if any. */
  predicate PolicyIs(lib: Library, x: Exchange, policy: Policy) {
    policy ==
    match x.basis
    case None => Made(x.call.request, x.response.status, x.response.headers, x.at)
    case Some(entry) =>
      Revised(entry.policy, Conditional(lib, x.call.request, entry), x.response.status, x.response.headers, x.at)
  }

  /** A fetch begins under the cache key it is given, if that is not empty, and under its URL
      otherwise. */
  lemma BeginsUnderKey(lib: Library, w: World, request: Request, cacheKey: Option<string>,
                       ttlOf: (Response, Request) -> Option<real>)
    ensures var next := Step(lib, w, Begin(request, cacheKey, ttlOf));
            && |next.fetches| == |w.fetches| + 1 && next.fetches[..|w.fetches|] == w.fetches
            && next.fetches[|w.fetches|].Reading?
            && next.fetches[|w.fetches|].call.request == request && next.fetches[|w.fetches|].call.ttlOf == ttlOf
            && (cacheKey.Some? && cacheKey.value != "" ==> next.fetches[|w.fetches|].call.key == cacheKey.value)
            && (cacheKey.None? || cacheKey.value == "" ==> next.fetches[|w.fetches|].call.key == request.url)
  {
  }

  /** When the store has performed a fetch's write, the entry stands under its key until its time, and
      the fetch answers if the store has said so, and is rejected if it has been; and so is a fetch for
      which anything else that it awaits is rejected. */
  lemma WriteEnds(lib: Library, w: World, i: nat, known: bool)
    requires i < |w.fetches|
    ensures var next := Step(lib, w, Commits(i, known));
            w.fetches[i].Writing? ==>
              var Writing(call, write, response) := w.fetches[i];
              && next.store == w.store[call.key := Stored(write.entry, w.now + write.ttl)]
              && next.fetches[i] == (if known then Done(response) else Rejected)
    ensures !w.fetches[i].Done? ==> Step(lib, w, Fails(i)).fetches[i] == Rejected
  {
  }

  // ---------------------------------------------------------------- what callers get

  /** The response is one that was served without asking the origin, or the answer to an exchange. */
  predicate Accounted(lib: Library, w: World, response: Response) {
    || (exists k | 0 <= k < |w.hits| :: w.hits[k].response == response)
    || (exists j | 0 <= j < |w.exchanges| :: AnswersAs(lib, w.exchanges[j], response))
  }

  predicate AllAccounted(lib: Library, w: World) {
    forall i | 0 <= i < |w.fetches| && (w.fetches[i].Done? || w.fetches[i].Writing?) ::
      Accounted(lib, w, w.fetches[i].response)
  }

  lemma StaysAccounted(lib: Library, w: World, next: World, response: Response)
    requires Accounted(lib, w, response) && w.hits <= next.hits && w.exchanges <= next.exchanges
    ensures Accounted(lib, next, response)
  {
    if k :| 0 <= k < |w.hits| && w.hits[k].response == response {
      assert next.hits[k].response == response;
    } else {
      var j :| 0 <= j < |w.exchanges| && AnswersAs(lib, w.exchanges[j], response);
      assert AnswersAs(lib, next.exchanges[j], response);
    }
  }

  lemma StepAccounts(lib: Library, w: World, e: Event)
    requires AllAccounted(lib, w)
    ensures AllAccounted(lib, Step(lib, w, e))
  {
    var next := Step(lib, w, e);
    hide Accounted, AfterExchange, AfterRead, AnswersAs;
    forall i | 0 <= i < |next.fetches| && (next.fetches[i].Done? || next.fetches[i].Writing?)
      ensures Accounted(lib, next, next.fetches[i].response)
    {
      if i < |w.fetches| && (w.fetches[i].Done? || w.fetches[i].Writing?) {
        StaysAccounted(lib, w, next, w.fetches[i].response);
      } else {
        NewlyAccounted(lib, w, e, i);
      }
    }
  }

  lemma NewlyAccounted(lib: Library, w: World, e: Event, i: nat)
    requires var next := Step(lib, w, e);
             && i < |next.fetches| && (next.fetches[i].Done? || next.fetches[i].Writing?)
             && !(i < |w.fetches| && (w.fetches[i].Done? || w.fetches[i].Writing?))
    ensures Accounted(lib, Step(lib, w, e), Step(lib, w, e).fetches[i].response)
  {
    var next := Step(lib, w, e);
    hide WriteAfter, ResponseAfter, AnswersAs;
    if e.Resumes? {
      assert next.hits[|w.hits|].response == next.fetches[i].response;
    } else if e.OriginAnswers? {
      var x := next.exchanges[|w.exchanges|];
      AnsweredAs(lib, x, next.fetches[i].response);
    }
  }

  /** In every run, whatever a fetch answers with is a hit or the answer to an exchange. */
  lemma {:induction false} AnswersAccounted(lib: Library, events: seq<Event>)
    ensures AllAccounted(lib, Run(lib, EMPTY, events))
    decreases |events|
  {
    if events != [] {
      AnswersAccounted(lib, events[..|events| - 1]);
      hide Step, AllAccounted;
      StepAccounts(lib, Run(lib, EMPTY, events[..|events| - 1]), events[|events| - 1]);
    }
  }
}
