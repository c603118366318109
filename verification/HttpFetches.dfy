/** Concurrent fetches run by an `HTTPCache` object, and what every run of them keeps. */
module HttpFetches {
  import opened Wrappers
  import opened HttpCaching
  import opened HttpFreshness

  /** The cache object, the clock, the store under the cache's prefix and the fetches in progress;
      and, for the record, what the origin has sent and what has been served without it. */
  class Fetches {
    const cache: HTTPCache
    var now: real
    var store: map<string, Stored>
    var fetches: seq<Fetch>
    var exchanges: seq<Exchange>
    var hits: seq<Hit>

    constructor (lib: Library)
      ensures cache.lib == lib && Contents() == EMPTY
    {
      cache := new HTTPCache(lib);
      now, store, fetches, exchanges, hits := 0.0, map[], [], [], [];
    }

    function Contents(): World
      reads this
    {
      World(now, store, fetches, exchanges, hits)
    }

    /** A fetch goes on after the store has answered. */
    method Resume(i: nat)
      requires i < |fetches| && fetches[i].Found?
      modifies this
      ensures Contents() == ResumeStep(cache.lib, old(Contents()), i)
    {
      var Found(call, found) := fetches[i];
      var outcome := cache.Resume(call, found, now);
      fetches := fetches[i := Continue(call, outcome)];
      if found.Some? && outcome.Answer? {
        hits := hits + [Hit(call, found.value, outcome.response, now, |exchanges|)];
      }
    }

    /** A fetch goes on after the origin has answered. */
    method Receive(i: nat, response: Response)
      requires i < |fetches| && fetches[i].Asking?
      modifies this
      ensures Contents() == OriginStep(cache.lib, old(Contents()), i, response)
    {
      var Asking(call, basis) := fetches[i];
      var outcome := cache.Receive(call, basis, response, now);
      fetches := fetches[i := Continue(call, outcome)];
      exchanges := exchanges + [Exchange(call, basis, response, now)];
    }

    method Handle(e: Event)
      modifies this
      ensures Contents() == Step(cache.lib, old(Contents()), e)
    {
      match e
      case Tick(elapsed) =>
        if elapsed > 0.0 {
          now := now + elapsed;
        }
      case Begin(request, cacheKey, ttlOf) =>
        fetches := fetches + [Reading(Call(KeyOf(cacheKey, request), request, ttlOf))];
      case Loses(key) => store := store - {key};
      case StoreAnswers(i) =>
        if i < |fetches| && fetches[i].Reading? {
          fetches := fetches[i := Found(fetches[i].call, HttpCaching.Lookup(Contents(), fetches[i].call.key))];
        }
      case Resumes(i) =>
        if i < |fetches| && fetches[i].Found? {
          Resume(i);
        }
      case OriginAnswers(i, response) =>
        if i < |fetches| && fetches[i].Asking? {
          Receive(i, response);
        }
      case Commits(i, known) =>
        if i < |fetches| && fetches[i].Writing? {
          var Writing(call, write, response) := fetches[i];
          store := store[call.key := Stored(write.entry, now + write.ttl)];
          fetches := fetches[i := if known then Done(response) else Rejected];
        }
      case Fails(i) =>
        if i < |fetches| && !fetches[i].Done? {
          fetches := fetches[i := Rejected];
        }
    }

    /** A whole run from an empty store. Whatever holds of every run of the model holds of these
        objects: what they store and serve came from the origin. */
    method Serve(events: seq<Event>)
      requires Contents() == EMPTY
      modifies this
      ensures Contents() == Run(cache.lib, EMPTY, events)
      ensures forall k: nat | k < |hits| ::
                hits[k].exchanges <= |exchanges| &&
                exists j: nat | j < hits[k].exchanges ::
                  Sent(cache.lib, exchanges[j], hits[k].call.key, hits[k].response.body)
      ensures forall key | key in store ::
                exists j: nat | j < |exchanges| ::
                  CameFrom(cache.lib, exchanges, j, key, store[key].entry) &&
                  KeptRightly(cache.lib, exchanges[j], store[key].entry)
      ensures forall k: nat | k < |hits| ::
                Fresh(cache.lib, hits[k].entry, hits[k].call.request, hits[k].at) &&
                AsStored(cache.lib, hits[k].entry, hits[k].at, hits[k].response)
      ensures AllAccounted(cache.lib, Contents())
    {
      for n := 0 to |events|
        invariant Contents() == Run(cache.lib, EMPTY, events[..n])
      {
        Handle(events[n]);
        assert events[..n + 1][..n] == events[..n];
      }
      assert events[..|events|] == events;
      AnswersAccounted(cache.lib, events);
      hide Run, CameFrom, KeptRightly, Sent, Fresh, AsStored, AllAccounted;
      forall k: nat | k < |hits|
        ensures hits[k].exchanges <= |exchanges|
        ensures exists j: nat | j < hits[k].exchanges ::
                  Sent(cache.lib, exchanges[j], hits[k].call.key, hits[k].response.body)
      {
        HitsWereSent(cache.lib, events, k);
      }
      forall k: nat | k < |hits|
        ensures Fresh(cache.lib, hits[k].entry, hits[k].call.request, hits[k].at)
        ensures AsStored(cache.lib, hits[k].entry, hits[k].at, hits[k].response)
      {
        HitsWereFresh(cache.lib, events, k);
      }
      forall key | key in store
        ensures exists j: nat | j < |exchanges| ::
                  CameFrom(cache.lib, exchanges, j, key, store[key].entry) &&
                  KeptRightly(cache.lib, exchanges[j], store[key].entry)
      {
        StoredCameFrom(cache.lib, events, key);
      }
    }
  }
}
