/** The memoising tail of `RESTDataSource.fetch`: concurrent GETs of a cache key share a promise
    until a request of another method for that key comes between them. */
module Memoising {

  /** A request that reached the tail, with its cache key. */
  datatype Request = Request(key: string, isGet: bool)

  /** The memo, and how many requests have been performed: the promises are numbered in the order
      in which they were made. */
  datatype Memo = Memo(results: map<string, nat>, performed: nat)

  const FRESH := Memo(map[], 0)

  predicate Hits(memo: Memo, request: Request) {
    request.isGet && request.key in memo.results
  }

  /** The promise that a request is answered with. */
  function PromiseFor(memo: Memo, request: Request): nat {
    if Hits(memo, request) then memo.results[request.key] else memo.performed
  }

  function Next(memo: Memo, request: Request): Memo {
    if Hits(memo, request) then memo
    else if request.isGet then
      Memo(memo.results[request.key := memo.performed], memo.performed + 1)
    else
      Memo(memo.results - {request.key}, memo.performed + 1)
  }

  class RESTDataSource {
    var memoizedResults: map<string, nat>
    var performed: nat

    constructor ()
      ensures State() == FRESH
    {
      memoizedResults, performed := map[], 0;
    }

    function State(): Memo
      reads this
    {
      Memo(memoizedResults, performed)
    }

    /** Starts a request and gives its promise. */
    method PerformRequest() returns (promise: nat)
      modifies this`performed
      ensures promise == old(performed) && performed == promise + 1
    {
      promise := performed;
      performed := performed + 1;
    }

    method Fetch(request: Request) returns (promise: nat)
      modifies this
      ensures promise == PromiseFor(old(State()), request)
      ensures State() == Next(old(State()), request)
    {
      if request.isGet {
        if request.key in memoizedResults {
          return memoizedResults[request.key];
        }
        promise := PerformRequest();
        memoizedResults := memoizedResults[request.key := promise];
      } else {
        memoizedResults := memoizedResults - {request.key};
        promise := PerformRequest();
      }
    }
  }

  // ---------------------------------------------------------------- whole runs

  /** The state after the first `n` requests of a run. */
  function After(run: seq<Request>, n: nat): Memo
    requires n <= |run|
  {
    if n == 0 then FRESH else Next(After(run, n - 1), run[n - 1])
  }

  /** The promise that the `i`-th request of a run is answered with. */
  function Promise(run: seq<Request>, i: nat): nat
    requires i < |run|
  {
    PromiseFor(After(run, i), run[i])
  }

  /** No request for this key with a method other than GET stands between. */
  predicate Undisturbed(run: seq<Request>, key: string, from: nat, to: nat)
    requires to <= |run|
  {
    forall k | from <= k < to :: run[k].key == key ==> run[k].isGet
  }

  /** Every promise of the memo has been made, and each is for one key. */
  ghost predicate Sound(memo: Memo) {
    && (forall key | key in memo.results :: memo.results[key] < memo.performed)
    && (forall a, b | a in memo.results && b in memo.results && memo.results[a] == memo.results[b] :: a == b)
  }

  /** The memo's entry for a key is this promise. */
  predicate Holds(memo: Memo, key: string, promise: nat) {
    key in memo.results && memo.results[key] == promise
  }

  lemma NextSound(memo: Memo, request: Request)
    requires Sound(memo)
    ensures Sound(Next(memo, request))
  {
    var next := Next(memo, request);
    forall key | key in next.results
      ensures next.results[key] < next.performed
      ensures Holds(memo, key, next.results[key]) || (next.results[key] == memo.performed && key == request.key)
    {
      assert next.results == memo.results || next.results == memo.results[request.key := memo.performed] ||
             next.results == memo.results - {request.key};
    }
  }

  lemma NextHolds(memo: Memo, request: Request, key: string, promise: nat)
    requires Sound(memo)
    ensures Holds(Next(memo, request), key, PromiseFor(memo, request)) <==> request.isGet && request.key == key
    ensures promise < memo.performed ==>
              (Holds(Next(memo, request), key, promise) <==>
               Holds(memo, key, promise) && (request.key == key ==> request.isGet))
  {
  }

  /** After `n` requests the memo holds, for each key, the promise of its GETs since the last other
      request for it, and nothing else. */
  lemma {:induction false} MemoHolds(run: seq<Request>, n: nat, i: nat, key: string)
    requires i < n <= |run|
    ensures Promise(run, i) < After(run, n).performed
    ensures Holds(After(run, n), key, Promise(run, i)) <==>
            run[i].isGet && run[i].key == key && Undisturbed(run, key, i, n)
  {
    AfterSound(run, n - 1);
    NextHolds(After(run, n - 1), run[n - 1], key, Promise(run, i));
    if i < n - 1 {
      MemoHolds(run, n - 1, i, key);
    }
  }

  lemma {:induction false} AfterSound(run: seq<Request>, n: nat)
    requires n <= |run|
    ensures Sound(After(run, n))
  {
    if n > 0 {
      AfterSound(run, n - 1);
      NextSound(After(run, n - 1), run[n - 1]);
    }
  }

  /** Two requests share a promise if and only if both are GETs of one key with no other request
      for it between them. */
  lemma SharingIff(run: seq<Request>, i: nat, j: nat)
    requires i < j < |run|
    ensures Promise(run, i) == Promise(run, j) <==>
            && run[i].isGet && run[j].isGet && run[i].key == run[j].key
            && Undisturbed(run, run[i].key, i, j)
  {
    MemoHolds(run, j, i, run[j].key);
    AfterSound(run, j);
  }

  // ---------------------------------------------------------------- counting

  /** How many GETs of a key among the first `n` requests were performed. */
  function GetsPerformed(run: seq<Request>, key: string, n: nat): nat
    requires n <= |run|
  {
    if n == 0 then 0
    else GetsPerformed(run, key, n - 1) +
         if run[n - 1] == Request(key, true) && !Hits(After(run, n - 1), run[n - 1]) then 1 else 0
  }

  /** How many requests for a key among the first `n` had another method. */
  function OtherRequests(run: seq<Request>, key: string, n: nat): nat
    requires n <= |run|
  {
    if n == 0 then 0
    else OtherRequests(run, key, n - 1) + if run[n - 1] == Request(key, false) then 1 else 0
  }

  /** Performed GETs never outnumber the other requests for the key by more than one, and by none
      while the memo has no entry for it. */
  lemma {:induction false} GetsBounded(run: seq<Request>, key: string, n: nat)
    requires n <= |run|
    ensures GetsPerformed(run, key, n) <=
            OtherRequests(run, key, n) + if key in After(run, n).results then 1 else 0
  {
    if n > 0 {
      GetsBounded(run, key, n - 1);
    }
  }

  lemma FetchesBounded(run: seq<Request>, key: string)
    ensures GetsPerformed(run, key, |run|) <= 1 + OtherRequests(run, key, |run|)
  {
    GetsBounded(run, key, |run|);
  }
}
