/** `PrefixingKeyValueCache`: several features share one key-value store, each under a prefix. */
module Prefixing {

  import opened Wrappers

  /** The keys of a store that stand under a prefix, without it. */
  function KeysUnder<V>(store: map<string, V>, prefix: string): (keys: set<string>)
    ensures forall k :: k in keys <==> prefix + k in store
  {
    assert forall k: string :: prefix <= prefix + k && (prefix + k)[|prefix|..] == k;
    assert forall full: string | prefix <= full :: prefix + full[|prefix|..] == full;
    set full | full in store && prefix <= full :: full[|prefix|..]
  }

  /** What one feature sees of a store: the entries under its prefix. */
  function View<V>(store: map<string, V>, prefix: string): map<string, V> {
    map k | k in KeysUnder(store, prefix) :: store[prefix + k]
  }

  /** Neither prefix is a prefix of the other. */
  predicate Incomparable(p: string, q: string) {
    !(p <= q) && !(q <= p)
  }

  // ---------------------------------------------------------------- the classes

  /** The wrapped cache. */
  class KeyValueCache<V> {
    var entries: map<string, V>

    constructor ()
      ensures entries == map[]
    {
      entries := map[];
    }

    method Get(key: string) returns (r: Option<V>)
      ensures r == Lookup(entries, key)
    {
      r := Lookup(entries, key);
    }

    method Set(key: string, value: V)
      modifies this
      ensures entries == old(entries)[key := value]
    {
      entries := entries[key := value];
    }

    method Delete(key: string)
      modifies this
      ensures entries == old(entries) - {key}
    {
      entries := entries - {key};
    }
  }

  /** A view of a wrapped cache. Its operations do to the view what the wrapped cache's operations
      do to its entries, and leave every view under an incomparable prefix alone. */
  class PrefixingKeyValueCache<V> {
    const wrapped: KeyValueCache<V>
    const prefix: string

    constructor (wrapped: KeyValueCache<V>, prefix: string)
      ensures this.wrapped == wrapped && this.prefix == prefix
    {
      this.wrapped, this.prefix := wrapped, prefix;
    }

    ghost function Seen(): map<string, V>
      reads wrapped
    {
      View(wrapped.entries, prefix)
    }

    method Get(key: string) returns (r: Option<V>)
      ensures r == Lookup(Seen(), key) && r == Answer(wrapped.entries, Op.Get(key), prefix)
    {
      ViewLookup(wrapped.entries, prefix, key);
      r := wrapped.Get(prefix + key);
    }

    method Set(key: string, value: V)
      modifies wrapped
      ensures Seen() == old(Seen())[key := value]
      ensures wrapped.entries == Apply(old(wrapped.entries), Op.Set(key, value), prefix)
      ensures forall q | Incomparable(prefix, q) :: View(wrapped.entries, q) == old(View(wrapped.entries, q))
    {
      ghost var before := wrapped.entries;
      wrapped.Set(prefix + key, value);
      ViewSet(before, prefix, key, value);
      forall q | Incomparable(prefix, q)
        ensures View(wrapped.entries, q) == View(before, q)
      {
        OtherViewSet(before, prefix, q, key, value);
      }
    }

    method Delete(key: string)
      modifies wrapped
      ensures Seen() == old(Seen()) - {key}
      ensures wrapped.entries == Apply(old(wrapped.entries), Op.Delete(key), prefix)
      ensures forall q | Incomparable(prefix, q) :: View(wrapped.entries, q) == old(View(wrapped.entries, q))
    {
      ghost var before := wrapped.entries;
      wrapped.Delete(prefix + key);
      ViewLose(before, prefix, prefix + key);
      forall q | Incomparable(prefix, q)
        ensures View(wrapped.entries, q) == View(before, q)
      {
        ViewLose(before, q, prefix + key);
        PrefixesApart(prefix, q, key);
      }
    }
  }

  // ---------------------------------------------------------------- views under one operation

  lemma ViewLookup<V>(store: map<string, V>, prefix: string, key: string)
    ensures Lookup(View(store, prefix), key) == Lookup(store, prefix + key)
  {
  }

  lemma ViewSet<V>(store: map<string, V>, prefix: string, key: string, value: V)
    ensures View(store[prefix + key := value], prefix) == View(store, prefix)[key := value]
  {
    var after := store[prefix + key := value];
    forall k
      ensures Lookup(View(after, prefix), k) == Lookup(View(store, prefix)[key := value], k)
    {
      ViewLookup(after, prefix, k);
      ViewLookup(store, prefix, k);
      assert prefix + k == prefix + key ==> k == key by {
        assert (prefix + k)[|prefix|..] == k && (prefix + key)[|prefix|..] == key;
      }
    }
    SameLookups(View(after, prefix), View(store, prefix)[key := value]);
  }

  lemma SameLookups<V>(a: map<string, V>, b: map<string, V>)
    requires forall k :: Lookup(a, k) == Lookup(b, k)
    ensures a == b
  {
    forall k
      ensures k in a <==> k in b
      ensures k in a ==> a[k] == b[k]
    {
      assert Lookup(a, k) == Lookup(b, k);
    }
  }

  /** A full key under one prefix is under no incomparable one. */
  lemma PrefixesApart(p: string, q: string, key: string)
    requires Incomparable(p, q)
    ensures !(q <= p + key)
  {
  }

  lemma OtherViewSet<V>(store: map<string, V>, p: string, q: string, key: string, value: V)
    requires Incomparable(p, q)
    ensures View(store[p + key := value], q) == View(store, q)
  {
    PrefixesApart(p, q, key);
    var after := store[p + key := value];
    forall k
      ensures Lookup(View(after, q), k) == Lookup(View(store, q), k)
    {
      ViewLookup(after, q, k);
      ViewLookup(store, q, k);
      assert q <= q + k;
    }
    SameLookups(View(after, q), View(store, q));
  }

  /** A store that loses a key loses it from the views whose prefix it is under. */
  lemma ViewLose<V>(store: map<string, V>, prefix: string, full: string)
    ensures View(store - {full}, prefix) ==
            if prefix <= full then View(store, prefix) - {full[|prefix|..]} else View(store, prefix)
  {
    var lost := if prefix <= full then View(store, prefix) - {full[|prefix|..]} else View(store, prefix);
    forall k
      ensures Lookup(View(store - {full}, prefix), k) == Lookup(lost, k)
    {
      ViewLookup(store - {full}, prefix, k);
      ViewLookup(store, prefix, k);
      assert prefix <= prefix + k && (prefix + k)[|prefix|..] == k;
      if prefix <= full {
        assert full == prefix + full[|prefix|..];
      }
    }
    SameLookups(View(store - {full}, prefix), lost);
  }

  // ---------------------------------------------------------------- whole runs

  datatype Op<V> = Get(key: string) | Set(key: string, value: V) | Delete(key: string)

  /** An operation of either view, or the store losing an entry (evicted or expired). */
  datatype Event<V> = First(op: Op<V>) | Second(op: Op<V>) | Lose(full: string)

  function Apply<V>(entries: map<string, V>, op: Op<V>, prefix: string): map<string, V> {
    match op
    case Get(_) => entries
    case Set(key, value) => entries[prefix + key := value]
    case Delete(key) => entries - {prefix + key}
  }

  function Answer<V>(entries: map<string, V>, op: Op<V>, prefix: string): Option<V> {
    if op.Get? then Lookup(entries, prefix + op.key) else None
  }

  /** The answers of a run of two views over one store. */
  function Shared<V>(store: map<string, V>, p: string, q: string, run: seq<Event<V>>): seq<Option<V>>
    decreases |run|
  {
    if run == [] then []
    else match run[0]
      case First(op) => [Answer(store, op, p)] + Shared(Apply(store, op, p), p, q, run[1..])
      case Second(op) => [Answer(store, op, q)] + Shared(Apply(store, op, q), p, q, run[1..])
      case Lose(full) => Shared(store - {full}, p, q, run[1..])
  }

  /** The answers of the same run with a store for each view. */
  function Separate<V>(a: map<string, V>, b: map<string, V>, p: string, q: string, run: seq<Event<V>>): seq<Option<V>>
    decreases |run|
  {
    if run == [] then []
    else match run[0]
      case First(op) => [Answer(a, op, "")] + Separate(Apply(a, op, ""), b, p, q, run[1..])
      case Second(op) => [Answer(b, op, "")] + Separate(a, Apply(b, op, ""), p, q, run[1..])
      case Lose(full) =>
        Separate(if p <= full then a - {full[|p|..]} else a,
                 if q <= full then b - {full[|q|..]} else b, p, q, run[1..])
  }

  /** One view's operation, seen from both views. */
  lemma OperationOnViews<V>(store: map<string, V>, p: string, q: string, op: Op<V>)
    requires Incomparable(p, q)
    ensures Answer(store, op, p) == Answer(View(store, p), op, "")
    ensures View(Apply(store, op, p), p) == Apply(View(store, p), op, "")
    ensures View(Apply(store, op, p), q) == View(store, q)
  {
    assert "" + op.key == op.key;
    match op
    case Get(key) => ViewLookup(store, p, key);
    case Set(key, value) =>
      ViewSet(store, p, key, value);
      OtherViewSet(store, p, q, key, value);
    case Delete(key) =>
      ViewLose(store, p, p + key);
      assert (p + key)[|p|..] == key;
      PrefixesApart(p, q, key);
      ViewLose(store, q, p + key);
  }

  lemma {:induction false} ViewsIndependent<V>(store: map<string, V>, p: string, q: string, run: seq<Event<V>>)
    requires Incomparable(p, q)
    ensures Shared(store, p, q, run) == Separate(View(store, p), View(store, q), p, q, run)
    decreases |run|
  {
    if run != [] {
      match run[0]
      case First(op) =>
        OperationOnViews(store, p, q, op);
        ViewsIndependent(Apply(store, op, p), p, q, run[1..]);
      case Second(op) =>
        OperationOnViews(store, q, p, op);
        ViewsIndependent(Apply(store, op, q), p, q, run[1..]);
      case Lose(full) =>
        ViewLose(store, p, full);
        ViewLose(store, q, full);
        ViewsIndependent(store - {full}, p, q, run[1..]);
    }
  }

  /** Every run of the two views over one store answers as two separate stores would. */
  ghost predicate Independent(p: string, q: string) {
    forall run: seq<Event<string>> :: Shared(map[], p, q, run) == Separate(map[], map[], p, q, run)
  }

  /** What the second view writes under the longer prefix, the first one reads under the shorter. */
  lemma NestedPrefixesInterfere(p: string, q: string)
    requires p <= q || q <= p
    ensures !Independent(p, q)
  {
    if p <= q {
      var d := q[|p|..];
      assert p + d == q && q + "" == q && "" + d == d;
      var run: seq<Event<string>> := [Second(Set("", "v")), First(Get(d))];
      assert run[1..] == [First(Get(d))];
      assert Shared(map[], p, q, run) == [None] + Shared(map[q := "v"], p, q, run[1..]);
      assert Shared(map[], p, q, run)[1] == Some("v");
      assert Separate(map[], map[], p, q, run) ==
             [None] + Separate(map[], map["" + "" := "v"], p, q, run[1..]);
      assert Separate(map[], map[], p, q, run)[1] == None;
    } else {
      var d := p[|q|..];
      assert q + d == p && p + "" == p && "" + d == d;
      var run: seq<Event<string>> := [First(Set("", "v")), Second(Get(d))];
      assert run[1..] == [Second(Get(d))];
      assert Shared(map[], p, q, run) == [None] + Shared(map[p := "v"], p, q, run[1..]);
      assert Shared(map[], p, q, run)[1] == Some("v");
      assert Separate(map[], map[], p, q, run) ==
             [None] + Separate(map["" + "" := "v"], map[], p, q, run[1..]);
      assert Separate(map[], map[], p, q, run)[1] == None;
    }
  }

  /** Two views behave as separate stores in every run if and only if neither prefix is a prefix
      of the other. */
  lemma IndependentIff(p: string, q: string)
    ensures Independent(p, q) <==> Incomparable(p, q)
  {
    if Incomparable(p, q) {
      forall run: seq<Event<string>>
        ensures Shared(map[], p, q, run) == Separate(map[], map[], p, q, run)
      {
        ViewsIndependent<string>(map[], p, q, run);
      }
    } else {
      NestedPrefixesInterfere(p, q);
    }
  }

  const APQ_CACHE_PREFIX := "apq:"
  const HTTP_CACHE_PREFIX := "httpcache:"

  /** Persisted queries and HTTP responses can share a store. */
  lemma FeaturesIndependent()
    ensures Independent(APQ_CACHE_PREFIX, HTTP_CACHE_PREFIX)
  {
    assert APQ_CACHE_PREFIX[0] != HTTP_CACHE_PREFIX[0];
    IndependentIff(APQ_CACHE_PREFIX, HTTP_CACHE_PREFIX);
  }
}
