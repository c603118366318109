/** What `decode` makes of two byte strings put together, property by property. */
module LastOneWins {
  import opened Wrappers
  import opened Wire
  import opened Schema
  import opened Messages
  import opened Serial
  import opened RoundTrip
  import opened Concatenation
  import Canonical

  /** The value of the last entry with the key. */
  function ValueAt(es: seq<Entry>, key: bytes): Option<Value> {
    if es == [] then None
    else if es[|es| - 1].key == key then Some(es[|es| - 1].value)
    else ValueAt(es[..|es| - 1], key)
  }

  function Keys(es: seq<Entry>): (keys: seq<bytes>)
    ensures |keys| == |es|
  {
    seq(|es|, i requires 0 <= i < |es| => es[i].key)
  }

  /** The later entry's value under each key that it has, and the earlier's under the others. */
  ghost predicate ValuesOverride(es: seq<Entry>, later: seq<Entry>, all: seq<Entry>) {
    forall key :: ValueAt(all, key) == if HasKey(later, key) then ValueAt(later, key) else ValueAt(es, key)
  }

  /** The keys of the earlier come first, in their order, and then the later's others in theirs. */
  predicate KeysFollow(es: seq<Entry>, later: seq<Entry>, all: seq<Entry>) {
    Keys(all) == Keys(es) + NewKeys(Keys(es), Keys(later))
  }

  /** The keys of the second list that are not in the first. */
  function NewKeys(keys: seq<bytes>, later: seq<bytes>): seq<bytes> {
    if later == [] then []
    else NewKeys(keys, later[..|later| - 1]) + if later[|later| - 1] in keys then [] else [later[|later| - 1]]
  }

  lemma {:induction false} AssignValue(es: seq<Entry>, e: Entry, key: bytes)
    requires DistinctKeys(es)
    ensures ValueAt(Assign(es, e), key) == if key == e.key then Some(e.value) else ValueAt(es, key)
  {
    if HasKey(es, e.key) {
      AssignInPlace(es, e, key);
    } else {
      AssignNewKey(es, e);
      assert (es + [e])[..|es|] == es;
    }
  }

  lemma {:induction false} AssignInPlace(es: seq<Entry>, e: Entry, key: bytes)
    requires DistinctKeys(es) && HasKey(es, e.key)
    ensures |Assign(es, e)| == |es|
    ensures forall i | 0 <= i < |es| :: Assign(es, e)[i] == if es[i].key == e.key then e else es[i]
    ensures ValueAt(Assign(es, e), key) == if key == e.key then Some(e.value) else ValueAt(es, key)
  {
    AssignedAt(es, e);
    ValuesFollow(es, Assign(es, e), e, key);
  }

  lemma {:induction false} AssignedAt(es: seq<Entry>, e: Entry)
    requires DistinctKeys(es) && HasKey(es, e.key)
    ensures |Assign(es, e)| == |es|
    ensures forall i | 0 <= i < |es| :: Assign(es, e)[i] == if es[i].key == e.key then e else es[i]
  {
    HasKeySplit(es, e.key);
    if es[0].key != e.key {
      AssignedAt(es[1..], e);
    }
  }

  lemma {:induction false} ValuesFollow(es: seq<Entry>, more: seq<Entry>, e: Entry, key: bytes)
    requires |es| == |more| && forall i | 0 <= i < |es| :: more[i] == if es[i].key == e.key then e else es[i]
    ensures ValueAt(more, key) == if key == e.key && HasKey(es, key) then Some(e.value) else ValueAt(es, key)
  {
    if es != [] {
      var k := |es| - 1;
      ValuesFollow(es[..k], more[..k], e, key);
      HasKeyLast(es, key);
    }
  }

  lemma HasKeyLast(es: seq<Entry>, key: bytes)
    requires es != []
    ensures HasKey(es, key) <==> es[|es| - 1].key == key || HasKey(es[..|es| - 1], key)
  {
    var before := es[..|es| - 1];
    if HasKey(es, key) && es[|es| - 1].key != key {
      var i :| 0 <= i < |es| && es[i].key == key;
      assert before[i].key == key;
    }
    if HasKey(before, key) {
      var i :| 0 <= i < |before| && before[i].key == key;
      assert es[i].key == key;
    }
  }

  lemma AssignedKeys(es: seq<Entry>, e: Entry)
    requires DistinctKeys(es)
    ensures Keys(Assign(es, e)) == if HasKey(es, e.key) then Keys(es) else Keys(es) + [e.key]
  {
    if HasKey(es, e.key) {
      AssignedAt(es, e);
    } else {
      AssignNewKey(es, e);
    }
  }

  lemma KeysAre(es: seq<Entry>, key: bytes)
    ensures key in Keys(es) <==> HasKey(es, key)
  {
    if HasKey(es, key) {
      var i :| 0 <= i < |es| && es[i].key == key;
      assert Keys(es)[i] == key;
    }
  }

  lemma {:induction false} AssignAllValues(es: seq<Entry>, later: seq<Entry>)
    requires DistinctKeys(es) && DistinctKeys(later)
    ensures ValuesOverride(es, later, AssignAll(es, later))
    decreases |later|
  {
    if later != [] {
      hide Assign, AssignAll, DistinctKeys;
      var before, e := later[..|later| - 1], later[|later| - 1];
      var all := AssignAll(es, before);
      BeforeDistinct(later);
      AssignAllValues(es, before);
      AssignAllSnoc(es, before, e);
      AssignAllKeepsDistinct(es, before);
      assert before + [e] == later;
      forall key
        ensures ValueAt(Assign(all, e), key) == if HasKey(later, key) then ValueAt(later, key) else ValueAt(es, key)
      {
        AssignValue(all, e, key);
        HasKeyLast(later, key);
      }
    }
  }

  lemma BeforeDistinct(es: seq<Entry>)
    requires es != [] && DistinctKeys(es)
    ensures DistinctKeys(es[..|es| - 1]) && !HasKey(es[..|es| - 1], es[|es| - 1].key)
  {
  }

  lemma {:induction false} AssignAllKeys(es: seq<Entry>, later: seq<Entry>)
    requires DistinctKeys(es) && DistinctKeys(later)
    ensures KeysFollow(es, later, AssignAll(es, later))
    decreases |later|
  {
    if later == [] {
      assert Keys(es) + [] == Keys(es);
    } else {
      hide Assign, AssignAll, DistinctKeys, HasKey, NewKeys;
      var before, e := later[..|later| - 1], later[|later| - 1];
      var all := AssignAll(es, before);
      BeforeDistinct(later);
      AssignAllKeys(es, before);
      AssignAllSnoc(es, before, e);
      AssignAllKeepsDistinct(es, before);
      assert before + [e] == later;
      assert Keys(later) == Keys(before) + [e.key];
      AssignedKeys(all, e);
      KeysAre(all, e.key);
      KeysAre(before, e.key);
      NewKeysGrow(Keys(es), Keys(before), e.key);
    }
  }

  lemma {:induction false} NewKeysAre(keys: seq<bytes>, later: seq<bytes>)
    ensures forall key :: key in NewKeys(keys, later) <==> key in later && key !in keys
  {
    if later != [] {
      NewKeysAre(keys, later[..|later| - 1]);
    }
  }

  lemma NewKeysGrow(keys: seq<bytes>, before: seq<bytes>, key: bytes)
    requires key !in before
    ensures var all := keys + NewKeys(keys, before);
            keys + NewKeys(keys, before + [key]) == if key in all then all else all + [key]
  {
    NewKeysAre(keys, before);
    assert (before + [key])[..|before|] == before;
  }

  // ---------------------------------------------------------------- the law

  /** Single values, whole nested messages too, are the later's; arrays are the two in order; in
      objects the later's entries override. */
  ghost predicate Replaces(f: Field, later: Field, r: Field) {
    match later
    case One(_) => r == later
    case Many(values) => f.Many? && r == Many(f.values + values)
    case Dict(entries) =>
      && f.Dict? && r.Dict?
      && ValuesOverride(f.entries, entries, r.entries) && KeysFollow(f.entries, entries, r.entries)
  }

  /** If two byte strings decode, what they decode to together has the properties of both: of a
      property that only one of the two messages has, that one's field; and of one that both have,
      the later's over the earlier's. */
  lemma LastOneWins(t: MessageType, x: bytes, y: bytes, m: Message, later: Message, r: Message)
    requires Decodes(t, x, m) && Decodes(t, y, later) && Decodes(t, x + y, r)
    ensures r.fields.Keys == m.fields.Keys + later.fields.Keys
    ensures forall p | p in m.fields && p !in later.fields :: r.fields[p] == m.fields[p]
    ensures forall p | p in later.fields && p !in m.fields :: r.fields[p] == later.fields[p]
    ensures forall p | p in m.fields && p in later.fields :: Replaces(m.fields[p], later.fields[p], r.fields[p])
  {
    DecodeConcatenation(t, x, y, m, later);
    forall p | p in m.fields && p in later.fields
      ensures Replaces(m.fields[p], later.fields[p], r.fields[p])
    {
      FieldsReplaced(t, x, y, m, later, p);
    }
  }

  lemma FieldsReplaced(t: MessageType, x: bytes, y: bytes, m: Message, later: Message, p: Property)
    requires Decodes(t, x, m) && Decodes(t, y, later) && p in m.fields && p in later.fields
    ensures Replaces(m.fields[p], later.fields[p], MergeField(m.fields[p], later.fields[p]))
  {
    hide ValuesOverride, KeysFollow, Case, DecodeMessage;
    Canonical.DecodedIsEncodable(t, x, m);
    Canonical.DecodedIsEncodable(t, y, later);
    Canonical.FitsIff(t, m);
    Canonical.FitsIff(t, later);
    assert Canonical.Holds(t, p, m.fields[p]) && Canonical.Holds(t, p, later.fields[p]);
    var number: nat :| Case(t, number).Some? && Case(t, number).value.property == p &&
                       FieldFits(Case(t, number).value.kind, m.fields[p]);
    var other: nat :| Case(t, other).Some? && Case(t, other).value.property == p &&
                      FieldFits(Case(t, other).value.kind, later.fields[p]);
    CasesDistinct(t, number, other);
    if m.fields[p].Dict? && later.fields[p].Dict? {
      AssignAllValues(m.fields[p].entries, later.fields[p].entries);
      AssignAllKeys(m.fields[p].entries, later.fields[p].entries);
    }
  }
}
