/** The message objects of the reporting protocol, and what it means to merge one into another.

    An absent property, an empty array and an empty object are the same thing to the codec
    (`Emptiness` proves it), so a message that fits a type holds no empty array or object. */
module Messages {
  import opened Wrappers
  import opened Wire
  import opened Schema

  datatype Message = Object(fields: map<Property, Field>)

  datatype Field =
    | One(value: Value)            // a single property
    | Many(values: seq<Value>)     // an array
    | Dict(entries: seq<Entry>)    // an object, in the order in which its keys are enumerated

  datatype Value =
    | Leaf(atom: Atom)
    | Nested(message: Message)
    | Raw(encoded: bytes)          // an already encoded message

  datatype Entry = Entry(key: bytes, value: Value)

  const EMPTY := Object(map[])

  // ---------------------------------------------------------------- fitting a message type

  predicate DistinctKeys(es: seq<Entry>) {
    forall i, j | 0 <= i < j < |es| :: es[i].key != es[j].key
  }

  /** The properties that the first `n` slots write. */
  function PropertiesOf(t: MessageType, n: nat): set<Property> {
    if n == 0 then {} else PropertiesOf(t, n - 1) + {SlotAt(t, n - 1).property}
  }

  /** Message `m` is one that type `t` can hold: known properties, values in range, and object
      keys distinct. */
  ghost predicate Fits(t: MessageType, m: Message)
    decreases m, 3
  {
    m.fields.Keys <= PropertiesOf(t, SlotCount(t)) && SlotsFit(t, SlotCount(t), m)
  }

  /** The first `n` slots find values that fit them. */
  ghost predicate SlotsFit(t: MessageType, n: nat, m: Message)
    decreases m, 2, n
  {
    n == 0 ||
    (&& SlotsFit(t, n - 1, m)
     && (SlotAt(t, n - 1).property in m.fields ==>
           FieldFits(SlotAt(t, n - 1).kind, m.fields[SlotAt(t, n - 1).property])))
  }

  ghost predicate FieldFits(kind: Kind, f: Field)
    decreases f, 1
  {
    match kind
    case Single(e) => f.One? && ValueFits(e, f.value)
    case Repeated(e) => f.Many? && f.values != [] && forall v | v in f.values :: ValueFits(e, v)
    case RepeatedOrRaw(e) => f.Many? && f.values != [] && forall v | v in f.values :: ValueFits(e, v)
    case Packed(sc) => f.Many? && f.values != [] && forall v | v in f.values :: v.Leaf? && AtomFits(sc, v.atom)
    case Keyed(e) =>
      && f.Dict? && f.entries != [] && DistinctKeys(f.entries)
      && forall en | en in f.entries :: AtomFits(Text, Utf8(en.key)) && ValueFits(e, en.value)
  }

  ghost predicate ValueFits(e: Element, v: Value)
    decreases v, 4
  {
    match e
    case Plain(sc) => v.Leaf? && AtomFits(sc, v.atom)
    case Sub(t) => v.Nested? && Fits(t, v.message)
  }

  // ---------------------------------------------------------------- merging

  /** `object[e.key] = e.value`: an existing key keeps its place. */
  function Assign(es: seq<Entry>, e: Entry): (r: seq<Entry>)
    ensures |r| >= 1
  {
    if es == [] then [e]
    else if es[0].key == e.key then [e] + es[1..]
    else [es[0]] + Assign(es[1..], e)
  }

  function AssignAll(es: seq<Entry>, more: seq<Entry>): (r: seq<Entry>)
    decreases |more|
  {
    if more == [] then es else AssignAll(Assign(es, more[0]), more[1..])
  }

  /** A later field over an earlier one: a single value is replaced whole, an array is appended
      to, an object is assigned to. */
  function MergeField(f: Field, later: Field): Field {
    if f.Many? && later.Many? then Many(f.values + later.values)
    else if f.Dict? && later.Dict? then Dict(AssignAll(f.entries, later.entries))
    else later
  }

  predicate IsVoid(f: Field) {
    (f.Many? && |f.values| == 0) || (f.Dict? && |f.entries| == 0)
  }

  function Absorb(m: Message, p: Property, f: Field): Message {
    if IsVoid(f) then m
    else Object(m.fields[p := if p in m.fields then MergeField(m.fields[p], f) else f])
  }

  function Merge(m: Message, later: Message): Message {
    Object(map p | p in m.fields.Keys + later.fields.Keys ::
              if p !in m.fields then later.fields[p]
              else if p !in later.fields then m.fields[p]
              else MergeField(m.fields[p], later.fields[p]))
  }

  predicate SameShape(f: Field, g: Field) {
    f.One? == g.One? && f.Many? == g.Many?
  }

  predicate HasShape(kind: Kind, f: Field) {
    match kind
    case Single(_) => f.One?
    case Repeated(_) => f.Many?
    case RepeatedOrRaw(_) => f.Many?
    case Packed(_) => f.Many?
    case Keyed(_) => f.Dict?
  }

  /** Every property holds what the switch case that assigns it would put there. */
  ghost predicate Shaped(t: MessageType, m: Message) {
    forall number: nat | Case(t, number).Some? && Case(t, number).value.property in m.fields ::
      FieldShaped(Case(t, number).value.kind, m.fields[Case(t, number).value.property])
  }

  predicate FieldShaped(kind: Kind, f: Field) {
    HasShape(kind, f) && !IsVoid(f) && (f.Dict? ==> DistinctKeys(f.entries))
  }

  // ---------------------------------------------------------------- assignment into an object

  predicate HasKey(es: seq<Entry>, key: bytes) {
    exists i | 0 <= i < |es| :: es[i].key == key
  }

  lemma {:induction false} AssignKeys(es: seq<Entry>, e: Entry, key: bytes)
    ensures HasKey(Assign(es, e), key) <==> HasKey(es, key) || key == e.key
  {
    if es == [] {
      assert Assign(es, e)[0].key == e.key;
    } else {
      AssignKeys(es[1..], e, key);
      HasKeySplit(es, key);
      HasKeySplit(Assign(es, e), key);
    }
  }

  lemma HasKeySplit(es: seq<Entry>, key: bytes)
    requires es != []
    ensures HasKey(es, key) <==> es[0].key == key || HasKey(es[1..], key)
  {
    if HasKey(es, key) && es[0].key != key {
      var i :| 0 <= i < |es| && es[i].key == key;
      assert es[1..][i - 1].key == key;
    }
    if HasKey(es[1..], key) {
      var i :| 0 <= i < |es[1..]| && es[1..][i].key == key;
      assert es[i + 1].key == key;
    }
  }

  lemma {:induction false} AssignKeepsDistinct(es: seq<Entry>, e: Entry)
    requires DistinctKeys(es)
    ensures DistinctKeys(Assign(es, e))
  {
    if es != [] && es[0].key != e.key {
      AssignKeepsDistinct(es[1..], e);
      var r := Assign(es[1..], e);
      forall j | 0 <= j < |r|
        ensures es[0].key != r[j].key
      {
        AssignKeys(es[1..], e, r[j].key);
      }
    }
  }

  lemma {:induction false} AssignTwice(es: seq<Entry>, e: Entry, f: Entry)
    requires e.key == f.key
    ensures Assign(Assign(es, e), f) == Assign(es, f)
  {
    if es != [] && es[0].key != e.key {
      AssignTwice(es[1..], e, f);
    }
  }

  lemma {:induction false} AssignCommutes(es: seq<Entry>, e: Entry, f: Entry)
    requires e.key != f.key && HasKey(es, e.key)
    ensures Assign(Assign(es, f), e) == Assign(Assign(es, e), f)
  {
    HasKeySplit(es, e.key);
    if es[0].key != e.key {
      if es[0].key != f.key {
        AssignCommutes(es[1..], e, f);
      }
    }
  }

  lemma {:induction false} AssignAllSplit(es: seq<Entry>, a: seq<Entry>, b: seq<Entry>)
    ensures AssignAll(AssignAll(es, a), b) == AssignAll(es, a + b)
    decreases |a|
  {
    if a == [] {
      assert a + b == b;
    } else {
      assert (a + b)[0] == a[0] && (a + b)[1..] == a[1..] + b;
      AssignAllSplit(Assign(es, a[0]), a[1..], b);
    }
  }

  lemma AssignAllSnoc(es: seq<Entry>, a: seq<Entry>, e: Entry)
    ensures AssignAll(es, a + [e]) == Assign(AssignAll(es, a), e)
  {
    AssignAllSplit(es, a, [e]);
    assert [e][1..] == [];
    assert AssignAll(AssignAll(es, a), [e]) == AssignAll(Assign(AssignAll(es, a), e), []);
  }

  /** Overwriting a present key may be done before the assignments to other keys. */
  lemma {:induction false} AssignEarly(es: seq<Entry>, a: seq<Entry>, e: Entry)
    requires HasKey(es, e.key) && !HasKey(a, e.key)
    ensures Assign(AssignAll(es, a), e) == AssignAll(Assign(es, e), a)
    decreases |a|
  {
    if a != [] {
      HasKeySplit(a, e.key);
      AssignKeys(es, a[0], e.key);
      AssignEarly(Assign(es, a[0]), a[1..], e);
      AssignCommutes(es, e, a[0]);
    }
  }

  /** Assigning into what will be assigned is assigning afterwards. */
  lemma {:induction false} AssignInner(es: seq<Entry>, a: seq<Entry>, e: Entry)
    requires DistinctKeys(a)
    ensures AssignAll(es, Assign(a, e)) == Assign(AssignAll(es, a), e)
    decreases |a|
  {
    if a == [] {
      AssignAllSnoc(es, [], e);
      assert [] + [e] == [e];
    } else if a[0].key == e.key {
      assert ([e] + a[1..])[1..] == a[1..];
      AssignTwice(es, a[0], e);
      AssignKeys(es, a[0], e.key);
      AssignEarly(Assign(es, a[0]), a[1..], e);
    } else {
      assert ([a[0]] + Assign(a[1..], e))[1..] == Assign(a[1..], e);
      AssignInner(Assign(es, a[0]), a[1..], e);
    }
  }

  lemma {:induction false} AssignAllAssociative(es: seq<Entry>, a: seq<Entry>, b: seq<Entry>)
    requires DistinctKeys(a)
    ensures AssignAll(AssignAll(es, a), b) == AssignAll(es, AssignAll(a, b))
    decreases |b|
  {
    if b != [] {
      AssignInner(es, a, b[0]);
      AssignKeepsDistinct(a, b[0]);
      AssignAllAssociative(es, Assign(a, b[0]), b[1..]);
    }
  }

  lemma {:induction false} AssignAllKeepsDistinct(es: seq<Entry>, a: seq<Entry>)
    requires DistinctKeys(es)
    ensures DistinctKeys(AssignAll(es, a))
    ensures |AssignAll(es, a)| >= |es|
    decreases |a|
  {
    if a != [] {
      AssignKeepsDistinct(es, a[0]);
      AssignGrows(es, a[0]);
      AssignAllKeepsDistinct(Assign(es, a[0]), a[1..]);
    }
  }

  lemma {:induction false} AssignGrows(es: seq<Entry>, e: Entry)
    ensures |Assign(es, e)| >= |es|
  {
    if es != [] {
      AssignGrows(es[1..], e);
    }
  }

  lemma {:induction false} AssignNewKey(es: seq<Entry>, e: Entry)
    requires !HasKey(es, e.key)
    ensures Assign(es, e) == es + [e]
  {
    if es != [] {
      HasKeySplit(es, e.key);
      AssignNewKey(es[1..], e);
    }
  }

  /** Assigning entries with keys of their own appends them in order. */
  lemma {:induction false} AssignAllNewKeys(es: seq<Entry>, a: seq<Entry>)
    requires DistinctKeys(es + a)
    ensures AssignAll(es, a) == es + a
    decreases |a|
  {
    if a == [] {
      assert es + a == es;
    } else {
      forall i | 0 <= i < |es|
        ensures es[i].key != a[0].key
      {
        assert (es + a)[i] == es[i] && (es + a)[|es|] == a[0];
      }
      AssignNewKey(es, a[0]);
      assert es + [a[0]] + a[1..] == es + a;
      AssignAllNewKeys(es + [a[0]], a[1..]);
    }
  }

  // ---------------------------------------------------------------- laws of merging

  /** Absorbing a field in two parts. */
  lemma AbsorbValues(m: Message, p: Property, a: seq<Value>, b: seq<Value>)
    ensures Absorb(Absorb(m, p, Many(a)), p, Many(b)) == Absorb(m, p, Many(a + b))
  {
    if a == [] {
      assert a + b == b;
    } else if b == [] {
      assert a + b == a;
    } else if p in m.fields && m.fields[p].Many? {
      assert m.fields[p].values + a + b == m.fields[p].values + (a + b);
    }
  }

  lemma AbsorbEntries(m: Message, p: Property, a: seq<Entry>, b: seq<Entry>)
    requires DistinctKeys(a + b)
    ensures Absorb(Absorb(m, p, Dict(a)), p, Dict(b)) == Absorb(m, p, Dict(a + b))
  {
    if a == [] {
      assert a + b == b;
    } else if b == [] {
      assert a + b == a;
    } else {
      AssignAllNewKeys(a, b);
      if p in m.fields && m.fields[p].Dict? {
        AssignAllSplit(m.fields[p].entries, a, b);
      }
    }
  }

  lemma MergeFieldAssociative(f: Field, g: Field, h: Field)
    requires SameShape(f, g) && SameShape(g, h)
    requires g.Dict? ==> DistinctKeys(g.entries)
    ensures MergeField(MergeField(f, g), h) == MergeField(f, MergeField(g, h))
  {
    match g
    case One(_) =>
    case Many(_) => assert f.values + g.values + h.values == f.values + (g.values + h.values);
    case Dict(_) => AssignAllAssociative(f.entries, g.entries, h.entries);
  }

  /** Absorbing a field of the shape its switch case gives keeps a message in shape. */
  lemma AbsorbKeepsShape(t: MessageType, m: Message, number: nat, f: Field)
    requires Shaped(t, m) && Case(t, number).Some?
    requires HasShape(Case(t, number).value.kind, f) && (f.Dict? ==> DistinctKeys(f.entries))
    ensures Shaped(t, Absorb(m, Case(t, number).value.property, f))
  {
    var p := Case(t, number).value.property;
    var r := Absorb(m, p, f);
    forall other: nat | Case(t, other).Some? && Case(t, other).value.property in r.fields
      ensures FieldShaped(Case(t, other).value.kind, r.fields[Case(t, other).value.property])
    {
      if Case(t, other).value.property == p {
        CasesDistinct(t, number, other);
        if p in m.fields && f.Dict? {
          AssignAllKeepsDistinct(m.fields[p].entries, f.entries);
        }
      }
    }
  }

  /** Merging commutes with absorbing: what a record adds to the later message, it adds to the
      merged one. */
  lemma AbsorbMerges(t: MessageType, a: Message, b: Message, number: nat, f: Field)
    requires Shaped(t, a) && Shaped(t, b) && Case(t, number).Some?
    requires HasShape(Case(t, number).value.kind, f)
    ensures Absorb(Merge(a, b), Case(t, number).value.property, f) ==
            Merge(a, Absorb(b, Case(t, number).value.property, f))
  {
    var p := Case(t, number).value.property;
    if !IsVoid(f) {
      var lhs, rhs := Absorb(Merge(a, b), p, f), Merge(a, Absorb(b, p, f));
      assert lhs.fields.Keys == rhs.fields.Keys;
      if p in a.fields && p in b.fields {
        MergeFieldAssociative(a.fields[p], b.fields[p], f);
      }
      forall q | q in lhs.fields.Keys
        ensures lhs.fields[q] == rhs.fields[q]
      {
      }
      assert lhs.fields == rhs.fields;
    }
  }
}
