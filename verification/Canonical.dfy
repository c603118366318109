/** Which messages fit a type, said by the cases of `decode`; and that whatever decodes fits, so that
    it can be encoded again and comes back the same. */
module Canonical {
  import opened Wrappers
  import opened Wire
  import opened Schema
  import opened Messages
  import opened Serial
  import opened RoundTrip
  import opened Concatenation

  /** Some case assigns the property, and it holds what that case reads. */
  ghost predicate Holds(t: MessageType, p: Property, f: Field) {
    exists number: nat | Case(t, number).Some? ::
      Case(t, number).value.property == p && FieldFits(Case(t, number).value.kind, f)
  }

  ghost predicate AllHold(t: MessageType, m: Message) {
    forall p | p in m.fields :: Holds(t, p, m.fields[p])
  }

  lemma KindsFit(kind: Kind, f: Field)
    ensures FieldFits(DecodedKind(kind), f) <==> FieldFits(kind, f)
  {
    hide Fits, SlotsFit;
  }

  /** A slot's property holds what fits the slot if and only if it holds what its case reads. */
  lemma SlotHolds(t: MessageType, i: nat, f: Field)
    requires i < SlotCount(t)
    ensures Holds(t, SlotAt(t, i).property, f) <==> FieldFits(SlotAt(t, i).kind, f)
  {
    hide SlotAt, SlotCount, Case, FieldFits;
    TablesAgree(t, i);
    var slot := SlotAt(t, i);
    KindsFit(slot.kind, f);
    if Holds(t, slot.property, f) {
      var number: nat :| Case(t, number).Some? && Case(t, number).value.property == slot.property &&
                         FieldFits(Case(t, number).value.kind, f);
      CasesDistinct(t, number, slot.tag / 8);
    }
  }

  lemma {:induction false} PropertyOfSlot(t: MessageType, n: nat, p: Property) returns (i: nat)
    requires p in PropertiesOf(t, n)
    ensures i < n && SlotAt(t, i).property == p
  {
    hide SlotAt;
    if SlotAt(t, n - 1).property == p {
      i := n - 1;
    } else {
      i := PropertyOfSlot(t, n - 1, p);
    }
  }

  lemma {:induction false} SlotIsProperty(t: MessageType, n: nat, i: nat)
    requires i < n
    ensures SlotAt(t, i).property in PropertiesOf(t, n)
  {
    hide SlotAt;
    if i < n - 1 {
      SlotIsProperty(t, n - 1, i);
    }
  }

  lemma {:induction false} SlotsFitIff(t: MessageType, n: nat, m: Message)
    ensures SlotsFit(t, n, m) <==>
            forall i: nat | i < n && SlotAt(t, i).property in m.fields ::
              FieldFits(SlotAt(t, i).kind, m.fields[SlotAt(t, i).property])
  {
    hide SlotAt, FieldFits;
    if n > 0 {
      SlotsFitIff(t, n - 1, m);
    }
  }

  /** A message fits a type if and only if each of its properties is one that some case of the
      type's `decode` assigns, and holds what that case reads. */
  lemma FitsIff(t: MessageType, m: Message)
    ensures Fits(t, m) <==> AllHold(t, m)
  {
    hide SlotAt, SlotCount, Case, FieldFits, SlotsFit, Holds;
    SlotsFitIff(t, SlotCount(t), m);
    if Fits(t, m) {
      forall p | p in m.fields
        ensures Holds(t, p, m.fields[p])
      {
        var i := PropertyOfSlot(t, SlotCount(t), p);
        SlotHolds(t, i, m.fields[p]);
      }
    }
    if AllHold(t, m) {
      forall p | p in m.fields
        ensures p in PropertiesOf(t, SlotCount(t))
      {
        var i := HoldsInSlot(t, p, m.fields[p]);
        SlotIsProperty(t, SlotCount(t), i);
      }
      forall i: nat | i < SlotCount(t) && SlotAt(t, i).property in m.fields
        ensures FieldFits(SlotAt(t, i).kind, m.fields[SlotAt(t, i).property])
      {
        SlotHolds(t, i, m.fields[SlotAt(t, i).property]);
      }
    }
  }

  lemma HoldsInSlot(t: MessageType, p: Property, f: Field) returns (i: nat)
    requires Holds(t, p, f)
    ensures i < SlotCount(t) && SlotAt(t, i).property == p
  {
    hide SlotAt, SlotCount, Case, FieldFits;
    var number: nat :| Case(t, number).Some? && Case(t, number).value.property == p &&
                       FieldFits(Case(t, number).value.kind, f);
    i := CasesWritten(t, number);
  }

  // ---------------------------------------------------------------- whatever decodes fits

  lemma ReadAtomFits(sc: Scalar, s: bytes)
    requires ReadAtom(sc, s).Done?
    ensures AtomFits(sc, ReadAtom(sc, s).value)
  {
    hide ReadVarint;
  }

  lemma {:induction false} ReadElementFits(e: Element, s: bytes)
    requires ReadElement(e, s).Done?
    ensures ValueFits(e, ReadElement(e, s).value)
    decreases |s|, 2
  {
    hide Fits;
    match e
    case Plain(sc) => ReadAtomFits(sc, s);
    case Sub(t) =>
      var (n, s1) := ReadUInt32(s).Extract();
      DecodeFits(t, s1, n, EMPTY);
      FitsIff(t, DecodeMessage(t, s1, n, EMPTY).value);
  }

  lemma {:induction false} ReadPackedFits(sc: Scalar, s: bytes, left: int)
    requires ReadPacked(sc, s, left).Done?
    ensures forall v | v in ReadPacked(sc, s, left).value :: v.Leaf? && AtomFits(sc, v.atom)
    decreases |s|
  {
    hide ReadAtom, AtomFits;
    if left > 0 {
      ReadAtomFits(sc, s);
      var (_, s1) := ReadAtom(sc, s).Extract();
      ReadPackedFits(sc, s1, left - (|s| - |s1|));
    }
  }

  /** What a case reads fits, or is an empty packed block. */
  lemma {:induction false} ReadFieldFits(kind: Kind, wireType: nat, s: bytes)
    requires ReadField(kind, wireType, s).Done?
    ensures var f := ReadField(kind, wireType, s).value; IsVoid(f) || FieldFits(kind, f)
    decreases |s|, 3
  {
    hide ReadElement, ReadEntry, ReadPacked, ReadAtom, AtomFits, ValueFits;
    match kind
    case Single(e) => ReadElementFits(e, s);
    case Repeated(e) => ReadElementFits(e, s);
    case RepeatedOrRaw(e) => ReadElementFits(e, s);
    case Packed(sc) =>
      if wireType == 2 {
        ReadPackedFits(sc, ReadUInt32(s).rest, ReadUInt32(s).value);
      } else {
        ReadAtomFits(sc, s);
      }
    case Keyed(e) => ReadEntryFits(e, s);
  }

  lemma {:induction false} ReadEntryFits(e: Element, s: bytes)
    requires ReadEntry(e, s).Done?
    ensures var entry := ReadEntry(e, s).value; AtomFits(Text, Utf8(entry.key)) && ValueFits(e, entry.value)
    decreases |s|, 2
  {
    hide ReadElement, ReadAtom, AtomFits, ValueFits;
    var s1 := Advance(ReadVarint(s).rest);
    ReadAtomFits(Text, s1);
    ReadElementFits(e, Advance(ReadAtom(Text, s1).rest));
    TextIsText(s1);
  }

  lemma TextIsText(s: bytes)
    ensures ReadAtom(Text, s).Done? ==> ReadAtom(Text, s).value.Utf8?
  {
  }

  /** Adding a fitting field to one that fits the same kind. */
  lemma MergeFits(kind: Kind, f: Field, later: Field)
    requires FieldFits(kind, f) && FieldFits(kind, later)
    ensures FieldFits(kind, MergeField(f, later))
  {
    hide ValueFits, AtomFits;
    if kind.Keyed? {
      AssignAllKeepsDistinct(f.entries, later.entries);
      AssignAllElements(f.entries, later.entries);
    }
  }

  lemma {:induction false} AssignElements(es: seq<Entry>, e: Entry)
    ensures forall en | en in Assign(es, e) :: en in es || en == e
  {
    if es != [] {
      AssignElements(es[1..], e);
    }
  }

  lemma {:induction false} AssignAllElements(es: seq<Entry>, more: seq<Entry>)
    ensures forall en | en in AssignAll(es, more) :: en in es || en in more
    decreases |more|
  {
    if more != [] {
      AssignElements(es, more[0]);
      AssignAllElements(Assign(es, more[0]), more[1..]);
    }
  }

  lemma AbsorbFits(t: MessageType, number: nat, m: Message, f: Field)
    requires AllHold(t, m) && Case(t, number).Some?
    requires IsVoid(f) || FieldFits(Case(t, number).value.kind, f)
    ensures AllHold(t, Absorb(m, Case(t, number).value.property, f))
  {
    hide Case, FieldFits, MergeField;
    var Target(p, kind) := Case(t, number).value;
    if !IsVoid(f) && p in m.fields {
      var other: nat :| Case(t, other).Some? && Case(t, other).value.property == p &&
                        FieldFits(Case(t, other).value.kind, m.fields[p]);
      CasesDistinct(t, number, other);
      MergeFits(kind, m.fields[p], f);
    }
  }

  lemma {:induction false} DecodeFits(t: MessageType, s: bytes, left: int, m: Message)
    requires AllHold(t, m) && DecodeMessage(t, s, left, m).Done?
    ensures AllHold(t, DecodeMessage(t, s, left, m).value)
    decreases |s|, 2, left
  {
    hide ReadField, AllHold, Case, Absorb;
    if left > 0 {
      var (tag, s1) := ReadUInt32(s).Extract();
      var (record, rest) := ReadRecord(t, s).Extract();
      if Case(t, tag / 8).Some? {
        ReadFieldFits(Case(t, tag / 8).value.kind, tag % 8, s1);
        AbsorbFits(t, tag / 8, m, record.field);
      }
      DecodeFits(t, rest, left - (|s| - |rest|), Contribute(m, record));
    }
  }

  /** Whatever a byte string decodes to fits the type; so it can be encoded, and its encoding, which
      is the same for all byte strings that decode to it, decodes to it again. */
  lemma DecodedIsEncodable(t: MessageType, s: bytes, m: Message)
    requires Decodes(t, s, m)
    ensures Fits(t, m)
    ensures |EncodeMessage(t, m)| < TWO_32 ==> Decodes(t, EncodeMessage(t, m), m)
  {
    hide DecodeMessage, EncodeMessage, Fits, Holds;
    DecodeFits(t, s, |s|, EMPTY);
    FitsIff(t, m);
    if |EncodeMessage(t, m)| < TWO_32 {
      DecodeEncode(t, m);
    }
  }
}
