/** `decode(encode(m)) == m` for every message type of the reporting protocol. */
module RoundTrip {
  import opened Wire
  import opened Schema
  import opened Messages
  import opened Serial

  /** Reading one record that a slot wrote. */
  lemma ReadOwnRecord(t: MessageType, i: nat, body: bytes, s: bytes)
    requires i < SlotCount(t)
    requires s == Varint(SlotAt(t, i).tag) + body
    ensures ReadUInt32(s) == Done(SlotAt(t, i).tag, body)
    ensures SlotAgrees(t, SlotAt(t, i))
  {
    TablesAgree(t, i);
    UInt32RoundTrip(SlotAt(t, i).tag, body);
  }

  /** One turn of the decoding loop. */
  lemma DecodeStep(t: MessageType, s: bytes, left: int, m: Message, record: Record, rest: bytes)
    requires left > 0 && ReadRecord(t, s) == Done(record, rest)
    ensures DecodeMessage(t, s, left, m) ==
            DecodeMessage(t, rest, left - (|s| - |rest|), Contribute(m, record))
  {
  }

  /** One turn of the decoding loop over a record that a slot wrote. */
  lemma DecodeOwnRecord(t: MessageType, i: nat, body: bytes, rest: bytes, left: int, m: Message, f: Field)
    requires i < SlotCount(t)
    requires ReadField(DecodedKind(SlotAt(t, i).kind), WireType(SlotAt(t, i).kind), body + rest) == Done(f, rest)
    requires left >= |Varint(SlotAt(t, i).tag) + body|
    ensures DecodeMessage(t, Varint(SlotAt(t, i).tag) + body + rest, left, m) ==
            DecodeMessage(t, rest, left - |Varint(SlotAt(t, i).tag) + body|, Absorb(m, SlotAt(t, i).property, f))
  {
    hide DecodeMessage, ReadRecord, ReadField, SlotAt;
    var s := Varint(SlotAt(t, i).tag) + body + rest;
    assert s == Varint(SlotAt(t, i).tag) + (body + rest);
    ReadOwnRecord(t, i, body + rest, s);
    ReadContribution(t, s, SlotAt(t, i), body + rest, f, rest);
    DecodeStep(t, s, left, m, Contribution(SlotAt(t, i).property, f), rest);
  }

  lemma ReadContribution(t: MessageType, s: bytes, slot: Slot, s1: bytes, f: Field, rest: bytes)
    requires SlotAgrees(t, slot) && ReadUInt32(s) == Done(slot.tag, s1)
    requires ReadField(DecodedKind(slot.kind), WireType(slot.kind), s1) == Done(f, rest)
    ensures ReadRecord(t, s) == Done(Contribution(slot.property, f), rest)
  {
  }

  lemma {:induction false} ElementRoundTrip(e: Element, v: Value, rest: bytes)
    requires ValueFits(e, v) && |WriteElement(e, v)| < TWO_32
    ensures ReadElement(e, WriteElement(e, v) + rest) == Done(v, rest)
    decreases v, 4
  {
    match e
    case Plain(sc) => AtomRoundTrip(sc, v.atom, rest);
    case Sub(t) =>
      FrameRoundTrip(EncodeMessage(t, v.message), rest);
      MessageRoundTrip(t, v.message, rest);
  }

  lemma {:induction false} EntryRoundTrip(e: Element, entry: Entry, rest: bytes)
    requires AtomFits(Text, Utf8(entry.key)) && ValueFits(e, entry.value) && |EntryBody(e, entry)| < TWO_32
    ensures ReadEntry(e, Frame(EntryBody(e, entry)) + rest) == Done(entry, rest)
    decreases entry, 0
  {
    hide ReadEntry, ReadElement, WriteElement, Varint, ReadVarint, ReadAtom, WriteAtom, Frame, FieldFits, ValueFits;
    var body := EntryBody(e, entry);
    var key := WriteAtom(Text, Utf8(entry.key));
    var value := WriteElement(e, entry.value);
    var afterKey := Varint(VALUE_TAG) + (value + rest);
    FrameVarint(body, rest);
    OneByteTag(KEY_TAG, key + afterKey);
    assert body + rest == Varint(KEY_TAG) + (key + afterKey);
    AtomRoundTrip(Text, Utf8(entry.key), afterKey);
    OneByteTag(VALUE_TAG, value + rest);
    ElementRoundTrip(e, entry.value, rest);
    ReadEntryParts(e, Frame(body) + rest, |body|, body + rest, entry.key, afterKey, entry.value, rest);
  }

  lemma OneByteTag(tag: nat, s: bytes)
    requires tag < 128
    ensures Advance(Varint(tag) + s) == s
  {
  }

  lemma ReadEntryParts(e: Element, s: bytes, n: nat, s1: bytes, key: bytes, s2: bytes, v: Value, rest: bytes)
    requires ReadVarint(s) == Done(n, s1)
    requires ReadAtom(Text, Advance(s1)) == Done(Utf8(key), s2)
    requires ReadElement(e, Advance(s2)) == Done(v, rest)
    ensures ReadEntry(e, s) == Done(Entry(key, v), rest)
  {
  }

  lemma FrameVarint(body: bytes, rest: bytes)
    requires |body| < TWO_32
    ensures ReadVarint(Frame(body) + rest) == Done(|body|, body + rest)
  {
    assert Frame(body) + rest == Varint(|body|) + (body + rest);
    VarintRoundTrip(|body|, body + rest);
  }

  lemma {:induction false} PackedBlockRoundTrip(sc: Scalar, vs: seq<Value>, rest: bytes)
    requires forall i | 0 <= i < |vs| :: vs[i].Leaf? && AtomFits(sc, vs[i].atom)
    ensures ReadPacked(sc, PackedBlock(sc, vs) + rest, |PackedBlock(sc, vs)|) == Done(vs, rest)
  {
    hide Varint, ReadGroups, ReadVarint, WriteAtom, ReadAtom, Frame, ReadPacked, Absorb;
    if vs == [] {
      assert [] + rest == rest;
      ReadPackedNone(sc, rest);
    } else {
      var first, others := WriteAtom(sc, vs[0].atom), PackedBlock(sc, vs[1..]);
      var s := PackedBlock(sc, vs) + rest;
      assert s == first + (others + rest);
      AtomRoundTrip(sc, vs[0].atom, others + rest);
      PackedBlockRoundTrip(sc, vs[1..], rest);
      ReadPackedStep(sc, s, |first| + |others|, vs[0].atom, others + rest, vs[1..], rest);
      assert vs == [vs[0]] + vs[1..];
    }
  }

  lemma ReadPackedNone(sc: Scalar, s: bytes)
    ensures ReadPacked(sc, s, 0) == Done([], s)
  {
  }

  lemma ReadPackedStep(sc: Scalar, s: bytes, left: int, a: Atom, s1: bytes, vs: seq<Value>, rest: bytes)
    requires left > 0 && ReadAtom(sc, s) == Done(a, s1)
    requires ReadPacked(sc, s1, left - (|s| - |s1|)) == Done(vs, rest)
    ensures ReadPacked(sc, s, left) == Done([Leaf(a)] + vs, rest)
  {
  }

  lemma {:induction false} ValuesRoundTrip(t: MessageType, i: nat, e: Element, vs: seq<Value>,
                                           rest: bytes, left: int, m: Message)
    requires i < SlotCount(t) && (SlotAt(t, i).kind == Repeated(e) || SlotAt(t, i).kind == RepeatedOrRaw(e))
    requires forall v | v in vs :: ValueFits(e, v)
    requires |EncodeValues(SlotAt(t, i).tag, e, vs)| < TWO_32
    requires left >= |EncodeValues(SlotAt(t, i).tag, e, vs)|
    ensures var bytes := EncodeValues(SlotAt(t, i).tag, e, vs);
            DecodeMessage(t, bytes + rest, left, m) ==
            DecodeMessage(t, rest, left - |bytes|, Absorb(m, SlotAt(t, i).property, Many(vs)))
    decreases vs, 0
  {
    hide SlotAt, SlotCount, Case, DecodeMessage, ReadRecord, ReadElement, ReadEntry;
    var slot := SlotAt(t, i);
    if vs == [] {
      assert [] + rest == rest;
    } else {
      var body, others := WriteElement(e, vs[0]), EncodeValues(slot.tag, e, vs[1..]);
      assert EncodeValues(slot.tag, e, vs) + rest == Varint(slot.tag) + body + (others + rest);
      ElementRoundTrip(e, vs[0], others + rest);
      DecodeOwnRecord(t, i, body, others + rest, left, m, Many([vs[0]]));
      ValuesRoundTrip(t, i, e, vs[1..], rest, left - |Varint(slot.tag) + body|,
                      Absorb(m, slot.property, Many([vs[0]])));
      AbsorbValues(m, slot.property, [vs[0]], vs[1..]);
      assert [vs[0]] + vs[1..] == vs;
    }
  }

  lemma {:induction false} EntriesRoundTrip(t: MessageType, i: nat, e: Element, es: seq<Entry>,
                                            rest: bytes, left: int, m: Message)
    requires i < SlotCount(t) && SlotAt(t, i).kind == Keyed(e)
    requires DistinctKeys(es)
    requires forall en | en in es :: AtomFits(Text, Utf8(en.key)) && ValueFits(e, en.value)
    requires |EncodeEntries(SlotAt(t, i).tag, e, es)| < TWO_32
    requires left >= |EncodeEntries(SlotAt(t, i).tag, e, es)|
    ensures var bytes := EncodeEntries(SlotAt(t, i).tag, e, es);
            DecodeMessage(t, bytes + rest, left, m) ==
            DecodeMessage(t, rest, left - |bytes|, Absorb(m, SlotAt(t, i).property, Dict(es)))
    decreases es, 0
  {
    hide SlotAt, SlotCount, Case, DecodeMessage, ReadRecord, ReadElement, ReadEntry, EncodeMessage,
      EncodeSlots, EncodeSlot, EncodeField, EncodeValues, EncodeRecord, EntryBody, WriteElement;
    var slot := SlotAt(t, i);
    if es == [] {
      assert [] + rest == rest;
    } else {
      var body, others := Frame(EntryBody(e, es[0])), EncodeEntries(slot.tag, e, es[1..]);
      assert EncodeEntries(slot.tag, e, es) + rest == Varint(slot.tag) + body + (others + rest);
      EntryRoundTrip(e, es[0], others + rest);
      DecodeOwnRecord(t, i, body, others + rest, left, m, Dict([es[0]]));
      EntriesRoundTrip(t, i, e, es[1..], rest, left - |Varint(slot.tag) + body|,
                       Absorb(m, slot.property, Dict([es[0]])));
      assert [es[0]] + es[1..] == es;
      AbsorbEntries(m, slot.property, [es[0]], es[1..]);
    }
  }

  /** Decoding what a slot wrote absorbs the field it wrote. */
  lemma {:induction false} FieldRoundTrip(t: MessageType, i: nat, f: Field, rest: bytes, left: int, m: Message)
    requires i < SlotCount(t) && FieldFits(SlotAt(t, i).kind, f)
    requires |EncodeField(SlotAt(t, i), f)| < TWO_32
    requires left >= |EncodeField(SlotAt(t, i), f)|
    ensures DecodeMessage(t, EncodeField(SlotAt(t, i), f) + rest, left, m) ==
            DecodeMessage(t, rest, left - |EncodeField(SlotAt(t, i), f)|, Absorb(m, SlotAt(t, i).property, f))
    decreases f, 1
  {
    hide DecodeMessage, ReadRecord, ReadElement, ReadEntry, EncodeMessage, EncodeSlots, EncodeSlot,
      EncodeValues, EncodeEntries, EntryBody, WriteElement, Varint, ReadGroups, ReadVarint,
      WriteAtom, ReadAtom, Frame, PackedBlock, ReadPacked, Absorb;
    var slot := SlotAt(t, i);
    match slot.kind
    case Single(e) =>
      ElementRoundTrip(e, f.value, rest);
      DecodeOwnRecord(t, i, WriteElement(e, f.value), rest, left, m, f);
    case Repeated(e) => ValuesRoundTrip(t, i, e, f.values, rest, left, m);
    case RepeatedOrRaw(e) => ValuesRoundTrip(t, i, e, f.values, rest, left, m);
    case Packed(sc) =>
      var block := PackedBlock(sc, f.values);
      FrameRoundTrip(block, rest);
      PackedBlockRoundTrip(sc, f.values, rest);
      DecodeOwnRecord(t, i, Frame(block), rest, left, m, f);
    case Keyed(e) => EntriesRoundTrip(t, i, e, f.entries, rest, left, m);
  }

  /** The part of `m` that the first `n` slots write. */
  ghost function Written(t: MessageType, n: nat, m: Message): Message {
    Object(map p | p in m.fields && p in PropertiesOf(t, n) :: m.fields[p])
  }

  lemma {:induction false} SlotsRoundTrip(t: MessageType, n: nat, m: Message, rest: bytes, left: int)
    requires n <= SlotCount(t) && SlotsFit(t, n, m)
    requires |EncodeSlots(t, n, m)| < TWO_32
    requires left >= |EncodeSlots(t, n, m)|
    ensures DecodeMessage(t, EncodeSlots(t, n, m) + rest, left, EMPTY) ==
            DecodeMessage(t, rest, left - |EncodeSlots(t, n, m)|, Written(t, n, m))
    decreases m, 2, n
  {
    hide SlotAt, SlotCount, Case, DecodeMessage, ReadRecord, ReadField, ReadElement, ReadEntry;
    if n == 0 {
      assert [] + rest == rest;
      assert Written(t, n, m).fields == map[];
    } else {
      var earlier, slot := EncodeSlots(t, n - 1, m), SlotAt(t, n - 1);
      var own := EncodeSlot(slot, m);
      assert EncodeSlots(t, n, m) + rest == earlier + (own + rest);
      SlotsRoundTrip(t, n - 1, m, own + rest, left);
      WrittenStep(t, n - 1, m);
      if slot.property in m.fields {
        FieldRoundTrip(t, n - 1, m.fields[slot.property], rest, left - |earlier|, Written(t, n - 1, m));
      } else {
        assert own + rest == rest;
      }
    }
  }

  /** A slot absorbs its own property. */
  lemma WrittenStep(t: MessageType, k: nat, m: Message)
    requires k < SlotCount(t)
    requires SlotAt(t, k).property in m.fields ==> FieldFits(SlotAt(t, k).kind, m.fields[SlotAt(t, k).property])
    ensures var p := SlotAt(t, k).property;
            Written(t, k + 1, m) ==
            if p in m.fields then Absorb(Written(t, k, m), p, m.fields[p]) else Written(t, k, m)
  {
    var p := SlotAt(t, k).property;
    EarlierPropertiesDiffer(t, k, k);
    if p in m.fields {
      FittingFieldNotVoid(SlotAt(t, k).kind, m.fields[p]);
      assert Written(t, k + 1, m).fields == Written(t, k, m).fields[p := m.fields[p]];
    } else {
      assert Written(t, k + 1, m).fields == Written(t, k, m).fields;
    }
  }

  lemma {:induction false} EarlierPropertiesDiffer(t: MessageType, n: nat, k: nat)
    requires n <= k < SlotCount(t)
    ensures SlotAt(t, k).property !in PropertiesOf(t, n)
  {
    hide SlotAt, SlotCount;
    if n > 0 {
      PropertiesDistinct(t, n - 1, k);
      EarlierPropertiesDiffer(t, n - 1, k);
    }
  }

  lemma FittingFieldNotVoid(kind: Kind, f: Field)
    requires FieldFits(kind, f)
    ensures !IsVoid(f)
  {
  }

  /** Decoding the encoding of `m`, with its length, gives `m` back and consumes exactly that
      encoding, whatever follows it. */
  lemma {:induction false} MessageRoundTrip(t: MessageType, m: Message, rest: bytes)
    requires Fits(t, m) && |EncodeMessage(t, m)| < TWO_32
    ensures DecodeMessage(t, EncodeMessage(t, m) + rest, |EncodeMessage(t, m)|, EMPTY) == Done(m, rest)
    decreases m, 3
  {
    hide ReadRecord, ReadField, EncodeSlots, SlotAt, SlotsFit;
    SlotsRoundTrip(t, SlotCount(t), m, rest, |EncodeMessage(t, m)|);
    assert Written(t, SlotCount(t), m).fields == m.fields;
  }

  lemma DecodeEncode(t: MessageType, m: Message)
    requires Fits(t, m) && |EncodeMessage(t, m)| < TWO_32
    ensures Decode(t, EncodeMessage(t, m)) == Done(m, [])
  {
    MessageRoundTrip(t, m, []);
    assert EncodeMessage(t, m) + [] == EncodeMessage(t, m);
  }

  /** Two messages with the same encoding are the same message. */
  lemma EncodeInjective(t: MessageType, m: Message, other: Message)
    requires Fits(t, m) && Fits(t, other) && |EncodeMessage(t, m)| < TWO_32
    requires EncodeMessage(t, m) == EncodeMessage(t, other)
    ensures m == other
  {
    DecodeEncode(t, m);
    DecodeEncode(t, other);
  }
}
