/** Arrays in the reporting protocol: packed blocks of numbers, and arrays that mix message
    objects with already encoded ones. */
module Arrays {
  import opened Wrappers
  import opened Wire
  import opened Schema
  import opened Messages
  import opened Serial
  import opened RoundTrip

  // ---------------------------------------------------------------- packed numbers

  ghost predicate Numbers(sc: Scalar, vs: seq<Value>) {
    forall i | 0 <= i < |vs| :: vs[i].Leaf? && AtomFits(sc, vs[i].atom)
  }

  /** One packed record for each block. */
  function PackedRecords(tag: nat, sc: Scalar, blocks: seq<seq<Value>>): bytes {
    if blocks == [] then []
    else Varint(tag) + Frame(PackedBlock(sc, blocks[0])) + PackedRecords(tag, sc, blocks[1..])
  }

  /** One record of wire type 0 for each number. */
  function SingleRecords(number: nat, sc: Scalar, vs: seq<Value>): bytes {
    if vs == [] then []
    else Varint(8 * number) + WriteElement(Plain(sc), vs[0]) + SingleRecords(number, sc, vs[1..])
  }

  function Flatten<T>(blocks: seq<seq<T>>): seq<T> {
    if blocks == [] then [] else blocks[0] + Flatten(blocks[1..])
  }

  /** Packed blocks, however a list is split over them, append the list in order. */
  lemma {:induction false} PackedBlocksDecode(t: MessageType, i: nat, sc: Scalar, blocks: seq<seq<Value>>,
                                              rest: bytes, left: int, m: Message)
    requires i < SlotCount(t) && SlotAt(t, i).kind == Packed(sc)
    requires forall b | 0 <= b < |blocks| :: Numbers(sc, blocks[b])
    requires |PackedRecords(SlotAt(t, i).tag, sc, blocks)| < TWO_32
    requires left >= |PackedRecords(SlotAt(t, i).tag, sc, blocks)|
    ensures var bytes := PackedRecords(SlotAt(t, i).tag, sc, blocks);
            DecodeMessage(t, bytes + rest, left, m) ==
            DecodeMessage(t, rest, left - |bytes|, Absorb(m, SlotAt(t, i).property, Many(Flatten(blocks))))
  {
    hide SlotAt, SlotCount, Case, DecodeMessage, ReadRecord, ReadElement, ReadEntry, Varint,
      ReadGroups, ReadVarint, WriteAtom, ReadAtom, Frame, PackedBlock, ReadPacked;
    var slot := SlotAt(t, i);
    if blocks == [] {
      assert [] + rest == rest;
    } else {
      var body := Frame(PackedBlock(sc, blocks[0]));
      var others := PackedRecords(slot.tag, sc, blocks[1..]);
      assert PackedRecords(slot.tag, sc, blocks) + rest == Varint(slot.tag) + body + (others + rest);
      assert Numbers(sc, blocks[0]);
      FrameRoundTrip(PackedBlock(sc, blocks[0]), others + rest);
      PackedBlockRoundTrip(sc, blocks[0], others + rest);
      DecodeOwnRecord(t, i, body, others + rest, left, m, Many(blocks[0]));
      PackedBlocksDecode(t, i, sc, blocks[1..], rest, left - |Varint(slot.tag) + body|,
                         Absorb(m, slot.property, Many(blocks[0])));
      AbsorbValues(m, slot.property, blocks[0], Flatten(blocks[1..]));
    }
  }

  /** A field that is written packed is also read one number a record. */
  lemma {:induction false} SingleRecordsDecode(t: MessageType, i: nat, sc: Scalar, vs: seq<Value>,
                                               rest: bytes, left: int, m: Message)
    requires i < SlotCount(t) && SlotAt(t, i).kind == Packed(sc)
    requires Numbers(sc, vs)
    requires left >= |SingleRecords(SlotAt(t, i).tag / 8, sc, vs)|
    ensures var bytes := SingleRecords(SlotAt(t, i).tag / 8, sc, vs);
            DecodeMessage(t, bytes + rest, left, m) ==
            DecodeMessage(t, rest, left - |bytes|, Absorb(m, SlotAt(t, i).property, Many(vs)))
  {
    hide SlotAt, SlotCount, Case, DecodeMessage, ReadRecord, ReadField, ReadElement, ReadEntry,
      Varint, ReadGroups, ReadVarint, WriteAtom, ReadAtom, Frame, PackedBlock, ReadPacked;
    var number, p := SlotAt(t, i).tag / 8, SlotAt(t, i).property;
    if vs == [] {
      assert [] + rest == rest;
    } else {
      var body, others := WriteElement(Plain(sc), vs[0]), SingleRecords(number, sc, vs[1..]);
      var s := SingleRecords(number, sc, vs) + rest;
      assert s == Varint(8 * number) + (body + (others + rest));
      TablesAgree(t, i);
      UInt32RoundTrip(8 * number, body + (others + rest));
      AtomRoundTrip(sc, vs[0].atom, others + rest);
      ReadSingle(t, s, number, p, sc, body + (others + rest), vs[0].atom, others + rest);
      DecodeStep(t, s, left, m, Contribution(p, Many([vs[0]])), others + rest);
      SingleRecordsDecode(t, i, sc, vs[1..], rest, left - (|s| - |others + rest|),
                          Absorb(m, p, Many([vs[0]])));
      AbsorbValues(m, p, [vs[0]], vs[1..]);
      assert [vs[0]] + vs[1..] == vs;
    }
  }

  lemma ReadSingle(t: MessageType, s: bytes, number: nat, p: Property, sc: Scalar, s1: bytes, a: Atom, rest: bytes)
    requires ReadUInt32(s) == Done(8 * number, s1)
    requires Case(t, number) == Some(Target(p, Packed(sc)))
    requires ReadAtom(sc, s1) == Done(a, rest)
    ensures ReadRecord(t, s) == Done(Contribution(p, Many([Leaf(a)])), rest)
  {
    hide SlotAt, SlotCount, Case;
  }

  /** The packed form, split anyhow, and the one-record-a-number form of a list decode to the same
      message. */
  lemma PackedAndSingleAgree(t: MessageType, i: nat, sc: Scalar, blocks: seq<seq<Value>>)
    requires i < SlotCount(t) && SlotAt(t, i).kind == Packed(sc)
    requires forall b | 0 <= b < |blocks| :: Numbers(sc, blocks[b])
    requires |PackedRecords(SlotAt(t, i).tag, sc, blocks)| < TWO_32
    ensures var expected := Done(Absorb(EMPTY, SlotAt(t, i).property, Many(Flatten(blocks))), []);
            && Decode(t, PackedRecords(SlotAt(t, i).tag, sc, blocks)) == expected
            && Decode(t, SingleRecords(SlotAt(t, i).tag / 8, sc, Flatten(blocks))) == expected
  {
    hide DecodeMessage, ReadRecord, ReadField, ReadElement, ReadEntry;
    var packed := PackedRecords(SlotAt(t, i).tag, sc, blocks);
    var single := SingleRecords(SlotAt(t, i).tag / 8, sc, Flatten(blocks));
    FlattenNumbers(sc, blocks);
    PackedBlocksDecode(t, i, sc, blocks, [], |packed|, EMPTY);
    SingleRecordsDecode(t, i, sc, Flatten(blocks), [], |single|, EMPTY);
    assert packed + [] == packed && single + [] == single;
    DecodeNothing(t, Absorb(EMPTY, SlotAt(t, i).property, Many(Flatten(blocks))));
  }

  lemma DecodeNothing(t: MessageType, m: Message)
    ensures DecodeMessage(t, [], 0, m) == Done(m, [])
  {
  }

  lemma {:induction false} FlattenNumbers(sc: Scalar, blocks: seq<seq<Value>>)
    requires forall b | 0 <= b < |blocks| :: Numbers(sc, blocks[b])
    ensures Numbers(sc, Flatten(blocks))
  {
    if blocks != [] {
      assert Numbers(sc, blocks[0]);
      FlattenNumbers(sc, blocks[1..]);
    }
  }

  // ---------------------------------------------------------------- already encoded messages

  /** Message `w` is `m`, except that where the encoder takes either, any number of message
      objects, at any depth, are replaced by their encodings. */
  ghost predicate Mixed(t: MessageType, m: Message, w: Message)
    decreases m, 3
  {
    m.fields.Keys == w.fields.Keys && SlotsMixed(t, SlotCount(t), m, w)
  }

  ghost predicate SlotsMixed(t: MessageType, n: nat, m: Message, w: Message)
    requires m.fields.Keys == w.fields.Keys
    decreases m, 2, n
  {
    n == 0 ||
    (&& SlotsMixed(t, n - 1, m, w)
     && var slot := SlotAt(t, n - 1);
        slot.property in m.fields ==>
          FieldMixed(slot.kind, m.fields[slot.property], w.fields[slot.property]))
  }

  ghost predicate FieldMixed(kind: Kind, f: Field, g: Field)
    decreases f, 1
  {
    match (kind, f)
    case (Single(e), One(v)) => g.One? && ValueMixed(e, v, g.value, false)
    case (Repeated(e), Many(vs)) => g.Many? && ValuesMixed(e, vs, g.values, false)
    case (RepeatedOrRaw(e), Many(vs)) => g.Many? && ValuesMixed(e, vs, g.values, true)
    case (Keyed(e), Dict(es)) => g.Dict? && EntriesMixed(e, es, g.entries)
    case _ => g == f
  }

  ghost predicate ValuesMixed(e: Element, vs: seq<Value>, ws: seq<Value>, raw: bool)
    decreases vs, 0
  {
    && |vs| == |ws|
    && (vs != [] ==> ValueMixed(e, vs[0], ws[0], raw) && ValuesMixed(e, vs[1..], ws[1..], raw))
  }

  ghost predicate EntriesMixed(e: Element, es: seq<Entry>, ds: seq<Entry>)
    decreases es, 0
  {
    && |es| == |ds|
    && (es != [] ==>
          && es[0].key == ds[0].key
          && ValueMixed(e, es[0].value, ds[0].value, false)
          && EntriesMixed(e, es[1..], ds[1..]))
  }

  ghost predicate ValueMixed(e: Element, v: Value, w: Value, raw: bool)
    decreases v, 4
  {
    match (e, v)
    case (Sub(t), Nested(m)) =>
      || (w.Nested? && Mixed(t, m, w.message))
      || (raw && w == Raw(EncodeMessage(t, m)))
    case _ => w == v
  }

  /** Encoding any mix gives, byte for byte, the encoding of the objects. */
  lemma {:induction false} MixedEncoding(t: MessageType, m: Message, w: Message)
    requires Mixed(t, m, w)
    ensures EncodeMessage(t, w) == EncodeMessage(t, m)
    decreases m, 3
  {
    SlotsMixedEncoding(t, SlotCount(t), m, w);
  }

  lemma {:induction false} SlotsMixedEncoding(t: MessageType, n: nat, m: Message, w: Message)
    requires m.fields.Keys == w.fields.Keys && SlotsMixed(t, n, m, w)
    ensures EncodeSlots(t, n, w) == EncodeSlots(t, n, m)
    decreases m, 2, n
  {
    if n > 0 {
      SlotsMixedEncoding(t, n - 1, m, w);
      var slot := SlotAt(t, n - 1);
      if slot.property in m.fields {
        FieldMixedEncoding(slot, m.fields[slot.property], w.fields[slot.property]);
      }
    }
  }

  lemma {:induction false} FieldMixedEncoding(slot: Slot, f: Field, g: Field)
    requires FieldMixed(slot.kind, f, g)
    ensures EncodeField(slot, g) == EncodeField(slot, f)
    decreases f, 1
  {
    match (slot.kind, f)
    case (Single(e), One(v)) => ValueMixedEncoding(e, v, g.value, false);
    case (Repeated(e), Many(vs)) => ValuesMixedEncoding(slot.tag, e, vs, g.values, false);
    case (RepeatedOrRaw(e), Many(vs)) => ValuesMixedEncoding(slot.tag, e, vs, g.values, true);
    case (Keyed(e), Dict(es)) => EntriesMixedEncoding(slot.tag, e, es, g.entries);
    case _ =>
  }

  lemma {:induction false} ValuesMixedEncoding(tag: nat, e: Element, vs: seq<Value>, ws: seq<Value>, raw: bool)
    requires ValuesMixed(e, vs, ws, raw)
    ensures EncodeValues(tag, e, ws) == EncodeValues(tag, e, vs)
    decreases vs, 0
  {
    if vs != [] {
      ValueMixedEncoding(e, vs[0], ws[0], raw);
      ValuesMixedEncoding(tag, e, vs[1..], ws[1..], raw);
    }
  }

  lemma {:induction false} EntriesMixedEncoding(tag: nat, e: Element, es: seq<Entry>, ds: seq<Entry>)
    requires EntriesMixed(e, es, ds)
    ensures EncodeEntries(tag, e, ds) == EncodeEntries(tag, e, es)
    decreases es, 0
  {
    if es != [] {
      ValueMixedEncoding(e, es[0].value, ds[0].value, false);
      EntriesMixedEncoding(tag, e, es[1..], ds[1..]);
    }
  }

  lemma {:induction false} ValueMixedEncoding(e: Element, v: Value, w: Value, raw: bool)
    requires ValueMixed(e, v, w, raw)
    ensures WriteElement(e, w) == WriteElement(e, v)
    decreases v, 4
  {
    match (e, v)
    case (Sub(t), Nested(m)) =>
      if w.Nested? {
        MixedEncoding(t, m, w.message);
      }
    case _ =>
  }

  /** What is decoded from a mix is the message with all its objects. */
  lemma MixedDecodes(t: MessageType, m: Message, w: Message)
    requires Fits(t, m) && Mixed(t, m, w) && |EncodeMessage(t, m)| < TWO_32
    ensures Decode(t, EncodeMessage(t, w)) == Done(m, [])
  {
    MixedEncoding(t, m, w);
    DecodeEncode(t, m);
  }
}
