/** `encode` writes records whose field numbers never decrease. */
module Ascending {
  import opened Wrappers
  import opened Wire
  import opened Schema
  import opened Messages
  import opened Serial
  import opened RoundTrip

  /** A sequence of records whose numbers are at least this one and never decrease. */
  ghost predicate AscendsFrom(t: MessageType, number: nat, s: bytes)
    decreases |s|
  {
    s == [] ||
    (&& ReadRecord(t, s).Done? && number <= ReadUInt32(s).value / 8
     && AscendsFrom(t, ReadUInt32(s).value / 8, ReadRecord(t, s).rest))
  }

  lemma AscendsLower(t: MessageType, number: nat, lower: nat, s: bytes)
    requires AscendsFrom(t, number, s) && lower <= number
    ensures AscendsFrom(t, lower, s)
  {
    hide ReadRecord, ReadUInt32;
  }

  /** A record that a slot wrote, before records with no lower numbers. */
  lemma RecordAscends(t: MessageType, i: nat, body: bytes, rest: bytes, f: Field)
    requires i < SlotCount(t)
    requires ReadField(DecodedKind(SlotAt(t, i).kind), WireType(SlotAt(t, i).kind), body + rest) == Done(f, rest)
    requires AscendsFrom(t, SlotAt(t, i).tag / 8, rest)
    ensures AscendsFrom(t, SlotAt(t, i).tag / 8, Varint(SlotAt(t, i).tag) + body + rest)
  {
    hide ReadRecord, ReadField, SlotAt, SlotCount, ReadUInt32, Varint, AscendsFrom;
    var s := Varint(SlotAt(t, i).tag) + body + rest;
    assert s == Varint(SlotAt(t, i).tag) + (body + rest);
    ReadOwnRecord(t, i, body + rest, s);
    ReadContribution(t, s, SlotAt(t, i), body + rest, f, rest);
    AscendsStep(t, SlotAt(t, i).tag, s, Contribution(SlotAt(t, i).property, f), body + rest, rest);
  }

  lemma AscendsStep(t: MessageType, tag: nat, s: bytes, record: Record, own: bytes, rest: bytes)
    requires ReadUInt32(s) == Done(tag, own) && ReadRecord(t, s) == Done(record, rest)
    requires AscendsFrom(t, tag / 8, rest)
    ensures AscendsFrom(t, tag / 8, s)
  {
    hide ReadRecord, ReadUInt32;
  }

  lemma {:induction false} ValuesAscend(t: MessageType, i: nat, e: Element, vs: seq<Value>, rest: bytes)
    requires i < SlotCount(t) && SlotAt(t, i).kind in {Repeated(e), RepeatedOrRaw(e)}
    requires forall v | v in vs :: ValueFits(e, v)
    requires |EncodeValues(SlotAt(t, i).tag, e, vs)| < TWO_32
    requires AscendsFrom(t, SlotAt(t, i).tag / 8, rest)
    ensures AscendsFrom(t, SlotAt(t, i).tag / 8, EncodeValues(SlotAt(t, i).tag, e, vs) + rest)
    decreases |vs|
  {
    hide SlotAt, SlotCount, WriteElement, ValueFits, Varint, AscendsFrom, ReadElement;
    var tag := SlotAt(t, i).tag;
    if vs == [] {
      assert [] + rest == rest;
    } else {
      var body, others := WriteElement(e, vs[0]), EncodeValues(tag, e, vs[1..]);
      ValuesAscend(t, i, e, vs[1..], rest);
      ElementRoundTrip(e, vs[0], others + rest);
      RecordAscends(t, i, body, others + rest, Many([vs[0]]));
      assert EncodeValues(tag, e, vs) + rest == Varint(tag) + body + (others + rest);
    }
  }

  lemma {:induction false} EntriesAscend(t: MessageType, i: nat, e: Element, es: seq<Entry>, rest: bytes)
    requires i < SlotCount(t) && SlotAt(t, i).kind == Keyed(e)
    requires forall en | en in es :: AtomFits(Text, Utf8(en.key)) && ValueFits(e, en.value)
    requires |EncodeEntries(SlotAt(t, i).tag, e, es)| < TWO_32
    requires AscendsFrom(t, SlotAt(t, i).tag / 8, rest)
    ensures AscendsFrom(t, SlotAt(t, i).tag / 8, EncodeEntries(SlotAt(t, i).tag, e, es) + rest)
    decreases |es|
  {
    hide SlotAt, SlotCount, WriteElement, ValueFits, Varint, AscendsFrom, ReadEntry, EntryBody, Frame;
    var tag := SlotAt(t, i).tag;
    if es == [] {
      assert [] + rest == rest;
    } else {
      var body, others := Frame(EntryBody(e, es[0])), EncodeEntries(tag, e, es[1..]);
      EntriesAscend(t, i, e, es[1..], rest);
      EntryRoundTrip(e, es[0], others + rest);
      RecordAscends(t, i, body, others + rest, Dict([es[0]]));
      assert EncodeEntries(tag, e, es) + rest == Varint(tag) + body + (others + rest);
    }
  }

  lemma FieldAscends(t: MessageType, i: nat, f: Field, rest: bytes)
    requires i < SlotCount(t) && FieldFits(SlotAt(t, i).kind, f)
    requires |EncodeField(SlotAt(t, i), f)| < TWO_32
    requires AscendsFrom(t, SlotAt(t, i).tag / 8, rest)
    ensures AscendsFrom(t, SlotAt(t, i).tag / 8, EncodeField(SlotAt(t, i), f) + rest)
  {
    hide SlotAt, SlotCount, EncodeValues, EncodeEntries, WriteElement, Varint, Frame, PackedBlock, ReadPacked,
         AscendsFrom, ReadElement, ReadEntry;
    var slot := SlotAt(t, i);
    match slot.kind
    case Single(e) =>
      ElementRoundTrip(e, f.value, rest);
      RecordAscends(t, i, WriteElement(e, f.value), rest, f);
    case Repeated(e) => ValuesAscend(t, i, e, f.values, rest);
    case RepeatedOrRaw(e) => ValuesAscend(t, i, e, f.values, rest);
    case Packed(sc) =>
      FrameRoundTrip(PackedBlock(sc, f.values), rest);
      PackedBlockRoundTrip(sc, f.values, rest);
      RecordAscends(t, i, Frame(PackedBlock(sc, f.values)), rest, f);
    case Keyed(e) => EntriesAscend(t, i, e, f.entries, rest);
  }

  lemma {:induction false} SlotsAscend(t: MessageType, n: nat, m: Message, number: nat, rest: bytes)
    requires n <= SlotCount(t) && SlotsFit(t, n, m) && |EncodeSlots(t, n, m)| < TWO_32
    requires AscendsFrom(t, number, rest) && (n > 0 ==> SlotAt(t, n - 1).tag / 8 <= number)
    ensures AscendsFrom(t, 0, EncodeSlots(t, n, m) + rest)
    decreases n
  {
    hide SlotAt, SlotCount, AscendsFrom, EncodeField, FieldFits;
    if n == 0 {
      assert [] + rest == rest;
      AscendsLower(t, number, 0, rest);
    } else {
      var earlier, slot := EncodeSlots(t, n - 1, m), SlotAt(t, n - 1);
      var own := EncodeSlot(slot, m);
      assert EncodeSlots(t, n, m) + rest == earlier + (own + rest);
      AscendsLower(t, number, slot.tag / 8, rest);
      if slot.property in m.fields {
        FieldAscends(t, n - 1, m.fields[slot.property], rest);
      } else {
        assert own + rest == rest;
      }
      if n > 1 {
        NumbersAscend(t, n - 2);
      }
      SlotsAscend(t, n - 1, m, slot.tag / 8, own + rest);
    }
  }

  /** The records of an encoding stand in ascending order of their numbers. */
  lemma EncodingAscends(t: MessageType, m: Message)
    requires Fits(t, m) && |EncodeMessage(t, m)| < TWO_32
    ensures AscendsFrom(t, 0, EncodeMessage(t, m))
  {
    hide SlotAt, SlotCount, EncodeSlots, SlotsFit;
    var n := SlotCount(t);
    var number := if n > 0 then SlotAt(t, n - 1).tag / 8 else 0;
    NothingAscends(t, number);
    SlotsAscend(t, n, m, number, []);
    assert EncodeMessage(t, m) + [] == EncodeMessage(t, m);
  }

  lemma NothingAscends(t: MessageType, number: nat)
    ensures AscendsFrom(t, number, [])
  {
  }
}
