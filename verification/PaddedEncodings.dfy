/** What `Padded` is good for: every encoding matches itself, and unknown records may be put into
    any message nested in it, directly, in an array or under a key, with the lengths adjusted. */
module PaddedEncodings {
  import opened Wrappers
  import opened Wire
  import opened Schema
  import opened Messages
  import opened Serial
  import opened RoundTrip
  import opened Concatenation
  import opened Padding

  lemma FramedFrame(body: bytes, rest: bytes)
    requires |body| < TWO_32
    ensures Framed(Frame(body) + rest) == Done(body, rest)
  {
    FrameRoundTrip(body, rest);
    assert (body + rest)[..|body|] == body && (body + rest)[|body|..] == rest;
  }

  /** Matching fields under the tag of a slot. */
  lemma SlotPadded(t: MessageType, i: nat, own: bytes, other: bytes)
    requires i < SlotCount(t)
    requires PaddedField(t, DecodedKind(SlotAt(t, i).kind), WireType(SlotAt(t, i).kind), own, other)
    ensures Padded(t, Varint(SlotAt(t, i).tag) + own, Varint(SlotAt(t, i).tag) + other)
  {
    hide SlotAt, SlotCount, Case, Varint, PaddedField;
    var tag := SlotAt(t, i).tag;
    TablesAgree(t, i);
    UInt32RoundTrip(tag, own);
    UInt32RoundTrip(tag, other);
    FirstPadded(t, SlotAt(t, i), Varint(tag) + own, Varint(tag) + other, own, other);
  }

  lemma FirstPadded(t: MessageType, slot: Slot, s: bytes, u: bytes, own: bytes, other: bytes)
    requires SlotAgrees(t, slot) && ReadUInt32(s) == Done(slot.tag, own) && ReadUInt32(u) == Done(slot.tag, other)
    requires PaddedField(t, DecodedKind(slot.kind), WireType(slot.kind), own, other)
    ensures Padded(t, s, u)
  {
    hide Case, PaddedField;
    assert PaddedFirst(t, s, u);
  }

  /** Does the slot write messages of this type, one or an array of them? */
  predicate WritesMessages(slot: Slot, nested: MessageType) {
    slot.kind in {Single(Sub(nested)), Repeated(Sub(nested)), RepeatedOrRaw(Sub(nested))}
  }

  /** A nested message may be replaced by a matching one, of another length. */
  lemma NestedPadded(t: MessageType, i: nat, nested: MessageType, body: bytes, other: bytes, m: Message,
                     rest: bytes, after: bytes)
    requires i < SlotCount(t) && WritesMessages(SlotAt(t, i), nested)
    requires |body| < TWO_32 && |other| < TWO_32
    requires Decodes(nested, body, m) && Padded(nested, body, other) && Padded(t, rest, after)
    ensures var tag := Varint(SlotAt(t, i).tag);
            Padded(t, tag + (Frame(body) + rest), tag + (Frame(other) + after))
  {
    hide SlotAt, SlotCount, Case, Varint, Frame, Padded, Decodes;
    ElementPadded(t, nested, body, other, m, rest, after);
    hide PaddedElement;
    SlotPadded(t, i, Frame(body) + rest, Frame(other) + after);
  }

  lemma ElementPadded(t: MessageType, nested: MessageType, body: bytes, other: bytes, m: Message,
                      rest: bytes, after: bytes)
    requires |body| < TWO_32 && |other| < TWO_32
    requires Decodes(nested, body, m) && Padded(nested, body, other) && Padded(t, rest, after)
    ensures PaddedElement(t, Sub(nested), Frame(body) + rest, Frame(other) + after)
  {
    hide Frame, Framed, Padded, Decodes;
    FramedFrame(body, rest);
    FramedFrame(other, after);
  }

  /** The entry of an object with this key, up to its value. */
  function KeyBytes(key: bytes): bytes {
    Varint(KEY_TAG) + WriteAtom(Text, Utf8(key)) + Varint(VALUE_TAG)
  }

  /** So may the value under a key, though the length of its entry changes too. */
  lemma ValuePadded(t: MessageType, i: nat, nested: MessageType, key: bytes, body: bytes, other: bytes, m: Message,
                    rest: bytes, after: bytes)
    requires i < SlotCount(t) && SlotAt(t, i).kind == Keyed(Sub(nested)) && AtomFits(Text, Utf8(key))
    requires |KeyBytes(key) + Frame(body)| < TWO_32 && |KeyBytes(key) + Frame(other)| < TWO_32
    requires Decodes(nested, body, m) && Padded(nested, body, other) && Padded(t, rest, after)
    ensures var tag := Varint(SlotAt(t, i).tag);
            Padded(t, tag + (Frame(KeyBytes(key) + Frame(body)) + rest),
                   tag + (Frame(KeyBytes(key) + Frame(other)) + after))
  {
    hide SlotAt, SlotCount, Case, Varint, Frame, Padded, Decodes, KeyBytes, PaddedElement, PaddedEntry;
    ElementPadded(t, nested, body, other, m, rest, after);
    EntryPadded(t, Sub(nested), key, Frame(body), Frame(other), rest, after);
    SlotPadded(t, i, Frame(KeyBytes(key) + Frame(body)) + rest, Frame(KeyBytes(key) + Frame(other)) + after);
  }

  /** Entries with one key and matching values match. */
  lemma EntryPadded(t: MessageType, e: Element, key: bytes, value: bytes, other: bytes, rest: bytes, after: bytes)
    requires AtomFits(Text, Utf8(key)) && PaddedElement(t, e, value + rest, other + after)
    requires |KeyBytes(key) + value| < TWO_32 && |KeyBytes(key) + other| < TWO_32
    ensures PaddedEntry(t, e, Frame(KeyBytes(key) + value) + rest, Frame(KeyBytes(key) + other) + after)
  {
    hide Frame, PaddedElement, Varint, ReadVarint, ReadAtom, WriteAtom;
    KeyRead(key, value, rest);
    KeyRead(key, other, after);
  }

  lemma KeyRead(key: bytes, value: bytes, rest: bytes)
    requires AtomFits(Text, Utf8(key)) && |KeyBytes(key) + value| < TWO_32
    ensures var length := ReadVarint(Frame(KeyBytes(key) + value) + rest);
            && length.Done?
            && ReadAtom(Text, Advance(length.rest)).Done? && ReadAtom(Text, Advance(length.rest)).value == Utf8(key)
            && Advance(ReadAtom(Text, Advance(length.rest)).rest) == value + rest
  {
    hide Frame, Varint, ReadVarint, ReadAtom, WriteAtom;
    var body := KeyBytes(key) + value;
    var text := WriteAtom(Text, Utf8(key));
    var afterKey := Varint(VALUE_TAG) + (value + rest);
    FrameVarint(body, rest);
    assert body + rest == Varint(KEY_TAG) + (text + afterKey);
    OneByteTag(KEY_TAG, text + afterKey);
    AtomRoundTrip(Text, Utf8(key), afterKey);
    OneByteTag(VALUE_TAG, value + rest);
  }

  // ---------------------------------------------------------------- encodings match themselves

  /** The encoding of a message matches itself, and so by the lemmas above each encoding with
      unknown records put into it, at any depth. */
  lemma {:induction false} EncodingPadded(t: MessageType, m: Message)
    requires Fits(t, m) && |EncodeMessage(t, m)| < TWO_32
    ensures Padded(t, EncodeMessage(t, m), EncodeMessage(t, m))
    decreases m, 3
  {
    hide EncodeSlots, SlotsFit, SlotCount;
    SlotsPadded(t, SlotCount(t), m, []);
    assert EncodeMessage(t, m) + [] == EncodeMessage(t, m);
  }

  lemma {:induction false} SlotsPadded(t: MessageType, n: nat, m: Message, rest: bytes)
    requires n <= SlotCount(t) && SlotsFit(t, n, m)
    requires |EncodeSlots(t, n, m)| < TWO_32 && Padded(t, rest, rest)
    ensures Padded(t, EncodeSlots(t, n, m) + rest, EncodeSlots(t, n, m) + rest)
    decreases m, 2, n
  {
    hide SlotAt, SlotCount, Padded, EncodeField;
    if n == 0 {
      assert [] + rest == rest;
    } else {
      var earlier, slot := EncodeSlots(t, n - 1, m), SlotAt(t, n - 1);
      var own := EncodeSlot(slot, m);
      assert EncodeSlots(t, n, m) + rest == earlier + (own + rest);
      if slot.property in m.fields {
        FieldPadded(t, n - 1, m.fields[slot.property], rest);
      } else {
        assert own + rest == rest;
      }
      SlotsPadded(t, n - 1, m, own + rest);
    }
  }

  lemma {:induction false} FieldPadded(t: MessageType, i: nat, f: Field, rest: bytes)
    requires i < SlotCount(t) && FieldFits(SlotAt(t, i).kind, f)
    requires |EncodeField(SlotAt(t, i), f)| < TWO_32 && Padded(t, rest, rest)
    ensures Padded(t, EncodeField(SlotAt(t, i), f) + rest, EncodeField(SlotAt(t, i), f) + rest)
    decreases f, 1
  {
    hide SlotAt, SlotCount, Padded, EncodeValues, EncodeEntries, WriteElement, Varint, Frame, PackedBlock, ReadPacked,
         ReadField;
    var slot := SlotAt(t, i);
    match slot.kind
    case Single(e) => RecordPadded(t, i, e, f.value, rest);
    case Repeated(e) => ValuesPadded(t, i, e, f.values, rest);
    case RepeatedOrRaw(e) => ValuesPadded(t, i, e, f.values, rest);
    case Packed(sc) => BlockPadded(t, i, sc, f.values, rest);
    case Keyed(e) => EntriesPadded(t, i, e, f.entries, rest);
  }

  lemma BlockPadded(t: MessageType, i: nat, sc: Scalar, vs: seq<Value>, rest: bytes)
    requires i < SlotCount(t) && SlotAt(t, i).kind == Packed(sc) && Padded(t, rest, rest)
    requires forall v | v in vs :: v.Leaf? && AtomFits(sc, v.atom)
    requires |Frame(PackedBlock(sc, vs))| < TWO_32
    ensures var record := Varint(SlotAt(t, i).tag) + Frame(PackedBlock(sc, vs));
            Padded(t, record + rest, record + rest)
  {
    hide SlotAt, SlotCount, Padded, Varint, PackedBlock, ReadPacked;
    var block := PackedBlock(sc, vs);
    FrameRoundTrip(block, rest);
    PackedBlockRoundTrip(sc, vs, rest);
    assert Varint(SlotAt(t, i).tag) + Frame(block) + rest == Varint(SlotAt(t, i).tag) + (Frame(block) + rest);
    SlotPadded(t, i, Frame(block) + rest, Frame(block) + rest);
  }

  /** A single value of a slot. */
  lemma {:induction false} RecordPadded(t: MessageType, i: nat, e: Element, v: Value, rest: bytes)
    requires i < SlotCount(t) && SlotAt(t, i).kind in {Single(e), Repeated(e), RepeatedOrRaw(e)}
    requires ValueFits(e, v) && |WriteElement(e, v)| < TWO_32 && Padded(t, rest, rest)
    ensures var record := EncodeRecord(SlotAt(t, i).tag, e, v); Padded(t, record + rest, record + rest)
    decreases v, 5
  {
    hide SlotAt, SlotCount, Padded, Varint, WriteElement, ValueFits, PaddedElement;
    var own := WriteElement(e, v) + rest;
    WrittenPadded(t, e, v, rest);
    SlotPadded(t, i, own, own);
    assert EncodeRecord(SlotAt(t, i).tag, e, v) + rest == Varint(SlotAt(t, i).tag) + own;
  }

  lemma {:induction false} WrittenPadded(t: MessageType, e: Element, v: Value, rest: bytes)
    requires ValueFits(e, v) && |WriteElement(e, v)| < TWO_32 && Padded(t, rest, rest)
    ensures PaddedElement(t, e, WriteElement(e, v) + rest, WriteElement(e, v) + rest)
    decreases v, 4
  {
    hide Padded, EncodeMessage, Fits;
    match e
    case Plain(_) => ElementRoundTrip(e, v, rest);
    case Sub(nested) =>
      EncodingPadded(nested, v.message);
      DecodeEncode(nested, v.message);
      FramedFrame(EncodeMessage(nested, v.message), rest);
      assert Decodes(nested, EncodeMessage(nested, v.message), v.message);
  }

  lemma {:induction false} ValuesPadded(t: MessageType, i: nat, e: Element, vs: seq<Value>, rest: bytes)
    requires i < SlotCount(t) && SlotAt(t, i).kind in {Repeated(e), RepeatedOrRaw(e)}
    requires forall v | v in vs :: ValueFits(e, v)
    requires |EncodeValues(SlotAt(t, i).tag, e, vs)| < TWO_32 && Padded(t, rest, rest)
    ensures var records := EncodeValues(SlotAt(t, i).tag, e, vs); Padded(t, records + rest, records + rest)
    decreases vs, 0
  {
    hide SlotAt, SlotCount, Padded, WriteElement, ValueFits, Varint;
    var tag := SlotAt(t, i).tag;
    if vs == [] {
      assert [] + rest == rest;
    } else {
      var record, others := EncodeRecord(tag, e, vs[0]), EncodeValues(tag, e, vs[1..]);
      ValuesPadded(t, i, e, vs[1..], rest);
      RecordPadded(t, i, e, vs[0], others + rest);
      assert EncodeValues(tag, e, vs) + rest == record + (others + rest);
    }
  }

  lemma {:induction false} EntriesPadded(t: MessageType, i: nat, e: Element, es: seq<Entry>, rest: bytes)
    requires i < SlotCount(t) && SlotAt(t, i).kind == Keyed(e)
    requires forall en | en in es :: AtomFits(Text, Utf8(en.key)) && ValueFits(e, en.value)
    requires |EncodeEntries(SlotAt(t, i).tag, e, es)| < TWO_32 && Padded(t, rest, rest)
    ensures var records := EncodeEntries(SlotAt(t, i).tag, e, es); Padded(t, records + rest, records + rest)
    decreases es, 0
  {
    hide SlotAt, SlotCount, Padded, WriteElement, ValueFits, Varint, Frame, EntryBody, PaddedElement, PaddedEntry;
    var tag := SlotAt(t, i).tag;
    if es == [] {
      assert [] + rest == rest;
    } else {
      var body, others := EntryBody(e, es[0]), EncodeEntries(tag, e, es[1..]);
      EntriesPadded(t, i, e, es[1..], rest);
      var value := WriteElement(e, es[0].value);
      BodyParts(e, es[0]);
      WrittenPadded(t, e, es[0].value, others + rest);
      EntryPadded(t, e, es[0].key, value, value, others + rest, others + rest);
      SlotPadded(t, i, Frame(body) + (others + rest), Frame(body) + (others + rest));
      assert EncodeEntries(tag, e, es) + rest == Varint(tag) + (Frame(body) + (others + rest));
    }
  }

  lemma BodyParts(e: Element, entry: Entry)
    ensures EntryBody(e, entry) == KeyBytes(entry.key) + WriteElement(e, entry.value)
  {
  }
}
