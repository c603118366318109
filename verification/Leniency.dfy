/** What `decode` does not look at: the wire type of the tag before a field that is not packed, the
    length and the tags of a map entry, and how far a length reaches into the last record. */
module Leniency {
  import opened Wrappers
  import opened Wire
  import opened WireFormat
  import opened Schema
  import opened Messages
  import opened Serial
  import opened RoundTrip
  import opened Concatenation

  /** Only packed fields are read as their tag's wire type says, and then it only matters whether it is
      that of a block. */
  lemma WireTypeIgnored(kind: Kind, wireType: nat, other: nat, s: bytes)
    requires kind.Packed? ==> (wireType == 2 <==> other == 2)
    ensures ReadField(kind, wireType, s) == ReadField(kind, other, s)
  {
    hide ReadElement, ReadEntry;
  }

  /** An entry is written as the message that the Encoding specification says it is, with the key under
      the number 1 and the value under the number 2, both delimited by their lengths. */
  lemma EntryIsMessage(e: Element, entry: Entry, rest: bytes)
    requires AtomFits(Text, Utf8(entry.key))
    ensures var first := ReadUInt32(EntryBody(e, entry) + rest);
            && first.Done? && first.value == 8 * 1 + 2
            && ReadAtom(Text, first.rest).Done? && ReadAtom(Text, first.rest).value == Utf8(entry.key)
            && ReadUInt32(ReadAtom(Text, first.rest).rest) == Done(8 * 2 + 2, WriteElement(e, entry.value) + rest)
  {
    hide Varint, ReadVarint, ReadUInt32, ReadAtom, WriteAtom, WriteElement;
    var key, value := WriteAtom(Text, Utf8(entry.key)), WriteElement(e, entry.value);
    var afterKey := Varint(VALUE_TAG) + (value + rest);
    assert EntryBody(e, entry) + rest == Varint(KEY_TAG) + (key + afterKey);
    UInt32RoundTrip(KEY_TAG, key + afterKey);
    AtomRoundTrip(Text, Utf8(entry.key), afterKey);
    UInt32RoundTrip(VALUE_TAG, value + rest);
  }

  /** An entry is its key and its value, whatever the length before it and the two bytes in the
      places of the tags are. */
  lemma EntryByPosition(e: Element, n: nat, first: byte, key: bytes, second: byte, value: Value, rest: bytes)
    requires n < TWO_64 && AtomFits(Text, Utf8(key)) && ValueFits(e, value) && |WriteElement(e, value)| < TWO_32
    ensures ReadEntry(e, Varint(n) + ([first] + (Varint(|key|) + key + ([second] + (WriteElement(e, value) + rest)))))
            == Done(Entry(key, value), rest)
  {
    hide ReadEntry, ReadElement, WriteElement, Varint, ReadVarint, ReadAtom, ValueFits;
    var afterKey := [second] + (WriteElement(e, value) + rest);
    var s1 := [first] + (Varint(|key|) + key + afterKey);
    VarintRoundTrip(n, s1);
    AtomRoundTrip(Text, Utf8(key), afterKey);
    ElementRoundTrip(e, value, rest);
    assert Advance(s1) == WriteAtom(Text, Utf8(key)) + afterKey;
    assert Advance(afterKey) == WriteElement(e, value) + rest;
    ReadEntryParts(e, Varint(n) + s1, n, s1, key, afterKey, value, rest);
  }

  /** A length that ends anywhere inside the last record reads it to its end. */
  lemma OverrunIgnored(t: MessageType, x: bytes, last: bytes, y: bytes, n: nat, m: Message, after: Message)
    requires DecodeMessage(t, x, |x|, EMPTY) == Done(m, [])
    requires ReadRecord(t, last).Done? && ReadRecord(t, last).rest == []
    requires Decodes(t, x + last, after) && |x| < n <= |x + last|
    ensures DecodeMessage(t, x + last + y, n, EMPTY) == Done(after, y)
  {
    hide DecodeMessage, ReadRecord;
    var record := ReadRecord(t, last).value;
    assert x + last + y == x + (last + y);
    LastRecord(t, last, [], |last|, m);
    LastRecord(t, last, y, n - |x|, m);
    DecodeThrough(t, x, last, |last|, EMPTY, m);
    DecodeThrough(t, x, last + y, n - |x|, EMPTY, m);
    assert last + [] == last;
  }

  lemma LastRecord(t: MessageType, last: bytes, y: bytes, k: nat, m: Message)
    requires ReadRecord(t, last).Done? && ReadRecord(t, last).rest == [] && 0 < k <= |last|
    ensures DecodeMessage(t, last + y, k, m) == Done(Contribute(m, ReadRecord(t, last).value), y)
  {
    hide ReadRecord, Contribute;
    var record := ReadRecord(t, last).value;
    ReadRecordLocal(t, last, y);
    assert [] + y == y;
    DecodeStep(t, last + y, k, m, record, y);
  }

  /** Any well-formed record under a number that the switch does not know is skipped whole. */
  lemma UnknownRecordSkipped(t: MessageType, number: nat, body: Body, rest: bytes)
    requires Case(t, number).None? && WellFormed(body) && 8 * number + WireTypeOf(body) < TWO_32
    ensures ReadRecord(t, Varint(8 * number + WireTypeOf(body)) + BodyBytes(body) + rest) == Done(Unknown, rest)
  {
    hide Case, ReadVarint, ReadUInt32, SkipType, Varint;
    var tag := 8 * number + WireTypeOf(body);
    var own := BodyBytes(body) + rest;
    assert Varint(tag) + BodyBytes(body) + rest == Varint(tag) + own;
    UInt32RoundTrip(tag, own);
    BodySkipped(body, rest);
    NumberOf(number, WireTypeOf(body));
  }

  lemma NumberOf(number: nat, wireType: nat)
    requires wireType < 8
    ensures (8 * number + wireType) / 8 == number && (8 * number + wireType) % 8 == wireType
  {
  }
}
