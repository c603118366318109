/** Records with unknown field numbers at any depth: inside nested messages too, whose length
    prefixes then differ. */
module Padding {
  import opened Wrappers
  import opened Wire
  import opened Schema
  import opened Messages
  import opened Serial
  import opened RoundTrip
  import opened Concatenation

  /** The body that a length prefix announces, and what follows it. */
  function Framed(s: bytes): (r: Read<bytes>)
    ensures r.Done? ==> |r.value| + |r.rest| < |s|
  {
    var (n, s1) :- ReadUInt32(s);
    if n > |s1| then Fail(OutOfRange) else Done(s1[..n], s1[n..])
  }

  /** The bytes begin with a record that the message type does not know. */
  predicate UnknownFirst(t: MessageType, s: bytes) {
    s != [] && ReadRecord(t, s).Done? && ReadRecord(t, s).value.Unknown?
  }

  /** The two sequences of records differ at most in records with unknown field numbers, put at any
      boundary of records outside map entries, at any depth: each can be had from the other by
      leaving out and putting in such records. */
  ghost predicate Padded(t: MessageType, s: bytes, u: bytes)
    decreases |s| + |u|, 2
  {
    || (s == [] && u == [])
    || (UnknownFirst(t, s) && Padded(t, ReadRecord(t, s).rest, u))
    || (UnknownFirst(t, u) && Padded(t, s, ReadRecord(t, u).rest))
    || PaddedFirst(t, s, u)
  }

  /** The two begin with records of one known property, with matching values. */
  ghost predicate PaddedFirst(t: MessageType, s: bytes, u: bytes)
    decreases |s| + |u|, 1
  {
    var first, other := ReadUInt32(s), ReadUInt32(u);
    && first.Done? && other.Done? && first.value == other.value
    && Case(t, first.value / 8).Some?
    && PaddedField(t, Case(t, first.value / 8).value.kind, first.value % 8, first.rest, other.rest)
  }

  /** The two begin with matching fields, and what follows these matches too. */
  ghost predicate PaddedField(t: MessageType, kind: Kind, wireType: nat, s: bytes, u: bytes)
    decreases |s| + |u|, 4
  {
    match kind
    case Packed(_) =>
      var field, same := ReadField(kind, wireType, s), ReadField(kind, wireType, u);
      && field.Done? && same.Done? && field.value == same.value
      && Padded(t, field.rest, same.rest)
    case Keyed(e) => PaddedEntry(t, e, s, u)
    case _ => PaddedElement(t, kind.element, s, u)
  }

  /** The two begin with map entries of one key and matching values. */
  ghost predicate PaddedEntry(t: MessageType, e: Element, s: bytes, u: bytes)
    decreases |s| + |u|, 3
  {
    var length, len := ReadVarint(s), ReadVarint(u);
    && length.Done? && len.Done?
    && var key, k := ReadAtom(Text, Advance(length.rest)), ReadAtom(Text, Advance(len.rest));
       && key.Done? && k.Done? && key.value == k.value
       && PaddedElement(t, e, Advance(key.rest), Advance(k.rest))
  }

  /** The two begin with matching values, and what follows these matches too. */
  ghost predicate PaddedElement(t: MessageType, e: Element, s: bytes, u: bytes)
    decreases |s| + |u|, 3
  {
    match e
    case Plain(_) =>
      var value, same := ReadElement(e, s), ReadElement(e, u);
      value.Done? && same.Done? && value.value == same.value && Padded(t, value.rest, same.rest)
    case Sub(nested) =>
      var body, other := Framed(s), Framed(u);
      && body.Done? && other.Done?
      && (exists m :: Decodes(nested, body.value, m))
      && Padded(nested, body.value, other.value) && Padded(t, body.rest, other.rest)
  }

  /** A nested message is read from its body. */
  lemma NestedFromBody(t: MessageType, s: bytes, m: Message)
    requires Framed(s).Done? && Decodes(t, Framed(s).value, m)
    ensures ReadElement(Sub(t), s) == Done(Nested(m), Framed(s).rest)
  {
    hide DecodeMessage, ReadRecord, ReadField, ReadEntry;
    var body, rest := Framed(s).value, Framed(s).rest;
    DecodeLocal(t, body, |body|, EMPTY, rest);
    assert body + rest == ReadUInt32(s).rest;
    assert [] + rest == rest;
  }

  /** Matching values are read as the same value. */
  lemma {:induction false} ElementsSame(t: MessageType, e: Element, s: bytes, u: bytes)
    requires PaddedElement(t, e, s, u)
    ensures ReadElement(e, s).Done? && ReadElement(e, u).Done? && ReadElement(e, s).value == ReadElement(e, u).value
    ensures Padded(t, ReadElement(e, s).rest, ReadElement(e, u).rest)
    decreases |s| + |u|, 3
  {
    if e.Sub? {
      var body, other := Framed(s).value, Framed(u).value;
      var m :| Decodes(e.message, body, m);
      PaddedDecodes(e.message, body, other, EMPTY, m);
      NestedFromBody(e.message, s, m);
      NestedFromBody(e.message, u, m);
    }
  }

  /** Matching first records are read as the same contribution. */
  lemma {:induction false} RecordsSame(t: MessageType, s: bytes, u: bytes)
    requires PaddedFirst(t, s, u)
    ensures ReadRecord(t, s).Done? && ReadRecord(t, u).Done? && ReadRecord(t, s).value == ReadRecord(t, u).value
    ensures Padded(t, ReadRecord(t, s).rest, ReadRecord(t, u).rest)
    decreases |s| + |u|, 1
  {
    var first, other := ReadUInt32(s), ReadUInt32(u);
    var kind := Case(t, first.value / 8).value.kind;
    FieldsSame(t, kind, first.value % 8, first.rest, other.rest);
    KnownRecord(t, s);
    KnownRecord(t, u);
  }

  lemma KnownRecord(t: MessageType, s: bytes)
    requires ReadUInt32(s).Done? && Case(t, ReadUInt32(s).value / 8).Some?
    ensures var first := ReadUInt32(s); var target := Case(t, first.value / 8).value;
            var field := ReadField(target.kind, first.value % 8, first.rest);
            field.Done? ==> ReadRecord(t, s) == Done(Contribution(target.property, field.value), field.rest)
  {
  }

  /** Matching fields are read as the same field. */
  lemma {:induction false} FieldsSame(t: MessageType, kind: Kind, wireType: nat, s: bytes, u: bytes)
    requires PaddedField(t, kind, wireType, s, u)
    ensures var field, same := ReadField(kind, wireType, s), ReadField(kind, wireType, u);
            field.Done? && same.Done? && field.value == same.value && Padded(t, field.rest, same.rest)
    decreases |s| + |u|, 4
  {
    match kind
    case Packed(_) =>
    case Keyed(e) => EntriesSame(t, e, s, u);
    case _ => ElementsSame(t, kind.element, s, u);
  }

  lemma {:induction false} EntriesSame(t: MessageType, e: Element, s: bytes, u: bytes)
    requires PaddedEntry(t, e, s, u)
    ensures var entry, same := ReadEntry(e, s), ReadEntry(e, u);
            entry.Done? && same.Done? && entry.value == same.value && Padded(t, entry.rest, same.rest)
    decreases |s| + |u|, 3
  {
    var length, len := ReadVarint(s), ReadVarint(u);
    var key, k := ReadAtom(Text, Advance(length.rest)), ReadAtom(Text, Advance(len.rest));
    ElementsSame(t, e, Advance(key.rest), Advance(k.rest));
    TextIsUtf8(Advance(length.rest));
    var value, same := ReadElement(e, Advance(key.rest)), ReadElement(e, Advance(k.rest));
    ReadEntryParts(e, s, length.value, length.rest, key.value.text, key.rest, value.value, value.rest);
    ReadEntryParts(e, u, len.value, len.rest, key.value.text, k.rest, same.value, same.rest);
  }

  lemma TextIsUtf8(s: bytes)
    ensures ReadAtom(Text, s).Done? ==> ReadAtom(Text, s).value.Utf8?
  {
  }

  /** Whatever one of the two decodes to, the other decodes to as well. */
  lemma {:induction false} PaddedDecodes(t: MessageType, s: bytes, u: bytes, m: Message, result: Message)
    requires Padded(t, s, u) && DecodeMessage(t, s, |s|, m) == Done(result, [])
    ensures DecodeMessage(t, u, |u|, m) == Done(result, [])
    decreases |s| + |u|, 2
  {
    hide DecodeMessage, ReadRecord, PaddedFirst, Absorb;
    if s == [] && u == [] {
    } else if UnknownFirst(t, s) && Padded(t, ReadRecord(t, s).rest, u) {
      var rest := ReadRecord(t, s).rest;
      DecodeStep(t, s, |s|, m, Unknown, rest);
      PaddedDecodes(t, rest, u, m, result);
    } else if UnknownFirst(t, u) && Padded(t, s, ReadRecord(t, u).rest) {
      var rest := ReadRecord(t, u).rest;
      PaddedDecodes(t, s, rest, m, result);
      DecodeStep(t, u, |u|, m, Unknown, rest);
    } else {
      RecordsSame(t, s, u);
      var record, rest := ReadRecord(t, s).value, ReadRecord(t, s).rest;
      DecodeStep(t, s, |s|, m, record, rest);
      PaddedDecodes(t, rest, ReadRecord(t, u).rest, Contribute(m, record), result);
      DecodeStep(t, u, |u|, m, record, ReadRecord(t, u).rest);
    }
  }

  /** Unknown records may be put before any matching records. */
  lemma {:induction false} PadFirst(t: MessageType, unknown: bytes, s: bytes, u: bytes)
    requires UnknownRecords(t, unknown) && Padded(t, s, u)
    ensures Padded(t, s, unknown + u)
    decreases |unknown|
  {
    if unknown == [] {
      assert unknown + u == u;
    } else {
      var rest := ReadRecord(t, unknown).rest;
      PadFirst(t, rest, s, u);
      ReadRecordLocal(t, unknown, u);
      assert UnknownFirst(t, unknown + u);
    }
  }

  /** Unknown records, put at any boundary at any depth, change nothing. */
  lemma PaddingIgnored(t: MessageType, s: bytes, u: bytes, m: Message)
    requires Padded(t, s, u) && Decode(t, s) == Done(m, [])
    ensures Decode(t, u) == Done(m, [])
  {
    PaddedDecodes(t, s, u, EMPTY, m);
  }
}
