/** What `decode` makes of records that follow one another: the merge of what it makes of each
    part. Records with unknown field numbers change nothing wherever they stand. */
module Concatenation {
  import opened Wrappers
  import opened Wire
  import opened Schema
  import opened Messages
  import opened Serial
  import opened RoundTrip

  // ---------------------------------------------------------------- locality

  lemma {:induction false} ReadPackedLocal(sc: Scalar, s: bytes, left: int, more: bytes)
    requires ReadPacked(sc, s, left).Done?
    ensures ReadPacked(sc, s + more, left) ==
            Done(ReadPacked(sc, s, left).value, ReadPacked(sc, s, left).rest + more)
    decreases |s|
  {
    hide ReadAtom;
    if left > 0 {
      ReadAtomLocal(sc, s, more);
      var (a, s1) := ReadAtom(sc, s).Extract();
      ReadPackedLocal(sc, s1, left - (|s| - |s1|), more);
    }
  }

  lemma {:induction false} ReadElementLocal(e: Element, s: bytes, more: bytes)
    requires ReadElement(e, s).Done?
    ensures ReadElement(e, s + more) == Done(ReadElement(e, s).value, ReadElement(e, s).rest + more)
    decreases |s|, 2
  {
    match e
    case Plain(sc) => ReadAtomLocal(sc, s, more);
    case Sub(t) =>
      ReadUInt32Local(s, more);
      var (n, s1) := ReadUInt32(s).Extract();
      DecodeLocal(t, s1, n, EMPTY, more);
  }

  lemma {:induction false} ReadEntryLocal(e: Element, s: bytes, more: bytes)
    requires ReadEntry(e, s).Done?
    ensures ReadEntry(e, s + more) == Done(ReadEntry(e, s).value, ReadEntry(e, s).rest + more)
    decreases |s|, 2
  {
    ReadVarintLocal(s, more);
    var s1 := ReadVarint(s).rest;
    AdvanceLocal(s1, more);
    ReadAtomLocal(Text, Advance(s1), more);
    var (key, s2) := ReadAtom(Text, Advance(s1)).Extract();
    AdvanceLocal(s2, more);
    ReadElementLocal(e, Advance(s2), more);
    var (v, rest) := ReadElement(e, Advance(s2)).Extract();
    ReadEntryParts(e, s + more, ReadVarint(s).value, s1 + more, key.text, s2 + more, v, rest + more);
  }

  lemma AdvanceLocal(s: bytes, more: bytes)
    ensures s != [] ==> Advance(s + more) == Advance(s) + more
  {
  }

  lemma {:induction false} ReadFieldLocal(kind: Kind, wireType: nat, s: bytes, more: bytes)
    requires ReadField(kind, wireType, s).Done?
    ensures ReadField(kind, wireType, s + more) ==
            Done(ReadField(kind, wireType, s).value, ReadField(kind, wireType, s).rest + more)
    decreases |s|, 3
  {
    match kind
    case Single(e) => ReadElementLocal(e, s, more);
    case Repeated(e) => ReadElementLocal(e, s, more);
    case RepeatedOrRaw(e) => ReadElementLocal(e, s, more);
    case Packed(sc) =>
      if wireType == 2 {
        ReadUInt32Local(s, more);
        var (n, s1) := ReadUInt32(s).Extract();
        ReadPackedLocal(sc, s1, n, more);
      } else {
        ReadAtomLocal(sc, s, more);
      }
    case Keyed(e) => ReadEntryLocal(e, s, more);
  }

  lemma {:induction false} ReadRecordLocal(t: MessageType, s: bytes, more: bytes)
    requires ReadRecord(t, s).Done?
    ensures ReadRecord(t, s + more) == Done(ReadRecord(t, s).value, ReadRecord(t, s).rest + more)
    decreases |s|, 1
  {
    ReadUInt32Local(s, more);
    var (tag, s1) := ReadUInt32(s).Extract();
    match Case(t, tag / 8)
    case None => SkipTypeLocal(tag % 8, s1, more);
    case Some(target) => ReadFieldLocal(target.kind, tag % 8, s1, more);
  }

  /** A decoding that succeeds looks at nothing beyond what it consumes. */
  lemma {:induction false} DecodeLocal(t: MessageType, s: bytes, left: int, m: Message, more: bytes)
    requires DecodeMessage(t, s, left, m).Done?
    ensures DecodeMessage(t, s + more, left, m) ==
            Done(DecodeMessage(t, s, left, m).value, DecodeMessage(t, s, left, m).rest + more)
    decreases |s|, 2
  {
    hide ReadRecord, ReadField, ReadElement, ReadEntry;
    if left > 0 {
      ReadRecordLocal(t, s, more);
      var (record, rest) := ReadRecord(t, s).Extract();
      DecodeLocal(t, rest, left - (|s| - |rest|), Contribute(m, record), more);
      DecodeStep(t, s + more, left, m, record, rest + more);
    }
  }

  // ---------------------------------------------------------------- merging

  /** `s` is a whole number of records, and decodes to `m`. */
  ghost predicate Decodes(t: MessageType, s: bytes, m: Message) {
    Decode(t, s) == Done(m, [])
  }

  /** Decoding on top of `a` merges into `a` what decoding on its own gives. */
  lemma {:induction false} DecodeOnTop(t: MessageType, s: bytes, left: int, a: Message, b: Message)
    requires Shaped(t, a) && Shaped(t, b)
    ensures var r := DecodeMessage(t, s, left, b);
            DecodeMessage(t, s, left, Merge(a, b)) ==
            if r.Done? then Done(Merge(a, r.value), r.rest) else r
    ensures DecodeMessage(t, s, left, b).Done? ==> Shaped(t, DecodeMessage(t, s, left, b).value)
    decreases |s|
  {
    hide ReadRecord, Merge, Shaped;
    if left > 0 && ReadRecord(t, s).Done? {
      var (record, rest) := ReadRecord(t, s).Extract();
      ContributeOnTop(t, s, a, b);
      DecodeStep(t, s, left, b, record, rest);
      DecodeStep(t, s, left, Merge(a, b), record, rest);
      DecodeOnTop(t, rest, left - (|s| - |rest|), a, Contribute(b, record));
    }
  }

  lemma ContributeOnTop(t: MessageType, s: bytes, a: Message, b: Message)
    requires Shaped(t, a) && Shaped(t, b) && ReadRecord(t, s).Done?
    ensures var record := ReadRecord(t, s).value;
            && Contribute(Merge(a, b), record) == Merge(a, Contribute(b, record))
            && Shaped(t, Contribute(b, record))
  {
    var record := ReadRecord(t, s).value;
    if record.Contribution? {
      var number := RecordCase(t, s);
      AbsorbMerges(t, a, b, number, record.field);
      AbsorbKeepsShape(t, b, number, record.field);
    }
  }

  /** A contribution has the shape of the switch case that read it. */
  lemma RecordCase(t: MessageType, s: bytes) returns (number: nat)
    requires ReadRecord(t, s).Done? && ReadRecord(t, s).value.Contribution?
    ensures Case(t, number).Some? && Case(t, number).value.property == ReadRecord(t, s).value.property
    ensures HasShape(Case(t, number).value.kind, ReadRecord(t, s).value.field)
    ensures ReadRecord(t, s).value.field.Dict? ==> DistinctKeys(ReadRecord(t, s).value.field.entries)
  {
    number := ReadUInt32(s).value / 8;
  }

  /** The decoding loop over `x + y`, where `x` is a whole number of records, goes through `x` and
      then through `y`. */
  lemma {:induction false} DecodeThrough(t: MessageType, x: bytes, y: bytes, n: nat, m: Message, after: Message)
    requires DecodeMessage(t, x, |x|, m) == Done(after, [])
    ensures DecodeMessage(t, x + y, |x| + n, m) == DecodeMessage(t, y, n, after)
    decreases |x|
  {
    hide ReadRecord, ReadField, ReadElement, ReadEntry;
    if x == [] {
      assert x + y == y;
    } else {
      var (record, rest) := ReadRecord(t, x).Extract();
      ReadRecordLocal(t, x, y);
      DecodeStep(t, x, |x|, m, record, rest);
      DecodeStep(t, x + y, |x| + n, m, record, rest + y);
      DecodeThrough(t, rest, y, n, Contribute(m, record), after);
    }
  }

  lemma EmptyIsShaped(t: MessageType, m: Message)
    requires Shaped(t, m)
    ensures Shaped(t, EMPTY) && Merge(m, EMPTY) == m
  {
    assert Merge(m, EMPTY).fields == m.fields;
  }

  lemma DecodedIsShaped(t: MessageType, s: bytes, m: Message)
    requires Decodes(t, s, m)
    ensures Shaped(t, m)
  {
    DecodeOnTop(t, s, |s|, EMPTY, EMPTY);
  }

  /** Decoding one record sequence after another merges the second message into the first: a
      later single value replaces an earlier one whole, arrays are appended, object keys are
      assigned. */
  lemma DecodeConcatenation(t: MessageType, x: bytes, y: bytes, m: Message, later: Message)
    requires Decodes(t, x, m) && Decodes(t, y, later)
    ensures Decodes(t, x + y, Merge(m, later))
  {
    hide DecodeMessage, ReadRecord, ReadField, ReadElement, ReadEntry;
    DecodedIsShaped(t, x, m);
    EmptyIsShaped(t, m);
    DecodeThrough(t, x, y, |y|, EMPTY, m);
    DecodeOnTop(t, y, |y|, m, EMPTY);
  }

  // ---------------------------------------------------------------- unknown records

  /** `s` is a sequence of records whose field numbers the message type does not know. */
  ghost predicate UnknownRecords(t: MessageType, s: bytes)
    decreases |s|
  {
    s == [] ||
    (ReadRecord(t, s).Done? && ReadRecord(t, s).value.Unknown? && UnknownRecords(t, ReadRecord(t, s).rest))
  }

  lemma {:induction false} UnknownRecordsDecode(t: MessageType, s: bytes, m: Message)
    requires UnknownRecords(t, s)
    ensures DecodeMessage(t, s, |s|, m) == Done(m, [])
    decreases |s|
  {
    if s != [] {
      var rest := ReadRecord(t, s).rest;
      UnknownRecordsDecode(t, rest, m);
      DecodeStep(t, s, |s|, m, Unknown, rest);
    }
  }

  /** Unknown records put at any record boundary change nothing, whatever follows them and
      whether or not it can be decoded. */
  lemma UnknownRecordsIgnored(t: MessageType, x: bytes, unknown: bytes, y: bytes, n: nat, m: Message)
    requires DecodeMessage(t, x, |x|, EMPTY) == Done(m, [])
    requires UnknownRecords(t, unknown)
    ensures DecodeMessage(t, x + unknown + y, |x| + |unknown| + n, EMPTY) ==
            DecodeMessage(t, x + y, |x| + n, EMPTY)
  {
    hide DecodeMessage, ReadRecord, ReadField, ReadElement, ReadEntry;
    assert x + unknown + y == x + (unknown + y);
    DecodeThrough(t, x, unknown + y, |unknown| + n, EMPTY, m);
    UnknownRecordsDecode(t, unknown, m);
    DecodeThrough(t, unknown, y, n, m, m);
    DecodeThrough(t, x, y, n, EMPTY, m);
  }

  /** A record leaves every message as it is if and only if the switch has no case for its field
      number, or it is an empty packed block. */
  lemma UnknownRecordIff(t: MessageType, s: bytes)
    requires ReadRecord(t, s).Done?
    ensures var record := ReadRecord(t, s).value;
            (forall m :: Contribute(m, record) == m) <==>
            (Case(t, ReadUInt32(s).value / 8).None? || (record.Contribution? && IsVoid(record.field)))
  {
    var record := ReadRecord(t, s).value;
    KnownIff(t, s);
    if record.Contribution? && !IsVoid(record.field) {
      assert record.property in Contribute(EMPTY, record).fields;
      assert Contribute(EMPTY, record) != EMPTY;
    }
  }

  lemma KnownIff(t: MessageType, s: bytes)
    requires ReadRecord(t, s).Done?
    ensures ReadRecord(t, s).value.Unknown? <==> Case(t, ReadUInt32(s).value / 8).None?
  {
  }

  // ---------------------------------------------------------------- lengths

  /** `decode(reader, n)` never succeeds when fewer than `n` bytes are left. */
  lemma TooShort(t: MessageType, s: bytes, n: nat, m: Message)
    requires n > |s|
    ensures DecodeMessage(t, s, n, m).Fail?
  {
  }
}
