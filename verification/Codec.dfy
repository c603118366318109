/** The codec as it runs: a writer with a stack of forked buffers, a reader with a position, and
    the `encode` and `decode` that drive them from the field tables. Each is proved against the
    pure serialiser and parser. */
module Codec {
  import opened Wrappers
  import opened Wire
  import opened Schema
  import opened Messages
  import opened Serial
  import opened RoundTrip

  datatype Result<+T> = Ok(value: T) | Err(error: Error)

  // ---------------------------------------------------------------- writing

  class Writer {
    var current: bytes         // the buffer of the innermost open fork
    var forked: seq<bytes>     // the buffers of the enclosing levels, innermost last

    constructor ()
      ensures current == [] && forked == []
    {
      current, forked := [], [];
    }

    method Append(b: bytes)
      modifies this`current
      ensures current == old(current) + b
    {
      current := current + b;
    }

    method Varint(n: nat)
      modifies this`current
      ensures current == old(current) + Wire.Varint(n)
    {
      var left := n;
      while left >= 128
        invariant current + Wire.Varint(left) == old(current) + Wire.Varint(n)
      {
        assert Wire.Varint(left) == [(128 + left % 128) as byte] + Wire.Varint(left / 128);
        current := current + [(128 + left % 128) as byte];
        left := left / 128;
      }
      current := current + [left as byte];
    }

    method Bytes(b: bytes)
      modifies this`current
      ensures current == old(current) + Frame(b)
    {
      Varint(|b|);
      Append(b);
      assert current == old(current) + Wire.Varint(|b|) + b;
    }

    method Atom(kind: Scalar, a: Atom)
      modifies this`current
      ensures current == old(current) + WriteAtom(kind, a)
    {
      hide Frame;
      match a {
        case Num(n) =>
          if !kind.Bool? && !kind.Text? {
            Varint(Pattern(kind, n));
          }
        case Flag(on) =>
          if kind.Bool? {
            Append([if on then 1 else 0]);
          }
        case Utf8(t) =>
          if kind.Text? {
            Bytes(t);
          }
      }
    }

    method Fork()
      modifies this
      ensures current == [] && forked == old(forked) + [old(current)]
    {
      forked, current := forked + [current], [];
    }

    /** Closes the innermost fork: its bytes, framed, go to the enclosing level. */
    method Ldelim()
      requires forked != []
      modifies this
      ensures forked == old(forked[..|forked| - 1])
      ensures current == old(forked[|forked| - 1]) + Frame(old(current))
    {
      var body := current;
      current := forked[|forked| - 1];
      forked := forked[..|forked| - 1];
      Bytes(body);
    }
  }

  /** `T.encode(message, writer)` */
  method Encode(t: MessageType, m: Message, writer: Writer)
    modifies writer
    ensures writer.current == old(writer.current) + EncodeMessage(t, m)
    ensures writer.forked == old(writer.forked)
    decreases m, 3
  {
    hide EncodeField, EncodeValues, EncodeRecord, EncodeEntries, EntryBody, WriteElement;
    for i := 0 to SlotCount(t)
      invariant writer.current == old(writer.current) + EncodeSlots(t, i, m)
      invariant writer.forked == old(writer.forked)
    {
      var slot := SlotAt(t, i);
      if slot.property in m.fields {
        EncodeProperty(slot, m.fields[slot.property], writer);
      }
    }
  }

  method EncodeProperty(slot: Slot, f: Field, writer: Writer)
    modifies writer
    ensures writer.current == old(writer.current) + EncodeField(slot, f)
    ensures writer.forked == old(writer.forked)
    decreases f, 1
  {
    match (slot.kind, f) {
      case (Single(e), One(v)) => EncodeElement(slot.tag, e, v, writer);
      case (Repeated(e), Many(vs)) => EncodeArray(slot.tag, e, vs, writer);
      case (RepeatedOrRaw(e), Many(vs)) => EncodeArray(slot.tag, e, vs, writer);
      case (Packed(sc), Many(vs)) =>
        if vs != [] {
          EncodePacked(slot.tag, sc, vs, writer);
        }
      case (Keyed(e), Dict(es)) => EncodeObject(slot.tag, e, es, writer);
      case _ =>
    }
  }

  method EncodeArray(tag: nat, e: Element, vs: seq<Value>, writer: Writer)
    modifies writer
    ensures writer.current == old(writer.current) + EncodeValues(tag, e, vs)
    ensures writer.forked == old(writer.forked)
    decreases vs, 0
  {
    for i := 0 to |vs|
      invariant writer.current + EncodeValues(tag, e, vs[i..]) == old(writer.current) + EncodeValues(tag, e, vs)
      invariant writer.forked == old(writer.forked)
    {
      assert vs[i..][0] == vs[i] && vs[i..][1..] == vs[i + 1..];
      EncodeElement(tag, e, vs[i], writer);
    }
  }

  /** A tag and a value; a nested message goes through `fork` and `ldelim`. */
  method EncodeElement(tag: nat, e: Element, v: Value, writer: Writer)
    modifies writer
    ensures writer.current == old(writer.current) + EncodeRecord(tag, e, v)
    ensures writer.forked == old(writer.forked)
    decreases v, 5
  {
    writer.Varint(tag);
    EncodeBody(e, v, writer);
  }

  method EncodeBody(e: Element, v: Value, writer: Writer)
    modifies writer
    ensures writer.current == old(writer.current) + WriteElement(e, v)
    ensures writer.forked == old(writer.forked)
    decreases v, 4
  {
    match (e, v) {
      case (Plain(sc), Leaf(a)) => writer.Atom(sc, a);
      case (Sub(t), Nested(m)) =>
        writer.Fork();
        Encode(t, m, writer);
        assert writer.current == EncodeMessage(t, m);
        writer.Ldelim();
      case (Sub(_), Raw(encoded)) =>
        writer.Bytes(encoded);
      case _ =>
    }
  }

  method EncodePacked(tag: nat, sc: Scalar, vs: seq<Value>, writer: Writer)
    modifies writer
    ensures writer.current == old(writer.current) + (Wire.Varint(tag) + Frame(PackedBlock(sc, vs)))
    ensures writer.forked == old(writer.forked)
  {
    writer.Varint(tag);
    writer.Fork();
    EncodeNumbers(sc, vs, writer);
    assert writer.current == PackedBlock(sc, vs);
    writer.Ldelim();
    assert writer.current == old(writer.current) + Wire.Varint(tag) + Frame(PackedBlock(sc, vs));
  }

  method EncodeNumbers(sc: Scalar, vs: seq<Value>, writer: Writer)
    modifies writer
    ensures writer.current == old(writer.current) + PackedBlock(sc, vs)
    ensures writer.forked == old(writer.forked)
  {
    hide Varint, ReadGroups, ReadVarint, WriteAtom, ReadAtom, Frame, ReadPacked, Absorb;
    for i := 0 to |vs|
      invariant writer.current + PackedBlock(sc, vs[i..]) == old(writer.current) + PackedBlock(sc, vs)
      invariant writer.forked == old(writer.forked)
    {
      assert vs[i..][0] == vs[i] && vs[i..][1..] == vs[i + 1..];
      if vs[i].Leaf? {
        writer.Atom(sc, vs[i].atom);
      }
    }
  }

  /** The `Object.keys` loop: each entry is a fork that holds the key and the value, and a message
      value is a fork inside that. */
  method EncodeObject(tag: nat, e: Element, es: seq<Entry>, writer: Writer)
    modifies writer
    ensures writer.current == old(writer.current) + EncodeEntries(tag, e, es)
    ensures writer.forked == old(writer.forked)
    decreases es, 0
  {
    hide Varint, ReadGroups, ReadVarint, WriteAtom, ReadAtom, Frame, PackedBlock, ReadPacked, Absorb;
    for i := 0 to |es|
      invariant writer.current + EncodeEntries(tag, e, es[i..]) == old(writer.current) + EncodeEntries(tag, e, es)
      invariant writer.forked == old(writer.forked)
    {
      assert es[i..][0] == es[i] && es[i..][1..] == es[i + 1..];
      EncodeEntry(tag, e, es[i], writer);
    }
  }

  method EncodeEntry(tag: nat, e: Element, entry: Entry, writer: Writer)
    modifies writer
    ensures writer.current == old(writer.current) + (Wire.Varint(tag) + Frame(EntryBody(e, entry)))
    ensures writer.forked == old(writer.forked)
    decreases entry, 0
  {
    hide Varint, ReadGroups, ReadVarint, WriteAtom, ReadAtom, Frame, PackedBlock, ReadPacked, Absorb;
    writer.Varint(tag);
    writer.Fork();
    writer.Varint(KEY_TAG);
    writer.Atom(Text, Utf8(entry.key));
    writer.Varint(VALUE_TAG);
    EncodeBody(e, entry.value, writer);
    assert writer.current == EntryBody(e, entry);
    writer.Ldelim();
    assert writer.current == old(writer.current) + Wire.Varint(tag) + Frame(EntryBody(e, entry));
  }

  /** `T.encode(message).finish()` */
  method Serialise(t: MessageType, m: Message) returns (b: bytes)
    ensures b == EncodeMessage(t, m)
  {
    var writer := new Writer();
    Encode(t, m, writer);
    b := writer.current;
  }

  // ---------------------------------------------------------------- reading

  class Reader {
    const buffer: bytes
    var pos: nat

    constructor (buffer: bytes)
      ensures this.buffer == buffer && pos == 0
    {
      this.buffer := buffer;
      pos := 0;
    }

    ghost function Rest(): bytes
      reads this
    {
      if pos <= |buffer| then buffer[pos..] else []
    }

    /** The outcome and the new position are those of reading `spec`. */
    ghost predicate Reads<T>(spec: Read<T>, r: Result<T>)
      reads this
    {
      match spec
      case Done(v, rest) => r == Ok(v) && pos <= |buffer| && Rest() == rest
      case Fail(e) => r == Err(e)
    }

    method Varint() returns (r: Result<nat>)
      modifies this
      ensures Reads(ReadVarint(old(Rest())), r)
    {
      hide ReadGroups, GroupsContinue;
      var start := pos;
      var value: nat, weight: nat := 0, 1;
      ghost var whole := ReadGroups(Rest());
      GroupsStart(Rest());
      while pos < |buffer| && buffer[pos] >= 128
        invariant start <= pos && (start <= |buffer| ==> pos <= |buffer|)
        invariant GroupsContinue(whole, value, weight, ReadGroups(Rest()))
      {
        GroupStep(whole, Rest(), value, weight);
        value, weight := value + weight * (buffer[pos] as nat - 128), weight * 128;
        pos := pos + 1;
        assert Rest() == buffer[pos - 1..][1..];
      }
      GroupsEnd(whole, Rest(), value, weight);
      if pos >= |buffer| {
        return Err(OutOfRange);
      }
      value := value + weight * buffer[pos] as nat;
      pos := pos + 1;
      assert Rest() == buffer[pos - 1..][1..];
      if pos - start > MAX_VARINT {
        return Err(MalformedVarint);
      }
      return Ok(value);
    }

    method UInt32() returns (r: Result<nat>)
      modifies this
      ensures Reads(ReadUInt32(old(Rest())), r)
    {
      r := Varint();
      if r.Ok? {
        r := Ok(Low32(r.value));
      }
    }

    /** `n` bytes from the position on. */
    method Slice(n: nat) returns (r: Result<bytes>)
      requires pos <= |buffer|
      modifies this
      ensures Reads(Take(n, old(Rest())), r)
    {
      if pos + n > |buffer| {
        return Err(OutOfRange);
      }
      r := Ok(buffer[pos..pos + n]);
      assert buffer[pos..][..n] == buffer[pos..pos + n];
      pos := pos + n;
    }

    method Atom(kind: Scalar) returns (r: Result<Atom>)
      modifies this
      ensures Reads(ReadAtom(kind, old(Rest())), r)
    {
      if kind.Text? {
        var n := UInt32();
        if n.Err? {
          return Err(n.error);
        }
        var t := Slice(n.value);
        if t.Err? {
          return Err(t.error);
        }
        return Ok(Utf8(t.value));
      }
      var n := Varint();
      if n.Err? {
        return Err(n.error);
      }
      return Ok(Meaning(kind, n.value));
    }

    /** `reader.pos++` */
    method Next()
      modifies this
      ensures Rest() == Advance(old(Rest()))
    {
      pos := pos + 1;
    }

    method Skip(wireType: nat) returns (r: Result<()>)
      requires pos <= |buffer|
      modifies this
      ensures Reads(SkipType(wireType, old(Rest())), r)
      decreases |buffer| - pos, 1
    {
      if wireType == 0 {
        var n := Varint();
        r := if n.Ok? then Ok(()) else Err(n.error);
      } else if wireType == 1 {
        var b := Slice(8);
        r := if b.Ok? then Ok(()) else Err(b.error);
      } else if wireType == 2 {
        var n := UInt32();
        if n.Err? {
          return Err(n.error);
        }
        var b := Slice(n.value);
        r := if b.Ok? then Ok(()) else Err(b.error);
      } else if wireType == 3 {
        r := SkipToGroupEnd();
      } else if wireType == 5 {
        var b := Slice(4);
        r := if b.Ok? then Ok(()) else Err(b.error);
      } else {
        r := Err(BadWireType);
      }
    }

    method SkipToGroupEnd() returns (r: Result<()>)
      requires pos <= |buffer|
      modifies this
      ensures Reads(SkipGroup(old(Rest())), r)
      decreases |buffer| - pos, 0
    {
      var tag := UInt32();
      if tag.Err? {
        return Err(tag.error);
      }
      if tag.value % 8 == 4 {
        return Ok(());
      }
      r := Skip(tag.value % 8);
      if r.Ok? {
        r := SkipToGroupEnd();
      }
    }
  }

  /** With `value` gathered so far and `weight` the weight of the next group, what is left reads
      to `later` exactly when the whole varint reads to `whole`. */
  ghost predicate GroupsContinue(whole: Read<nat>, value: nat, weight: nat, later: Read<nat>) {
    whole == if later.Done? then Done(value + weight * later.value, later.rest) else later
  }

  lemma GroupsStart(s: bytes)
    ensures GroupsContinue(ReadGroups(s), 0, 1, ReadGroups(s))
  {
  }

  lemma GroupStep(whole: Read<nat>, s: bytes, value: nat, weight: nat)
    requires s != [] && s[0] >= 128 && GroupsContinue(whole, value, weight, ReadGroups(s))
    ensures GroupsContinue(whole, value + weight * (s[0] as nat - 128), weight * 128, ReadGroups(s[1..]))
  {
    if ReadGroups(s[1..]).Done? {
      Weigh(value, weight, s[0] as nat - 128, ReadGroups(s[1..]).value);
    }
  }

  lemma GroupsEnd(whole: Read<nat>, s: bytes, value: nat, weight: nat)
    requires (s == [] || s[0] < 128) && GroupsContinue(whole, value, weight, ReadGroups(s))
    ensures whole == if s == [] then Fail(OutOfRange) else Done(value + weight * s[0] as nat, s[1..])
  {
  }

  lemma Weigh(value: nat, weight: nat, low: nat, high: nat)
    ensures value + weight * (low + 128 * high) == (value + weight * low) + (weight * 128) * high
  {
    assert weight * (low + 128 * high) == weight * low + weight * (128 * high);
  }

  /** `T.decode(reader, length)` */
  method Decode(t: MessageType, reader: Reader, length: nat) returns (r: Result<Message>)
    requires reader.pos <= |reader.buffer|
    modifies reader
    ensures reader.Reads(DecodeMessage(t, old(reader.Rest()), length, EMPTY), r)
    decreases |reader.buffer| - reader.pos, 2
  {
    hide ReadRecord, ReadField, ReadElement, ReadEntry;
    var end := reader.pos + length;
    var message := EMPTY;
    while reader.pos < end
      invariant reader.pos <= |reader.buffer|
      invariant old(reader.pos) <= reader.pos
      invariant DecodeMessage(t, reader.Rest(), end - reader.pos, message) ==
                DecodeMessage(t, old(reader.Rest()), length, EMPTY)
      decreases |reader.buffer| - reader.pos
    {
      var record := DecodeRecord(t, reader);
      if record.Err? {
        return Err(record.error);
      }
      message := Contribute(message, record.value);
    }
    return Ok(message);
  }

  /** The tag and the `switch` of a `decode`. */
  method DecodeRecord(t: MessageType, reader: Reader) returns (r: Result<Record>)
    requires reader.pos <= |reader.buffer|
    modifies reader
    ensures reader.Reads(ReadRecord(t, old(reader.Rest())), r)
    decreases |reader.buffer| - reader.pos, 1
  {
    var tag := reader.UInt32();
    if tag.Err? {
      return Err(tag.error);
    }
    match Case(t, tag.value / 8) {
      case None =>
        var skipped := reader.Skip(tag.value % 8);
        r := if skipped.Ok? then Ok(Unknown) else Err(skipped.error);
      case Some(target) =>
        var f := DecodeField(target.kind, tag.value % 8, reader);
        r := if f.Ok? then Ok(Contribution(target.property, f.value)) else Err(f.error);
    }
  }

  method DecodeField(kind: Kind, wireType: nat, reader: Reader) returns (r: Result<Field>)
    requires reader.pos <= |reader.buffer|
    modifies reader
    ensures reader.Reads(ReadField(kind, wireType, old(reader.Rest())), r)
    decreases |reader.buffer| - reader.pos, 4
  {
    match kind {
      case Single(e) =>
        var v := DecodeElement(e, reader);
        r := if v.Ok? then Ok(One(v.value)) else Err(v.error);
      case Repeated(e) =>
        var v := DecodeElement(e, reader);
        r := if v.Ok? then Ok(Many([v.value])) else Err(v.error);
      case RepeatedOrRaw(e) =>
        var v := DecodeElement(e, reader);
        r := if v.Ok? then Ok(Many([v.value])) else Err(v.error);
      case Packed(sc) =>
        r := DecodeNumbers(sc, wireType, reader);
      case Keyed(e) =>
        var entry := DecodeEntry(e, reader);
        r := if entry.Ok? then Ok(Dict([entry.value])) else Err(entry.error);
    }
  }

  method DecodeElement(e: Element, reader: Reader) returns (r: Result<Value>)
    modifies reader
    ensures reader.Reads(ReadElement(e, old(reader.Rest())), r)
    decreases |reader.Rest()|, 3
  {
    match e {
      case Plain(sc) =>
        var a := reader.Atom(sc);
        r := if a.Ok? then Ok(Leaf(a.value)) else Err(a.error);
      case Sub(t) =>
        var n := reader.UInt32();
        if n.Err? {
          return Err(n.error);
        }
        var m := Decode(t, reader, n.value);
        r := if m.Ok? then Ok(Nested(m.value)) else Err(m.error);
    }
  }

  /** A map entry: the entry length and the two tags are passed over unread. */
  method DecodeEntry(e: Element, reader: Reader) returns (r: Result<Entry>)
    requires reader.pos <= |reader.buffer|
    modifies reader
    ensures reader.Reads(ReadEntry(e, old(reader.Rest())), r)
    decreases |reader.buffer| - reader.pos, 3
  {
    hide Varint, ReadGroups, ReadVarint, WriteAtom, Frame, PackedBlock, ReadPacked, Absorb;
    var n := reader.Varint();
    if n.Err? {
      return Err(n.error);
    }
    reader.Next();
    var key := reader.Atom(Text);
    if key.Err? {
      return Err(key.error);
    }
    reader.Next();
    var v := DecodeElement(e, reader);
    r := if v.Ok? then Ok(Entry(key.value.text, v.value)) else Err(v.error);
  }

  method DecodeNumbers(sc: Scalar, wireType: nat, reader: Reader) returns (r: Result<Field>)
    requires reader.pos <= |reader.buffer|
    modifies reader
    ensures reader.Reads(ReadField(Packed(sc), wireType, old(reader.Rest())), r)
  {
    if wireType == 2 {
      var n := reader.UInt32();
      if n.Err? {
        return Err(n.error);
      }
      var vs := DecodeBlock(sc, n.value, reader);
      r := if vs.Ok? then Ok(Many(vs.value)) else Err(vs.error);
    } else {
      var a := reader.Atom(sc);
      r := if a.Ok? then Ok(Many([Leaf(a.value)])) else Err(a.error);
    }
  }

  method DecodeBlock(sc: Scalar, length: nat, reader: Reader) returns (r: Result<seq<Value>>)
    requires reader.pos <= |reader.buffer|
    modifies reader
    ensures reader.Reads(ReadPacked(sc, old(reader.Rest()), length), r)
  {
    hide ReadAtom, ReadVarint, AtomFits;
    ghost var spec := ReadPacked(sc, reader.Rest(), length);
    assert spec.Done? ==> [] + spec.value == spec.value;
    var end, vs := length + reader.pos, [];
    while reader.pos < end
      invariant reader.pos <= |reader.buffer|
      invariant var later := ReadPacked(sc, reader.Rest(), end - reader.pos);
                spec == if later.Done? then Done(vs + later.value, later.rest) else later
      decreases |reader.buffer| - reader.pos
    {
      ghost var s := reader.Rest();
      var a := reader.Atom(sc);
      if a.Err? {
        return Err(a.error);
      }
      ghost var later := ReadPacked(sc, reader.Rest(), end - reader.pos);
      assert later.Done? ==> vs + ([Leaf(a.value)] + later.value) == vs + [Leaf(a.value)] + later.value;
      vs := vs + [Leaf(a.value)];
    }
    assert vs + [] == vs;
    return Ok(vs);
  }

  /** `T.decode(buffer)` */
  method Parse(t: MessageType, buffer: bytes) returns (r: Result<Message>)
    ensures r == match Serial.Decode(t, buffer)
                 case Done(m, _) => Ok(m)
                 case Fail(e) => Err(e)
  {
    var reader := new Reader(buffer);
    assert reader.Rest() == buffer;
    r := Decode(t, reader, |buffer|);
  }

  /** Writing a message and reading it back gives the message. */
  method Recode(t: MessageType, m: Message) returns (r: Result<Message>)
    requires Fits(t, m) && |EncodeMessage(t, m)| < TWO_32
    ensures r == Ok(m)
  {
    var buffer := Serialise(t, m);
    DecodeEncode(t, m);
    hide Fits, EncodeMessage, DecodeMessage;
    r := Parse(t, buffer);
  }
}
