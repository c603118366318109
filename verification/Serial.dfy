/** The pure serialiser and parser that the imperative codec is proved against. */
module Serial {
  import opened Wrappers
  import opened Wire
  import opened Schema
  import opened Messages

  /** The tags inside a map entry: key is field 1, value is field 2, both length-delimited. */
  const KEY_TAG := 10
  const VALUE_TAG := 18

  // ---------------------------------------------------------------- writing

  function EncodeMessage(t: MessageType, m: Message): bytes
    decreases m, 3
  {
    EncodeSlots(t, SlotCount(t), m)
  }

  /** What the first `n` slots of type `t` write. */
  function EncodeSlots(t: MessageType, n: nat, m: Message): bytes
    decreases m, 2, n
  {
    if n == 0 then [] else EncodeSlots(t, n - 1, m) + EncodeSlot(SlotAt(t, n - 1), m)
  }

  /** One `if` of an `encode`: nothing unless the property is there. */
  function EncodeSlot(slot: Slot, m: Message): bytes
    decreases m, 1
  {
    if slot.property in m.fields then EncodeField(slot, m.fields[slot.property]) else []
  }

  function EncodeField(slot: Slot, f: Field): bytes
    decreases f, 1
  {
    match (slot.kind, f)
    case (Single(e), One(v)) => EncodeRecord(slot.tag, e, v)
    case (Repeated(e), Many(vs)) => EncodeValues(slot.tag, e, vs)
    case (RepeatedOrRaw(e), Many(vs)) => EncodeValues(slot.tag, e, vs)
    case (Packed(sc), Many(vs)) =>
      if vs == [] then [] else Varint(slot.tag) + Frame(PackedBlock(sc, vs))
    case (Keyed(e), Dict(es)) => EncodeEntries(slot.tag, e, es)
    case _ => []
  }

  function EncodeValues(tag: nat, e: Element, vs: seq<Value>): bytes
    decreases vs, 0
  {
    if vs == [] then [] else EncodeRecord(tag, e, vs[0]) + EncodeValues(tag, e, vs[1..])
  }

  function EncodeRecord(tag: nat, e: Element, v: Value): bytes
    decreases v, 5
  {
    Varint(tag) + WriteElement(e, v)
  }

  function EncodeEntries(tag: nat, e: Element, es: seq<Entry>): bytes
    decreases es, 0
  {
    if es == [] then []
    else Varint(tag) + Frame(EntryBody(e, es[0])) + EncodeEntries(tag, e, es[1..])
  }

  function EntryBody(e: Element, entry: Entry): bytes
    decreases entry, 0
  {
    Varint(KEY_TAG) + WriteAtom(Text, Utf8(entry.key)) + Varint(VALUE_TAG) + WriteElement(e, entry.value)
  }

  function WriteElement(e: Element, v: Value): bytes
    decreases v, 4
  {
    match (e, v)
    case (Plain(sc), Leaf(a)) => WriteAtom(sc, a)
    case (Sub(t), Nested(m)) => Frame(EncodeMessage(t, m))
    case (Sub(_), Raw(encoded)) => Frame(encoded)
    case _ => []
  }

  function PackedBlock(sc: Scalar, vs: seq<Value>): bytes {
    if vs == [] then []
    else (if vs[0].Leaf? then WriteAtom(sc, vs[0].atom) else []) + PackedBlock(sc, vs[1..])
  }

  // ---------------------------------------------------------------- reading

  /** What one record contributes to the message: nothing, or a field of some property. */
  datatype Record = Unknown | Contribution(property: Property, field: Field)

  function Contribute(m: Message, record: Record): Message {
    match record
    case Unknown => m
    case Contribution(p, f) => Absorb(m, p, f)
  }

  /** The `while (reader.pos < end)` loop of every `decode`: `left` is `end - reader.pos`. */
  function DecodeMessage(t: MessageType, s: bytes, left: int, m: Message): (r: Read<Message>)
    ensures r.Done? ==> |r.rest| <= |s| && |s| - |r.rest| >= left
    decreases |s|, 2
  {
    if left <= 0 then Done(m, s)
    else
      var (record, rest) :- ReadRecord(t, s);
      DecodeMessage(t, rest, left - (|s| - |rest|), Contribute(m, record))
  }

  /** One turn of that loop: a tag and what its switch case reads. */
  function ReadRecord(t: MessageType, s: bytes): (r: Read<Record>)
    ensures r.Done? ==> |r.rest| < |s|
    decreases |s|, 1
  {
    var (tag, s1) :- ReadUInt32(s);
    match Case(t, tag / 8)
    case None =>
      var (_, rest) :- SkipType(tag % 8, s1);
      Done(Unknown, rest)
    case Some(target) =>
      var (f, rest) :- ReadField(target.kind, tag % 8, s1);
      Done(Contribution(target.property, f), rest)
  }

  function ReadField(kind: Kind, wireType: nat, s: bytes): (r: Read<Field>)
    ensures r.Done? ==> |r.rest| <= |s| && HasShape(kind, r.value)
    ensures r.Done? && r.value.Dict? ==> |r.value.entries| == 1
    decreases |s|, 3
  {
    match kind
    case Single(e) =>
      var (v, rest) :- ReadElement(e, s);
      Done(One(v), rest)
    case Repeated(e) =>
      var (v, rest) :- ReadElement(e, s);
      Done(Many([v]), rest)
    case RepeatedOrRaw(e) =>
      var (v, rest) :- ReadElement(e, s);
      Done(Many([v]), rest)
    case Packed(sc) =>
      if wireType == 2 then
        var (n, s1) :- ReadUInt32(s);
        var (vs, rest) :- ReadPacked(sc, s1, n);
        Done(Many(vs), rest)
      else
        var (a, rest) :- ReadAtom(sc, s);
        Done(Many([Leaf(a)]), rest)
    case Keyed(e) =>
      var (entry, rest) :- ReadEntry(e, s);
      Done(Dict([entry]), rest)
  }

  function ReadElement(e: Element, s: bytes): (r: Read<Value>)
    ensures r.Done? ==> |r.rest| < |s|
    decreases |s|, 2
  {
    match e
    case Plain(sc) =>
      var (a, rest) :- ReadAtom(sc, s);
      Done(Leaf(a), rest)
    case Sub(t) =>
      var (n, s1) :- ReadUInt32(s);
      var (m, rest) :- DecodeMessage(t, s1, n, EMPTY);
      Done(Nested(m), rest)
  }

  /** `reader.pos++` */
  function Advance(s: bytes): (r: bytes)
    ensures |r| <= |s|
  {
    if s == [] then [] else s[1..]
  }

  /** A map entry, read by position: the entry's length and the two tags are skipped unread. */
  function ReadEntry(e: Element, s: bytes): (r: Read<Entry>)
    ensures r.Done? ==> |r.rest| < |s|
    decreases |s|, 2
  {
    var (_, s1) :- ReadVarint(s);
    var (key, s2) :- ReadAtom(Text, Advance(s1));
    var (v, rest) :- ReadElement(e, Advance(s2));
    Done(Entry(key.text, v), rest)
  }

  function ReadPacked(sc: Scalar, s: bytes, left: int): (r: Read<seq<Value>>)
    ensures r.Done? ==> |r.rest| <= |s| && |s| - |r.rest| >= left
    decreases |s|, 0
  {
    if left <= 0 then Done([], s)
    else
      var (a, s1) :- ReadAtom(sc, s);
      var (vs, rest) :- ReadPacked(sc, s1, left - (|s| - |s1|));
      Done([Leaf(a)] + vs, rest)
  }

  /** A whole message: `decode(buffer)`. */
  function Decode(t: MessageType, s: bytes): Read<Message> {
    DecodeMessage(t, s, |s|, EMPTY)
  }
}
