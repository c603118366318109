/** Empty arrays and empty objects: `encode` writes nothing for them, at any depth, so what is
    decoded is the message without them. */
module Emptiness {
  import opened Wire
  import opened Schema
  import opened Messages
  import opened Serial
  import opened RoundTrip

  /** The message without its empty arrays and objects, at any depth. */
  function Trim(m: Message): Message
    decreases m, 3
  {
    Object(map p | p in m.fields && !IsVoid(m.fields[p]) :: TrimField(m.fields[p]))
  }

  function TrimField(f: Field): Field
    decreases f, 1
  {
    match f
    case One(v) => One(TrimValue(v))
    case Many(vs) => Many(TrimValues(vs))
    case Dict(es) => Dict(TrimEntries(es))
  }

  function TrimValue(v: Value): Value
    decreases v, 4
  {
    match v
    case Nested(m) => Nested(Trim(m))
    case _ => v
  }

  function TrimValues(vs: seq<Value>): (r: seq<Value>)
    ensures |r| == |vs|
    decreases vs, 0
  {
    if vs == [] then [] else [TrimValue(vs[0])] + TrimValues(vs[1..])
  }

  function TrimEntries(es: seq<Entry>): (r: seq<Entry>)
    ensures |r| == |es|
    decreases es, 0
  {
    if es == [] then [] else [Entry(es[0].key, TrimValue(es[0].value))] + TrimEntries(es[1..])
  }

  lemma {:induction false} TrimEncoding(t: MessageType, m: Message)
    ensures EncodeMessage(t, Trim(m)) == EncodeMessage(t, m)
    decreases m, 3
  {
    SlotsTrimEncoding(t, SlotCount(t), m);
  }

  lemma {:induction false} SlotsTrimEncoding(t: MessageType, n: nat, m: Message)
    ensures EncodeSlots(t, n, Trim(m)) == EncodeSlots(t, n, m)
    decreases m, 2, n
  {
    hide EncodeMessage, EncodeField, EncodeValues, EncodeRecord, EncodeEntries, EntryBody, WriteElement;
    if n > 0 {
      SlotsTrimEncoding(t, n - 1, m);
      var slot := SlotAt(t, n - 1);
      var p := slot.property;
      if p in m.fields {
        var f := m.fields[p];
        if IsVoid(f) {
          VoidWritesNothing(slot, f);
        } else {
          FieldTrimEncoding(slot, f);
          assert Trim(m).fields[p] == TrimField(f);
        }
      }
    }
  }

  lemma VoidWritesNothing(slot: Slot, f: Field)
    requires IsVoid(f)
    ensures EncodeField(slot, f) == []
  {
  }

  lemma {:induction false} FieldTrimEncoding(slot: Slot, f: Field)
    ensures EncodeField(slot, TrimField(f)) == EncodeField(slot, f)
    decreases f, 1
  {
    match (slot.kind, f)
    case (Single(e), One(v)) => ValueTrimEncoding(e, v);
    case (Repeated(e), Many(vs)) => ValuesTrimEncoding(slot.tag, e, vs);
    case (RepeatedOrRaw(e), Many(vs)) => ValuesTrimEncoding(slot.tag, e, vs);
    case (Packed(sc), Many(vs)) => BlockTrimEncoding(sc, vs);
    case (Keyed(e), Dict(es)) => EntriesTrimEncoding(slot.tag, e, es);
    case _ =>
  }

  lemma {:induction false} BlockTrimEncoding(sc: Scalar, vs: seq<Value>)
    ensures PackedBlock(sc, TrimValues(vs)) == PackedBlock(sc, vs)
  {
    if vs != [] {
      var trimmed := TrimValues(vs);
      assert trimmed[0] == TrimValue(vs[0]) && trimmed[1..] == TrimValues(vs[1..]);
      BlockTrimEncoding(sc, vs[1..]);
    }
  }

  lemma {:induction false} ValuesTrimEncoding(tag: nat, e: Element, vs: seq<Value>)
    ensures EncodeValues(tag, e, TrimValues(vs)) == EncodeValues(tag, e, vs)
    decreases vs, 0
  {
    if vs != [] {
      var trimmed := TrimValues(vs);
      assert trimmed[0] == TrimValue(vs[0]) && trimmed[1..] == TrimValues(vs[1..]);
      ValueTrimEncoding(e, vs[0]);
      ValuesTrimEncoding(tag, e, vs[1..]);
    }
  }

  lemma {:induction false} EntriesTrimEncoding(tag: nat, e: Element, es: seq<Entry>)
    ensures EncodeEntries(tag, e, TrimEntries(es)) == EncodeEntries(tag, e, es)
    decreases es, 0
  {
    if es != [] {
      var trimmed := TrimEntries(es);
      assert trimmed[0] == Entry(es[0].key, TrimValue(es[0].value)) && trimmed[1..] == TrimEntries(es[1..]);
      ValueTrimEncoding(e, es[0].value);
      EntriesTrimEncoding(tag, e, es[1..]);
    }
  }

  lemma {:induction false} ValueTrimEncoding(e: Element, v: Value)
    ensures WriteElement(e, TrimValue(v)) == WriteElement(e, v)
    decreases v, 4
  {
    if v.Nested? && e.Sub? {
      TrimEncoding(e.message, v.message);
    }
  }

  /** A message with empty arrays or objects decodes to the message without them. */
  lemma DecodeEncodeTrims(t: MessageType, m: Message)
    requires Fits(t, Trim(m)) && |EncodeMessage(t, m)| < TWO_32
    ensures Decode(t, EncodeMessage(t, m)) == Done(Trim(m), [])
  {
    TrimEncoding(t, m);
    DecodeEncode(t, Trim(m));
  }
}
