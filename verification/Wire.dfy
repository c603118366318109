/** The byte-level vocabulary of the protobuf codec: base-128 varints, zigzag, scalar values and
    the skipping of unknown records, as the Protocol Buffers Encoding specification fixes them
    (sections "Base 128 Varints", "Signed Integers", "Length-Delimited Records" and
    "Message Structure").

    Reading is a function from the bytes that are left to a value and the bytes that remain. */
module Wire {

  newtype byte = n: int | 0 <= n < 256
  type bytes = seq<byte>

  const TWO_31 := 0x8000_0000
  const TWO_32 := 0x1_0000_0000
  const TWO_63 := 0x8000_0000_0000_0000
  const TWO_64 := 0x1_0000_0000_0000_0000

  /** A varint has at most this many bytes. */
  const MAX_VARINT := 10

  datatype Error = OutOfRange | MalformedVarint | BadWireType

  datatype Read<+T> = Done(value: T, rest: bytes) | Fail(error: Error) {
    predicate IsFailure() { Fail? }

    function PropagateFailure<U>(): Read<U>
      requires Fail?
    {
      Fail(error)
    }

    function Extract(): (T, bytes)
      requires Done?
    {
      (value, rest)
    }
  }

  /** The scalar kinds that the generated code reads and writes. */
  datatype Scalar = UInt32 | UInt64 | Int32 | Int64 | SInt64 | Bool | Text

  /** A scalar value; text is its UTF-8 bytes. */
  datatype Atom = Num(n: int) | Flag(on: bool) | Utf8(text: bytes)

  // ---------------------------------------------------------------- varints

  function Varint(n: nat): (b: bytes)
    ensures |b| >= 1
  {
    if n < 128 then [n as byte] else [(128 + n % 128) as byte] + Varint(n / 128)
  }

  /** The groups of seven bits up to the first byte without a continuation bit, least
      significant first. */
  function ReadGroups(s: bytes): (r: Read<nat>)
    ensures r.Done? ==> |r.rest| < |s|
  {
    if s == [] then Fail(OutOfRange)
    else if s[0] < 128 then Done(s[0] as nat, s[1..])
    else
      var (high, rest) :- ReadGroups(s[1..]);
      Done(s[0] as nat - 128 + 128 * high, rest)
  }

  function ReadVarint(s: bytes): (r: Read<nat>)
    ensures r.Done? ==> |r.rest| < |s|
  {
    var (n, rest) :- ReadGroups(s);
    if |s| - |rest| > MAX_VARINT then Fail(MalformedVarint) else Done(n, rest)
  }

  function Pow128(k: nat): (p: nat)
    ensures p >= 1
  {
    if k == 0 then 1 else 128 * Pow128(k - 1)
  }

  lemma {:induction false} VarintLength(n: nat, k: nat)
    requires k >= 1 && n < Pow128(k)
    ensures |Varint(n)| <= k
  {
    if n >= 128 {
      assert Pow128(k) == 128 * Pow128(k - 1);
      assert k >= 2;
      VarintLength(n / 128, k - 1);
    }
  }

  lemma Varint64Length(n: nat)
    requires n < TWO_64
    ensures |Varint(n)| <= MAX_VARINT
  {
    assert Pow128(5) == 0x8_0000_0000;
    assert Pow128(10) == 128 * 128 * 128 * 128 * 128 * Pow128(5) by {
      assert Pow128(8) == 128 * 128 * 128 * Pow128(5);
    }
    VarintLength(n, 10);
  }

  lemma {:induction false} GroupsRoundTrip(n: nat, rest: bytes)
    ensures ReadGroups(Varint(n) + rest) == Done(n, rest)
  {
    var b := Varint(n);
    assert (b + rest)[0] == b[0];
    if n < 128 {
      assert (b + rest)[1..] == rest;
    } else {
      assert (b + rest)[1..] == Varint(n / 128) + rest;
      GroupsRoundTrip(n / 128, rest);
    }
  }

  lemma VarintRoundTrip(n: nat, rest: bytes)
    requires n < TWO_64
    ensures ReadVarint(Varint(n) + rest) == Done(n, rest)
  {
    GroupsRoundTrip(n, rest);
    Varint64Length(n);
  }

  /** Reading looks at nothing beyond the bytes it consumes. */
  lemma {:induction false} ReadGroupsLocal(s: bytes, more: bytes)
    requires ReadGroups(s).Done?
    ensures ReadGroups(s + more) == Done(ReadGroups(s).value, ReadGroups(s).rest + more)
  {
    assert (s + more)[0] == s[0];
    assert (s + more)[1..] == s[1..] + more;
    if s[0] >= 128 {
      ReadGroupsLocal(s[1..], more);
    }
  }

  lemma ReadVarintLocal(s: bytes, more: bytes)
    requires ReadVarint(s).Done?
    ensures ReadVarint(s + more) == Done(ReadVarint(s).value, ReadVarint(s).rest + more)
  {
    ReadGroupsLocal(s, more);
  }

  // ---------------------------------------------------------------- scalars

  /** The low 32 bits. */
  function Low32(n: nat): (r: nat)
    ensures r < TWO_32
    ensures n < TWO_32 ==> r == n
  {
    n % 0x1_0000_0000
  }

  /** The low 64 bits; of a negative number, its two's complement. */
  function Low64(n: int): (r: nat)
    ensures r < TWO_64
    ensures 0 <= n < TWO_64 ==> r == n
    ensures -TWO_64 <= n < 0 ==> r == n + TWO_64
  {
    n % 0x1_0000_0000_0000_0000
  }

  function ReadUInt32(s: bytes): (r: Read<nat>)
    ensures r.Done? ==> |r.rest| < |s| && r.value < TWO_32
  {
    var (n, rest) :- ReadVarint(s);
    Done(Low32(n), rest)
  }

  function Take(n: nat, s: bytes): (r: Read<bytes>)
    ensures r.Done? ==> |r.rest| <= |s|
  {
    if n > |s| then Fail(OutOfRange) else Done(s[..n], s[n..])
  }

  function Signed(n: nat, bits: nat): int {
    if n < bits / 2 then n else n - bits
  }

  function ZigZag(n: int): nat {
    if n >= 0 then 2 * n else -2 * n - 1
  }

  function UnZigZag(z: nat): int {
    if z % 2 == 0 then z / 2 else -(z / 2) - 1
  }

  /** The 64-bit pattern a number is written as. */
  function Pattern(kind: Scalar, n: int): (u: nat)
    ensures u < TWO_64
  {
    match kind
    case UInt32 => n % 0x1_0000_0000
    case SInt64 => Low64(ZigZag(n))
    case _ => Low64(n)
  }

  /** The value that a varint stands for. */
  function Meaning(kind: Scalar, u: nat): Atom {
    match kind
    case UInt32 => Num(Low32(u))
    case UInt64 => Num(Low64(u))
    case Int32 => Num(Signed(Low32(u), TWO_32))
    case Int64 => Num(Signed(Low64(u), TWO_64))
    case SInt64 => Num(UnZigZag(Low64(u)))
    case Bool => Flag(Low32(u) != 0)
    case Text => Utf8([])
  }

  function WriteAtom(kind: Scalar, a: Atom): bytes {
    match a
    case Num(n) => if kind.Bool? || kind.Text? then [] else Varint(Pattern(kind, n))
    case Flag(on) => if kind.Bool? then [if on then 1 else 0] else []
    case Utf8(t) => if kind.Text? then Frame(t) else []
  }

  function ReadAtom(kind: Scalar, s: bytes): (r: Read<Atom>)
    ensures r.Done? ==> |r.rest| < |s|
  {
    if kind.Text? then
      var (n, s1) :- ReadUInt32(s);
      var (t, rest) :- Take(n, s1);
      Done(Utf8(t), rest)
    else
      var (n, rest) :- ReadVarint(s);
      Done(Meaning(kind, n), rest)
  }

  /** The values a field of this kind can hold. */
  predicate AtomFits(kind: Scalar, a: Atom) {
    match (kind, a)
    case (UInt32, Num(n)) => 0 <= n < TWO_32
    case (UInt64, Num(n)) => 0 <= n < TWO_64
    case (Int32, Num(n)) => -TWO_31 <= n < TWO_31
    case (Int64, Num(n)) => -TWO_63 <= n < TWO_63
    case (SInt64, Num(n)) => -TWO_63 <= n < TWO_63
    case (Bool, Flag(_)) => true
    case (Text, Utf8(t)) => |t| < TWO_32
    case _ => false
  }

  /** A length-delimited record body: `fork`, the bytes, `ldelim`. */
  function Frame(body: bytes): (b: bytes)
    ensures |b| > |body|
  {
    Varint(|body|) + body
  }

  lemma UInt32RoundTrip(n: nat, rest: bytes)
    requires n < TWO_32
    ensures ReadUInt32(Varint(n) + rest) == Done(n, rest)
  {
    VarintRoundTrip(n, rest);
  }

  lemma FrameRoundTrip(body: bytes, rest: bytes)
    requires |body| < TWO_32
    ensures ReadUInt32(Frame(body) + rest) == Done(|body|, body + rest)
  {
    assert Frame(body) + rest == Varint(|body|) + (body + rest);
    UInt32RoundTrip(|body|, body + rest);
  }

  /** The bit pattern of a number that fits means that number again. */
  lemma PatternRoundTrip(kind: Scalar, n: int)
    requires AtomFits(kind, Num(n))
    ensures Meaning(kind, Pattern(kind, n)) == Num(n)
  {
    if kind.Int32? && n < 0 {
      assert Low32(n + TWO_64) == n + TWO_32;
    }
  }

  lemma AtomRoundTrip(kind: Scalar, a: Atom, rest: bytes)
    requires AtomFits(kind, a)
    ensures ReadAtom(kind, WriteAtom(kind, a) + rest) == Done(a, rest)
  {
    match a
    case Utf8(t) =>
      FrameRoundTrip(t, rest);
      assert (t + rest)[..|t|] == t && (t + rest)[|t|..] == rest;
    case Flag(on) =>
      var b := WriteAtom(kind, a);
      assert (b + rest)[0] == b[0] && (b + rest)[1..] == rest;
    case Num(n) =>
      PatternRoundTrip(kind, n);
      VarintRoundTrip(Pattern(kind, n), rest);
  }

  lemma ReadUInt32Local(s: bytes, more: bytes)
    requires ReadUInt32(s).Done?
    ensures ReadUInt32(s + more) == Done(ReadUInt32(s).value, ReadUInt32(s).rest + more)
  {
    ReadVarintLocal(s, more);
  }

  lemma TakeLocal(n: nat, s: bytes, more: bytes)
    requires n <= |s|
    ensures Take(n, s + more) == Done(s[..n], s[n..] + more)
  {
    assert (s + more)[..n] == s[..n];
    assert (s + more)[n..] == s[n..] + more;
  }

  lemma ReadAtomLocal(kind: Scalar, s: bytes, more: bytes)
    requires ReadAtom(kind, s).Done?
    ensures ReadAtom(kind, s + more) == Done(ReadAtom(kind, s).value, ReadAtom(kind, s).rest + more)
  {
    if kind.Text? {
      ReadUInt32Local(s, more);
      TakeLocal(ReadUInt32(s).value, ReadUInt32(s).rest, more);
    } else {
      ReadVarintLocal(s, more);
    }
  }

  // ---------------------------------------------------------------- unknown records

  /** Skips the body of a record of the given wire type. */
  function SkipType(wireType: nat, s: bytes): (r: Read<()>)
    ensures r.Done? ==> |r.rest| <= |s|
    decreases |s|, 1
  {
    if wireType == 0 then
      var (_, rest) :- ReadVarint(s);
      Done((), rest)
    else if wireType == 1 then
      var (_, rest) :- Take(8, s);
      Done((), rest)
    else if wireType == 2 then
      var (n, s1) :- ReadUInt32(s);
      var (_, rest) :- Take(n, s1);
      Done((), rest)
    else if wireType == 3 then SkipGroup(s)
    else if wireType == 5 then
      var (_, rest) :- Take(4, s);
      Done((), rest)
    else Fail(BadWireType)
  }

  /** Skips the records of a group up to and including its end tag. */
  function SkipGroup(s: bytes): (r: Read<()>)
    ensures r.Done? ==> |r.rest| <= |s|
    decreases |s|, 0
  {
    var (tag, s1) :- ReadUInt32(s);
    if tag % 8 == 4 then Done((), s1)
    else
      var (_, s2) :- SkipType(tag % 8, s1);
      SkipGroup(s2)
  }

  lemma {:induction false} SkipTypeLocal(wireType: nat, s: bytes, more: bytes)
    requires SkipType(wireType, s).Done?
    ensures SkipType(wireType, s + more) == Done((), SkipType(wireType, s).rest + more)
    decreases |s|, 1
  {
    if wireType == 0 {
      ReadVarintLocal(s, more);
    } else if wireType == 1 {
      TakeLocal(8, s, more);
    } else if wireType == 2 {
      ReadUInt32Local(s, more);
      TakeLocal(ReadUInt32(s).value, ReadUInt32(s).rest, more);
    } else if wireType == 3 {
      SkipGroupLocal(s, more);
    } else {
      TakeLocal(4, s, more);
    }
  }

  lemma {:induction false} SkipGroupLocal(s: bytes, more: bytes)
    requires SkipGroup(s).Done?
    ensures SkipGroup(s + more) == Done((), SkipGroup(s).rest + more)
    decreases |s|, 0
  {
    ReadUInt32Local(s, more);
    var (tag, s1) := ReadUInt32(s).Extract();
    if tag % 8 != 4 {
      SkipTypeLocal(tag % 8, s1, more);
      SkipGroupLocal(SkipType(tag % 8, s1).rest, more);
    }
  }
}
