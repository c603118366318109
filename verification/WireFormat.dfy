/** What the bytes of varints, numbers and skipped records are, said without the functions that
    write and read them. */
module WireFormat {
  import opened Wire

  // ---------------------------------------------------------------- varints

  /** The number without its `i` least significant groups of seven bits. */
  function Shifted(n: nat, i: nat): nat {
    if i == 0 then n else Shifted(n / 128, i - 1)
  }

  /** The groups of seven bits of `n`, least significant first, every byte but the last with a
      continuation bit, and no more bytes than `n` needs. */
  lemma {:induction false} VarintBytes(n: nat)
    ensures var b := Varint(n);
            && (forall i | 0 <= i < |b| :: b[i] as nat % 128 == Shifted(n, i) % 128)
            && (forall i | 0 <= i < |b| - 1 :: b[i] >= 128)
            && b[|b| - 1] < 128
            && Shifted(n, |b|) == 0 && (|b| > 1 ==> Shifted(n, |b| - 1) > 0)
  {
    if n >= 128 {
      VarintBytes(n / 128);
      assert forall i | 1 <= i < |Varint(n)| :: Varint(n)[i] == Varint(n / 128)[i - 1];
    } else {
      assert Shifted(n, 1) == Shifted(0, 0);
    }
  }

  /** Where the first byte without a continuation bit is. */
  predicate EndsAt(s: bytes, k: nat) {
    k < |s| && s[k] < 128 && forall i | 0 <= i < k :: s[i] >= 128
  }

  /** A varint is read up to its first byte without a continuation bit, which must be among the first
      ten; the value is what its groups say. */
  lemma ReadVarintIff(s: bytes)
    ensures ReadVarint(s).Done? <==> exists k: nat | k < MAX_VARINT :: EndsAt(s, k)
    ensures forall k: nat | k < MAX_VARINT && EndsAt(s, k) ::
              && ReadVarint(s).rest == s[k + 1..]
              && (forall i | 0 <= i <= k :: Shifted(ReadVarint(s).value, i) % 128 == s[i] as nat % 128)
              && Shifted(ReadVarint(s).value, k + 1) == 0
  {
    if ReadGroups(s).Done? {
      var k := GroupsEndAt(s);
      assert ReadVarint(s).Done? <==> k < MAX_VARINT;
      forall j: nat | EndsAt(s, j)
        ensures j == k
      {
      }
    } else {
      forall k: nat
        ensures !EndsAt(s, k)
      {
        GroupsNeverEnd(s, k);
      }
    }
  }

  lemma {:induction false} GroupsEndAt(s: bytes) returns (k: nat)
    requires ReadGroups(s).Done?
    ensures EndsAt(s, k) && ReadGroups(s).rest == s[k + 1..]
    ensures forall i | 0 <= i <= k :: Shifted(ReadGroups(s).value, i) % 128 == s[i] as nat % 128
    ensures Shifted(ReadGroups(s).value, k + 1) == 0
  {
    if s[0] < 128 {
      k := 0;
      assert Shifted(s[0] as nat, 1) == Shifted(0, 0);
    } else {
      var j := GroupsEndAt(s[1..]);
      k := j + 1;
      var n, high := ReadGroups(s).value, ReadGroups(s[1..]).value;
      assert n == s[0] as nat - 128 + 128 * high && n / 128 == high;
      assert forall i | 1 <= i <= k :: s[i] == s[1..][i - 1];
    }
  }

  lemma {:induction false} GroupsNeverEnd(s: bytes, k: nat)
    requires ReadGroups(s).Fail?
    ensures !EndsAt(s, k)
  {
    if s != [] && k > 0 {
      GroupsNeverEnd(s[1..], k - 1);
      assert EndsAt(s, k) ==> EndsAt(s[1..], k - 1);
    }
  }

  // ---------------------------------------------------------------- numbers

  /** A negative number of 32 bits is written as one of 64 bits, in ten bytes, so that a reader of
      either kind finds it. */
  lemma NegativesTakeTen(n: int, kind: Scalar, rest: bytes)
    requires kind in {Int32, Int64} && AtomFits(kind, Num(n)) && n < 0
    ensures |WriteAtom(kind, Num(n))| == MAX_VARINT
    ensures ReadAtom(Int64, WriteAtom(kind, Num(n)) + rest) == Done(Num(n), rest)
    ensures AtomFits(Int32, Num(n)) ==> ReadAtom(Int32, WriteAtom(kind, Num(n)) + rest) == Done(Num(n), rest)
  {
    hide ReadVarint, Varint;
    var u := Pattern(kind, n);
    assert u == n + TWO_64;
    VarintRoundTrip(u, rest);
    PatternRoundTrip(Int64, n);
    if AtomFits(Int32, Num(n)) {
      PatternRoundTrip(Int32, n);
    }
    TopBitTakesTen(u);
  }

  lemma TopBitTakesTen(u: nat)
    requires TWO_63 <= u < TWO_64
    ensures |Varint(u)| == MAX_VARINT
  {
    Varint64Length(u);
    VarintBytes(u);
    assert Pow128(4) == 0x1000_0000;
    assert Pow128(9) == TWO_63 by {
      assert Pow128(8) == 128 * 128 * 128 * 128 * Pow128(4);
    }
    SomethingLeft(u, 9);
    if |Varint(u)| < MAX_VARINT {
      NothingLeft(u, |Varint(u)|, 9);
    }
  }

  lemma {:induction false} ShiftedFurther(n: nat, i: nat, j: nat)
    ensures Shifted(n, i + j) == Shifted(Shifted(n, i), j)
  {
    if i > 0 {
      ShiftedFurther(n / 128, i - 1, j);
    }
  }

  lemma {:induction false} SomethingLeft(n: nat, i: nat)
    requires n >= Pow128(i)
    ensures Shifted(n, i) > 0
  {
    if i > 0 {
      SomethingLeft(n / 128, i - 1);
    }
  }

  lemma {:induction false} NothingLeft(n: nat, i: nat, j: nat)
    requires i <= j && Shifted(n, i) == 0
    ensures Shifted(n, j) == 0
  {
    if i < j {
      NothingLeft(n, i, j - 1);
      ShiftedFurther(n, j - 1, 1);
    }
  }

  /** A non-negative number is written as itself, whatever its kind, but for zigzag. */
  lemma NonNegativesAreThemselves(kind: Scalar, n: nat)
    requires kind in {UInt32, UInt64, Int32, Int64} && AtomFits(kind, Num(n))
    ensures WriteAtom(kind, Num(n)) == Varint(n)
  {
    hide Varint;
    assert Pattern(kind, n) == n;
  }

  /** A flag is one byte, and a text its bytes after their number. */
  lemma FlagsAndTextsAreWritten(on: bool, text: bytes)
    ensures WriteAtom(Bool, Flag(on)) == [if on then 1 else 0]
    ensures WriteAtom(Text, Utf8(text)) == Varint(|text|) + text
  {
  }

  /** Zigzag numbers the integers by magnitude, each negative one just before its positive. */
  lemma ZigZagByMagnitude(n: int, m: int)
    ensures ZigZag(0) == 0
    ensures n > 0 ==> ZigZag(n) == 2 * n && ZigZag(-n) == ZigZag(n) - 1
    ensures AtomFits(SInt64, Num(n)) ==> WriteAtom(SInt64, Num(n)) == Varint(ZigZag(n))
  {
  }

  /** A varint with more bits than the kind has is cut to the low ones: the number read is congruent
      to it, and in the kind's range. */
  lemma MeaningTruncates(u: nat)
    ensures AtomFits(UInt32, Meaning(UInt32, u)) && (u - Meaning(UInt32, u).n) % TWO_32 == 0
    ensures AtomFits(Int32, Meaning(Int32, u)) && (u - Meaning(Int32, u).n) % TWO_32 == 0
    ensures AtomFits(UInt64, Meaning(UInt64, u)) && (u - Meaning(UInt64, u).n) % TWO_64 == 0
    ensures AtomFits(Int64, Meaning(Int64, u)) && (u - Meaning(Int64, u).n) % TWO_64 == 0
    ensures Meaning(Bool, u) == Flag(u % TWO_32 != 0)
  {
    hide AtomFits;
    Truncates32(u);
    Truncates64(u);
  }

  lemma Truncates32(u: nat)
    ensures AtomFits(UInt32, Meaning(UInt32, u)) && (u - Meaning(UInt32, u).n) % TWO_32 == 0
    ensures AtomFits(Int32, Meaning(Int32, u)) && (u - Meaning(Int32, u).n) % TWO_32 == 0
  {
    var q, r := u / TWO_32, u % TWO_32;
    assert u - r == q * TWO_32 && u - (r - TWO_32) == (q + 1) * TWO_32;
  }

  lemma Truncates64(u: nat)
    ensures AtomFits(UInt64, Meaning(UInt64, u)) && (u - Meaning(UInt64, u).n) % TWO_64 == 0
    ensures AtomFits(Int64, Meaning(Int64, u)) && (u - Meaning(Int64, u).n) % TWO_64 == 0
  {
    var q, r := u / TWO_64, u % TWO_64;
    assert u - r == q * TWO_64 && u - (r - TWO_64) == (q + 1) * TWO_64;
  }

  // ---------------------------------------------------------------- what is skipped

  /** The body of a record of any wire type, and the members of a group. */
  datatype Body =
    | OfVarint(n: nat)
    | OfEight(eight: bytes)
    | OfLength(body: bytes)
    | OfGroup(members: Members)
    | OfFour(four: bytes)

  /** The records of a group and the number of its end tag. */
  datatype Members = End(number: nat) | Member(number: nat, body: Body, others: Members)

  function WireTypeOf(body: Body): nat {
    match body
    case OfVarint(_) => 0
    case OfEight(_) => 1
    case OfLength(_) => 2
    case OfGroup(_) => 3
    case OfFour(_) => 5
  }

  predicate WellFormed(body: Body) {
    match body
    case OfVarint(n) => n < TWO_64
    case OfEight(eight) => |eight| == 8
    case OfLength(own) => |own| < TWO_32
    case OfGroup(members) => AllWellFormed(members)
    case OfFour(four) => |four| == 4
  }

  predicate AllWellFormed(members: Members) {
    match members
    case End(number) => 8 * number + 4 < TWO_32
    case Member(number, body, others) => 8 * number + 3 < TWO_32 - 4 && WellFormed(body) && AllWellFormed(others)
  }

  function BodyBytes(body: Body): bytes {
    match body
    case OfVarint(n) => Varint(n)
    case OfEight(eight) => eight
    case OfLength(own) => Varint(|own|) + own
    case OfGroup(members) => MemberBytes(members)
    case OfFour(four) => four
  }

  function MemberBytes(members: Members): bytes {
    match members
    case End(number) => Varint(8 * number + 4)
    case Member(number, body, others) =>
      Varint(8 * number + WireTypeOf(body)) + BodyBytes(body) + MemberBytes(others)
  }

  /** A body is skipped whole, groups in groups too, and nothing after it. */
  lemma {:induction false} BodySkipped(body: Body, rest: bytes)
    requires WellFormed(body)
    ensures SkipType(WireTypeOf(body), BodyBytes(body) + rest) == Done((), rest)
  {
    hide ReadVarint, ReadUInt32, SkipGroup;
    match body
    case OfVarint(n) => VarintRoundTrip(n, rest);
    case OfEight(eight) => TakenWhole(eight, rest);
    case OfLength(own) =>
      FrameRoundTrip(own, rest);
      TakenWhole(own, rest);
    case OfGroup(members) => MembersSkipped(members, rest);
    case OfFour(four) => TakenWhole(four, rest);
  }

  lemma TakenWhole(own: bytes, rest: bytes)
    ensures Take(|own|, own + rest) == Done(own, rest)
  {
  }

  lemma {:induction false} MembersSkipped(members: Members, rest: bytes)
    requires AllWellFormed(members)
    ensures SkipGroup(MemberBytes(members) + rest) == Done((), rest)
  {
    hide ReadVarint, ReadUInt32, SkipType, Varint;
    match members
    case End(number) => UInt32RoundTrip(8 * number + 4, rest);
    case Member(number, body, others) =>
      var tag := 8 * number + WireTypeOf(body);
      var after := MemberBytes(others) + rest;
      assert MemberBytes(members) + rest == Varint(tag) + (BodyBytes(body) + after);
      UInt32RoundTrip(tag, BodyBytes(body) + after);
      BodySkipped(body, after);
      MembersSkipped(others, rest);
  }

  /** Bodies of no other wire type are skipped, in a group neither, and none of fixed width that is too
      short. */
  lemma NotSkipped(wireType: nat, s: bytes)
    ensures wireType !in {0, 1, 2, 3, 5} ==> SkipType(wireType, s) == Fail(BadWireType)
    ensures ReadUInt32(s).Done? && ReadUInt32(s).value % 8 in {6, 7} ==> SkipGroup(s) == Fail(BadWireType)
    ensures (wireType == 1 && |s| < 8) || (wireType == 5 && |s| < 4) ==> SkipType(wireType, s) == Fail(OutOfRange)
  {
  }
}
