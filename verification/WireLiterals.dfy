/** The bytes of the wire format in figures: varints, tags and the value of every wire type. */
module WireLiterals {
  import opened Basics
  import opened ProtoWire

  // ---- Varints ----

  /** Seven bits a byte, the lowest first. */
  function Base128(b: seq<Byte>): nat {
    if b == [] then 0 else b[0] % 128 + 128 * Base128(b[1..])
  }

  /** All bytes but the last are marked by the top bit, and no byte is spent on leading zeros. */
  predicate IsVarint(b: seq<Byte>, v: nat) {
    && |b| >= 1
    && (forall k :: 0 <= k < |b| - 1 ==> b[k] >= 128)
    && b[|b| - 1] < 128 && (|b| > 1 ==> b[|b| - 1] != 0)
    && Base128(b) == v
  }

  lemma {:induction false} VarintIsOne(v: nat)
    ensures IsVarint(Varint(v), v)
    decreases v
  {
    if v < 128 {
      assert [v][1..] == [];
    } else {
      VarintIsOne(v / 128);
      assert Varint(v)[1..] == Varint(v / 128);
      assert v == v % 128 + 128 * (v / 128);
    }
  }

  lemma {:induction false} OnlyVarintIs(b: seq<Byte>, v: nat)
    requires IsVarint(b, v)
    ensures b == Varint(v)
  {
    hide Base128, Varint;
    var rest := b[1..];
    assert b == [b[0]] + rest;
    Base128Unfolds(b);
    if |b| == 1 {
      Base128Unfolds([]);
      OneByteVarint(v);
    } else {
      OnlyVarintIs(rest, Base128(rest));
      OneByteVarint(0);
      assert Base128(rest) > 0;
      MoreBytesVarint(v, b[0], Base128(rest));
    }
  }

  lemma Base128Unfolds(b: seq<Byte>)
    ensures Base128(b) == if b == [] then 0 else b[0] % 128 + 128 * Base128(b[1..])
  {
  }

  lemma OneByteVarint(v: nat)
    requires v < 128
    ensures Varint(v) == [v]
  {
  }

  lemma MoreBytesVarint(v: nat, b: Byte, w: nat)
    requires b >= 128 && w > 0 && v == b % 128 + 128 * w
    ensures Varint(v) == [b] + Varint(w)
  {
    assert v / 128 == w && v % 128 == b - 128;
  }

  /** Main result: the varint of a number is the one such sequence of bytes. */
  lemma VarintIff(b: seq<Byte>, v: nat)
    ensures b == Varint(v) <==> IsVarint(b, v)
  {
    VarintIsOne(v);
    if IsVarint(b, v) {
      OnlyVarintIs(b, v);
    }
  }

  /** The first `n` bytes are marked, the next one is not. */
  predicate EndsAt(b: seq<Byte>, n: nat) {
    n < |b| && (forall k :: 0 <= k < n ==> b[k] >= 128) && b[n] < 128
  }

  lemma {:induction false} ReadsUpTo(b: seq<Byte>, n: nat, i: nat)
    requires EndsAt(b, n) && i + n <= 9
    ensures VarintFrom(b, i)
            == if i + n == 9 && b[n] >= 2 then Malformed(Overflow) else Parsed(Base128(b[..n + 1]), n + 1)
    decreases n
  {
    hide Base128, VarintFrom;
    var rest := b[1..];
    assert b == [b[0]] + rest && b[..n + 1][1..] == rest[..n];
    Base128Unfolds(b[..n + 1]);
    if n == 0 {
      Base128Unfolds([]);
      LastByteRead(b[0], rest, i);
    } else {
      ReadsUpTo(rest, n - 1, i + 1);
      NextByteReads(b[0], rest, i);
    }
  }

  lemma LastByteRead(b: Byte, more: seq<Byte>, i: nat)
    requires i <= 9 && b < 128
    ensures VarintFrom([b] + more, i) == if i == 9 && b >= 2 then Malformed(Overflow) else Parsed(b, 1)
  {
  }

  lemma {:induction false} ReadsMarked(b: seq<Byte>, i: nat)
    requires i <= 9 && forall k :: 0 <= k < |b| && k <= 9 - i ==> b[k] >= 128
    ensures VarintFrom(b, i) == Malformed(if |b| + i <= 9 then Truncated else Overflow)
    decreases 9 - i
  {
    if b != [] && i < 9 {
      ReadsMarked(b[1..], i + 1);
    }
  }

  /** Main result: a varint reaches to its first unmarked byte; the tenth may only be 0 or 1. */
  lemma VarintIsRead(b: seq<Byte>, n: nat)
    requires EndsAt(b, n)
    ensures ConsumeVarint(b)
            == if n < 9 || (n == 9 && b[9] < 2) then Parsed(Base128(b[..n + 1]), n + 1) else Malformed(Overflow)
  {
    if n <= 9 {
      ReadsUpTo(b, n, 0);
    } else {
      ReadsMarked(b, 0);
    }
  }

  /** Without an unmarked byte there are too few bytes, or there are ten. */
  lemma EndlessVarint(b: seq<Byte>)
    requires forall k :: 0 <= k < |b| ==> b[k] >= 128
    ensures ConsumeVarint(b) == Malformed(if |b| < 10 then Truncated else Overflow)
  {
    ReadsMarked(b, 0);
  }

  lemma VarintsInFigures()
    ensures Varint(0) == [0x00] && Varint(127) == [0x7F] && Varint(128) == [0x80, 0x01]
    ensures Varint(150) == [0x96, 0x01] && Varint(300) == [0xAC, 0x02] && Varint(16383) == [0xFF, 0x7F]
    ensures Varint(0xFFFF_FFFF_FFFF_FFFF) == [0xFF, 0xFF, 0xFF, 0xFF, 0xFF, 0xFF, 0xFF, 0xFF, 0xFF, 0x01]
  {
    assert Varint(0x7FFF) == [0xFF] + Varint(0xFF) && Varint(0xFF) == [0xFF, 0x01];
    assert Varint(0x1FFF_FFFF) == [0xFF] + ([0xFF] + Varint(0x7FFF));
    assert Varint(0x7FF_FFFF_FFFF) == [0xFF] + ([0xFF] + Varint(0x1FFF_FFFF));
    assert Varint(0x1FF_FFFF_FFFF_FFFF) == [0xFF] + ([0xFF] + Varint(0x7FF_FFFF_FFFF));
    assert Varint(0xFFFF_FFFF_FFFF_FFFF) == [0xFF] + Varint(0x1FF_FFFF_FFFF_FFFF);
  }

  // ---- Tags ----

  /** Main result: a tag is eight times the number plus the type; numbers go from 1 to 2^31 - 1. */
  lemma TagIsRead(v: U64, rest: seq<Byte>)
    ensures ConsumeTag(Varint(v) + rest)
            == if 8 <= v < 0x4_0000_0000 then Parsed((v / 8, v % 8), |Varint(v)|) else Malformed(BadFieldNumber)
  {
    VarintRoundTrip(v, rest);
  }

  // ---- Values of each wire type ----

  /** The tag of a field, in figures. */
  function Head(num: FieldNumber, typ: nat): seq<Byte>
    requires typ < 8
  {
    Varint(num * 8 + typ)
  }

  lemma HeadIsRead(num: FieldNumber, typ: WireType, b: seq<Byte>)
    ensures ConsumeTag(Head(num, typ) + b) == Parsed((num, typ), |Head(num, typ)|)
    ensures (Head(num, typ) + b)[|Head(num, typ)|..] == b
  {
    hide ConsumeTag, Varint;
    TagIsRead(num * 8 + typ, b);
  }

  /** Main result: type 1 takes eight bytes and type 5 four, little-endian; a stray end of a group
      and the types 6 and 7 are errors. */
  lemma FixedTypes(num: FieldNumber, b: seq<Byte>)
    ensures NextField(Head(num, 1) + b)
            == if |b| < 8 then Malformed(Truncated) else Parsed(Field(num, OtherValue(1)), |Head(num, 1)| + 8)
    ensures NextField(Head(num, 5) + b)
            == if |b| < 4 then Malformed(Truncated)
               else Parsed(Field(num, Fixed32Value((b[0] as int) + 0x100 * (b[1] as int) + 0x1_0000 * (b[2] as int)
                                                   + 0x100_0000 * (b[3] as int))), |Head(num, 5)| + 4)
    ensures NextField(Head(num, 4) + b) == Malformed(EndGroup)
    ensures NextField(Head(num, 6) + b) == Malformed(Reserved)
    ensures NextField(Head(num, 7) + b) == Malformed(Reserved)
  {
    hide Head, ConsumeTag, ConsumeVarint, ConsumeBytes, SkipGroup;
    HeadIsRead(num, 1, b);
    HeadIsRead(num, 4, b);
    HeadIsRead(num, 5, b);
    HeadIsRead(num, 6, b);
    HeadIsRead(num, 7, b);
  }

  /** Main result: type 0 is a varint, type 2 a length with that many bytes. */
  lemma SizedTypes(num: FieldNumber, v: U64, s: seq<Byte>, rest: seq<Byte>)
    requires |s| < 0x8000_0000_0000_0000
    ensures NextField(Head(num, 0) + (Varint(v) + rest))
            == Parsed(Field(num, VarintValue(v)), |Head(num, 0)| + |Varint(v)|)
    ensures NextField(Head(num, 2) + (Varint(|s|) + s + rest))
            == Parsed(Field(num, BytesValue(s)), |Head(num, 2)| + |Varint(|s|)| + |s|)
    ensures v > |s| ==> NextField(Head(num, 2) + (Varint(v) + s)) == Malformed(Truncated)
  {
    hide Head, ConsumeTag, ConsumeVarint, Varint;
    HeadIsRead(num, 0, Varint(v) + rest);
    VarintRoundTrip(v, rest);
    HeadIsRead(num, 2, Varint(|s|) + s + rest);
    BytesRoundTrip(s, rest);
    HeadIsRead(num, 2, Varint(v) + s);
    VarintRoundTrip(v, s);
  }

  // ---- Groups ----

  /** `k` empty groups, one inside the other, between the marks of types 3 and 4. */
  function Nested(num: FieldNumber, k: nat): seq<Byte> {
    if k == 0 then [] else Head(num, 3) + (Nested(num, k - 1) + Head(num, 4))
  }

  lemma GroupEnds(num: FieldNumber, other: FieldNumber, b: seq<Byte>, depth: nat, rest: seq<Byte>)
    requires b == Head(other, 4) + rest
    ensures Skip(num, 3, b, depth) == SkipGroup(num, b, depth)
    ensures SkipGroup(num, b, depth) == if num == other then Parsed((), |Head(other, 4)|) else Malformed(EndGroup)
  {
    hide Head, ConsumeTag;
    HeadIsRead(other, 4, rest);
    assert NextInGroup(num, b, depth) == if num == other then EndTag(|Head(other, 4)|) else Broken(EndGroup);
  }

  lemma GroupOpens(num: FieldNumber, b: seq<Byte>, depth: nat)
    ensures Skip(num, 3, b, depth) == SkipGroup(num, b, depth)
  {
  }

  lemma GroupGoesOn(num: FieldNumber, b: seq<Byte>, depth: nat, inner: seq<Byte>)
    requires b == Head(num, 3) + inner
    ensures Skip(num, 3, b, depth) == SkipGroup(num, b, depth)
    ensures SkipGroup(num, b, depth)
            == match Skip(num, 3, inner, depth - 1)
               case Malformed(e) => Malformed(e)
               case Parsed(_, m) =>
                 var n := |Head(num, 3)| + m;
                 match SkipGroup(num, b[n..], depth)
                 case Malformed(e) => Malformed(e)
                 case Parsed(_, k) => Parsed((), n + k)
  {
    hide Head, ConsumeTag, Skip;
    HeadIsRead(num, 3, inner);
    GroupOpens(num, b, depth);
    match Skip(num, 3, inner, depth - 1)
    case Malformed(e) =>
      assert NextInGroup(num, b, depth) == Broken(e);
    case Parsed(_, m) =>
      assert NextInGroup(num, b, depth) == Inner(|Head(num, 3)| + m);
  }

  lemma {:induction false} GroupIsSkipped(num: FieldNumber, k: nat, depth: int, rest: seq<Byte>)
    requires -1 <= depth
    ensures Skip(num, 3, Nested(num, k) + Head(num, 4) + rest, depth)
            == if k <= depth then Parsed((), |Nested(num, k) + Head(num, 4)|) else Malformed(RecursionDepth)
  {
    hide Head, ConsumeTag, Nested;
    var b := Nested(num, k) + Head(num, 4) + rest;
    NestedUnfolds(num, k);
    if depth >= 0 {
      if k == 0 {
        assert b == Head(num, 4) + rest;
        GroupEnds(num, num, b, depth, rest);
      } else {
        var inner := Nested(num, k - 1) + Head(num, 4) + (Head(num, 4) + rest);
        assert b == Head(num, 3) + inner;
        GroupGoesOn(num, b, depth, inner);
        GroupIsSkipped(num, k - 1, depth - 1, Head(num, 4) + rest);
        if k <= depth {
          var n := |Nested(num, k)|;
          assert b[n..] == Head(num, 4) + rest;
          GroupEnds(num, num, b[n..], depth, rest);
        }
      }
    }
  }

  lemma NestedUnfolds(num: FieldNumber, k: nat)
    ensures Nested(num, k) == if k == 0 then [] else Head(num, 3) + (Nested(num, k - 1) + Head(num, 4))
  {
  }

  /** Main result: groups may be nested 10001 deep and no deeper. */
  lemma NestingLimit(num: FieldNumber, k: nat, rest: seq<Byte>)
    requires k > 0
    ensures NextField(Nested(num, k) + rest)
            == if k <= 10001 then Parsed(Field(num, OtherValue(3)), |Nested(num, k)|) else Malformed(RecursionDepth)
  {
    hide Head, ConsumeTag, Skip, Nested;
    NestedUnfolds(num, k);
    var b := Nested(num, k - 1) + Head(num, 4) + rest;
    assert Nested(num, k) + rest == Head(num, 3) + b;
    HeadIsRead(num, 3, b);
    GroupIsSkipped(num, k - 1, 10000, rest);
  }

  /** A group ends at its own number only. */
  lemma ForeignEnd(num: FieldNumber, other: FieldNumber, rest: seq<Byte>)
    ensures NextField(Head(num, 3) + (Head(other, 4) + rest))
            == if num == other then Parsed(Field(num, OtherValue(3)), |Head(num, 3)| + |Head(num, 4)|)
               else Malformed(EndGroup)
  {
    hide Head, ConsumeTag;
    HeadIsRead(num, 3, Head(other, 4) + rest);
    GroupEnds(num, other, Head(other, 4) + rest, 10000, rest);
  }
}
