/** Protocol Buffers wire format: Base 128 varints, tags, length-delimited and fixed-width
    values, groups; and decoding as a fold over the fields of a message. */
module ProtoWire {
  import opened Basics

  const U64_SIZE := 0x1_0000_0000_0000_0000
  const I64_SIZE := 0x8000_0000_0000_0000
  const U32_SIZE := 0x1_0000_0000
  const I32_SIZE := 0x8000_0000
  const MAX_FIELD_NUMBER := 0x7FFF_FFFF
  const RECURSION_LIMIT := 10000

  type U64 = v: int | 0 <= v < 0x1_0000_0000_0000_0000
  type U32 = v: int | 0 <= v < 0x1_0000_0000
  type I64 = v: int | -0x8000_0000_0000_0000 <= v < 0x8000_0000_0000_0000
  type FieldNumber = n: int | 1 <= n <= 0x7FFF_FFFF witness 1
  type WireType = t: int | 0 <= t < 8

  const VARINT: WireType := 0
  const FIXED64: WireType := 1
  const BYTES: WireType := 2
  const START_GROUP: WireType := 3
  const END_GROUP: WireType := 4
  const FIXED32: WireType := 5

  datatype ParseError = Truncated | BadFieldNumber | Overflow | Reserved | EndGroup | RecursionDepth

  datatype Parsed<+T> = Parsed(value: T, used: nat) | Malformed(error: ParseError)

  // ---- Integer conversions ----

  function ToU64(v: int): U64 {
    v % U64_SIZE
  }

  function ToI64(v: int): I64 {
    var u := v % U64_SIZE;
    if u < I64_SIZE then u else u - U64_SIZE
  }

  function ToI32(v: int): (r: I64)
    ensures -I32_SIZE <= r < I32_SIZE
  {
    var u := v % U32_SIZE;
    if u < I32_SIZE then u else u - U32_SIZE
  }

  function ToU32(v: int): U32 {
    v % U32_SIZE
  }

  lemma I32ThroughU64(x: int)
    ensures ToI32(ToU64(ToI32(x))) == ToI32(x)
    ensures ToI32(x) == x <==> -I32_SIZE <= x < I32_SIZE
  {
  }

  // ---- Varints ----

  function Varint(v: nat): (r: seq<Byte>)
    ensures |r| >= 1
  {
    if v < 128 then [v] else [v % 128 + 128] + Varint(v / 128)
  }

  /** One more than the largest value that the bytes from position `i` on may hold. */
  function Limit(i: nat): nat
    requires i <= 9
    decreases 9 - i
  {
    if i == 9 then 2 else 128 * Limit(i + 1)
  }

  /** Reads a varint whose first byte is byte `i` of at most ten. */
  function VarintFrom(b: seq<Byte>, i: nat): (r: Parsed<nat>)
    requires i <= 9
    ensures r.Parsed? ==> 1 <= r.used <= |b| && r.value < Limit(i)
    decreases 9 - i
  {
    if b == [] then Malformed(Truncated)
    else if i == 9 then
      if b[0] < 2 then Parsed(b[0], 1) else Malformed(Overflow)
    else if b[0] < 128 then
      LimitAtLeast128(i);
      Parsed(b[0], 1)
    else
      match VarintFrom(b[1..], i + 1)
      case Malformed(e) => Malformed(e)
      case Parsed(v, n) => Parsed(b[0] - 128 + 128 * v, n + 1)
  }

  lemma LimitAtLeast128(i: nat)
    requires i < 9
    ensures Limit(i) >= 128
    decreases 9 - i
  {
    if i < 8 {
      LimitAtLeast128(i + 1);
    }
  }

  lemma LimitOfWholeVarint()
    ensures Limit(0) == U64_SIZE
  {
    assert Limit(6) == 128 * 128 * 128 * 2;
    assert Limit(3) == 128 * 128 * 128 * Limit(6);
    assert Limit(0) == 128 * 128 * 128 * Limit(3);
  }

  function ConsumeVarint(b: seq<Byte>): (r: Parsed<U64>)
    ensures r.Parsed? ==> 1 <= r.used <= |b|
  {
    LimitOfWholeVarint();
    match VarintFrom(b, 0)
    case Malformed(e) => Malformed(e)
    case Parsed(v, n) => Parsed(v, n)
  }

  lemma {:induction false} VarintFromRoundTrip(v: nat, i: nat, rest: seq<Byte>)
    requires i <= 9 && v < Limit(i)
    ensures VarintFrom(Varint(v) + rest, i) == Parsed(v, |Varint(v)|)
    decreases v
  {
    hide Limit, Varint, VarintFrom;
    LimitUnfolds(i);
    VarintUnfolds(v);
    if v < 128 {
      OneByteReads(v, i, rest);
    } else {
      LowSeven(v, Limit(i + 1));
      VarintFromRoundTrip(v / 128, i + 1, rest);
      assert Varint(v) + rest == [v % 128 + 128] + (Varint(v / 128) + rest);
      NextByteReads(v % 128 + 128, Varint(v / 128) + rest, i);
    }
  }

  lemma VarintUnfolds(v: nat)
    ensures Varint(v) == if v < 128 then [v] else [v % 128 + 128] + Varint(v / 128)
  {
  }

  lemma LowSeven(v: nat, limit: nat)
    requires v < 128 * limit
    ensures v / 128 < limit && v == v % 128 + 128 * (v / 128)
  {
  }

  lemma OneByteReads(v: nat, i: nat, rest: seq<Byte>)
    requires i <= 9 && v < 128 && v < Limit(i)
    ensures VarintFrom([v] + rest, i) == Parsed(v, 1)
  {
  }

  lemma NextByteReads(b: Byte, more: seq<Byte>, i: nat)
    requires i < 9 && b >= 128
    ensures VarintFrom([b] + more, i) ==
            match VarintFrom(more, i + 1)
            case Malformed(e) => Malformed(e)
            case Parsed(v, n) => Parsed(b - 128 + 128 * v, n + 1)
  {
    assert ([b] + more)[1..] == more;
  }

  lemma LimitUnfolds(i: nat)
    requires i <= 9
    ensures Limit(i) == if i == 9 then 2 else 128 * Limit(i + 1)
  {
  }

  lemma VarintRoundTrip(v: U64, rest: seq<Byte>)
    ensures ConsumeVarint(Varint(v) + rest) == Parsed(v, |Varint(v)|)
  {
    LimitOfWholeVarint();
    VarintFromRoundTrip(v, 0, rest);
  }

  lemma {:induction false} VarintFromStable(b: seq<Byte>, i: nat, rest: seq<Byte>)
    requires i <= 9 && VarintFrom(b, i).Parsed?
    ensures VarintFrom(b + rest, i) == VarintFrom(b, i)
    decreases 9 - i
  {
    if i < 9 && b[0] >= 128 {
      VarintFromStable(b[1..], i + 1, rest);
      assert (b + rest)[1..] == b[1..] + rest;
    }
  }

  // ---- Tags and the other values ----

  function Tag(num: FieldNumber, typ: WireType): seq<Byte> {
    Varint(num * 8 + typ)
  }

  function ConsumeTag(b: seq<Byte>): (r: Parsed<(FieldNumber, WireType)>)
    ensures r.Parsed? ==> 1 <= r.used <= |b|
  {
    match ConsumeVarint(b)
    case Malformed(e) => Malformed(e)
    case Parsed(v, n) =>
      var num := v / 8;
      if num > MAX_FIELD_NUMBER || num < 1 then Malformed(BadFieldNumber) else Parsed((num, v % 8), n)
  }

  function ConsumeBytes(b: seq<Byte>): (r: Parsed<seq<Byte>>)
    ensures r.Parsed? ==> 1 <= r.used <= |b| && |r.value| <= |b|
  {
    match ConsumeVarint(b)
    case Malformed(e) => Malformed(e)
    case Parsed(m, n) =>
      if m > |b| - n then Malformed(Truncated) else Parsed(b[n..n + m], n + m)
  }

  function Fixed32(v: U32): (r: seq<Byte>)
    ensures |r| == 4
  {
    [v % 256, v / 256 % 256, v / 65536 % 256, v / 16777216]
  }

  function ConsumeFixed32(b: seq<Byte>): (r: Parsed<U32>)
    ensures r.Parsed? ==> 1 <= r.used <= |b|
  {
    if |b| < 4 then Malformed(Truncated)
    else Parsed((b[0] as int) + 256 * (b[1] as int) + 65536 * (b[2] as int) + 16777216 * (b[3] as int), 4)
  }

  lemma BytesOfFixed32(v: U32)
    ensures v % 256 + 256 * (v / 256 % 256) + 65536 * (v / 65536 % 256) + 16777216 * (v / 16777216) == v
  {
    var a := v / 256;
    var b := a / 256;
    assert v / 65536 == b && v / 16777216 == b / 256;
  }

  lemma Fixed32RoundTrip(v: U32, rest: seq<Byte>)
    ensures ConsumeFixed32(Fixed32(v) + rest) == Parsed(v, 4)
  {
    var b := Fixed32(v) + rest;
    assert b[0] == v % 256 && b[1] == v / 256 % 256 && b[2] == v / 65536 % 256 && b[3] == v / 16777216;
    hide Fixed32;
    BytesOfFixed32(v);
  }

  /** Steps over a value of any wire type: how many bytes it takes. */
  function Skip(num: FieldNumber, typ: WireType, b: seq<Byte>, depth: int): (r: Parsed<()>)
    ensures r.Parsed? ==> 1 <= r.used <= |b|
    decreases |b|, 2
  {
    if typ == VARINT then
      match ConsumeVarint(b) case Malformed(e) => Malformed(e) case Parsed(_, n) => Parsed((), n)
    else if typ == FIXED32 then
      if |b| < 4 then Malformed(Truncated) else Parsed((), 4)
    else if typ == FIXED64 then
      if |b| < 8 then Malformed(Truncated) else Parsed((), 8)
    else if typ == BYTES then
      match ConsumeBytes(b) case Malformed(e) => Malformed(e) case Parsed(_, n) => Parsed((), n)
    else if typ == START_GROUP then
      if depth < 0 then Malformed(RecursionDepth) else SkipGroup(num, b, depth)
    else if typ == END_GROUP then Malformed(EndGroup)
    else Malformed(Reserved)
  }

  /** What comes next inside a group: its end tag, or a field of `used` bytes. */
  datatype GroupItem = EndTag(used: nat) | Inner(used: nat) | Broken(error: ParseError)

  function NextInGroup(num: FieldNumber, b: seq<Byte>, depth: int): (r: GroupItem)
    ensures !r.Broken? ==> 1 <= r.used <= |b|
    decreases |b|, 0
  {
    match ConsumeTag(b)
    case Malformed(e) => Broken(e)
    case Parsed((num2, typ2), n) =>
      if typ2 == END_GROUP then
        if num != num2 then Broken(EndGroup) else EndTag(n)
      else
        match Skip(num2, typ2, b[n..], depth - 1)
        case Malformed(e) => Broken(e)
        case Parsed(_, m) => Inner(n + m)
  }

  /** Steps over the fields of group `num` and its end tag. */
  function SkipGroup(num: FieldNumber, b: seq<Byte>, depth: int): (r: Parsed<()>)
    ensures r.Parsed? ==> 1 <= r.used <= |b|
    decreases |b|, 1
  {
    match NextInGroup(num, b, depth)
    case Broken(e) => Malformed(e)
    case EndTag(n) => Parsed((), n)
    case Inner(n) =>
      match SkipGroup(num, b[n..], depth)
      case Malformed(e) => Malformed(e)
      case Parsed(_, k) => Parsed((), n + k)
  }

  lemma ConsumeVarintStable(b: seq<Byte>, rest: seq<Byte>)
    requires ConsumeVarint(b).Parsed?
    ensures ConsumeVarint(b + rest) == ConsumeVarint(b)
  {
    VarintFromStable(b, 0, rest);
  }

  lemma ConsumeBytesStable(b: seq<Byte>, rest: seq<Byte>)
    requires ConsumeBytes(b).Parsed?
    ensures ConsumeBytes(b + rest) == ConsumeBytes(b)
  {
    ConsumeVarintStable(b, rest);
    var Parsed(m, n) := ConsumeVarint(b);
    assert (b + rest)[n..n + m] == b[n..n + m];
  }

  lemma ConsumeTagStable(b: seq<Byte>, rest: seq<Byte>)
    requires ConsumeTag(b).Parsed?
    ensures ConsumeTag(b + rest) == ConsumeTag(b)
  {
    ConsumeVarintStable(b, rest);
  }

  /** Bytes appended after a well-formed value do not change how it is read. */
  lemma {:induction false} SkipStable(num: FieldNumber, typ: WireType, b: seq<Byte>, depth: int, rest: seq<Byte>)
    requires Skip(num, typ, b, depth).Parsed?
    ensures Skip(num, typ, b + rest, depth) == Skip(num, typ, b, depth)
    decreases |b|, 2
  {
    if typ == VARINT {
      ConsumeVarintStable(b, rest);
    } else if typ == BYTES {
      ConsumeBytesStable(b, rest);
    } else if typ == START_GROUP {
      SkipGroupStable(num, b, depth, rest);
    }
  }

  lemma {:induction false} NextInGroupStable(num: FieldNumber, b: seq<Byte>, depth: int, rest: seq<Byte>)
    requires !NextInGroup(num, b, depth).Broken?
    ensures NextInGroup(num, b + rest, depth) == NextInGroup(num, b, depth)
    decreases |b|, 0
  {
    ConsumeTagStable(b, rest);
    var Parsed((num2, typ2), n) := ConsumeTag(b);
    if typ2 != END_GROUP {
      SkipStable(num2, typ2, b[n..], depth - 1, rest);
      assert (b + rest)[n..] == b[n..] + rest;
    }
  }

  lemma {:induction false} SkipGroupStable(num: FieldNumber, b: seq<Byte>, depth: int, rest: seq<Byte>)
    requires SkipGroup(num, b, depth).Parsed?
    ensures SkipGroup(num, b + rest, depth) == SkipGroup(num, b, depth)
    decreases |b|, 1
  {
    hide NextInGroup;
    NextInGroupStable(num, b, depth, rest);
    var item := NextInGroup(num, b, depth);
    if item.Inner? {
      SkipGroupStable(num, b[item.used..], depth, rest);
      assert (b + rest)[item.used..] == b[item.used..] + rest;
    }
  }

  // ---- Fields ----

  datatype Value = VarintValue(v: U64) | BytesValue(s: seq<Byte>) | Fixed32Value(w: U32) | OtherValue(typ: WireType)

  datatype Field = Field(num: FieldNumber, value: Value)

  /** The value of a field, with its content where a message may ask for it. */
  function ConsumeValue(num: FieldNumber, typ: WireType, b: seq<Byte>): (r: Parsed<Value>)
    ensures r.Parsed? ==> 1 <= r.used <= |b|
  {
    if typ == VARINT then
      match ConsumeVarint(b) case Malformed(e) => Malformed(e) case Parsed(v, n) => Parsed(VarintValue(v), n)
    else if typ == BYTES then
      match ConsumeBytes(b) case Malformed(e) => Malformed(e) case Parsed(v, n) => Parsed(BytesValue(v), n)
    else if typ == FIXED32 then
      match ConsumeFixed32(b) case Malformed(e) => Malformed(e) case Parsed(v, n) => Parsed(Fixed32Value(v), n)
    else
      match Skip(num, typ, b, RECURSION_LIMIT)
      case Malformed(e) => Malformed(e)
      case Parsed(_, n) => Parsed(OtherValue(typ), n)
  }

  /** Reading a value and stepping over it take the same bytes and fail alike. */
  lemma ConsumeValueMatchesSkip(num: FieldNumber, typ: WireType, b: seq<Byte>)
    ensures match ConsumeValue(num, typ, b)
            case Parsed(_, n) => Skip(num, typ, b, RECURSION_LIMIT) == Parsed((), n)
            case Malformed(e) => Skip(num, typ, b, RECURSION_LIMIT) == Malformed(e)
  {
  }

  lemma ConsumeValueStable(num: FieldNumber, typ: WireType, b: seq<Byte>, rest: seq<Byte>)
    requires ConsumeValue(num, typ, b).Parsed?
    ensures ConsumeValue(num, typ, b + rest) == ConsumeValue(num, typ, b)
  {
    if typ == VARINT {
      ConsumeVarintStable(b, rest);
    } else if typ == BYTES {
      ConsumeBytesStable(b, rest);
    } else if typ != FIXED32 {
      SkipStable(num, typ, b, RECURSION_LIMIT, rest);
    }
  }

  function NextField(b: seq<Byte>): (r: Parsed<Field>)
    ensures r.Parsed? ==> 2 <= r.used <= |b|
  {
    match ConsumeTag(b)
    case Malformed(e) => Malformed(e)
    case Parsed((num, typ), n) =>
      match ConsumeValue(num, typ, b[n..])
      case Malformed(e) => Malformed(e)
      case Parsed(v, m) => Parsed(Field(num, v), n + m)
  }

  lemma NextFieldStable(b: seq<Byte>, rest: seq<Byte>)
    requires NextField(b).Parsed?
    ensures NextField(b + rest) == NextField(b)
  {
    ConsumeTagStable(b, rest);
    var Parsed((num, typ), n) := ConsumeTag(b);
    ConsumeValueStable(num, typ, b[n..], rest);
    assert (b + rest)[n..] == b[n..] + rest;
  }

  function BytesField(num: FieldNumber, s: seq<Byte>): Field {
    Field(num, BytesValue(s))
  }

  function IntField(num: FieldNumber, v: U64): Field {
    Field(num, VarintValue(v))
  }

  function FloatField(num: FieldNumber, bits: U32): Field {
    Field(num, Fixed32Value(bits))
  }

  /** Fields that can be written: everything but the kinds a reader only steps over. */
  predicate Writable(f: Field) {
    match f.value
    case VarintValue(_) => true
    case BytesValue(s) => |s| < I64_SIZE
    case Fixed32Value(_) => true
    case OtherValue(_) => false
  }

  function EncodeField(f: Field): seq<Byte>
    requires Writable(f)
  {
    match f.value
    case VarintValue(v) => Tag(f.num, VARINT) + Varint(v)
    case BytesValue(s) => Tag(f.num, BYTES) + (Varint(|s|) + s)
    case Fixed32Value(w) => Tag(f.num, FIXED32) + Fixed32(w)
  }

  lemma TagRoundTrip(num: FieldNumber, typ: WireType, rest: seq<Byte>)
    ensures ConsumeTag(Tag(num, typ) + rest) == Parsed((num, typ), |Tag(num, typ)|)
  {
    VarintRoundTrip(num * 8 + typ, rest);
  }

  /** A tag followed by a readable value is a field. */
  lemma TaggedValue(num: FieldNumber, typ: WireType, body: seq<Byte>, v: Value, n: nat)
    requires ConsumeValue(num, typ, body) == Parsed(v, n)
    ensures NextField(Tag(num, typ) + body) == Parsed(Field(num, v), |Tag(num, typ)| + n)
  {
    TagRoundTrip(num, typ, body);
    assert (Tag(num, typ) + body)[|Tag(num, typ)|..] == body;
  }

  lemma BytesRoundTrip(s: seq<Byte>, rest: seq<Byte>)
    requires |s| < I64_SIZE
    ensures ConsumeBytes(Varint(|s|) + s + rest) == Parsed(s, |Varint(|s|)| + |s|)
  {
    var prefix := Varint(|s|);
    assert prefix + s + rest == prefix + (s + rest);
    VarintRoundTrip(|s|, s + rest);
    assert (prefix + (s + rest))[|prefix|..|prefix| + |s|] == s;
  }

  lemma VarintFieldRoundTrip(num: FieldNumber, v: U64, rest: seq<Byte>)
    ensures NextField(Tag(num, VARINT) + Varint(v) + rest)
            == Parsed(Field(num, VarintValue(v)), |Tag(num, VARINT)| + |Varint(v)|)
  {
    hide Varint, Tag, NextField;
    VarintRoundTrip(v, rest);
    TaggedValue(num, VARINT, Varint(v) + rest, VarintValue(v), |Varint(v)|);
    assert Tag(num, VARINT) + Varint(v) + rest == Tag(num, VARINT) + (Varint(v) + rest);
  }

  lemma BytesFieldRoundTrip(num: FieldNumber, s: seq<Byte>, rest: seq<Byte>)
    requires |s| < I64_SIZE
    ensures NextField(Tag(num, BYTES) + (Varint(|s|) + s) + rest)
         == Parsed(Field(num, BytesValue(s)), |Tag(num, BYTES)| + |Varint(|s|)| + |s|)
  {
    var body := Varint(|s|) + s;
    BytesRoundTrip(s, rest);
    TaggedValue(num, BYTES, body + rest, BytesValue(s), |body|);
    assert Tag(num, BYTES) + body + rest == Tag(num, BYTES) + (body + rest);
  }

  lemma Fixed32FieldRoundTrip(num: FieldNumber, w: U32, rest: seq<Byte>)
    ensures NextField(Tag(num, FIXED32) + Fixed32(w) + rest)
            == Parsed(Field(num, Fixed32Value(w)), |Tag(num, FIXED32)| + 4)
  {
    Fixed32RoundTrip(w, rest);
    TaggedValue(num, FIXED32, Fixed32(w) + rest, Fixed32Value(w), 4);
    assert Tag(num, FIXED32) + Fixed32(w) + rest == Tag(num, FIXED32) + (Fixed32(w) + rest);
  }

  /** A written field is read back, whatever follows it. */
  lemma FieldRoundTrip(f: Field, rest: seq<Byte>)
    requires Writable(f)
    ensures NextField(EncodeField(f) + rest) == Parsed(f, |EncodeField(f)|)
  {
    match f.value
    case VarintValue(v) => VarintFieldRoundTrip(f.num, v, rest);
    case BytesValue(s) => BytesFieldRoundTrip(f.num, s, rest);
    case Fixed32Value(w) => Fixed32FieldRoundTrip(f.num, w, rest);
  }

  // ---- Messages: decoding is a fold over fields ----

  datatype Decoded<+M> = Done(msg: M) | Failed(partial: M, error: ParseError)

  /** Reads field after field and hands each to `set`; stops at the first malformed one,
      with the fields before it already set. */
  function Decode<M>(b: seq<Byte>, m: M, put: (M, Field) -> M): Decoded<M>
    decreases |b|
  {
    if b == [] then Done(m)
    else
      match NextField(b)
      case Malformed(e) => Failed(m, e)
      case Parsed(f, n) => Decode(b[n..], put(m, f), put)
  }

  function Fold<M>(fs: seq<Field>, m: M, put: (M, Field) -> M): M {
    if fs == [] then m else Fold(fs[1..], put(m, fs[0]), put)
  }

  predicate AllWritable(fs: seq<Field>) {
    forall i :: 0 <= i < |fs| ==> Writable(fs[i])
  }

  function Encode(fs: seq<Field>): seq<Byte>
    requires AllWritable(fs)
  {
    if fs == [] then [] else EncodeField(fs[0]) + Encode(fs[1..])
  }

  /** A byte sequence is well-formed when it is a sequence of whole fields. */
  predicate WellFormed(b: seq<Byte>)
    decreases |b|
  {
    b == [] || (NextField(b).Parsed? && WellFormed(b[NextField(b).used..]))
  }

  /** The fields of a well-formed byte sequence. */
  function Fields(b: seq<Byte>): seq<Field>
    requires WellFormed(b)
    decreases |b|
  {
    if b == [] then [] else [NextField(b).value] + Fields(b[NextField(b).used..])
  }

  /** Main result: decoding a concatenation is decoding the second part into the result of
      the first, so a later field overwrites an earlier one. */
  lemma {:induction false} DecodeConcat<M>(x: seq<Byte>, y: seq<Byte>, m: M, put: (M, Field) -> M)
    requires WellFormed(x)
    ensures Decode(x, m, put).Done?
    ensures Decode(x + y, m, put) == Decode(y, Decode(x, m, put).msg, put)
    decreases |x|
  {
    if x == [] {
      assert x + y == y;
    } else {
      NextFieldStable(x, y);
      var Parsed(f, n) := NextField(x);
      assert (x + y)[n..] == x[n..] + y;
      DecodeConcat(x[n..], y, put(m, f), put);
    }
  }

  lemma {:induction false} DecodeIsFold<M>(b: seq<Byte>, m: M, put: (M, Field) -> M)
    requires WellFormed(b)
    ensures Decode(b, m, put) == Done(Fold(Fields(b), m, put))
    decreases |b|
  {
    if b != [] {
      var Parsed(f, n) := NextField(b);
      DecodeIsFold(b[n..], put(m, f), put);
      assert Fields(b)[1..] == Fields(b[n..]);
    }
  }

  /** Decoding succeeds exactly on well-formed input. */
  lemma {:induction false} DecodeSucceedsIffWellFormed<M>(b: seq<Byte>, m: M, put: (M, Field) -> M)
    ensures Decode(b, m, put).Done? <==> WellFormed(b)
    decreases |b|
  {
    if b != [] && NextField(b).Parsed? {
      DecodeSucceedsIffWellFormed(b[NextField(b).used..], put(m, NextField(b).value), put);
    }
  }

  lemma {:induction false} EncodedIsWellFormed(fs: seq<Field>)
    requires AllWritable(fs)
    ensures WellFormed(Encode(fs)) && Fields(Encode(fs)) == fs
  {
    if fs != [] {
      var rest := Encode(fs[1..]);
      FieldRoundTrip(fs[0], rest);
      assert Encode(fs)[|EncodeField(fs[0])|..] == rest;
      EncodedIsWellFormed(fs[1..]);
    }
  }

  lemma {:induction false} FoldConcat<M>(a: seq<Field>, b: seq<Field>, m: M, put: (M, Field) -> M)
    ensures Fold(a + b, m, put) == Fold(b, Fold(a, m, put), put)
  {
    if a == [] {
      assert a + b == b;
    } else {
      assert (a + b)[1..] == a[1..] + b;
      FoldConcat(a[1..], b, put(m, a[0]), put);
    }
  }

  ghost predicate Ignores<M(!new)>(put: (M, Field) -> M, f: Field) {
    forall m: M :: put(m, f) == m
  }

  lemma {:induction false} FoldIgnored<M(!new)>(fs: seq<Field>, m: M, put: (M, Field) -> M)
    requires forall i :: 0 <= i < |fs| ==> Ignores(put, fs[i])
    ensures Fold(fs, m, put) == m
  {
    if fs != [] {
      assert Ignores(put, fs[0]);
      FoldIgnored(fs[1..], m, put);
    }
  }

  lemma DecodeIgnored<M(!new)>(u: seq<Byte>, m: M, put: (M, Field) -> M)
    requires WellFormed(u) && forall i :: 0 <= i < |Fields(u)| ==> Ignores(put, Fields(u)[i])
    ensures Decode(u, m, put) == Done(m)
  {
    DecodeIsFold(u, m, put);
    FoldIgnored(Fields(u), m, put);
  }

  /** Main result: whole fields that a message does not know, inserted at a field boundary,
      change nothing, whatever comes after. */
  lemma UnknownFieldsChangeNothing<M(!new)>(x: seq<Byte>, u: seq<Byte>, y: seq<Byte>, m: M, put: (M, Field) -> M)
    requires WellFormed(x) && WellFormed(u)
    requires forall i :: 0 <= i < |Fields(u)| ==> Ignores(put, Fields(u)[i])
    ensures Decode(x + (u + y), m, put) == Decode(x + y, m, put)
  {
    DecodeConcat(x, u + y, m, put);
    DecodeConcat(x, y, m, put);
    DecodeConcat(u, y, Decode(x, m, put).msg, put);
    DecodeIgnored(u, Decode(x, m, put).msg, put);
  }

  // ---- Field order ----

  /** The fields numbered `n`, in order. */
  function Numbered(fs: seq<Field>, n: FieldNumber): seq<Field> {
    if fs == [] then [] else (if fs[0].num == n then [fs[0]] else []) + Numbered(fs[1..], n)
  }

  ghost predicate Independent<M(!new)>(put: (M, Field) -> M) {
    forall m: M, f: Field, g: Field :: f.num != g.num ==> put(put(m, f), g) == put(put(m, g), f)
  }

  lemma {:induction false} NumberedConcat(a: seq<Field>, b: seq<Field>, n: FieldNumber)
    ensures Numbered(a + b, n) == Numbered(a, n) + Numbered(b, n)
  {
    hide Numbered;
    if a == [] {
      assert a + b == b;
      NoneNumbered(n);
    } else {
      NumberedConcat(a[1..], b, n);
      assert (a + b)[1..] == a[1..] + b && (a + b)[0] == a[0];
      NumberedFirst(a, n);
      NumberedFirst(a + b, n);
    }
  }

  lemma NoneNumbered(n: FieldNumber)
    ensures Numbered([], n) == []
  {
  }

  lemma NumberedFirst(fs: seq<Field>, n: FieldNumber)
    requires fs != []
    ensures Numbered(fs, n) == (if fs[0].num == n then [fs[0]] else []) + Numbered(fs[1..], n)
  {
  }

  /** Splits off the first field numbered `n`. */
  lemma {:induction false} FirstNumbered(fs: seq<Field>, n: FieldNumber)
    returns (a: seq<Field>, f: Field, b: seq<Field>)
    requires Numbered(fs, n) != []
    ensures fs == a + [f] + b && f.num == n && Numbered(a, n) == [] && f == Numbered(fs, n)[0]
    ensures forall i :: 0 <= i < |a| ==> a[i].num != n
  {
    if fs[0].num == n {
      a, f, b := [], fs[0], fs[1..];
    } else {
      a, f, b := FirstNumbered(fs[1..], n);
      a := [fs[0]] + a;
      assert a[1..] == fs[1..][..|a| - 1];
    }
  }

  lemma {:induction false} FoldMovesToFront<M(!new)>(a: seq<Field>, f: Field, m: M, put: (M, Field) -> M)
    requires Independent(put) && forall i :: 0 <= i < |a| ==> a[i].num != f.num
    ensures put(Fold(a, m, put), f) == Fold(a, put(m, f), put)
  {
    if a != [] {
      FoldMovesToFront(a[1..], f, put(m, a[0]), put);
      assert put(put(m, a[0]), f) == put(put(m, f), a[0]);
    }
  }

  ghost predicate SameByNumber(fs: seq<Field>, gs: seq<Field>) {
    forall n: FieldNumber :: Numbered(fs, n) == Numbered(gs, n)
  }

  lemma NoFields(gs: seq<Field>)
    requires SameByNumber([], gs)
    ensures gs == []
  {
    if gs != [] {
      FirstIsNumbered(gs);
    }
  }

  lemma FirstIsNumbered(gs: seq<Field>)
    requires gs != []
    ensures Numbered(gs, gs[0].num) == [gs[0]] + Numbered(gs[1..], gs[0].num)
  {
  }

  lemma NumberedAround(a: seq<Field>, f: Field, b: seq<Field>, n: FieldNumber)
    ensures Numbered(a + [f] + b, n) == Numbered(a, n) + (if f.num == n then [f] else []) + Numbered(b, n)
    ensures Numbered(a + b, n) == Numbered(a, n) + Numbered(b, n)
  {
    NumberedConcat(a + [f], b, n);
    NumberedConcat(a, [f], n);
    NumberedConcat(a, b, n);
    assert [f][1..] == [];
    NumberedFirst([f], n);
    NoneNumbered(n);
  }

  lemma RemoveFirstOf(fs: seq<Field>, a: seq<Field>, b: seq<Field>, n: FieldNumber)
    requires fs != [] && Numbered(fs, n) == Numbered(a + [fs[0]] + b, n)
    requires n == fs[0].num ==> Numbered(a, n) == []
    ensures Numbered(fs[1..], n) == Numbered(a + b, n)
  {
    var f := fs[0];
    NumberedAround(a, f, b, n);
    var na, nb, nf := Numbered(a, n), Numbered(b, n), Numbered(fs[1..], n);
    if f.num != n {
      assert Numbered(fs, n) == [] + nf == nf;
      assert na + [] + nb == na + nb;
    } else {
      FirstIsNumbered(fs);
      assert [] + [f] + nb == [f] + nb && [] + nb == nb;
      assert ([f] + nf)[1..] == nf && ([f] + nb)[1..] == nb;
    }
  }

  lemma RemoveFirst(fs: seq<Field>, a: seq<Field>, b: seq<Field>)
    requires fs != [] && SameByNumber(fs, a + [fs[0]] + b)
    requires Numbered(a, fs[0].num) == []
    ensures SameByNumber(fs[1..], a + b)
  {
    forall n: FieldNumber
      ensures Numbered(fs[1..], n) == Numbered(a + b, n)
    {
      assert Numbered(fs, n) == Numbered(a + [fs[0]] + b, n);
      RemoveFirstOf(fs, a, b, n);
    }
  }

  /** Main result: only the order among fields of the same number matters. Any two field
      lists that agree number by number decode to the same message. */
  lemma {:induction false} FieldOrderIsFree<M(!new)>(fs: seq<Field>, gs: seq<Field>, m: M, put: (M, Field) -> M)
    requires Independent(put) && SameByNumber(fs, gs)
    ensures Fold(fs, m, put) == Fold(gs, m, put)
    decreases |fs|
  {
    if fs == [] {
      NoFields(gs);
    } else {
      var f := fs[0];
      assert Numbered(fs, f.num) == Numbered(gs, f.num);
      var a, g, b := FirstNumbered(gs, f.num);
      RemoveFirst(fs, a, b);
      FieldOrderIsFree(fs[1..], a + b, put(m, f), put);
      FoldConcat(a + [f], b, m, put);
      FoldConcat(a, [f], m, put);
      FoldConcat(a, b, put(m, f), put);
      FoldMovesToFront(a, f, m, put);
      assert Fold([f], Fold(a, m, put), put) == put(Fold(a, m, put), f);
    }
  }

  /** The same for bytes: reordering whole fields, without changing the order among fields
      of one number, does not change the decoded message. */
  lemma ReorderedFieldsDecodeAlike<M(!new)>(x: seq<Byte>, y: seq<Byte>, m: M, put: (M, Field) -> M)
    requires WellFormed(x) && WellFormed(y) && SameByNumber(Fields(x), Fields(y)) && Independent(put)
    ensures Decode(x, m, put) == Decode(y, m, put)
  {
    DecodeIsFold(x, m, put);
    DecodeIsFold(y, m, put);
    FieldOrderIsFree(Fields(x), Fields(y), m, put);
  }

  // ---- Optional fields: what the hand-written encoders emit ----

  /** Field `f`, if present, in front of `rest`. */
  function Opt(present: bool, f: Field, rest: seq<Field>): seq<Field> {
    if present then [f] + rest else rest
  }

  lemma NoneWritable()
    ensures AllWritable([])
  {
  }

  lemma BytesOptWritable(present: bool, num: FieldNumber, s: seq<Byte>, rest: seq<Field>)
    requires |s| < I64_SIZE && AllWritable(rest)
    ensures AllWritable(Opt(present, BytesField(num, s), rest))
  {
  }

  lemma IntOptWritable(present: bool, num: FieldNumber, v: U64, rest: seq<Field>)
    requires AllWritable(rest)
    ensures AllWritable(Opt(present, IntField(num, v), rest))
  {
  }

  lemma FloatOptWritable(present: bool, num: FieldNumber, bits: U32, rest: seq<Field>)
    requires AllWritable(rest)
    ensures AllWritable(Opt(present, FloatField(num, bits), rest))
  {
  }

  lemma FoldNothing<M>(m: M, put: (M, Field) -> M)
    ensures Fold([], m, put) == m
  {
  }

  lemma FoldOpt<M>(present: bool, f: Field, rest: seq<Field>, m: M, put: (M, Field) -> M)
    ensures Fold(Opt(present, f, rest), m, put) == Fold(rest, if present then put(m, f) else m, put)
  {
    assert present ==> ([f] + rest)[1..] == rest;
  }

  /** An encoder that has produced `b` and still has to produce `rest`. */
  predicate Produces(b: seq<Byte>, rest: seq<Field>, all: seq<Byte>) {
    AllWritable(rest) && b + Encode(rest) == all
  }

  lemma ProduceAll(b: seq<Byte>, fs: seq<Field>)
    requires AllWritable(fs)
    ensures Produces(b, fs, b + Encode(fs))
  {
  }

  lemma ProducedAll(b: seq<Byte>, rest: seq<Field>, all: seq<Byte>)
    requires Produces(b, rest, all)
    ensures AllWritable(rest) && all == b + Encode(rest)
    ensures rest == [] ==> all == b
  {
  }

  lemma ProduceOpt(b: seq<Byte>, present: bool, f: Field, rest: seq<Field>, all: seq<Byte>)
    requires Produces(b, Opt(present, f, rest), all)
    ensures AllWritable(rest) && (present ==> Writable(f))
    ensures Produces(if present then b + EncodeField(f) else b, rest, all)
  {
    var fs := Opt(present, f, rest);
    if present {
      assert fs[1..] == rest && fs[0] == f;
      assert forall i :: 0 <= i < |rest| ==> rest[i] == fs[i + 1];
      assert b + (EncodeField(f) + Encode(rest)) == (b + EncodeField(f)) + Encode(rest);
    }
  }

  // ---- Appending to a buffer, call by call ----

  function AppendTag(b: seq<Byte>, num: FieldNumber, typ: WireType): seq<Byte> {
    b + Tag(num, typ)
  }

  function AppendVarint(b: seq<Byte>, v: U64): seq<Byte> {
    b + Varint(v)
  }

  function AppendBytes(b: seq<Byte>, s: seq<Byte>): seq<Byte> {
    b + (Varint(|s|) + s)
  }

  function AppendFixed32(b: seq<Byte>, v: U32): seq<Byte> {
    b + Fixed32(v)
  }

  function AppendBytesField(b: seq<Byte>, num: FieldNumber, s: seq<Byte>): (r: seq<Byte>)
    requires |s| < I64_SIZE
    ensures Writable(BytesField(num, s)) && r == b + EncodeField(BytesField(num, s))
  {
    AppendBytes(AppendTag(b, num, BYTES), s)
  }

  function AppendVarintField(b: seq<Byte>, num: FieldNumber, v: U64): (r: seq<Byte>)
    ensures Writable(IntField(num, v)) && r == b + EncodeField(IntField(num, v))
  {
    AppendVarint(AppendTag(b, num, VARINT), v)
  }

  function AppendFixed32Field(b: seq<Byte>, num: FieldNumber, v: U32): (r: seq<Byte>)
    ensures Writable(FloatField(num, v)) && r == b + EncodeField(FloatField(num, v))
  {
    AppendFixed32(AppendTag(b, num, FIXED32), v)
  }

  // ---- One turn of a decoding loop ----

  lemma NextFieldAfterTag(b: seq<Byte>, num: FieldNumber, typ: WireType, n: nat)
    requires ConsumeTag(b) == Parsed((num, typ), n) && n <= |b|
    ensures ConsumeValue(num, typ, b[n..]).Malformed? ==>
              NextField(b) == Malformed(ConsumeValue(num, typ, b[n..]).error)
    ensures ConsumeValue(num, typ, b[n..]).Parsed? ==>
              NextField(b) == Parsed(Field(num, ConsumeValue(num, typ, b[n..]).value),
                                     n + ConsumeValue(num, typ, b[n..]).used)
  {
  }

  lemma DecodeNothing<M>(m: M, put: (M, Field) -> M)
    ensures Decode([], m, put) == Done(m)
  {
  }

  lemma DecodeStep<M>(b: seq<Byte>, f: Field, k: nat, m: M, put: (M, Field) -> M)
    requires b != [] && k <= |b| && NextField(b) == Parsed(f, k)
    ensures Decode(b, m, put) == Decode(b[k..], put(m, f), put)
  {
  }

  lemma DecodeMalformed<M>(b: seq<Byte>, m: M, put: (M, Field) -> M)
    requires b != [] && NextField(b).Malformed?
    ensures Decode(b, m, put) == Failed(m, NextField(b).error)
  {
  }
}
