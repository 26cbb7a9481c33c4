/** 16-bit PCM samples and their little-endian byte form. */
module Pcm {
  import opened Basics

  type Sample = x: int | -32768 <= x < 32768

  /** Go's integer division by a positive number: truncation toward zero. */
  function TruncDiv(a: int, b: int): int
    requires b > 0
  {
    if a >= 0 then a / b else -(-a / b)
  }

  /** A Go conversion to int16: the low 16 bits as a two's complement number. */
  function ToInt16(x: int): Sample {
    var u := x % 65536;
    if u < 32768 then u else u - 65536
  }

  function ToUint16(s: Sample): (u: int)
    ensures 0 <= u < 65536
  {
    if s >= 0 then s else s + 65536
  }

  function LowByte(s: Sample): Byte {
    ToUint16(s) % 256
  }

  function HighByte(s: Sample): Byte {
    ToUint16(s) / 256
  }

  function FromBytes(low: Byte, high: Byte): Sample {
    ToInt16((low as int) + 256 * (high as int))
  }

  lemma SampleBytes(s: Sample, low: Byte, high: Byte)
    ensures FromBytes(LowByte(s), HighByte(s)) == s
    ensures LowByte(FromBytes(low, high)) == low && HighByte(FromBytes(low, high)) == high
  {
  }

  /** The bytes of `samples`, two per sample, low byte first. */
  function Bytes(samples: seq<Sample>): (b: seq<Byte>)
    ensures |b| == 2 * |samples|
  {
    seq(2 * |samples|, i requires 0 <= i < 2 * |samples| =>
      if i % 2 == 0 then LowByte(samples[i / 2]) else HighByte(samples[i / 2]))
  }

  datatype Samples = Samples(samples: seq<Sample>) | OddByteCount

  function FromS16LE(b: seq<Byte>): Samples {
    if |b| % 2 != 0 then OddByteCount
    else Samples(seq(|b| / 2, i requires 0 <= i < |b| / 2 => FromBytes(b[2 * i], b[2 * i + 1])))
  }

  method Int16ToS16LE(samples: seq<Sample>) returns (b: seq<Byte>)
    ensures b == Bytes(samples)
  {
    b := [];
    var i := 0;
    while i < |samples|
      invariant 0 <= i <= |samples|
      invariant b == Bytes(samples)[..2 * i]
    {
      b := b + [LowByte(samples[i]), HighByte(samples[i])];
      i := i + 1;
    }
    assert Bytes(samples)[..2 * |samples|] == Bytes(samples);
  }

  method S16LEToInt16(b: seq<Byte>) returns (r: Samples)
    ensures r == FromS16LE(b)
  {
    if |b| == 0 {
      return Samples([]);
    }
    if |b| % 2 != 0 {
      return OddByteCount;
    }
    var out: seq<Sample> := [];
    var i := 0;
    while i < |b| / 2
      invariant 0 <= i <= |b| / 2
      invariant out == FromS16LE(b).samples[..i]
    {
      out := out + [FromBytes(b[i * 2], b[i * 2 + 1])];
      i := i + 1;
    }
    assert FromS16LE(b).samples[..|b| / 2] == FromS16LE(b).samples;
    return Samples(out);
  }

  lemma BytesAt(samples: seq<Sample>, i: nat)
    requires i < |samples|
    ensures Bytes(samples)[2 * i] == LowByte(samples[i]) && Bytes(samples)[2 * i + 1] == HighByte(samples[i])
  {
  }

  lemma DecodedAt(b: seq<Byte>, h: nat)
    requires |b| % 2 == 0 && h < |b| / 2
    ensures FromS16LE(b).Samples? && |FromS16LE(b).samples| == |b| / 2
    ensures FromS16LE(b).samples[h] == FromBytes(b[2 * h], b[2 * h + 1])
  {
  }

  /** Decoding undoes encoding. */
  lemma DecodeAfterEncode(samples: seq<Sample>)
    ensures FromS16LE(Bytes(samples)) == Samples(samples)
  {
    hide Bytes, LowByte, HighByte, FromBytes;
    var b := Bytes(samples);
    forall i | 0 <= i < |samples|
      ensures FromS16LE(b).samples[i] == samples[i]
    {
      DecodedAt(b, i);
      BytesAt(samples, i);
      SampleBytes(samples[i], 0, 0);
    }
    assert FromS16LE(b).samples == samples;
  }

  /** Encoding undoes decoding, which succeeds exactly on an even number of bytes. */
  lemma EncodeAfterDecode(b: seq<Byte>)
    ensures FromS16LE(b).Samples? <==> |b| % 2 == 0
    ensures FromS16LE(b).Samples? ==> Bytes(FromS16LE(b).samples) == b
  {
    hide Bytes, LowByte, HighByte, FromBytes;
    if |b| % 2 == 0 {
      var s := FromS16LE(b).samples;
      forall h | 0 <= h < |s|
        ensures Bytes(s)[2 * h] == b[2 * h] && Bytes(s)[2 * h + 1] == b[2 * h + 1]
      {
        DecodedAt(b, h);
        BytesAt(s, h);
        SampleBytes(0, b[2 * h], b[2 * h + 1]);
      }
      EqualByPairs(Bytes(s), b);
    }
  }

  lemma EqualByPairs(a: seq<Byte>, b: seq<Byte>)
    requires |a| == |b| && |a| % 2 == 0
    requires forall h :: 0 <= h < |a| / 2 ==> a[2 * h] == b[2 * h] && a[2 * h + 1] == b[2 * h + 1]
    ensures a == b
  {
    forall i | 0 <= i < |a|
      ensures a[i] == b[i]
    {
      var h := i / 2;
      assert i == 2 * h || i == 2 * h + 1;
    }
  }

  // ---- What the primitives mean ----

  lemma Negated(a: int, b: int)
    ensures (-a) * b == -(a * b)
  {
  }

  /** The quotient is the exact one, cut off toward zero. */
  lemma DivisionTruncates(a: int, b: int)
    requires b > 0
    ensures a >= 0 ==> TruncDiv(a, b) >= 0 && 0 <= a - TruncDiv(a, b) * b < b
    ensures a <= 0 ==> TruncDiv(a, b) <= 0 && -b < a - TruncDiv(a, b) * b <= 0
  {
    var m := if a >= 0 then a else -a;
    var q := m / b;
    assert 0 <= m - q * b < b;
    assert q >= 0;
    assert TruncDiv(a, b) == if a >= 0 then q else -q;
    hide TruncDiv;
    Negated(q, b);
  }

  /** Sample k occupies the bytes 2k and 2k + 1, the less significant one first, as a 16-bit two's
      complement number. */
  lemma BytesAreLittleEndian(samples: seq<Sample>, k: nat)
    requires k < |samples|
    ensures var b := Bytes(samples);
            (b[2 * k] as int) + 256 * (b[2 * k + 1] as int)
            == (samples[k] as int) + if samples[k] >= 0 then 0 else 0x1_0000
  {
  }
}
