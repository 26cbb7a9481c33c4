/** Streaming linear resampler with an integer phase accumulator that is carried from one
    call to the next, and the one-shot resampling it refines. */
module Resampler {
  import opened Arithmetic
  import opened Pcm

  // ---- One call ----

  /** The interpolated value between two neighbours, as the code computes it. */
  function Interpolate(s0: Sample, s1: Sample, frac: nat, outRate: nat): Sample
    requires outRate > 0
  {
    ToInt16(s0 + TruncDiv((s1 - s0) * frac, outRate))
  }

  /** The output sample at position `phase`, in units of 1/outRate input samples. At the
      last input sample there is no right neighbour and its value is held. */
  function SampleAt(mono: seq<Sample>, phase: nat, outRate: nat): Sample
    requires |mono| > 0 && outRate > 0
  {
    var idx := phase / outRate;
    var frac := phase % outRate;
    if idx >= |mono| - 1 then mono[|mono| - 1]
    else if frac == 0 then mono[idx]
    else Interpolate(mono[idx], mono[idx + 1], frac, outRate)
  }

  /** All output samples of one call: phases phase, phase + inRate, ... below the end. */
  function Resampled(mono: seq<Sample>, phase: nat, inRate: nat, outRate: nat): seq<Sample>
    requires |mono| > 0 && inRate > 0 && outRate > 0
    decreases |mono| * outRate - phase
  {
    if phase >= |mono| * outRate then []
    else [SampleAt(mono, phase, outRate)] + Resampled(mono, phase + inRate, inRate, outRate)
  }

  /** The phase left over for the next call, when this one consumes up to `limit`. */
  function Carry(limit: nat, phase: nat, inRate: nat): nat
    requires inRate > 0
    decreases limit - phase
  {
    if phase >= limit then phase - limit else Carry(limit, phase + inRate, inRate)
  }

  lemma ResampledStep(mono: seq<Sample>, phase: nat, inRate: nat, outRate: nat)
    requires |mono| > 0 && inRate > 0 && outRate > 0
    ensures Resampled(mono, phase, inRate, outRate)
         == if phase >= |mono| * outRate then []
            else [SampleAt(mono, phase, outRate)] + Resampled(mono, phase + inRate, inRate, outRate)
  {
  }

  lemma CarryStep(limit: nat, phase: nat, inRate: nat)
    requires inRate > 0
    ensures Carry(limit, phase, inRate)
            == if phase >= limit then phase - limit else Carry(limit, phase + inRate, inRate)
  {
  }

  type Int32 = x: int | -0x8000_0000 <= x < 0x8000_0000

  function MonoSum(in_: seq<Sample>, i: nat, ch: nat): int
    requires i + ch <= |in_|
  {
    if ch == 0 then 0 else MonoSum(in_, i, ch - 1) + in_[i + ch - 1]
  }

  /** Every channel of a frame counts once: replacing the sample of channel `c` changes the sum by
      just as much. */
  lemma {:induction false} ChannelsCountOnce(in_: seq<Sample>, i: nat, ch: nat, c: nat, x: Sample)
    requires i + ch <= |in_| && c < ch
    ensures MonoSum(in_[i + c := x], i, ch) == MonoSum(in_, i, ch) + x - in_[i + c]
  {
    if c == ch - 1 {
      SameFrameSum(in_, in_[i + c := x], i, ch - 1);
    } else {
      ChannelsCountOnce(in_, i, ch - 1, c, x);
    }
  }

  lemma {:induction false} SameFrameSum(a: seq<Sample>, b: seq<Sample>, i: nat, ch: nat)
    requires |a| == |b| && i + ch <= |a| && forall k :: i <= k < i + ch ==> a[k] == b[k]
    ensures MonoSum(a, i, ch) == MonoSum(b, i, ch)
  {
    if ch > 0 {
      SameFrameSum(a, b, i, ch - 1);
    }
  }

  /** ... and silence sums to zero, so that the sum is that of the channels and nothing else. */
  lemma SilenceSumsToZero(in_: seq<Sample>, i: nat, ch: nat)
    requires i + ch <= |in_| && forall k :: i <= k < i + ch ==> in_[k] == 0
    ensures MonoSum(in_, i, ch) == 0
  {
    MonoSumBounds(in_, i, ch, 0, 0);
  }

  /** The sum of `ch` samples lies between `ch` times the bounds. */
  lemma {:induction false} MonoSumBounds(in_: seq<Sample>, i: nat, ch: nat, lo: int, hi: int)
    requires i + ch <= |in_| && forall k :: i <= k < i + ch ==> lo <= in_[k] <= hi
    ensures ch * lo <= MonoSum(in_, i, ch) <= ch * hi
  {
    if ch > 0 {
      MonoSumBounds(in_, i, ch - 1, lo, hi);
      assert ch * lo == (ch - 1) * lo + lo && ch * hi == (ch - 1) * hi + hi;
    }
  }

  /** Partial sums of fewer than 65536 samples fit an int32. */
  lemma SumFitsInt32(in_: seq<Sample>, i: nat, ch: nat)
    requires i + ch <= |in_| && ch < 65536
    ensures -0x8000_0000 <= MonoSum(in_, i, ch) < 0x8000_0000
  {
    MonoSumBounds(in_, i, ch, -32768, 32767);
  }

  /** The average of the channels of frame `f`. */
  function Mean(in_: seq<Sample>, f: nat, ch: nat): Sample
    requires ch > 0 && f < |in_| / ch
  {
    FrameFits(|in_|, f, ch);
    ToInt16(TruncDiv(MonoSum(in_, f * ch, ch), ch))
  }

  lemma FrameFits(n: nat, f: nat, ch: nat)
    requires ch > 0 && f < n / ch
    ensures 0 <= f * ch && f * ch + ch <= n
  {
    DivBounds(n, ch);
    MulMonotone(f + 1, n / ch, ch);
    Distribute(f, 1, ch);
  }

  function Mono(in_: seq<Sample>, ch: nat): seq<Sample>
    requires ch > 0
  {
    if ch == 1 then in_ else seq(|in_| / ch, f requires 0 <= f < |in_| / ch => Mean(in_, f, ch))
  }

  /** Stereo becomes the average of left and right, cut off toward zero. */
  lemma StereoIsAveraged(in_: seq<Sample>, f: nat)
    requires f < |in_| / 2
    ensures |Mono(in_, 2)| == |in_| / 2
    ensures var left: int, right: int, mean: int := in_[2 * f], in_[2 * f + 1], Mono(in_, 2)[f];
            && (left + right >= 0 ==> 0 <= left + right - 2 * mean <= 1)
            && (left + right <= 0 ==> -1 <= left + right - 2 * mean <= 0)
  {
    assert MonoSum(in_, f * 2, 2) == MonoSum(in_, f * 2, 0) + in_[f * 2] + in_[f * 2 + 1];
    DivisionTruncates(MonoSum(in_, f * 2, 2), 2);
  }

  /** A mean lies between the least and the greatest sample of its frame: the conversion to int16
      changes nothing. */
  lemma MeanIsExact(in_: seq<Sample>, f: nat, ch: nat, lo: Sample, hi: Sample)
    requires ch > 0 && f < |in_| / ch
    requires forall k :: 0 <= f * ch <= k < f * ch + ch && k < |in_| ==> lo <= in_[k] <= hi
    ensures f * ch >= 0 && f * ch + ch <= |in_|
    ensures Mean(in_, f, ch) == TruncDiv(MonoSum(in_, f * ch, ch), ch) && lo <= Mean(in_, f, ch) <= hi
  {
    FrameFits(|in_|, f, ch);
    var sum := MonoSum(in_, f * ch, ch);
    MonoSumBounds(in_, f * ch, ch, lo, hi);
    TruncDivBounds(sum, ch, lo, hi);
  }

  /** Main result: every whole frame becomes the sum of its channels by their number, cut off toward zero. */
  lemma FrameIsAveraged(in_: seq<Sample>, f: nat, ch: nat)
    requires ch > 0 && f < |in_| / ch
    ensures |Mono(in_, ch)| == |in_| / ch && 0 <= f * ch && f * ch + ch <= |in_|
    ensures var sum: int, mean: int := MonoSum(in_, f * ch, ch), Mono(in_, ch)[f];
            && (sum >= 0 ==> mean >= 0 && 0 <= sum - mean * ch < ch)
            && (sum <= 0 ==> mean <= 0 && 0 <= mean * ch - sum < ch)
  {
    FrameFits(|in_|, f, ch);
    MeanIsExact(in_, f, ch, -32768, 32767);
    var sum := MonoSum(in_, f * ch, ch);
    DivisionTruncates(sum, ch);
    if ch == 1 {
      assert |in_| / ch == |in_| && f * ch == f;
      assert sum == MonoSum(in_, f, 0) + in_[f];
    } else {
      assert Mono(in_, ch)[f] == Mean(in_, f, ch);
    }
  }

  lemma TruncDivBounds(a: int, b: nat, lo: int, hi: int)
    requires b > 0 && b * lo <= a <= b * hi
    ensures lo <= TruncDiv(a, b) <= hi
  {
    if a >= 0 {
      FloorBounds(a, b, lo, hi);
    } else {
      NegatedProduct(lo, b);
      NegatedProduct(hi, b);
      FloorBounds(-a, b, -hi, -lo);
    }
  }

  /** The quotient of a number that is not negative lies between all integers around it. */
  lemma FloorBounds(a: int, b: nat, lo: int, hi: int)
    requires b > 0 && a >= 0 && lo * b <= a <= hi * b
    ensures lo <= a / b <= hi
  {
    var q := a / b;
    DivBounds(a, b);
    if lo > 0 {
      CancelLess(lo, q + 1, b);
    }
    if hi < 0 {
      MulMonotone(0, -hi, b);
      NegatedProduct(hi, b);
      MulMonotone(1, -hi, b);
    } else {
      CancelLess(q, hi + 1, b) by { Distribute(hi, 1, b); }
    }
  }

  /** The samples after the last whole frame are lost: |in_| % ch of them per call. */
  lemma UnalignedInputLosesRest(in_: seq<Sample>, ch: nat)
    requires ch > 0
    ensures |Mono(in_, ch)| == |in_| / ch
    ensures |in_| / ch * ch + |in_| % ch == |in_|
    ensures Mono(in_, ch) == Mono(in_[..|in_| / ch * ch], ch)
  {
    DivMod(|in_|, ch);
    var whole := |in_| / ch * ch;
    if ch == 1 {
      assert in_[..whole] == in_;
    } else {
      QuotientIsUnique(whole, ch, |in_| / ch, 0);
      forall f: nat | f < |in_| / ch
        ensures Mean(in_, f, ch) == Mean(in_[..whole], f, ch)
      {
        FrameFits(|in_|, f, ch);
        FrameFits(whole, f, ch);
        SameSum(in_, whole, f * ch, ch);
      }
    }
  }

  lemma {:induction false} SameSum(in_: seq<Sample>, n: nat, i: nat, ch: nat)
    requires i + ch <= n <= |in_|
    ensures MonoSum(in_, i, ch) == MonoSum(in_[..n], i, ch)
  {
    if ch > 0 {
      SameSum(in_, n, i, ch - 1);
    }
  }

  /** What a call does: samples and the new phase, or an index panic on an empty mono mix. */
  datatype Outcome = Output(samples: seq<Sample>, phase: nat) | IndexPanic

  function Resample(inRate: nat, ch: nat, outRate: nat, phase: nat, in_: seq<Sample>): Outcome
    requires inRate > 0 && ch > 0 && outRate > 0
  {
    if |in_| == 0 then Output([], phase)
    else
      var mono := Mono(in_, ch);
      if inRate == outRate then Output(mono, 0)
      else if |mono| == 0 then IndexPanic
      else Output(Resampled(mono, phase, inRate, outRate), Carry(|mono| * outRate, phase, inRate))
  }

  /** A call panics exactly when rates differ and the input is shorter than one frame. */
  lemma PanicsIff(inRate: nat, ch: nat, outRate: nat, phase: nat, in_: seq<Sample>)
    requires inRate > 0 && ch > 0 && outRate > 0
    ensures Resample(inRate, ch, outRate, phase, in_).IndexPanic? <==> 0 < |in_| < ch && inRate != outRate
  {
    if |in_| < ch {
      QuotientIsUnique(|in_|, ch, 0, |in_|);
    } else {
      DivBounds(|in_|, ch);
      CancelLess(1, |in_| / ch + 1, ch);
    }
  }

  class StreamResampler {
    const inRate: nat
    const inCh: nat
    const outRate: nat
    var phaseNum: nat

    ghost predicate Valid()
      reads this
    {
      inRate > 0 && 0 < inCh < 65536 && outRate > 0 && phaseNum < inRate
    }

    constructor (inRate: nat, inCh: nat, outRate: nat)
      requires inRate > 0 && 0 < inCh < 65536 && outRate > 0
      ensures Valid() && phaseNum == 0
      ensures this.inRate == inRate && this.inCh == inCh && this.outRate == outRate
    {
      this.inRate, this.inCh, this.outRate := inRate, inCh, outRate;
      phaseNum := 0;
    }

    /** The int32 accumulator never overflows. */
    method FrameSum(in_: seq<Sample>, i: nat) returns (sum: Int32)
      requires Valid() && i < |in_| / inCh
      ensures i * inCh + inCh <= |in_|
      ensures sum == MonoSum(in_, i * inCh, inCh)
    {
      FrameFits(|in_|, i, inCh);
      var first := i * inCh;
      var acc: Int32 := 0;
      var ch := 0;
      while ch < inCh
        invariant 0 <= ch <= inCh
        invariant acc == MonoSum(in_, first, ch)
      {
        SumFitsInt32(in_, first, ch + 1);
        acc := acc + in_[first + ch];
        ch := ch + 1;
      }
      sum := acc;
    }

    method ToMono(in_: seq<Sample>) returns (out: seq<Sample>)
      requires Valid()
      ensures out == Mono(in_, inCh)
    {
      hide MonoSum, TruncDiv, ToInt16;
      if inCh == 1 {
        return in_;
      }
      out := [];
      var i := 0;
      ghost var mono := Mono(in_, inCh);
      while i < |in_| / inCh
        invariant 0 <= i <= |in_| / inCh
        invariant out == mono[..i]
      {
        var sum := FrameSum(in_, i);
        out := out + [ToInt16(TruncDiv(sum, inCh))];
        assert mono[i] == Mean(in_, i, inCh);
        i := i + 1;
      }
      assert mono[..|in_| / inCh] == mono;
    }

    /** The sample computed in one turn of the output loop. */
    method OutputSample(mono: seq<Sample>, phase: nat, lastSample: Sample) returns (sample: Sample)
      requires outRate > 0 && |mono| > 0 && lastSample == mono[|mono| - 1]
      ensures sample == SampleAt(mono, phase, outRate)
    {
      var idx := phase / outRate;
      var fracNum := phase % outRate;
      if idx >= |mono| - 1 {
        sample := lastSample;
      } else if fracNum == 0 {
        sample := mono[idx];
      } else {
        var s0, s1 := mono[idx], mono[idx + 1];
        sample := ToInt16(s0 + TruncDiv((s1 - s0) * fracNum, outRate));
      }
    }

    method LinearResample(mono: seq<Sample>) returns (out: seq<Sample>)
      requires Valid() && |mono| > 0
      modifies this
      ensures Valid()
      ensures out == Resampled(mono, old(phaseNum), inRate, outRate)
      ensures phaseNum == Carry(|mono| * outRate, old(phaseNum), inRate)
    {
      hide Resampled, Carry, SampleAt;
      var n := |mono|;
      var limit := n * outRate;
      CarryInRange(limit, phaseNum, inRate);
      ghost var carry := Carry(limit, phaseNum, inRate);
      out := [];
      var phase := phaseNum;
      var lastSample := mono[n - 1];
      ghost var all := Resampled(mono, phaseNum, inRate, outRate);
      assert [] + all == all;
      while phase < limit
        invariant all == out + Resampled(mono, phase, inRate, outRate)
        invariant Carry(limit, phase, inRate) == carry < inRate
        decreases limit - phase
      {
        ResampledStep(mono, phase, inRate, outRate);
        CarryStep(limit, phase, inRate);
        var sample := OutputSample(mono, phase, lastSample);
        ghost var rest := Resampled(mono, phase + inRate, inRate, outRate);
        assert out + ([sample] + rest) == (out + [sample]) + rest;
        out := out + [sample];
        phase := phase + inRate;
      }
      ResampledStep(mono, phase, inRate, outRate);
      CarryStep(limit, phase, inRate);
      assert out + [] == out;
      phaseNum := phase - limit;
    }

    /** `panics` stands for the index panic of the Go code on an empty mono mix. */
    method Process(in_: seq<Sample>) returns (out: seq<Sample>, panics: bool)
      requires Valid()
      modifies this
      ensures Valid()
      ensures var r := Resample(inRate, inCh, outRate, old(phaseNum), in_);
              if r.IndexPanic? then panics && phaseNum == old(phaseNum)
              else !panics && out == r.samples && phaseNum == r.phase
    {
      if |in_| == 0 {
        return [], false;
      }
      var mono := ToMono(in_);
      if inRate == outRate {
        phaseNum := 0;
        return mono, false;
      }
      if |mono| == 0 {
        return [], true;
      }
      out := LinearResample(mono);
      panics := false;
    }
  }

  // ---- Counting ----

  lemma {:induction false} CarryInRange(limit: nat, phase: nat, inRate: nat)
    requires inRate > 0 && phase < limit + inRate
    ensures Carry(limit, phase, inRate) < inRate
    decreases limit - phase
  {
    if phase < limit {
      CarryInRange(limit, phase + inRate, inRate);
    }
  }

  /** One call conserves phase: outputs times inRate = inputs times outRate + carry - phase. */
  lemma {:induction false} CallConserves(mono: seq<Sample>, phase: nat, inRate: nat, outRate: nat)
    requires |mono| > 0 && inRate > 0 && outRate > 0
    ensures phase + |Resampled(mono, phase, inRate, outRate)| * inRate
         == |mono| * outRate + Carry(|mono| * outRate, phase, inRate)
    decreases |mono| * outRate - phase
  {
    hide SampleAt;
    if phase < |mono| * outRate {
      CallConserves(mono, phase + inRate, inRate, outRate);
      Distribute(1, |Resampled(mono, phase + inRate, inRate, outRate)|, inRate);
    }
  }

  /** The outputs of one call fit the capacity reserved for them. */
  lemma OutputsFitCapacity(mono: seq<Sample>, phase: nat, inRate: nat, outRate: nat)
    requires |mono| > 0 && inRate > 0 && outRate > 0 && phase < inRate
    ensures |Resampled(mono, phase, inRate, outRate)| <= |mono| * outRate / inRate + 2
  {
    var limit, count := |mono| * outRate, |Resampled(mono, phase, inRate, outRate)|;
    CallConserves(mono, phase, inRate, outRate);
    CarryInRange(limit, phase, inRate);
    DivBounds(limit, inRate);
    Distribute(limit / inRate, 1, inRate);
    Distribute(limit / inRate, 2, inRate);
    CancelLess(count, limit / inRate + 2, inRate);
  }

  // ---- A stream of calls ----

  function Flatten<T>(chunks: seq<seq<T>>): seq<T> {
    if chunks == [] then [] else chunks[0] + Flatten(chunks[1..])
  }

  predicate NonEmpty(chunks: seq<seq<Sample>>) {
    forall i :: 0 <= i < |chunks| ==> |chunks[i]| > 0
  }

  /** The outputs of successive calls, one chunk each, starting from a carried phase. */
  function Stream(chunks: seq<seq<Sample>>, phase: nat, inRate: nat, outRate: nat): seq<Sample>
    requires NonEmpty(chunks) && inRate > 0 && outRate > 0
  {
    if chunks == [] then []
    else
      var rest := Stream(chunks[1..], Carry(|chunks[0]| * outRate, phase, inRate), inRate, outRate);
      Resampled(chunks[0], phase, inRate, outRate) + rest
  }

  function StreamCarry(chunks: seq<seq<Sample>>, phase: nat, inRate: nat, outRate: nat): nat
    requires NonEmpty(chunks) && inRate > 0 && outRate > 0
  {
    if chunks == [] then phase
    else StreamCarry(chunks[1..], Carry(|chunks[0]| * outRate, phase, inRate), inRate, outRate)
  }

  lemma {:induction false} StreamConserves(chunks: seq<seq<Sample>>, phase: nat, inRate: nat, outRate: nat)
    requires NonEmpty(chunks) && inRate > 0 && outRate > 0 && phase < inRate
    ensures phase + |Stream(chunks, phase, inRate, outRate)| * inRate
         == |Flatten(chunks)| * outRate + StreamCarry(chunks, phase, inRate, outRate)
    ensures StreamCarry(chunks, phase, inRate, outRate) < inRate
  {
    hide Resampled, Carry;
    if chunks != [] {
      var a, rest := chunks[0], chunks[1..];
      var carry := Carry(|a| * outRate, phase, inRate);
      CarryInRange(|a| * outRate, phase, inRate);
      CallConserves(a, phase, inRate, outRate);
      StreamConserves(rest, carry, inRate, outRate);
      Distribute(|Resampled(a, phase, inRate, outRate)|, |Stream(rest, carry, inRate, outRate)|, inRate);
      Distribute(|a|, |Flatten(rest)|, outRate);
    }
  }

  /** Main result: however the input is split into chunks, the number of output samples is
      exactly inputs * outRate / inRate, rounded up. */
  lemma OutputCountIsExact(chunks: seq<seq<Sample>>, inRate: nat, outRate: nat)
    requires NonEmpty(chunks) && inRate > 0 && outRate > 0
    ensures |Stream(chunks, 0, inRate, outRate)| == CeilDiv(|Flatten(chunks)| * outRate, inRate)
  {
    StreamConserves(chunks, 0, inRate, outRate);
    CeilIsUnique(|Flatten(chunks)| * outRate, inRate, |Stream(chunks, 0, inRate, outRate)|,
                 StreamCarry(chunks, 0, inRate, outRate));
  }

  // ---- Contents ----

  lemma ScaledDown(d: nat, frac: nat, outRate: nat)
    requires frac < outRate
    ensures 0 <= d * frac && d * frac / outRate <= d
  {
    MulMonotone(frac, outRate, d);
    MulMonotone(0, 1, d * frac);
    DivBounds(d * frac, outRate);
    Distribute(d, 1, outRate);
    assert frac * d == d * frac && outRate * d == d * outRate;
    CancelLess(d * frac / outRate, d + 1, outRate);
  }

  lemma TruncDivBetween(d: int, frac: nat, outRate: nat)
    requires frac < outRate
    ensures d >= 0 ==> 0 <= TruncDiv(d * frac, outRate) <= d
    ensures d <= 0 ==> d <= TruncDiv(d * frac, outRate) <= 0
  {
    if d >= 0 {
      ShareOf(d, frac, outRate);
    } else {
      ShareOf(-d, frac, outRate);
      NegatedProduct(d, frac);
      TruncDivNegated(-d * frac, outRate);
    }
  }

  lemma ShareOf(m: nat, frac: nat, outRate: nat)
    requires frac < outRate
    ensures m * frac >= 0 && 0 <= m * frac / outRate <= m && TruncDiv(m * frac, outRate) == m * frac / outRate
  {
    ScaledDown(m, frac, outRate);
  }

  lemma TruncDivNegated(a: int, b: nat)
    requires a >= 0 && b > 0
    ensures TruncDiv(-a, b) == -TruncDiv(a, b)
  {
  }

  lemma NegatedProduct(d: int, frac: int)
    ensures -(d * frac) == (-d) * frac
  {
  }

  predicate Between(v: int, a: int, b: int) {
    a <= v <= b || b <= v <= a
  }

  /** Every output lies between its two neighbours, so the conversion to int16 loses nothing. */
  lemma InterpolationIsBetween(s0: Sample, s1: Sample, frac: nat, outRate: nat)
    requires frac < outRate
    ensures Between(Interpolate(s0, s1, frac, outRate), s0, s1)
    ensures Interpolate(s0, s1, frac, outRate) == s0 + TruncDiv((s1 - s0) * frac, outRate)
  {
    TruncDivBetween(s1 - s0, frac, outRate);
  }

  /** The interpolated value is on the line between its neighbours, off by less than one unit toward
      the left one. */
  lemma InterpolationIsLinear(s0: Sample, s1: Sample, frac: nat, outRate: nat)
    requires 0 < frac < outRate
    ensures var left: int, right: int, v: int := s0, s1, Interpolate(s0, s1, frac, outRate);
            var line := left * (outRate - frac) + right * frac;
            (left <= right ==> 0 <= line - v * outRate < outRate)
              && (left >= right ==> 0 <= v * outRate - line < outRate)
  {
    var left: int, right: int := s0, s1;
    var d := (right - left) * frac;
    InterpolationIsBetween(s0, s1, frac, outRate);
    DivisionTruncates(d, outRate);
    Distribute(left, TruncDiv(d, outRate), outRate);
    LineFrom(left, right, frac, outRate);
    if left <= right {
      MulMonotone(0, right - left, frac);
    } else {
      MulMonotone(0, left - right, frac);
      NegatedProduct(right - left, frac);
    }
  }

  lemma LineFrom(s0: int, s1: int, frac: int, outRate: int)
    ensures s0 * (outRate - frac) + s1 * frac == s0 * outRate + (s1 - s0) * frac
  {
  }

  lemma {:induction false} ResampledAt(mono: seq<Sample>, phase: nat, inRate: nat, outRate: nat, k: nat)
    requires |mono| > 0 && inRate > 0 && outRate > 0 && k < |Resampled(mono, phase, inRate, outRate)|
    ensures phase + k * inRate < |mono| * outRate
    ensures Resampled(mono, phase, inRate, outRate)[k] == SampleAt(mono, phase + k * inRate, outRate)
    decreases k
  {
    if k > 0 {
      ResampledAt(mono, phase + inRate, inRate, outRate, k - 1);
      assert phase + inRate + (k - 1) * inRate == phase + k * inRate;
    }
  }

  /** Main result: output k of a whole signal lies k * inRate / outRate samples from its start, on the straight
      line between the two samples around that place (less than 1 off, towards the earlier one). */
  lemma OneShotIsLinear(mono: seq<Sample>, inRate: nat, outRate: nat, k: nat, i: nat, frac: nat)
    requires |mono| > 0 && inRate > 0 && outRate > 0 && k < |Resampled(mono, 0, inRate, outRate)|
    requires k * inRate == i * outRate + frac && frac < outRate
    ensures i < |mono|
    ensures frac == 0 || i == |mono| - 1 ==> Resampled(mono, 0, inRate, outRate)[k] == mono[i]
    ensures frac > 0 && i + 1 < |mono| ==>
              var left: int, right: int, v: int := mono[i], mono[i + 1], Resampled(mono, 0, inRate, outRate)[k];
              var line := left * (outRate - frac) + right * frac;
              (left <= right ==> 0 <= line - v * outRate < outRate)
              && (left >= right ==> 0 <= v * outRate - line < outRate)
  {
    ResampledAt(mono, 0, inRate, outRate, k);
    QuotientIsUnique(k * inRate, outRate, i, frac);
    QuotientBelow(k * inRate, |mono|, outRate);
    if frac > 0 && i + 1 < |mono| {
      InterpolationIsLinear(mono[i], mono[i + 1], frac, outRate);
    }
  }

  /** At equal rates interpolation would change nothing: the shortcut that returns the mono input
      and clears the phase is the same stream. */
  lemma SameRateIsIdentity(mono: seq<Sample>, rate: nat)
    requires |mono| > 0 && rate > 0
    ensures Resampled(mono, 0, rate, rate) == mono && Carry(|mono| * rate, 0, rate) == 0
  {
    var out, carry := Resampled(mono, 0, rate, rate), Carry(|mono| * rate, 0, rate);
    CallConserves(mono, 0, rate, rate);
    CarryInRange(|mono| * rate, 0, rate);
    SameQuotient(|out|, 0, |mono|, carry, rate);
    forall k | 0 <= k < |mono|
      ensures out[k] == mono[k]
    {
      ResampledAt(mono, 0, rate, rate, k);
      SampleOnGrid(mono, k, rate);
    }
  }

  lemma SampleOnGrid(mono: seq<Sample>, k: nat, rate: nat)
    requires k < |mono| && rate > 0
    ensures k * rate >= 0 && SampleAt(mono, k * rate, rate) == mono[k]
  {
    QuotientIsUnique(k * rate, rate, k, 0);
  }

  /** Input position `e` is the end of one of the chunks. */
  predicate IsChunkEnd(chunks: seq<seq<Sample>>, e: int) {
    chunks != [] && (e == |chunks[0]| || IsChunkEnd(chunks[1..], e - |chunks[0]|))
  }

  /** The output at `phase` needs an input sample that the chunk does not have yet. */
  predicate HeldAt(chunks: seq<seq<Sample>>, phase: nat, outRate: nat)
    requires outRate > 0
  {
    phase % outRate != 0 && phase / outRate + 1 < |Flatten(chunks)| && IsChunkEnd(chunks, phase / outRate + 1)
  }

  /** What output `v` at position `phase` of a chunked stream is, compared with one-shot
      resampling of the whole input. */
  predicate Refines(v: Sample, chunks: seq<seq<Sample>>, phase: nat, outRate: nat)
    requires outRate > 0
  {
    var whole := Flatten(chunks);
    && phase / outRate < |whole|
    && v == if HeldAt(chunks, phase, outRate) then whole[phase / outRate] else SampleAt(whole, phase, outRate)
  }

  lemma ChunkEndsAfterFirst(chunks: seq<seq<Sample>>, e: int)
    requires NonEmpty(chunks) && chunks != [] && e < |chunks[0]|
    ensures !IsChunkEnd(chunks, e)
  {
    NoEarlyEnd(chunks[1..], e - |chunks[0]|);
  }

  lemma {:induction false} NoEarlyEnd(chunks: seq<seq<Sample>>, e: int)
    requires NonEmpty(chunks) && e <= 0
    ensures !IsChunkEnd(chunks, e)
  {
    if chunks != [] {
      NoEarlyEnd(chunks[1..], e - |chunks[0]|);
    }
  }

  /** Outputs of the first call. */
  lemma FirstCallRefines(chunks: seq<seq<Sample>>, phase: nat, outRate: nat)
    requires NonEmpty(chunks) && chunks != [] && outRate > 0 && phase < |chunks[0]| * outRate
    ensures Refines(SampleAt(chunks[0], phase, outRate), chunks, phase, outRate)
  {
    var a, whole := chunks[0], Flatten(chunks);
    var idx := phase / outRate;
    QuotientBelow(phase, |a|, outRate);
    assert whole[..|a|] == a;
    assert whole[idx] == a[idx];
    if idx + 1 < |a| {
      ChunkEndsAfterFirst(chunks, idx + 1);
      assert whole[idx + 1] == a[idx + 1];
    } else {
      assert IsChunkEnd(chunks, idx + 1);
    }
  }

  /** Outputs of later calls, seen from the whole stream. */
  lemma LaterCallRefines(chunks: seq<seq<Sample>>, v: Sample, phase: nat, outRate: nat)
    requires NonEmpty(chunks) && chunks != [] && outRate > 0 && Refines(v, chunks[1..], phase, outRate)
    ensures Refines(v, chunks, phase + |chunks[0]| * outRate, outRate)
  {
    var a, rest := chunks[0], chunks[1..];
    var whole, tail := Flatten(chunks), Flatten(rest);
    var idx := phase / outRate;
    DivModShift(phase, |a|, outRate);
    assert whole == a + tail;
    assert whole[idx + |a|] == tail[idx];
    if idx + 1 < |tail| {
      assert whole[idx + 1 + |a|] == tail[idx + 1];
    } else {
      assert whole[|whole| - 1] == tail[|tail| - 1];
    }
    assert IsChunkEnd(chunks, idx + 1 + |a|) == IsChunkEnd(rest, idx + 1);
  }

  /** Main result: the chunked stream refines one-shot resampling of the concatenated input.
      Output k equals the one-shot output at the same position, except when interpolation
      would need the first sample of the next chunk: then the last sample is held. */
  lemma {:induction false} StreamRefinesOneShot(chunks: seq<seq<Sample>>, phase: nat, inRate: nat, outRate: nat, k: nat)
    requires NonEmpty(chunks) && inRate > 0 && outRate > 0 && k < |Stream(chunks, phase, inRate, outRate)|
    ensures Refines(Stream(chunks, phase, inRate, outRate)[k], chunks, phase + k * inRate, outRate)
    decreases |chunks|
  {
    var a, rest := chunks[0], chunks[1..];
    var first := Resampled(a, phase, inRate, outRate);
    if k < |first| {
      ResampledAt(a, phase, inRate, outRate, k);
      FirstCallRefines(chunks, phase + k * inRate, outRate);
    } else {
      var carry := Carry(|a| * outRate, phase, inRate);
      var j := k - |first|;
      StreamRefinesOneShot(rest, carry, inRate, outRate, j);
      LaterCallRefines(chunks, Stream(rest, carry, inRate, outRate)[j], carry + j * inRate, outRate);
      CallConserves(a, phase, inRate, outRate);
      Distribute(|first|, j, inRate);
    }
  }

  /** Main result: a held output is off by at most the jump to the next input sample: the
      interpolated value it replaces lies between the two. */
  lemma HeldErrorIsBounded(chunks: seq<seq<Sample>>, phase: nat, outRate: nat)
    requires outRate > 0 && HeldAt(chunks, phase, outRate)
    ensures var whole: seq<Sample> := Flatten(chunks);
            var idx := phase / outRate;
            Between(SampleAt(whole, phase, outRate), whole[idx], whole[idx + 1])
  {
    var whole: seq<Sample> := Flatten(chunks);
    var idx := phase / outRate;
    InterpolationIsBetween(whole[idx], whole[idx + 1], phase % outRate, outRate);
  }

  /** Main result: fewer than ceil(outRate / inRate) outputs of a call follow a held one: the
      call's chunk ends at input sample `end`, and no later output lies before it. */
  lemma HeldOutputsAreLast(chunks: seq<seq<Sample>>, inRate: nat, outRate: nat, k: nat)
    requires inRate > 0 && outRate > 0 && HeldAt(chunks, k * inRate, outRate)
    ensures var end := k * inRate / outRate + 1;
            IsChunkEnd(chunks, end) && (k + CeilDiv(outRate, inRate)) * inRate > end * outRate
  {
    var idx, c := k * inRate / outRate, CeilDiv(outRate, inRate);
    DivMod(k * inRate, outRate);
    Distribute(k, c, inRate);
    Distribute(idx, 1, outRate);
    CeilDivBounds(outRate, inRate);
  }

  /** The comment's claim of one held output per call fails from 8000 to 24000 Hz: a one-sample
      chunk 0 followed by a chunk 3 holds two outputs that one-shot resampling interpolates. */
  lemma TwoHeldWhenRateTriples()
    ensures var chunks: seq<seq<Sample>> := [[0], [3]];
            && [0, 0, 0] <= Stream(chunks, 0, 8000, 24000)
            && [0, 1, 2] <= Resampled(Flatten(chunks), 0, 8000, 24000)
  {
    var chunks: seq<seq<Sample>> := [[0], [3]];
    assert Resampled([0], 16000, 8000, 24000) == [0];
    assert Resampled([0], 8000, 8000, 24000) == [0, 0];
    assert Resampled([0], 0, 8000, 24000) == [0, 0, 0];
    assert chunks[1..] == [[3]] && [[3 as Sample]][1..] == [];
    assert Flatten(chunks) == [0, 3];
    var r3 := Resampled([0, 3], 24000, 8000, 24000);
    assert Resampled([0, 3], 16000, 8000, 24000) == [2] + r3;
    assert Resampled([0, 3], 8000, 8000, 24000) == [1] + ([2] + r3);
    assert Resampled([0, 3], 0, 8000, 24000) == [0] + ([1] + ([2] + r3));
  }
}
