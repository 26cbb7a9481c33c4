/** How many outputs of one call are held, for all pairs of rates. */
module HeldOutputs {
  import opened Arithmetic
  import opened Pcm
  import opened Resampler

  // ---- Greatest common divisors ----

  function Gcd(a: nat, b: nat): (g: nat)
    requires a > 0 && b > 0
    ensures 0 < g <= a && g <= b
    decreases a + b
  {
    if a == b then a else if a > b then Gcd(a - b, b) else Gcd(a, b - a)
  }

  lemma {:induction false} GcdDivides(a: nat, b: nat) returns (p: nat, q: nat)
    requires a > 0 && b > 0
    ensures a == p * Gcd(a, b) && b == q * Gcd(a, b)
    decreases a + b
  {
    if a == b {
      p, q := 1, 1;
    } else if a > b {
      var d;
      d, q := GcdDivides(a - b, b);
      p := d + q;
      Distribute(d, q, Gcd(a, b));
    } else {
      var d;
      p, d := GcdDivides(a, b - a);
      q := p + d;
      Distribute(p, d, Gcd(a, b));
    }
  }

  /** The gcd is reached by multiples of `a`, up to multiples of `b`. */
  lemma {:induction false} Bezout(a: nat, b: nat) returns (x: nat, y: nat)
    requires a > 0 && b > 0
    ensures x * a == y * b + Gcd(a, b)
    decreases a + b
  {
    if a == b {
      x, y := 1, 0;
    } else if a > b {
      var z;
      x, z := Bezout(a - b, b);
      y := x + z;
      Distribute(x, z, b);
      DistributeRight(x, a - b, b);
    } else {
      var z;
      z, y := Bezout(a, b - a);
      x := z + y;
      Distribute(z, y, a);
      DistributeRight(y, b - a, a);
    }
  }

  lemma DistributeRight(a: int, b: int, c: int)
    ensures a * (b + c) == a * b + a * c
  {
  }

  // ---- Held outputs of one call ----

  /** The call that consumes input sample `idx`, and with it produces the outputs that lie between
      this sample and the next. */
  function CallOf(chunks: seq<seq<Sample>>, idx: nat): nat
    requires idx < |Flatten(chunks)|
  {
    if idx < |chunks[0]| then 0 else 1 + CallOf(chunks[1..], idx - |chunks[0]|)
  }

  /** The input samples of the calls up to the `c`-th. */
  function Consumed(chunks: seq<seq<Sample>>, c: nat): nat {
    if chunks == [] then 0 else |chunks[0]| + if c == 0 then 0 else Consumed(chunks[1..], c - 1)
  }

  /** However a stream is split, no two held outputs come from one call. */
  ghost predicate OneHeldPerCall(inRate: nat, outRate: nat)
    requires outRate > 0
  {
    forall chunks: seq<seq<Sample>>, j: nat, k: nat ::
      NonEmpty(chunks) && j < k ==> !HeldInOneCall(chunks, j * inRate, k * inRate, outRate)
  }

  /** The outputs at two positions of a stream are held, and come from the same call. */
  predicate HeldInOneCall(chunks: seq<seq<Sample>>, p: nat, q: nat, outRate: nat)
    requires outRate > 0
  {
    && HeldAt(chunks, p, outRate) && HeldAt(chunks, q, outRate)
    && CallOf(chunks, p / outRate) == CallOf(chunks, q / outRate)
  }

  /** A chunk end is where the call that consumes the sample before it ends. */
  lemma {:induction false} EndOfCall(chunks: seq<seq<Sample>>, idx: nat)
    requires NonEmpty(chunks) && idx < |Flatten(chunks)| && IsChunkEnd(chunks, idx + 1)
    ensures Consumed(chunks, CallOf(chunks, idx)) == idx + 1
  {
    if idx >= |chunks[0]| {
      EndOfCall(chunks[1..], idx - |chunks[0]|);
    } else if idx + 1 != |chunks[0]| {
      NoEndBefore(chunks[1..], idx + 1 - |chunks[0]|);
    }
  }

  lemma {:induction false} NoEndBefore(chunks: seq<seq<Sample>>, e: int)
    requires NonEmpty(chunks) && e <= 0
    ensures !IsChunkEnd(chunks, e)
  {
    if chunks != [] {
      NoEndBefore(chunks[1..], e - |chunks[0]|);
    }
  }

  /** Held outputs come from one call exactly if they wait for the same sample, the first of the
      next chunk. */
  lemma HeldTogether(chunks: seq<seq<Sample>>, p: nat, q: nat, outRate: nat)
    requires outRate > 0 && NonEmpty(chunks) && HeldAt(chunks, p, outRate) && HeldAt(chunks, q, outRate)
    ensures CallOf(chunks, p / outRate) == CallOf(chunks, q / outRate) <==> p / outRate == q / outRate
  {
    EndOfCall(chunks, p / outRate);
    EndOfCall(chunks, q / outRate);
  }

  /** Off the grid of input samples an output is at least the gcd past one. */
  lemma OffGridByGcd(j: nat, inRate: nat, outRate: nat)
    requires inRate > 0 && outRate > 0 && j * inRate % outRate != 0
    ensures j * inRate % outRate >= Gcd(inRate, outRate)
  {
    var g, idx := Gcd(inRate, outRate), j * inRate / outRate;
    var p, q := GcdDivides(inRate, outRate);
    DivMod(j * inRate, outRate);
    assert j * inRate == j * p * g && idx * outRate == idx * q * g by {
      Regroup(j, p, g);
      Regroup(idx, q, g);
    }
    var d := j * p - idx * q;
    assert j * inRate % outRate == d * g by {
      Distribute(d, idx * q, g);
    }
    if d < 1 {
      MulMonotone(0, 1 - d, g);
      Distribute(d, -d, g);
      NotPositive(d, g);
    } else {
      MulMonotone(1, d, g);
    }
  }

  lemma NotPositive(d: int, g: nat)
    requires d <= 0
    ensures d * g <= 0
  {
  }

  lemma Regroup(a: int, b: int, c: int)
    ensures a * (b * c) == a * b * c
  {
  }

  lemma OneHeldIfCloseRates(inRate: nat, outRate: nat)
    requires inRate > 0 && outRate > 0 && outRate <= inRate + Gcd(inRate, outRate)
    ensures OneHeldPerCall(inRate, outRate)
  {
    hide Gcd, HeldInOneCall;
    forall chunks: seq<seq<Sample>>, j: nat, k: nat | NonEmpty(chunks) && j < k
      ensures !HeldInOneCall(chunks, j * inRate, k * inRate, outRate)
    {
      LaterByRate(j, k, inRate);
      if j * inRate % outRate != 0 {
        OffGridByGcd(j, inRate, outRate);
      }
      FarHeldDiffer(chunks, j * inRate, k * inRate, inRate, outRate, Gcd(inRate, outRate));
    }
  }

  lemma FarHeldDiffer(chunks: seq<seq<Sample>>, p: nat, q: nat, step: nat, outRate: nat, g: nat)
    requires outRate > 0 && NonEmpty(chunks) && q >= p + step && step + g >= outRate
    requires p % outRate == 0 || p % outRate >= g
    ensures !HeldInOneCall(chunks, p, q, outRate)
  {
    hide CallOf, IsChunkEnd, Flatten;
    if HeldInOneCall(chunks, p, q, outRate) {
      HeldTogether(chunks, p, q, outRate);
      TooFarForOneIndex(p, q, step, outRate, g);
    }
  }

  lemma LaterByRate(j: nat, k: nat, inRate: nat)
    requires j < k
    ensures k * inRate >= j * inRate + inRate
  {
    MulMonotone(j + 1, k, inRate);
    Distribute(j, 1, inRate);
  }

  /** A position at least `g` past an input sample, and another one at least `step` later. */
  lemma TooFarForOneIndex(x: nat, y: nat, step: nat, outRate: nat, g: nat)
    requires outRate > 0 && x % outRate >= g && y >= x + step && step + g >= outRate
    ensures x / outRate != y / outRate
  {
    DivMod(x, outRate);
    DivMod(y, outRate);
  }

  /** A stream of two chunks, the second of one sample. */
  function TwoChunks(n: nat): seq<seq<Sample>> {
    [seq(n, i => 0), [0]]
  }

  lemma TwoChunksEnd(n: nat)
    requires n > 0
    ensures NonEmpty(TwoChunks(n)) && IsChunkEnd(TwoChunks(n), n) && |Flatten(TwoChunks(n))| == n + 1
  {
    var chunks := TwoChunks(n);
    var last: seq<seq<Sample>> := [[0]];
    assert chunks[1..] == last && |last[1..]| == 0;
    assert |Flatten(last)| == 1;
  }

  lemma TwoHeldIfFarRates(inRate: nat, outRate: nat)
    requires inRate > 0 && outRate > 0 && outRate > inRate + Gcd(inRate, outRate)
    ensures !OneHeldPerCall(inRate, outRate)
  {
    var j, idx := Bezout(inRate, outRate);
    var g := Gcd(inRate, outRate);
    QuotientIsUnique(j * inRate, outRate, idx, g);
    Distribute(j, 1, inRate);
    QuotientIsUnique((j + 1) * inRate, outRate, idx, g + inRate);
    var chunks := TwoChunks(idx + 1);
    TwoChunksEnd(idx + 1);
    assert HeldAt(chunks, j * inRate, outRate) && HeldAt(chunks, (j + 1) * inRate, outRate);
    assert HeldInOneCall(chunks, j * inRate, (j + 1) * inRate, outRate);
  }

  /** Main result: at most one output per call is held, for every split of every stream, if and
      only if the output rate exceeds the input rate by no more than their gcd. */
  lemma OneHeldIff(inRate: nat, outRate: nat)
    requires inRate > 0 && outRate > 0
    ensures OneHeldPerCall(inRate, outRate) <==> outRate <= inRate + Gcd(inRate, outRate)
  {
    if outRate <= inRate + Gcd(inRate, outRate) {
      OneHeldIfCloseRates(inRate, outRate);
    } else {
      TwoHeldIfFarRates(inRate, outRate);
    }
  }

  /** So it is for every rate that does not grow, or that doubles. */
  lemma OneHeldWhenRateDoesNotGrowOrDoubles(inRate: nat, outRate: nat)
    requires inRate > 0 && outRate > 0 && (outRate <= inRate || outRate == 2 * inRate)
    ensures OneHeldPerCall(inRate, outRate)
  {
    OneHeldIff(inRate, outRate);
    if outRate == 2 * inRate {
      assert Gcd(inRate, outRate) == Gcd(inRate, inRate);
    }
  }
}
