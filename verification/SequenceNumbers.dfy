/** RTP sequence numbers: 16-bit serial arithmetic with wrap-around
    (section 3.2 of RFC 1982, section 5.1 of RFC 3550). */
module SequenceNumbers {

  const MODULUS := 65536
  const HALF_RANGE := 32768

  type Seq16 = n: int | 0 <= n < 65536

  /** How far `a` lies in front of `b`, counted upwards around the circle. */
  function Ahead(a: Seq16, b: Seq16): (d: nat)
    ensures d < MODULUS
  {
    (a - b) % MODULUS
  }

  function Next(a: Seq16): Seq16 {
    (a + 1) % MODULUS
  }

  /** The number `k` steps after `a`. */
  function Plus(a: Seq16, k: nat): Seq16 {
    (a + k) % MODULUS
  }

  lemma PlusPlus(a: Seq16, j: nat, k: nat)
    ensures Plus(Plus(a, j), k) == Plus(a, j + k)
  {
  }

  /** The signed displacement that leads from `b` to `a`: the 16-bit difference
      read as a two's complement number. */
  function SeqDiff(a: Seq16, b: Seq16): (d: int)
    ensures -HALF_RANGE <= d < HALF_RANGE
    ensures (b + d) % MODULUS == a
  {
    var u := Ahead(a, b);
    if u < HALF_RANGE then u else u - MODULUS
  }

  predicate SeqLess(a: Seq16, b: Seq16) {
    SeqDiff(a, b) < 0
  }

  /** SeqDiff is the only displacement in the signed 16-bit range. */
  lemma SeqDiffIsUnique(a: Seq16, b: Seq16, d: int)
    requires -HALF_RANGE <= d < HALF_RANGE && (b + d) % MODULUS == a
    ensures d == SeqDiff(a, b)
  {
  }

  /** Inside a half range that starts at `base`, the circular comparison is the
      comparison of the distances from `base`. */
  lemma OrderInsideHalfRange(a: Seq16, b: Seq16, base: Seq16)
    requires Ahead(a, base) < HALF_RANGE && Ahead(b, base) < HALF_RANGE
    ensures SeqDiff(a, b) == Ahead(a, base) - Ahead(b, base)
    ensures SeqLess(a, b) <==> Ahead(a, base) < Ahead(b, base)
  {
    var d := Ahead(a, base) - Ahead(b, base);
    assert (b + d) % MODULUS == a;
    SeqDiffIsUnique(a, b, d);
  }

  /** Two numbers half a circle apart are each less than the other. */
  lemma AntipodesAreMutuallyLess(a: Seq16)
    ensures SeqLess(a, Plus(a, HALF_RANGE)) && SeqLess(Plus(a, HALF_RANGE), a)
  {
  }

  predicate WithinHalfRange(s: set<Seq16>, base: Seq16) {
    forall x :: x in s ==> Ahead(x, base) < HALF_RANGE
  }

  ghost predicate HalfRange(s: set<Seq16>) {
    exists base: Seq16 :: WithinHalfRange(s, base)
  }

  /** SeqLess restricted to `s` is a strict total order. */
  predicate StrictOrderOn(s: set<Seq16>) {
    && (forall x, y :: x in s && y in s && SeqLess(x, y) ==> !SeqLess(y, x))
    && (forall x, y, z :: x in s && y in s && z in s && SeqLess(x, y) && SeqLess(y, z) ==> SeqLess(x, z))
  }

  predicate Least(s: set<Seq16>, m: Seq16) {
    m in s && forall x :: x in s && x != m ==> SeqLess(m, x)
  }

  /** A strict order on a finite non-empty set has a least element. */
  lemma {:induction false} LeastElement(s: set<Seq16>) returns (m: Seq16)
    requires s != {} && StrictOrderOn(s)
    ensures Least(s, m)
    decreases s
  {
    var a :| a in s;
    var rest := s - {a};
    if rest == {} {
      assert s == {a};
      m := a;
    } else {
      SubsetIsOrdered(s, rest);
      var r := LeastElement(rest);
      m := LesserIsLeast(s, a, r);
    }
  }

  lemma SubsetIsOrdered(s: set<Seq16>, t: set<Seq16>)
    requires StrictOrderOn(s) && t <= s
    ensures StrictOrderOn(t)
  {
  }

  lemma LesserIsLeast(s: set<Seq16>, a: Seq16, r: Seq16) returns (m: Seq16)
    requires StrictOrderOn(s) && a in s && Least(s - {a}, r)
    ensures Least(s, m)
  {
    m := if SeqLess(a, r) then a else r;
    assert SeqLess(a, r) || SeqLess(r, a);
    forall x | x in s && x != m
      ensures SeqLess(m, x)
    {
      assert x == a || x == r || (x in s - {a} && SeqLess(r, x));
    }
  }

  /** The comparison the heap relies on is an order exactly on the sets of numbers
      that fit in one half range. */
  lemma OrderIffHalfRange(s: set<Seq16>)
    ensures StrictOrderOn(s) <==> HalfRange(s)
  {
    if HalfRange(s) {
      var base: Seq16 :| WithinHalfRange(s, base);
      forall x, y | x in s && y in s
        ensures SeqLess(x, y) <==> Ahead(x, base) < Ahead(y, base)
      {
        OrderInsideHalfRange(x, y, base);
      }
    }
    if StrictOrderOn(s) && s != {} {
      var m := LeastElement(s);
      forall x | x in s
        ensures Ahead(x, m) < HALF_RANGE
      {
        if x != m {
          assert SeqLess(m, x) && !SeqLess(x, m);
        }
      }
      assert WithinHalfRange(s, m);
    }
    if s == {} {
      assert WithinHalfRange(s, 0);
    }
  }
}
