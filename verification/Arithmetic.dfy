/** Facts about products and quotients of natural numbers. */
module Arithmetic {

  lemma MulMonotone(a: nat, b: nat, c: nat)
    requires a <= b
    ensures a * c <= b * c
  {
    assert b * c == a * c + (b - a) * c;
  }

  lemma CancelLess(a: nat, b: nat, c: nat)
    requires a * c < b * c
    ensures a < b
  {
    if b <= a {
      MulMonotone(b, a, c);
    }
  }

  lemma Distribute(a: int, b: int, c: int)
    ensures (a + b) * c == a * c + b * c
  {
  }

  lemma DivMod(a: nat, b: nat)
    requires b > 0
    ensures a == a / b * b + a % b && 0 <= a % b < b
  {
  }

  lemma DivBounds(a: nat, b: nat)
    requires b > 0
    ensures a / b * b <= a < (a / b + 1) * b
    ensures a == a / b * b + a % b
  {
    DivMod(a, b);
    Distribute(a / b, 1, b);
  }

  /** At most one quotient fits. */
  lemma SameQuotient(q: nat, r: nat, p: nat, s: nat, b: nat)
    requires r < b && s < b && q * b + r == p * b + s
    ensures q == p && r == s
  {
    Distribute(q, 1, b);
    Distribute(p, 1, b);
    CancelLess(q, p + 1, b);
    CancelLess(p, q + 1, b);
  }

  lemma QuotientIsUnique(a: nat, b: nat, q: nat, r: nat)
    requires b > 0 && a == q * b + r && r < b
    ensures a / b == q && a % b == r
  {
    DivMod(a, b);
    SameQuotient(a / b, a % b, q, r, b);
  }

  lemma DivModShift(a: nat, m: nat, b: nat)
    requires b > 0
    ensures (a + m * b) / b == a / b + m
    ensures (a + m * b) % b == a % b
  {
    var q, r := a / b, a % b;
    assert r < b && (q + m) * b + r == a + m * b by {
      DivMod(a, b);
      Distribute(q, m, b);
    }
    QuotientIsUnique(a + m * b, b, q + m, r);
  }

  lemma QuotientBelow(a: nat, n: nat, b: nat)
    requires b > 0 && a < n * b
    ensures a / b < n
  {
    var q := a / b;
    assert q * b < n * b by {
      DivMod(a, b);
    }
    CancelLess(q, n, b);
  }

  function CeilDiv(a: nat, b: nat): nat
    requires b > 0
  {
    if a % b == 0 then a / b else a / b + 1
  }

  lemma CeilDivBounds(a: nat, b: nat)
    requires b > 0
    ensures a <= CeilDiv(a, b) * b < a + b
  {
    DivBounds(a, b);
    Distribute(a / b, 1, b);
  }

  lemma CeilIsUnique(a: nat, b: nat, q: nat, r: nat)
    requires b > 0 && q * b == a + r && r < b
    ensures q == CeilDiv(a, b)
  {
    var c := CeilDiv(a, b);
    CeilDivBounds(a, b);
    Distribute(c, 1, b);
    Distribute(q, 1, b);
    CancelLess(q, c + 1, b);
    CancelLess(c, q + 1, b);
  }
}
