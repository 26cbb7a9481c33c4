/** The reconnect loop of one AI stream: a bounded number of send/receive pairs with a backoff
    between them that doubles up to thirty seconds. Durations are in nanoseconds. */
module Reconnect {

  const SECOND := 1_000_000_000
  const MAX_BACKOFF := 30 * SECOND

  /** What happens around one pair: its context or the stream's ends, it fails, the context ends
      during the backoff, the next dial works. */
  datatype Attempt = Attempt(cancelled: bool, failed: bool, cancelledInBackoff: bool, dial: bool)

  /** The pair leads to another one, if retries are left. */
  predicate Reconnects(a: Attempt) {
    a.failed && !a.cancelled && !a.cancelledInBackoff && a.dial
  }

  function FirstBackoff(configured: int): int {
    if configured == 0 then SECOND else configured
  }

  function Pow2(n: nat): nat {
    if n == 0 then 1 else 2 * Pow2(n - 1)
  }

  function Capped(d: int): int {
    if d > MAX_BACKOFF then MAX_BACKOFF else d
  }

  /** The wait before reconnect `i`: doubled each time and capped, except that the first wait is
      taken as configured. */
  function Backoff(configured: int, i: nat): int {
    var first := FirstBackoff(configured);
    if i == 0 then first else Capped(first * Pow2(i))
  }

  lemma DoublingKeepsCap(configured: int, i: nat)
    ensures Capped(2 * Backoff(configured, i)) == Backoff(configured, i + 1)
  {
    var first := FirstBackoff(configured);
    assert first * Pow2(i + 1) == 2 * (first * Pow2(i));
  }

  /** The default waits: 1, 2, 4, 8, 16 and then 30 seconds. */
  lemma DefaultBackoffs(i: nat)
    ensures i < 5 ==> Backoff(0, i) == [1, 2, 4, 8, 16][i] * 1_000_000_000
    ensures i >= 5 ==> Backoff(0, i) == 30_000_000_000
  {
    assert Pow2(1) == 2 && Pow2(2) == 4 && Pow2(3) == 8 && Pow2(4) == 16 && Pow2(5) == 32;
    if i >= 5 {
      Pow2Grows(5, i);
    }
  }

  lemma {:induction false} Pow2Grows(a: nat, b: nat)
    requires a <= b
    ensures Pow2(a) <= Pow2(b)
  {
    if a < b {
      Pow2Grows(a, b - 1);
    }
  }

  /** At most maxRetries reconnects: `pairs` pairs ran, all but the last led to another one, and
      the loop ended for exactly one of the reasons it may. `waits` are the backoffs slept. */
  method RunWithReconnect(maxRetries: int, configured: int, world: nat -> Attempt)
    returns (pairs: nat, retries: nat, waits: seq<int>)
    ensures pairs >= 1
    ensures retries <= if maxRetries > 0 then maxRetries else 0
    ensures forall j: nat :: j < pairs - 1 ==>
              world(j).failed && world(j).dial && !world(j).cancelled && !world(j).cancelledInBackoff
    ensures var last := world(pairs - 1);
            if last.failed && !last.cancelled && pairs <= maxRetries
            then retries == pairs && (last.cancelledInBackoff || !last.dial)
            else retries == pairs - 1
    ensures |waits| == retries && forall i: nat :: i < |waits| ==> waits[i] == Backoff(configured, i)
    ensures waits != [] ==> waits[0] == if configured == 0 then 1_000_000_000 else configured
    ensures forall i: nat :: 0 < i < |waits| ==>
              waits[i] == if 2 * waits[i - 1] <= 30_000_000_000 then 2 * waits[i - 1] else 30_000_000_000
  {
    var backoff := configured;
    if backoff == 0 {
      backoff := SECOND;
    }
    pairs, retries, waits := 0, 0, [];
    while true
      invariant pairs == retries == |waits|
      invariant retries <= if maxRetries > 0 then maxRetries else 0
      invariant backoff == Backoff(configured, retries)
      invariant forall j: nat :: j < pairs ==> Reconnects(world(j))
      invariant forall i: nat :: i < |waits| ==> waits[i] == Backoff(configured, i)
      invariant waits != [] ==> waits[0] == if configured == 0 then 1_000_000_000 else configured
      invariant forall i: nat :: 0 < i < |waits| ==>
                  waits[i] == if 2 * waits[i - 1] <= 30_000_000_000 then 2 * waits[i - 1] else 30_000_000_000
      decreases maxRetries - retries
    {
      var a := world(pairs);
      pairs := pairs + 1;
      if a.cancelled {
        return;
      }
      if !a.failed || maxRetries == 0 {
        return;
      }
      if retries >= maxRetries {
        return;
      }
      if retries > 0 {
        DoublingKeepsCap(configured, retries - 1);
      }
      waits := waits + [backoff];
      retries := retries + 1;
      if a.cancelledInBackoff {
        return;
      }
      DoublingKeepsCap(configured, retries - 1);
      backoff := 2 * backoff;
      if backoff > MAX_BACKOFF {
        backoff := MAX_BACKOFF;
      }
      if !a.dial {
        return;
      }
    }
  }
}
