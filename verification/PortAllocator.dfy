/** The pool of UDP ports for per-session RTP listeners: a free list used as a stack. */
module PortAllocator {
  import opened Basics

  /** The ports lo, lo+1, ..., hi. */
  function PortRange(lo: int, hi: int): seq<int>
    decreases hi - lo
  {
    if hi < lo then [] else PortRange(lo, hi - 1) + [hi]
  }

  /** How often `p` occurs in `ports`. */
  function Count(ports: seq<int>, p: int): nat {
    if ports == [] then 0 else Count(ports[..|ports| - 1], p) + One(ports[|ports| - 1] == p)
  }

  /** The initial free list holds every port of the range once. */
  lemma {:induction false} RangeHoldsEachPortOnce(lo: int, hi: int, p: int)
    ensures Count(PortRange(lo, hi), p) == One(lo <= p <= hi)
    decreases hi - lo
  {
    if lo <= hi {
      RangeHoldsEachPortOnce(lo, hi - 1, p);
      assert PortRange(lo, hi)[..|PortRange(lo, hi)| - 1] == PortRange(lo, hi - 1);
    }
  }

  lemma CountAppend(ports: seq<int>, q: int, p: int)
    ensures Count(ports + [q], p) == Count(ports, p) + One(q == p)
  {
    assert (ports + [q])[..|ports|] == ports;
  }

  class Allocator {
    var free: seq<int>
    const total: nat

    constructor (lo: int, hi: int)
      requires 0 < lo <= hi
      ensures free == PortRange(lo, hi) && total == |free|
    {
      var all := Ports(lo, hi);
      free := all;
      total := |all|;
    }

    static method Ports(lo: int, hi: int) returns (all: seq<int>)
      ensures all == PortRange(lo, hi)
    {
      all := [];
      var p := lo;
      while p <= hi
        invariant lo <= p <= (if lo <= hi then hi + 1 else lo)
        invariant all == PortRange(lo, p - 1)
      {
        all := all + [p];
        p := p + 1;
      }
      assert p == hi + 1 || (hi < lo && PortRange(lo, hi) == []);
    }

    /** Fails exactly on a range that is empty or not positive. */
    static method New(lo: int, hi: int) returns (a: Allocator?)
      ensures a == null <==> lo <= 0 || hi < lo
      ensures a != null ==> fresh(a) && a.free == PortRange(lo, hi)
    {
      if lo <= 0 || hi < lo {
        return null;
      }
      a := new Allocator(lo, hi);
    }

    /** Takes the port released last; fails exactly when none is free. */
    method Acquire() returns (port: Option<int>)
      modifies this
      ensures old(free) == [] ==> port == None && free == []
      ensures old(free) != [] ==> port.Some? && old(free) == free + [port.value]
    {
      if |free| == 0 {
        return None;
      }
      var n := |free| - 1;
      port := Some(free[n]);
      free := free[..n];
    }

    /** The port is free once more often than before, and comes out next; there is no guard, so
        releasing a free port doubles it. */
    method Release(port: int)
      modifies this
      ensures free == old(free) + [port]
      ensures forall p :: Count(free, p) == Count(old(free), p) + One(p == port)
    {
      forall p
        ensures Count(free + [port], p) == Count(free, p) + One(p == port)
      {
        CountAppend(free, port, p);
      }
      free := free + [port];
    }
  }
}
