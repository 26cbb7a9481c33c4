/** The binary min-heap of buffered packets, ordered by wrap-around comparison. */
module PacketHeap {
  import opened SequenceNumbers

  datatype Packet = Packet(sequence: Seq16, timestamp: nat, receivedAtMs: int, payload: seq<int>)

  datatype Entry = Entry(pkt: Packet, arrivedAt: int)

  predicate Less(h: seq<Entry>, i: nat, j: nat)
    requires i < |h| && j < |h|
  {
    SeqLess(h[i].pkt.sequence, h[j].pkt.sequence)
  }

  function Swap(h: seq<Entry>, i: nat, j: nat): (r: seq<Entry>)
    requires i < |h| && j < |h|
    ensures |r| == |h|
  {
    h[i := h[j]][j := h[i]]
  }

  function Parent(i: int): int
    requires i > 0
  {
    (i - 1) / 2
  }

  // ---- What sift-up and sift-down compute ----

  function Up(h: seq<Entry>, j: nat): (r: seq<Entry>)
    requires j < |h|
    ensures |r| == |h|
    decreases j
  {
    if j == 0 || !Less(h, j, Parent(j)) then h else Up(Swap(h, Parent(j), j), Parent(j))
  }

  /** The smaller child of `i` among the first `n` entries. */
  function Child(h: seq<Entry>, i: nat, n: nat): (j: nat)
    requires n <= |h| && 2 * i + 1 < n
    ensures i < j < n && Parent(j) == i
  {
    var j1 := 2 * i + 1;
    if j1 + 1 < n && Less(h, j1 + 1, j1) then j1 + 1 else j1
  }

  function Down(h: seq<Entry>, i: nat, n: nat): (r: seq<Entry>)
    requires n <= |h|
    ensures |r| == |h|
    decreases n - i
  {
    if 2 * i + 1 >= n || !Less(h, Child(h, i, n), i) then h
    else Down(Swap(h, i, Child(h, i, n)), Child(h, i, n), n)
  }

  function Pushed(h: seq<Entry>, e: Entry): (r: seq<Entry>)
    ensures |r| == |h| + 1
  {
    Up(h + [e], |h|)
  }

  function Popped(h: seq<Entry>): (r: seq<Entry>)
    requires |h| > 0
    ensures |r| == |h| - 1
  {
    var n := |h| - 1;
    Down(Swap(h, 0, n), 0, n)[..n]
  }

  // ---- The heap itself, changed in place ----

  class Heap {
    var entries: seq<Entry>

    constructor ()
      ensures entries == []
    {
      entries := [];
    }

    method SiftUp(start: nat)
      requires start < |entries|
      modifies this
      ensures entries == Up(old(entries), start)
    {
      var j := start;
      while j > 0 && Less(entries, j, (j - 1) / 2)
        invariant 0 <= j < |entries|
        invariant Up(entries, j) == Up(old(entries), start)
      {
        var i := (j - 1) / 2;
        entries := Swap(entries, i, j);
        j := i;
      }
    }

    method SiftDown(start: nat, n: nat)
      requires n <= |entries|
      modifies this
      ensures entries == Down(old(entries), start, n)
    {
      var i := start;
      while true
        invariant n <= |entries|
        invariant Down(entries, i, n) == Down(old(entries), start, n)
        decreases n - i
      {
        var j1 := 2 * i + 1;
        if j1 >= n {
          break;
        }
        var j := j1;
        var j2 := j1 + 1;
        if j2 < n && Less(entries, j2, j1) {
          j := j2;
        }
        if !Less(entries, j, i) {
          break;
        }
        entries := Swap(entries, i, j);
        i := j;
      }
    }

    method Push(e: Entry)
      modifies this
      ensures entries == Pushed(old(entries), e)
    {
      entries := entries + [e];
      SiftUp(|entries| - 1);
    }

    method Pop() returns (e: Entry)
      requires |entries| > 0
      modifies this
      ensures entries == Popped(old(entries))
      ensures e == old(entries)[0]
    {
      var n := |entries| - 1;
      entries := Swap(entries, 0, n);
      DownLeavesTail(entries, 0, n);
      SiftDown(0, n);
      e := entries[n];
      entries := entries[..n];
    }
  }

  // ---- Contents ----

  lemma SwapKeepsContents(h: seq<Entry>, i: nat, j: nat)
    requires i < |h| && j < |h|
    ensures multiset(Swap(h, i, j)) == multiset(h)
  {
  }

  lemma {:induction false} UpKeepsContents(h: seq<Entry>, j: nat)
    requires j < |h|
    ensures multiset(Up(h, j)) == multiset(h)
    decreases j
  {
    if j > 0 && Less(h, j, Parent(j)) {
      SwapKeepsContents(h, Parent(j), j);
      UpKeepsContents(Swap(h, Parent(j), j), Parent(j));
    }
  }

  lemma {:induction false} DownKeepsContents(h: seq<Entry>, i: nat, n: nat)
    requires n <= |h|
    ensures multiset(Down(h, i, n)) == multiset(h)
    decreases n - i
  {
    if 2 * i + 1 < n && Less(h, Child(h, i, n), i) {
      SwapKeepsContents(h, i, Child(h, i, n));
      DownKeepsContents(Swap(h, i, Child(h, i, n)), Child(h, i, n), n);
    }
  }

  lemma {:induction false} DownLeavesTail(h: seq<Entry>, i: nat, n: nat)
    requires n <= |h|
    ensures Down(h, i, n)[n..] == h[n..]
    decreases n - i
  {
    if 2 * i + 1 < n && Less(h, Child(h, i, n), i) {
      DownLeavesTail(Swap(h, i, Child(h, i, n)), Child(h, i, n), n);
    }
  }

  lemma PushedContents(h: seq<Entry>, e: Entry)
    ensures multiset(Pushed(h, e)) == multiset(h) + multiset{e}
  {
    UpKeepsContents(h + [e], |h|);
  }

  lemma PoppedContents(h: seq<Entry>)
    requires |h| > 0
    ensures multiset(h) == multiset(Popped(h)) + multiset{h[0]}
  {
    var n := |h| - 1;
    var s := Swap(h, 0, n);
    var d := Down(s, 0, n);
    SwapKeepsContents(h, 0, n);
    DownKeepsContents(s, 0, n);
    DownLeavesTail(s, 0, n);
    assert d[n] == d[n..][0] == s[n..][0] == h[0];
    assert d == d[..n] + [d[n]];
  }

  // ---- Order ----

  function Key(e: Entry, base: Seq16): nat {
    Ahead(e.pkt.sequence, base)
  }

  /** Every entry lies less than half a circle in front of `base`. */
  predicate InWindow(h: seq<Entry>, base: Seq16) {
    forall i :: 0 <= i < |h| ==> Key(h[i], base) < HALF_RANGE
  }

  /** The first `n` entries form a heap: no entry is less than its parent. */
  predicate Ordered(h: seq<Entry>, n: nat)
    requires n <= |h|
  {
    forall i :: 0 < i < n ==> !Less(h, i, Parent(i))
  }

  lemma LessIsByKey(h: seq<Entry>, base: Seq16)
    requires InWindow(h, base)
    ensures forall i, j :: 0 <= i < |h| && 0 <= j < |h| ==> (Less(h, i, j) <==> Key(h[i], base) < Key(h[j], base))
  {
    forall i, j | 0 <= i < |h| && 0 <= j < |h|
      ensures Less(h, i, j) <==> Key(h[i], base) < Key(h[j], base)
    {
      OrderInsideHalfRange(h[i].pkt.sequence, h[j].pkt.sequence, base);
    }
  }

  /** Ordered by key everywhere except between `j` and its parent. */
  predicate OrderedAbove(h: seq<Entry>, j: nat, base: Seq16)
    requires j < |h|
  {
    && (forall i :: 0 < i < |h| && i != j ==> Key(h[Parent(i)], base) <= Key(h[i], base))
    && (j > 0 ==> forall i :: 0 < i < |h| && Parent(i) == j ==> Key(h[Parent(j)], base) <= Key(h[i], base))
  }

  /** The first `n` entries are ordered by key except between `i` and its children. */
  predicate OrderedBelow(h: seq<Entry>, i: nat, n: nat, base: Seq16)
    requires n <= |h|
  {
    && (forall k :: 0 < k < n && Parent(k) != i ==> Key(h[Parent(k)], base) <= Key(h[k], base))
    && (0 < i < n ==> forall k :: 0 < k < n && Parent(k) == i ==> Key(h[Parent(i)], base) <= Key(h[k], base))
  }

  lemma UpStep(h: seq<Entry>, j: nat, base: Seq16)
    requires 0 < j < |h| && InWindow(h, base) && OrderedAbove(h, j, base)
    requires Key(h[j], base) < Key(h[Parent(j)], base)
    ensures var s := Swap(h, Parent(j), j); InWindow(s, base) && OrderedAbove(s, Parent(j), base)
  {
    var p := Parent(j);
    var s := Swap(h, p, j);
    forall i | 0 < i < |h| && i != p
      ensures Key(s[Parent(i)], base) <= Key(s[i], base)
    {
      if i != j {
        assert Key(h[Parent(i)], base) <= Key(h[i], base);
      }
    }
    if p > 0 {
      assert Key(h[Parent(p)], base) <= Key(h[p], base);
      forall i | 0 < i < |h| && Parent(i) == p
        ensures Key(s[Parent(p)], base) <= Key(s[i], base)
      {
        assert i != j ==> Key(h[p], base) <= Key(h[i], base);
      }
    }
  }

  lemma {:induction false} UpOrders(h: seq<Entry>, j: nat, base: Seq16)
    requires j < |h| && InWindow(h, base) && OrderedAbove(h, j, base)
    ensures InWindow(Up(h, j), base) && Ordered(Up(h, j), |h|)
    decreases j
  {
    LessIsByKey(h, base);
    if j > 0 && Less(h, j, Parent(j)) {
      UpStep(h, j, base);
      UpOrders(Swap(h, Parent(j), j), Parent(j), base);
    }
  }

  lemma DownStep(h: seq<Entry>, i: nat, j: nat, n: nat, base: Seq16)
    requires n <= |h| && 0 < j < n && Parent(j) == i && InWindow(h, base) && OrderedBelow(h, i, n, base)
    requires Key(h[j], base) < Key(h[i], base)
    requires forall k :: 0 < k < n && Parent(k) == i ==> Key(h[j], base) <= Key(h[k], base)
    ensures var s := Swap(h, i, j); InWindow(s, base) && OrderedBelow(s, j, n, base)
  {
    var s := Swap(h, i, j);
    forall k | 0 < k < n && Parent(k) != j
      ensures Key(s[Parent(k)], base) <= Key(s[k], base)
    {
      if Parent(k) != i {
        assert Key(h[Parent(k)], base) <= Key(h[k], base);
      }
    }
    forall k | 0 < k < n && Parent(k) == j
      ensures Key(s[Parent(j)], base) <= Key(s[k], base)
    {
      assert Key(h[Parent(k)], base) <= Key(h[k], base);
    }
  }

  lemma ChildIsLeast(h: seq<Entry>, i: nat, n: nat, base: Seq16)
    requires n <= |h| && 2 * i + 1 < n && InWindow(h, base)
    ensures forall k :: 0 < k < n && Parent(k) == i ==> Key(h[Child(h, i, n)], base) <= Key(h[k], base)
    ensures Less(h, Child(h, i, n), i) <==> Key(h[Child(h, i, n)], base) < Key(h[i], base)
  {
    LessIsByKey(h, base);
    forall k | 0 < k < n && Parent(k) == i
      ensures Key(h[Child(h, i, n)], base) <= Key(h[k], base)
    {
      assert k == 2 * i + 1 || k == 2 * i + 2;
    }
  }

  lemma OrderedByKeys(h: seq<Entry>, n: nat, base: Seq16)
    requires n <= |h| && InWindow(h, base)
    requires forall k :: 0 < k < n ==> Key(h[Parent(k)], base) <= Key(h[k], base)
    ensures Ordered(h, n)
  {
    LessIsByKey(h, base);
  }

  lemma {:induction false} DownOrders(h: seq<Entry>, i: nat, n: nat, base: Seq16)
    requires n <= |h| && InWindow(h, base) && OrderedBelow(h, i, n, base)
    ensures InWindow(Down(h, i, n), base) && Ordered(Down(h, i, n), n)
    decreases n - i
  {
    if 2 * i + 1 >= n {
      OrderedByKeys(h, n, base);
    } else {
      var j := Child(h, i, n);
      ChildIsLeast(h, i, n, base);
      if Less(h, j, i) {
        DownStep(h, i, j, n, base);
        DownOrders(Swap(h, i, j), j, n, base);
      } else {
        OrderedByKeys(h, n, base);
      }
    }
  }

  lemma PushKeepsOrder(h: seq<Entry>, e: Entry, base: Seq16)
    requires Ordered(h, |h|) && InWindow(h + [e], base)
    ensures Ordered(Pushed(h, e), |h| + 1) && InWindow(Pushed(h, e), base)
  {
    var g := h + [e];
    LessIsByKey(g, base);
    forall i | 0 < i < |h|
      ensures Key(g[Parent(i)], base) <= Key(g[i], base)
    {
      assert !Less(h, i, Parent(i));
      assert !Less(g, i, Parent(i));
    }
    UpOrders(g, |h|, base);
  }

  lemma PopKeepsOrder(h: seq<Entry>, base: Seq16)
    requires |h| > 0 && Ordered(h, |h|) && InWindow(h, base)
    ensures Ordered(Popped(h), |h| - 1) && InWindow(Popped(h), base)
  {
    var n := |h| - 1;
    var s := Swap(h, 0, n);
    LessIsByKey(h, base);
    DownOrders(s, 0, n, base);
    assert forall i :: 0 < i < n ==> (Less(Popped(h), i, Parent(i)) <==> Less(Down(s, 0, n), i, Parent(i)));
  }

  /** The root is the wrap-around minimum. */
  lemma {:induction false} RootIsMinimum(h: seq<Entry>, base: Seq16, i: nat)
    requires i < |h| && Ordered(h, |h|) && InWindow(h, base)
    ensures Key(h[0], base) <= Key(h[i], base)
    decreases i
  {
    if i > 0 {
      LessIsByKey(h, base);
      assert !Less(h, i, Parent(i));
      RootIsMinimum(h, base, Parent(i));
    }
  }
}
