/** Order and conservation over whole runs of the jitter buffer. None of these results
    needs the half-range assumption. */
module JitterHistory {
  import opened Basics
  import opened SequenceNumbers
  import opened PacketHeap
  import opened JitterBuffer
  import opened JitterProperties

  // ---- Order ----

  function NumberOf(o: Outcome): Seq16 {
    match o
    case Lost(n, _) => n
    case Sent(p) => p.sequence
    case Overflow(p) => p.sequence
    case Stale(p) => p.sequence
  }

  function PassedBy(o: Outcome): seq<Seq16> {
    if o.Stale? then [] else [NumberOf(o)]
  }

  /** The numbers that nextExpected has moved past, in that order. */
  function Passed(out: seq<Outcome>): seq<Seq16> {
    if out == [] then [] else PassedBy(out[0]) + Passed(out[1..])
  }

  lemma JoinAtHead<T>(a: seq<T>, b: seq<T>)
    requires a != []
    ensures [a[0]] + a[1..] == a && [a[0]] + (a[1..] + b) == a + b
  {
  }

  lemma NothingPassed()
    ensures Passed([]) == []
  {
  }

  lemma PassedCons(o: Outcome, rest: seq<Outcome>)
    ensures Passed([o] + rest) == PassedBy(o) + Passed(rest)
  {
    assert ([o] + rest)[1..] == rest;
  }

  lemma {:induction false} PassedConcat(a: seq<Outcome>, b: seq<Outcome>)
    ensures Passed(a + b) == Passed(a) + Passed(b)
  {
    if a == [] {
      assert a + b == b;
    } else {
      PassedConcat(a[1..], b);
      PassedConcatStep(a, b);
    }
  }

  lemma PassedConcatStep(a: seq<Outcome>, b: seq<Outcome>)
    requires a != [] && Passed(a[1..] + b) == Passed(a[1..]) + Passed(b)
    ensures Passed(a + b) == Passed(a) + Passed(b)
  {
    hide PassedBy, Passed;
    PassedCons(a[0], a[1..]);
    PassedCons(a[0], a[1..] + b);
    JoinAtHead(a, b);
    var p, q, r := PassedBy(a[0]), Passed(a[1..]), Passed(b);
    assert p + (q + r) == (p + q) + r;
  }

  /** `ns` is the run of consecutive numbers that starts at `first`. */
  predicate Consecutive(ns: seq<Seq16>, first: Seq16) {
    forall i :: 0 <= i < |ns| ==> ns[i] == Plus(first, i)
  }

  lemma ConsecutiveJoin(a: seq<Seq16>, b: seq<Seq16>, first: Seq16)
    requires Consecutive(a, first) && Consecutive(b, Plus(first, |a|))
    ensures Consecutive(a + b, first)
  {
    forall i | 0 <= i < |a + b|
      ensures (a + b)[i] == Plus(first, i)
    {
      if i >= |a| {
        assert (a + b)[i] == b[i - |a|] == Plus(Plus(first, |a|), i - |a|);
      }
    }
  }

  lemma TurnPasses(cfg: Config, s: State, now: int, ok: bool)
    requires !Stops(s, now)
    ensures var (t, o) := Turn(cfg, s, now, ok);
            && Consecutive(PassedBy(o), s.nextExpected)
            && t.nextExpected == Plus(s.nextExpected, |PassedBy(o)|)
            && t.nextSet == s.nextSet
  {
  }

  lemma {:induction false} ReleasePassesConsecutive(cfg: Config, s: State, now: int, room: seq<bool>)
    ensures Consecutive(Passed(Release(cfg, s, now, room).1), s.nextExpected)
    ensures Release(cfg, s, now, room).0.nextExpected == Plus(s.nextExpected, |Passed(Release(cfg, s, now, room).1)|)
    decreases |s.h|, Gap(s)
  {
    hide Turn, Release, Passed, Stops;
    ReleaseUnfolds(cfg, s, now, room);
    if Stops(s, now) {
      NothingPassed();
    } else {
      var (t, o) := Turn(cfg, s, now, HasRoom(room));
      TurnPasses(cfg, s, now, HasRoom(room));
      var (u, rest) := Release(cfg, t, now, RoomAfter(s, room));
      ReleasePassesConsecutive(cfg, t, now, RoomAfter(s, room));
      PassedCons(o, rest);
      ConsecutiveJoin(PassedBy(o), Passed(rest), s.nextExpected);
      PlusPlus(s.nextExpected, |PassedBy(o)|, |Passed(rest)|);
    }
  }

  /** A flush that opens the buffer releases the root at once. */
  lemma OpeningPasses(cfg: Config, s: State, now: int, room: seq<bool>)
    requires |s.h| > 0 && s.h[0].pkt.sequence == s.nextExpected
    ensures |Passed(Release(cfg, s, now, room).1)| > 0
  {
    var (t, o) := Turn(cfg, s, now, HasRoom(room));
    PassedCons(o, Release(cfg, t, now, RoomAfter(s, room)).1);
  }

  lemma {:induction false} ReleaseKeepsNextSet(cfg: Config, s: State, now: int, room: seq<bool>)
    ensures Release(cfg, s, now, room).0.nextSet == s.nextSet
    decreases |s.h|, Gap(s)
  {
    if !Stops(s, now) {
      ReleaseKeepsNextSet(cfg, Turn(cfg, s, now, HasRoom(room)).0, now, RoomAfter(s, room));
    }
  }

  /** The log's numbers are consecutive and nextExpected is the one after them. */
  predicate InOrder(s: State, ns: seq<Seq16>) {
    && (s.nextSet <==> |ns| > 0)
    && (|ns| > 0 ==> Consecutive(ns, ns[0]) && s.nextExpected == Plus(ns[0], |ns|))
  }

  lemma ReleaseKeepsOrder(cfg: Config, s: State, now: int, room: seq<bool>, ns: seq<Seq16>)
    requires s.nextSet && (|ns| > 0 ==> Consecutive(ns, ns[0]) && s.nextExpected == Plus(ns[0], |ns|))
    requires |ns| == 0 ==> |s.h| > 0 && s.h[0].pkt.sequence == s.nextExpected
    ensures InOrder(Release(cfg, s, now, room).0, ns + Passed(Release(cfg, s, now, room).1))
  {
    var ps := Passed(Release(cfg, s, now, room).1);
    ReleasePassesConsecutive(cfg, s, now, room);
    ReleaseKeepsNextSet(cfg, s, now, room);
    if |ns| > 0 {
      ConsecutiveJoin(ns, ps, ns[0]);
      PlusPlus(ns[0], |ns|, |ps|);
    } else {
      OpeningPasses(cfg, s, now, room);
      assert ns + ps == ps;
    }
  }

  lemma FlushKeepsOrder(cfg: Config, s: State, now: int, room: seq<bool>, ns: seq<Seq16>)
    requires InOrder(s, ns)
    ensures InOrder(FlushStep(cfg, s, now, room).0, ns + Passed(FlushStep(cfg, s, now, room).1))
  {
    if Waiting(cfg, s, now) {
      assert ns + Passed([]) == ns;
    } else {
      ReleaseKeepsOrder(cfg, Opened(cfg, s, now), now, room, ns);
    }
  }

  /** Main result: over a whole run, the numbers released, dropped for a full output or
      declared lost are n, n+1, n+2, ... in this order, without gap or repeat, and
      nextExpected is always the next one. */
  lemma {:induction false} NumbersPassInOrder(cfg: Config, hs: History)
    ensures InOrder(Run(cfg, hs).0, Passed(Run(cfg, hs).1))
  {
    match hs
    case Begin =>
    case Then(past, e) =>
      NumbersPassInOrder(cfg, past);
      var (s, log) := Run(cfg, past);
      PassedConcat(log, Apply(cfg, s, e).1);
      match e
      case Arrive(_, _) =>
      case Tick(now, room) => FlushKeepsOrder(cfg, s, now, room, Passed(log));
  }

  /** The number of outcome `i` counted without wrap-around, relative to the first. */
  function Unwrapped(log: seq<Outcome>, i: nat): nat
    requires i <= |log|
  {
    |Passed(log[..i])|
  }

  lemma UnwrappedNumber(log: seq<Outcome>, i: nat)
    requires i < |log| && !log[i].Stale?
    ensures Unwrapped(log, i) < |Passed(log)| && Passed(log)[Unwrapped(log, i)] == NumberOf(log[i])
  {
    assert log == log[..i] + ([log[i]] + log[i + 1..]);
    PassedConcat(log[..i], [log[i]] + log[i + 1..]);
    PassedConcat([log[i]], log[i + 1..]);
    PassedCons(log[i], []);
  }

  lemma PlusDistance(first: Seq16, a: nat, b: nat)
    requires a < b
    ensures Plus(first, b) == Plus(Plus(first, a), b - a)
    ensures Plus(first, a) == Plus(first, b) ==> b - a >= MODULUS
  {
  }

  lemma UnwrappedIncreases(log: seq<Outcome>, i: nat, j: nat)
    requires i < j < |log| && !log[i].Stale?
    ensures Unwrapped(log, i) < Unwrapped(log, j)
  {
    hide Passed;
    assert log[..j] == log[..i] + ([log[i]] + log[i + 1..j]);
    PassedConcat(log[..i], [log[i]] + log[i + 1..j]);
    PassedCons(log[i], log[i + 1..j]);
  }

  /** Main result: unwrapped released numbers strictly increase, and a number can come
      back only a full cycle of 65536 later. */
  lemma ReleasesIncrease(cfg: Config, hs: History, i: nat, j: nat)
    requires var log := Run(cfg, hs).1; i < j < |log| && !log[i].Stale? && !log[j].Stale?
    ensures var log := Run(cfg, hs).1;
            && Unwrapped(log, i) < Unwrapped(log, j)
            && NumberOf(log[j]) == Plus(NumberOf(log[i]), Unwrapped(log, j) - Unwrapped(log, i))
            && (NumberOf(log[i]) == NumberOf(log[j]) ==> Unwrapped(log, j) - Unwrapped(log, i) >= MODULUS)
  {
    hide Run, Passed, Plus;
    var log := Run(cfg, hs).1;
    NumbersPassInOrder(cfg, hs);
    UnwrappedNumber(log, i);
    UnwrappedNumber(log, j);
    UnwrappedIncreases(log, i, j);
    PlusDistance(Passed(log)[0], Unwrapped(log, i), Unwrapped(log, j));
  }

  // ---- Conservation of counts ----

  datatype Tally = Tally(sent: nat, overflow: nat, stale: nat, lost: nat)

  function Sum(a: Tally, b: Tally): Tally {
    Tally(a.sent + b.sent, a.overflow + b.overflow, a.stale + b.stale, a.lost + b.lost)
  }

  function CountOne(o: Outcome): Tally {
    match o
    case Sent(_) => Tally(1, 0, 0, 0)
    case Overflow(_) => Tally(0, 1, 0, 0)
    case Stale(_) => Tally(0, 0, 1, 0)
    case Lost(_, _) => Tally(0, 0, 0, 1)
  }

  function Count(out: seq<Outcome>): Tally {
    if out == [] then Tally(0, 0, 0, 0) else Sum(CountOne(out[0]), Count(out[1..]))
  }

  lemma CountCons(o: Outcome, rest: seq<Outcome>)
    ensures Count([o] + rest) == Sum(CountOne(o), Count(rest))
  {
    assert ([o] + rest)[1..] == rest;
  }

  lemma {:induction false} CountConcat(a: seq<Outcome>, b: seq<Outcome>)
    ensures Count(a + b) == Sum(Count(a), Count(b))
  {
    if a == [] {
      assert a + b == b;
    } else {
      var tail := a[1..];
      assert a + b == [a[0]] + (tail + b);
      calc {
        Count(a + b);
        { CountCons(a[0], tail + b); }
        Sum(CountOne(a[0]), Count(tail + b));
        { CountConcat(tail, b); }
        Sum(CountOne(a[0]), Sum(Count(tail), Count(b)));
        Sum(Sum(CountOne(a[0]), Count(tail)), Count(b));
        Sum(Count(a), Count(b));
      }
    }
  }

  lemma {:induction false} CountPassed(out: seq<Outcome>)
    ensures var c := Count(out); |Passed(out)| == c.sent + c.overflow + c.lost
  {
    if out != [] {
      CountPassed(out[1..]);
    }
  }

  /** The counters moved from `s` to `t` by what the tally `c` says. */
  predicate Counted(s: State, t: State, c: Tally) {
    && t.released == s.released + c.sent
    && t.lost == s.lost + c.lost
    && t.dropped == s.dropped + c.overflow + c.stale
    && t.received == s.received
    && |s.h| == |t.h| + c.sent + c.overflow + c.stale
  }

  lemma TurnCounts(cfg: Config, s: State, now: int, ok: bool)
    requires !Stops(s, now)
    ensures var (t, o) := Turn(cfg, s, now, ok); Counted(s, t, CountOne(o))
  {
  }

  lemma {:induction false} ReleaseCounts(cfg: Config, s: State, now: int, room: seq<bool>)
    ensures Counted(s, Release(cfg, s, now, room).0, Count(Release(cfg, s, now, room).1))
    decreases |s.h|, Gap(s)
  {
    if !Stops(s, now) {
      var (t, o) := Turn(cfg, s, now, HasRoom(room));
      TurnCounts(cfg, s, now, HasRoom(room));
      TurnShrinks(cfg, s, now, HasRoom(room));
      ReleaseCounts(cfg, t, now, RoomAfter(s, room));
      CountCons(o, Release(cfg, t, now, RoomAfter(s, room)).1);
    }
  }

  /** The number of Push calls. */
  function Arrivals(hs: History): nat {
    match hs
    case Begin => 0
    case Then(past, e) => Arrivals(past) + if e.Arrive? then 1 else 0
  }

  /** The state's counters agree with the tally of the log and the number of Push calls. */
  predicate Balanced(s: State, c: Tally, arrivals: nat) {
    && arrivals == s.released + s.dropped + |s.h|
    && s.received == c.sent + c.overflow + c.stale + |s.h|
    && s.released == c.sent && s.lost == c.lost
  }

  lemma FlushKeepsBalance(cfg: Config, s: State, now: int, room: seq<bool>, c: Tally, arrivals: nat)
    requires Balanced(s, c, arrivals)
    ensures var (t, out) := FlushStep(cfg, s, now, room); Balanced(t, Sum(c, Count(out)), arrivals)
  {
    if !Waiting(cfg, s, now) {
      ReleaseCounts(cfg, Opened(cfg, s, now), now, room);
    }
  }

  lemma PushKeepsBalance(cfg: Config, s: State, pkt: Packet, now: int, c: Tally, arrivals: nat)
    requires Balanced(s, c, arrivals)
    ensures Balanced(PushStep(cfg, s, pkt, now).0, c, arrivals + 1)
  {
  }

  lemma ApplyKeepsBalance(cfg: Config, s: State, e: Event, c: Tally, arrivals: nat)
    requires Balanced(s, c, arrivals)
    ensures var (t, out) := Apply(cfg, s, e);
            Balanced(t, Sum(c, Count(out)), arrivals + if e.Arrive? then 1 else 0)
  {
    match e
    case Arrive(pkt, now) => PushKeepsBalance(cfg, s, pkt, now, c, arrivals);
    case Tick(now, room) => FlushKeepsBalance(cfg, s, now, room, c, arrivals);
  }

  lemma BalancedAtFirst()
    ensures Balanced(INITIAL, Count([]), 0)
  {
  }

  lemma {:induction false} RunIsBalanced(cfg: Config, hs: History)
    ensures Balanced(Run(cfg, hs).0, Count(Run(cfg, hs).1), Arrivals(hs))
  {
    hide Apply, Balanced, Count, Sum;
    match hs
    case Begin => BalancedAtFirst();
    case Then(past, e) =>
      RunIsBalanced(cfg, past);
      var (s, log) := Run(cfg, past);
      CountConcat(log, Apply(cfg, s, e).1);
      ApplyKeepsBalance(cfg, s, e, Count(log), Arrivals(past));
  }

  /** Main result: the counters account for everything. Every Push call is released,
      dropped or still buffered; releases, losses and full-output drops add up to the
      numbers passed by nextExpected. */
  lemma CountersAddUp(cfg: Config, hs: History)
    ensures var (s, log) := Run(cfg, hs);
            && Arrivals(hs) == s.released + s.dropped + |s.h|
            && s.released == Count(log).sent && s.lost == Count(log).lost
            && s.released + s.lost + Count(log).overflow == |Passed(log)|
  {
    RunIsBalanced(cfg, hs);
    CountPassed(Run(cfg, hs).1);
  }

  // ---- Conservation of packets ----

  /** How many copies of `p` are buffered. */
  function Buffered(h: seq<Entry>, p: Packet): nat {
    if h == [] then 0 else One(h[0].pkt == p) + Buffered(h[1..], p)
  }

  function ConsumedBy(o: Outcome, p: Packet): nat {
    One(!o.Lost? && o.pkt == p)
  }

  /** How many copies of `p` were sent, overflowed or discarded. */
  function Consumed(out: seq<Outcome>, p: Packet): nat {
    if out == [] then 0 else ConsumedBy(out[0], p) + Consumed(out[1..], p)
  }

  lemma ConsumedCons(o: Outcome, rest: seq<Outcome>, p: Packet)
    ensures Consumed([o] + rest, p) == ConsumedBy(o, p) + Consumed(rest, p)
  {
    assert ([o] + rest)[1..] == rest;
  }

  lemma {:induction false} ConsumedConcat(a: seq<Outcome>, b: seq<Outcome>, p: Packet)
    ensures Consumed(a + b, p) == Consumed(a, p) + Consumed(b, p)
  {
    if a == [] {
      assert a + b == b;
    } else {
      ConsumedConcat(a[1..], b, p);
      assert a + b == [a[0]] + (a[1..] + b);
      ConsumedCons(a[0], a[1..] + b, p);
    }
  }

  lemma {:induction false} BufferedConcat(a: seq<Entry>, b: seq<Entry>, p: Packet)
    ensures Buffered(a + b, p) == Buffered(a, p) + Buffered(b, p)
  {
    if a == [] {
      assert a + b == b;
    } else {
      BufferedConcat(a[1..], b, p);
      assert (a + b)[1..] == a[1..] + b;
    }
  }

  lemma BufferedAround(a: seq<Entry>, e: Entry, b: seq<Entry>, p: Packet)
    ensures Buffered(a + [e] + b, p) == Buffered(a + b, p) + One(e.pkt == p)
  {
    BufferedConcat(a + [e], b, p);
    BufferedConcat(a, [e], p);
    BufferedConcat(a, b, p);
    assert [e][1..] == [];
  }

  /** Removes one occurrence of `e`. */
  lemma RemoveOne(b: seq<Entry>, e: Entry) returns (rest: seq<Entry>)
    requires e in multiset(b)
    ensures multiset(rest) == multiset(b) - multiset{e}
    ensures forall p :: Buffered(b, p) == Buffered(rest, p) + One(e.pkt == p)
  {
    var i :| 0 <= i < |b| && b[i] == e;
    rest := b[..i] + b[i + 1..];
    assert b == b[..i] + [b[i]] + b[i + 1..];
    forall p
      ensures Buffered(b, p) == Buffered(rest, p) + One(e.pkt == p)
    {
      BufferedAround(b[..i], b[i], b[i + 1..], p);
    }
  }

  lemma {:induction false} SameEntriesSamePackets(a: seq<Entry>, b: seq<Entry>, p: Packet)
    requires multiset(a) == multiset(b)
    ensures Buffered(a, p) == Buffered(b, p)
  {
    if a == [] {
      assert |multiset(b)| == 0;
    } else {
      assert a[0] in multiset(a);
      var rest := RemoveOne(b, a[0]);
      assert a == [a[0]] + a[1..];
      SameEntriesSamePackets(a[1..], rest, p);
    }
  }

  lemma PoppedPackets(h: seq<Entry>, p: Packet)
    requires |h| > 0
    ensures Buffered(h, p) == Buffered(Popped(h), p) + One(h[0].pkt == p)
  {
    PoppedContents(h);
    SameEntriesSamePackets(h, Popped(h) + [h[0]], p);
    BufferedAround(Popped(h), h[0], [], p);
    assert Popped(h) + [h[0]] + [] == Popped(h) + [h[0]] && Popped(h) + [] == Popped(h);
  }

  lemma PushedPackets(h: seq<Entry>, e: Entry, p: Packet)
    ensures Buffered(Pushed(h, e), p) == Buffered(h, p) + One(e.pkt == p)
  {
    PushedContents(h, e);
    SameEntriesSamePackets(Pushed(h, e), h + [e], p);
    BufferedAround(h, e, [], p);
    assert h + [e] + [] == h + [e] && h + [] == h;
  }

  lemma TurnKeepsPackets(cfg: Config, s: State, now: int, ok: bool, p: Packet)
    requires !Stops(s, now)
    ensures var (t, o) := Turn(cfg, s, now, ok); Buffered(s.h, p) == Buffered(t.h, p) + ConsumedBy(o, p)
  {
    PoppedPackets(s.h, p);
  }

  lemma {:induction false} ReleaseKeepsPackets(cfg: Config, s: State, now: int, room: seq<bool>, p: Packet)
    ensures Buffered(s.h, p) == Buffered(Release(cfg, s, now, room).0.h, p) + Consumed(Release(cfg, s, now, room).1, p)
    decreases |s.h|, Gap(s)
  {
    if !Stops(s, now) {
      var (t, o) := Turn(cfg, s, now, HasRoom(room));
      TurnKeepsPackets(cfg, s, now, HasRoom(room), p);
      TurnShrinks(cfg, s, now, HasRoom(room));
      ReleaseKeepsPackets(cfg, t, now, RoomAfter(s, room), p);
      ConsumedCons(o, Release(cfg, t, now, RoomAfter(s, room)).1, p);
    }
  }

  /** One if the event is a Push call that keeps a copy of `p`. */
  function KeptBy(cfg: Config, s: State, e: Event, p: Packet): nat {
    One(e.Arrive? && e.pkt == p && PushStep(cfg, s, e.pkt, e.now).1)
  }

  /** How many copies of `p` Push has kept. */
  function Kept(cfg: Config, hs: History, p: Packet): nat {
    match hs
    case Begin => 0
    case Then(past, e) => Kept(cfg, past, p) + KeptBy(cfg, Run(cfg, past).0, e, p)
  }

  lemma ApplyKeepsPackets(cfg: Config, s: State, e: Event, p: Packet)
    ensures Buffered(s.h, p) + KeptBy(cfg, s, e, p)
            == Buffered(Apply(cfg, s, e).0.h, p) + Consumed(Apply(cfg, s, e).1, p)
  {
    match e
    case Arrive(pkt, now) => PushedPackets(s.h, Entry(pkt, now), p);
    case Tick(now, room) =>
      if !Waiting(cfg, s, now) {
        ReleaseKeepsPackets(cfg, Opened(cfg, s, now), now, room, p);
      }
  }

  /** Main result: no packet is invented, lost or doubled. Of every packet, the copies kept
      by Push are those sent, overflowed, discarded and still buffered. */
  lemma {:induction false} PacketsAreConserved(cfg: Config, hs: History, p: Packet)
    ensures Kept(cfg, hs, p) == Buffered(Run(cfg, hs).0.h, p) + Consumed(Run(cfg, hs).1, p)
  {
    match hs
    case Begin =>
    case Then(past, e) =>
      PacketsAreConserved(cfg, past, p);
      var (s, log) := Run(cfg, past);
      ConsumedConcat(log, Apply(cfg, s, e).1, p);
      ApplyKeepsPackets(cfg, s, e, p);
  }
}
