/** The jitter buffer undoes reordering, spaces its losses, and needs its half-range
    assumption. */
module JitterReordering {
  import opened SequenceNumbers
  import opened PacketHeap
  import opened JitterBuffer
  import opened JitterProperties
  import opened JitterHistory

  // ---- Reordering is undone ----

  function SentBy(o: Outcome): seq<Seq16> {
    if o.Sent? then [o.pkt.sequence] else []
  }

  function SentNumbers(out: seq<Outcome>): seq<Seq16> {
    if out == [] then [] else SentBy(out[0]) + SentNumbers(out[1..])
  }

  lemma SentCons(o: Outcome, rest: seq<Outcome>)
    ensures SentNumbers([o] + rest) == SentBy(o) + SentNumbers(rest)
  {
    assert ([o] + rest)[1..] == rest;
  }

  /** The numbers first+k, ..., first+n-1. */
  function Range(first: Seq16, k: nat, n: nat): (r: seq<Seq16>)
    requires k <= n
    decreases n - k
  {
    if k == n then [] else [Plus(first, k)] + Range(first, k + 1, n)
  }

  predicate AllRoom(room: seq<bool>, n: nat) {
    |room| >= n && forall k :: 0 <= k < n ==> room[k]
  }

  /** The buffer holds numbers first+k, ..., first+n-1, each at least once, and besides
      them at most repeats of first+k-1. */
  ghost predicate Holds(h: seq<Entry>, first: Seq16, k: nat, n: nat) {
    && (forall i :: 0 <= i < |h| ==> k <= Key(h[i], first) + 1 && Key(h[i], first) < n)
    && (forall m :: k <= m < n ==> HasKey(h, first, m))
  }

  ghost predicate HasKey(h: seq<Entry>, first: Seq16, m: nat) {
    exists e :: e in h && Key(e, first) == m
  }

  lemma HeldNumberIsBuffered(h: seq<Entry>, first: Seq16, k: nat, n: nat, m: nat)
    requires Holds(h, first, k, n) && k <= m < n
    ensures exists i :: 0 <= i < |h| && Key(h[i], first) == m
  {
    assert HasKey(h, first, m);
  }

  lemma PoppedHolds(h: seq<Entry>, first: Seq16, k: nat, n: nat, k': nat)
    requires |h| > 0 && Ordered(h, |h|) && InWindow(h, first) && Holds(h, first, k, n)
    requires Key(h[0], first) == k || Key(h[0], first) + 1 == k
    requires k' == (if Key(h[0], first) == k then k + 1 else k)
    ensures Ordered(Popped(h), |h| - 1) && InWindow(Popped(h), first) && Holds(Popped(h), first, k', n)
  {
    PopKeepsOrder(h, first);
    PoppedMembers(h);
    RootBounds(h, first);
    forall i | 0 <= i < |Popped(h)|
      ensures k' <= Key(Popped(h)[i], first) + 1 && Key(Popped(h)[i], first) < n
    {
      assert Popped(h)[i] in h;
    }
    forall m | k' <= m < n
      ensures HasKey(Popped(h), first, m)
    {
      assert HasKey(h, first, m);
      var e :| e in h && Key(e, first) == m;
      assert e != h[0] && e in Popped(h);
    }
  }

  /** The root is either first+k itself or a repeat of first+k-1. */
  lemma RootIsNextOrRepeat(h: seq<Entry>, first: Seq16, k: nat, n: nat)
    requires |h| > 0 && Ordered(h, |h|) && n <= HALF_RANGE && Holds(h, first, k, n) && InWindow(h, first)
    ensures Key(h[0], first) == k || Key(h[0], first) + 1 == k
    ensures k <= n && Key(h[0], first) < n
  {
    RootBounds(h, first);
    if k < n {
      HeldNumberIsBuffered(h, first, k, n, k);
    }
  }

  lemma DiffFromFirst(e: Entry, first: Seq16, k: nat)
    requires k <= HALF_RANGE && Key(e, first) < HALF_RANGE && k <= Key(e, first) + 1
    ensures SeqDiff(e.pkt.sequence, Plus(first, k)) == Key(e, first) - k
  {
    SeqDiffIsUnique(e.pkt.sequence, Plus(first, k), Key(e, first) - k);
  }

  /** One turn while the buffer holds the rest of the range: the next number is sent, or a
      repeat is discarded. */
  lemma TurnDrains(cfg: Config, s: State, now: int, ok: bool, first: Seq16, k: nat, n: nat)
    requires |s.h| > 0 && k <= n <= HALF_RANGE && s.nextExpected == Plus(first, k)
    requires Ordered(s.h, |s.h|) && InWindow(s.h, first) && Holds(s.h, first, k, n)
    requires Sends(s) ==> ok
    ensures !Stops(s, now)
    ensures var (t, o) := Turn(cfg, s, now, ok);
            var k' := if Sends(s) then k + 1 else k;
            && t.lost == s.lost && |t.h| < |s.h|
            && Ordered(t.h, |t.h|) && InWindow(t.h, first) && Holds(t.h, first, k', n)
            && t.nextExpected == Plus(first, k')
            && SentBy(o) == (if Sends(s) then [Plus(first, k)] else [])
            && k' <= n
  {
    hide Popped, Holds, Ordered, InWindow, PushStep;
    var top := s.h[0];
    RootIsNextOrRepeat(s.h, first, k, n);
    DiffFromFirst(top, first, k);
    var k' := if Key(top, first) == k then k + 1 else k;
    PoppedHolds(s.h, first, k, n, k');
    assert Sends(s) <==> Key(top, first) == k;
    PlusPlus(first, k, 1);
  }

  lemma {:induction false} DrainsRange(cfg: Config, s: State, now: int, room: seq<bool>, first: Seq16, k: nat, n: nat)
    requires k <= n <= HALF_RANGE && s.nextExpected == Plus(first, k)
    requires Ordered(s.h, |s.h|) && InWindow(s.h, first) && Holds(s.h, first, k, n)
    requires AllRoom(room, n - k)
    ensures Release(cfg, s, now, room).0.h == [] && Release(cfg, s, now, room).0.lost == s.lost
    ensures SentNumbers(Release(cfg, s, now, room).1) == Range(first, k, n)
    decreases |s.h|
  {
    if |s.h| > 0 {
      TurnDrains(cfg, s, now, HasRoom(room), first, k, n);
      var (t, o) := Turn(cfg, s, now, HasRoom(room));
      DrainsRange(cfg, t, now, RoomAfter(s, room), first, if Sends(s) then k + 1 else k, n);
      SentCons(o, Release(cfg, t, now, RoomAfter(s, room)).1);
    } else if k < n {
      HeldNumberIsBuffered(s.h, first, k, n, k);
    }
  }

  /** When the accumulated packets are the numbers first, ..., first+n-1 in any
      order and with any repeats, the flush that ends the accumulation window sends exactly
      that range in order, declares nothing lost and leaves nothing behind. */
  lemma ReorderingIsUndone(cfg: Config, s: State, now: int, room: seq<bool>, first: Seq16, n: nat)
    requires Ordered(s.h, |s.h|) && s.started && !s.nextSet && now >= s.firstAt + BufferNanos(cfg)
    requires 0 < n <= HALF_RANGE && Holds(s.h, first, 0, n) && AllRoom(room, n)
    ensures var (t, out) := FlushStep(cfg, s, now, room);
            SentNumbers(out) == Range(first, 0, n) && t.lost == s.lost && t.h == []
  {
    assert HasKey(s.h, first, 0);
    assert InWindow(s.h, first);
    RootIsNextOrRepeat(s.h, first, 0, n);
    assert s.h[0].pkt.sequence == Plus(first, 0);
    DrainsRange(cfg, Opened(cfg, s, now), now, room, first, 0, n);
  }

  /** An arrival that is not too old. */
  predicate Punctual(cfg: Config, e: Event) {
    e.Arrive? && e.now - e.pkt.receivedAtMs * NANOS_PER_MS <= cfg.maxLateMs * NANOS_PER_MS
  }

  predicate Happened(hs: History, e: Event) {
    hs.Then? && (hs.e == e || Happened(hs.past, e))
  }

  /** Only punctual arrivals, with numbers among first, ..., first+n-1. */
  predicate ArriveWithin(cfg: Config, hs: History, first: Seq16, n: nat) {
    hs.Then? ==> Punctual(cfg, hs.e) && Ahead(hs.e.pkt.sequence, first) < n && ArriveWithin(cfg, hs.past, first, n)
  }

  ghost predicate Arrived(hs: History, first: Seq16, m: nat) {
    exists e :: Happened(hs, e) && e.Arrive? && Ahead(e.pkt.sequence, first) == m
  }

  function FirstArrival(hs: History): int
    requires hs.Then? && hs.e.Arrive?
  {
    if hs.past.Then? && hs.past.e.Arrive? then FirstArrival(hs.past) else hs.e.now
  }

  /** Arrivals alone, all within one half range: the buffer keeps every one of them. */
  ghost predicate Accumulated(s: State, hs: History, first: Seq16) {
    && !s.nextSet && !s.hasProcessed && s.lost == 0
    && (s.started <==> hs.Then?) && (hs.Then? && hs.e.Arrive? ==> s.firstAt == FirstArrival(hs))
    && Ordered(s.h, |s.h|) && InWindow(s.h, first)
    && (forall e :: Happened(hs, e) && e.Arrive? ==> Entry(e.pkt, e.now) in s.h)
    && (forall x :: x in s.h ==> Happened(hs, Arrive(x.pkt, x.arrivedAt)))
  }

  lemma ArrivalAccumulates(cfg: Config, s: State, hs: History, e: Event, first: Seq16)
    requires Accumulated(s, hs, first) && Punctual(cfg, e) && Ahead(e.pkt.sequence, first) < HALF_RANGE
    requires hs.Then? ==> hs.e.Arrive?
    ensures Accumulated(PushStep(cfg, s, e.pkt, e.now).0, Then(hs, e), first)
  {
    PushKeepsOrder(s.h, Entry(e.pkt, e.now), first);
    PushedMembers(s.h, Entry(e.pkt, e.now));
  }

  lemma {:induction false} ArrivalsAccumulate(cfg: Config, hs: History, first: Seq16)
    requires ArriveWithin(cfg, hs, first, HALF_RANGE)
    ensures Accumulated(Run(cfg, hs).0, hs, first) && Run(cfg, hs).1 == []
  {
    if hs.Then? {
      ArrivalsAccumulate(cfg, hs.past, first);
      ArrivalAccumulates(cfg, Run(cfg, hs.past).0, hs.past, hs.e, first);
    }
  }

  lemma {:induction false} ArriveWithinHalf(cfg: Config, hs: History, first: Seq16, n: nat)
    requires n <= HALF_RANGE && ArriveWithin(cfg, hs, first, n)
    ensures ArriveWithin(cfg, hs, first, HALF_RANGE)
    ensures forall e :: Happened(hs, e) ==> e.Arrive? && Ahead(e.pkt.sequence, first) < n
  {
    if hs.Then? {
      ArriveWithinHalf(cfg, hs.past, first, n);
    }
  }

  lemma AccumulatedHolds(cfg: Config, s: State, hs: History, first: Seq16, n: nat)
    requires n <= HALF_RANGE && ArriveWithin(cfg, hs, first, n) && Accumulated(s, hs, first)
    requires forall m :: 0 <= m < n ==> Arrived(hs, first, m)
    ensures Holds(s.h, first, 0, n)
  {
    ArriveWithinHalf(cfg, hs, first, n);
    forall i | 0 <= i < |s.h|
      ensures Key(s.h[i], first) < n
    {
      assert s.h[i] in s.h;
    }
    forall m | 0 <= m < n
      ensures HasKey(s.h, first, m)
    {
      assert Arrived(hs, first, m);
      var e :| Happened(hs, e) && e.Arrive? && Ahead(e.pkt.sequence, first) == m;
      assert Entry(e.pkt, e.now) in s.h && Key(Entry(e.pkt, e.now), first) == m;
    }
  }

  /** Main result: reordering is undone. If the first packets to arrive are the numbers
      first, ..., first+n-1 (wrap-around included) in any order and with any repeats, the
      first tick past the accumulation window sends exactly that range in order, with
      nothing lost and nothing left in the buffer. */
  lemma ReorderedArrivalsComeOutInOrder(cfg: Config, hs: History, now: int, room: seq<bool>, first: Seq16, n: nat)
    requires 0 < n <= HALF_RANGE && ArriveWithin(cfg, hs, first, n) && hs.Then?
    requires forall m :: 0 <= m < n ==> Arrived(hs, first, m)
    requires AllRoom(room, n) && now >= FirstArrival(hs) + BufferNanos(cfg)
    ensures var (t, log) := Run(cfg, Then(hs, Tick(now, room)));
            SentNumbers(log) == Range(first, 0, n) && t.lost == 0 && t.h == []
  {
    ArriveWithinHalf(cfg, hs, first, n);
    ArrivalsAccumulate(cfg, hs, first);
    AccumulatedHolds(cfg, Run(cfg, hs).0, hs, first, n);
    ReorderingIsUndone(cfg, Run(cfg, hs).0, now, room, first, n);
    var out := FlushStep(cfg, Run(cfg, hs).0, now, room).1;
    assert [] + out == out;
  }

  // ---- Spacing of losses ----

  /** No tick so far is later than `now`. */
  predicate TicksBy(hs: History, now: int) {
    hs.Then? ==> (hs.e.Tick? ==> hs.e.now <= now) && TicksBy(hs.past, now)
  }

  /** Tick times never go back. */
  predicate Monotone(hs: History) {
    hs.Then? ==> Monotone(hs.past) && (hs.e.Tick? ==> TicksBy(hs.past, hs.e.now))
  }

  /** Losses are more than `gap` apart. */
  predicate Spaced(log: seq<Outcome>, gap: int) {
    forall i, j :: 0 <= i < j < |log| && log[i].Lost? && log[j].Lost? ==> log[j].at - log[i].at > gap
  }

  predicate NoLoss(out: seq<Outcome>) {
    forall i :: 0 <= i < |out| ==> !out[i].Lost?
  }

  /** Once the deadline is in the future, the loop declares nothing lost. */
  lemma {:induction false} HeldReleaseLosesNothing(cfg: Config, s: State, now: int, room: seq<bool>)
    requires cfg.bufferMs >= 0 && now <= s.holdUntil <= now + BufferNanos(cfg)
    ensures NoLoss(Release(cfg, s, now, room).1)
    ensures s.holdUntil <= Release(cfg, s, now, room).0.holdUntil <= now + BufferNanos(cfg)
    decreases |s.h|, Gap(s)
  {
    if !Stops(s, now) {
      HeldReleaseLosesNothing(cfg, Turn(cfg, s, now, HasRoom(room)).0, now, RoomAfter(s, room));
    }
  }

  /** A release loop declares at most one loss, only after the deadline, and then moves the
      deadline BufferMs past it. */
  predicate LosesOnce(cfg: Config, before: int, after: int, out: seq<Outcome>, now: int) {
    && (forall i :: 0 <= i < |out| && out[i].Lost? ==>
          out[i].at == now && before < now && after == now + BufferNanos(cfg))
    && (forall i, j :: 0 <= i < j < |out| ==> !(out[i].Lost? && out[j].Lost?))
  }

  /** Only a discard keeps the deadline; only past it a number is declared lost. */
  lemma TurnHolds(cfg: Config, s: State, now: int, ok: bool)
    requires !Stops(s, now)
    ensures var (t, o) := Turn(cfg, s, now, ok);
            && t.holdUntil == (if o.Stale? then s.holdUntil else now + BufferNanos(cfg))
            && (o.Lost? ==> o.at == now && s.holdUntil < now)
  {
  }

  lemma {:induction false} ReleaseLosesOnce(cfg: Config, s: State, now: int, room: seq<bool>)
    requires cfg.bufferMs >= 0 && s.holdUntil <= now + BufferNanos(cfg)
    ensures var (t, out) := Release(cfg, s, now, room);
            LosesOnce(cfg, s.holdUntil, t.holdUntil, out, now) && s.holdUntil <= t.holdUntil <= now + BufferNanos(cfg)
    decreases |s.h|, Gap(s)
  {
    hide Turn, Release, Stops;
    ReleaseUnfolds(cfg, s, now, room);
    if !Stops(s, now) {
      var (t, o) := Turn(cfg, s, now, HasRoom(room));
      TurnHolds(cfg, s, now, HasRoom(room));
      if o.Stale? {
        ReleaseLosesOnce(cfg, t, now, RoomAfter(s, room));
      } else {
        HeldReleaseLosesNothing(cfg, t, now, RoomAfter(s, room));
      }
    }
  }

  predicate DeadlineCovers(cfg: Config, s: State, log: seq<Outcome>) {
    forall i :: 0 <= i < |log| && log[i].Lost? ==> log[i].at + BufferNanos(cfg) <= s.holdUntil
  }

  /** Whoever is not earlier than any tick so far sees a deadline at most BufferMs away. */
  ghost predicate DeadlineBound(cfg: Config, s: State, hs: History) {
    forall now :: TicksBy(hs, now) && s.nextSet ==> s.holdUntil <= now + BufferNanos(cfg)
  }

  /** What the spacing proof keeps from step to step. */
  ghost predicate WellSpaced(cfg: Config, s: State, log: seq<Outcome>, hs: History) {
    && Spaced(log, BufferNanos(cfg)) && DeadlineCovers(cfg, s, log) && DeadlineBound(cfg, s, hs)
    && (!s.nextSet ==> NoLoss(log))
  }

  lemma JoinSpaced(cfg: Config, log: seq<Outcome>, out: seq<Outcome>, before: int, after: int, now: int)
    requires Spaced(log, BufferNanos(cfg)) && LosesOnce(cfg, before, after, out, now) && before <= after
    requires forall i :: 0 <= i < |log| && log[i].Lost? ==> log[i].at + BufferNanos(cfg) <= before
    ensures Spaced(log + out, BufferNanos(cfg))
    ensures forall i :: 0 <= i < |log + out| && (log + out)[i].Lost? ==> (log + out)[i].at + BufferNanos(cfg) <= after
  {
    var all, n := log + out, |log|;
    forall i, j | 0 <= i < j < |all| && all[i].Lost? && all[j].Lost?
      ensures all[j].at - all[i].at > BufferNanos(cfg)
    {
      assert j >= n ==> all[j] == out[j - n];
    }
    forall i | 0 <= i < |all| && all[i].Lost?
      ensures all[i].at + BufferNanos(cfg) <= after
    {
      assert i >= n ==> all[i] == out[i - n];
    }
  }

  lemma FlushKeepsSpacing(cfg: Config, s: State, log: seq<Outcome>, hs: History, now: int, room: seq<bool>)
    requires cfg.bufferMs >= 0 && TicksBy(hs, now) && WellSpaced(cfg, s, log, hs)
    ensures var (t, out) := FlushStep(cfg, s, now, room); WellSpaced(cfg, t, log + out, Then(hs, Tick(now, room)))
  {
    var (t, out) := FlushStep(cfg, s, now, room);
    if Waiting(cfg, s, now) {
      assert log + out == log;
    } else {
      var o := Opened(cfg, s, now);
      ReleaseLosesOnce(cfg, o, now, room);
      ReleaseKeepsNextSet(cfg, o, now, room);
      if s.nextSet {
        JoinSpaced(cfg, log, out, o.holdUntil, t.holdUntil, now);
      } else {
        assert Spaced(log + out, BufferNanos(cfg)) && DeadlineCovers(cfg, t, log + out) by {
          JoinSpaced(cfg, log, out, o.holdUntil, t.holdUntil, now);
        }
      }
    }
  }

  /** Main result: with ticks in order, any two losses of a run are more than BufferMs apart. */
  lemma {:induction false} LossesAreSpaced(cfg: Config, hs: History)
    requires cfg.bufferMs >= 0 && Monotone(hs)
    ensures Spaced(Run(cfg, hs).1, BufferNanos(cfg))
    ensures WellSpaced(cfg, Run(cfg, hs).0, Run(cfg, hs).1, hs)
  {
    match hs
    case Begin =>
    case Then(past, e) =>
      LossesAreSpaced(cfg, past);
      var (s, log) := Run(cfg, past);
      match e
      case Arrive(_, _) => assert log + [] == log;
      case Tick(now, room) => FlushKeepsSpacing(cfg, s, log, past, now, room);
  }

  // ---- The half-range assumption is needed ----

  function Bare(n: Seq16): Packet {
    Packet(n, 0, 0, [])
  }

  /** Four packets spread over the whole circle. The heap comparison is not an order on
      their numbers, and the second thing the buffer does is discard the only copy of
      packet 0, whose number it has never processed. */
  lemma FirstCopyDiscardedOutsideHalfRange()
    ensures var cfg := Config(60, 120);
            var hs := Then(Then(Then(Then(Begin, Arrive(Bare(40000), 0)), Arrive(Bare(10000), 0)),
                                Arrive(Bare(20000), 0)), Arrive(Bare(0), 0));
            var out := FlushStep(cfg, Run(cfg, hs).0, 60 * NANOS_PER_MS, []).1;
            && |out| >= 2 && out[0] == Overflow(Bare(10000)) && out[1] == Stale(Bare(0))
            && !HalfRange({40000, 10000, 20000, 0})
  {
    var cfg := Config(60, 120);
    var a, b, c, d := Entry(Bare(40000), 0), Entry(Bare(10000), 0), Entry(Bare(20000), 0), Entry(Bare(0), 0);
    var h1 := Then(Begin, Arrive(a.pkt, 0));
    var h2 := Then(h1, Arrive(b.pkt, 0));
    var h3 := Then(h2, Arrive(c.pkt, 0));
    assert Pushed([], a) == [a];
    assert Swap([a, b], 0, 1) == [b, a];
    assert Pushed([a], b) == [b, a];
    assert Pushed([b, a], c) == [b, a, c];
    assert Pushed([b, a, c], d) == [b, a, c, d];
    assert Run(cfg, h1).0.h == [a];
    assert Run(cfg, h2).0.h == [b, a];
    assert Run(cfg, h3).0.h == [b, a, c];
    var s := Run(cfg, Then(h3, Arrive(d.pkt, 0))).0;
    assert s.h == [b, a, c, d];
    FourSpreadPackets(cfg, s, a, b, c, d);
    NoOrderOnSpreadNumbers();
    OrderIffHalfRange({40000, 10000, 20000, 0});
  }

  lemma NoOrderOnSpreadNumbers()
    ensures !StrictOrderOn({40000, 10000, 20000, 0})
  {
    assert SeqLess(0, 20000) && SeqLess(20000, 40000) && !SeqLess(0, 40000);
  }

  lemma FourSpreadPackets(cfg: Config, s: State, a: Entry, b: Entry, c: Entry, d: Entry)
    requires a == Entry(Bare(40000), 0) && b == Entry(Bare(10000), 0) && c == Entry(Bare(20000), 0)
             && d == Entry(Bare(0), 0)
    requires s.started && !s.nextSet && s.firstAt == 0 && s.h == [b, a, c, d] && cfg.bufferMs == 60
    ensures var out := FlushStep(cfg, s, 60 * NANOS_PER_MS, []).1;
            |out| >= 2 && out[0] == Overflow(b.pkt) && out[1] == Stale(d.pkt)
  {
    assert Swap(s.h, 0, 3) == [d, a, c, b];
    assert Popped(s.h) == [d, a, c];
    var now := 60 * NANOS_PER_MS;
    var o := Opened(cfg, s, now);
    var t := Turn(cfg, o, now, false).0;
    assert t.h == [d, a, c] && t.nextExpected == 10001;
    assert SeqDiff(0, 10001) == -10001;
    var u := Turn(cfg, t, now, false).0;
    var rest := Release(cfg, u, now, []).1;
    assert Release(cfg, t, now, []).1 == [Stale(d.pkt)] + rest;
    assert Release(cfg, o, now, []).1 == [Overflow(b.pkt)] + ([Stale(d.pkt)] + rest);
  }
}
