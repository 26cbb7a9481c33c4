/** What the jitter buffer guarantees after a half-range start: the window invariant, which keeps
    the wrap-around order meaningful, and that only absent packets are declared lost. */
module JitterProperties {
  import opened SequenceNumbers
  import opened PacketHeap
  import opened JitterBuffer

  // ---- Runs ----

  datatype Event = Arrive(pkt: Packet, now: int) | Tick(now: int, room: seq<bool>)

  function Apply(cfg: Config, s: State, e: Event): (State, seq<Outcome>) {
    match e
    case Arrive(pkt, now) => (PushStep(cfg, s, pkt, now).0, [])
    case Tick(now, room) => FlushStep(cfg, s, now, room)
  }

  /** Everything that has happened to a buffer, oldest first. */
  datatype History = Begin | Then(past: History, e: Event)

  /** State and log of outcomes after any interleaving of arrivals and ticks. */
  function Run(cfg: Config, hs: History): (State, seq<Outcome>) {
    match hs
    case Begin => (INITIAL, [])
    case Then(past, e) =>
      var (s, log) := Run(cfg, past);
      var (t, out) := Apply(cfg, s, e);
      (t, log + out)
  }

  // ---- The window invariant ----

  predicate Window(h: seq<Entry>, base: Seq16, least: nat) {
    forall i :: 0 <= i < |h| ==> least <= Key(h[i], base) < HALF_RANGE
  }

  /** Holds at every boundary between Push and flush calls: once something has been
      processed, each buffered packet is 1 to 32767 ahead of it. */
  predicate Settled(s: State) {
    && Ordered(s.h, |s.h|)
    && (|s.h| > 0 ==> s.started)
    && (s.nextSet <==> s.hasProcessed)
    && (s.hasProcessed ==> s.nextExpected == Next(s.lastProcessed) && Window(s.h, s.lastProcessed, 1))
  }

  /** The one thing the code leaves to its environment: what is buffered before the
      first release lies in one half range. */
  ghost predicate Accumulating(s: State) {
    !s.hasProcessed ==> exists base: Seq16 :: InWindow(s.h, base)
  }

  ghost predicate HalfRangeStart(cfg: Config, hs: History) {
    Accumulating(Run(cfg, hs).0) && (hs.Then? ==> HalfRangeStart(cfg, hs.past))
  }

  /** The number whose release or overflow the loop has just seen, if it was the last
      thing to happen apart from discards. */
  datatype Previous = Nobody | Number(n: Seq16)

  function After(o: Outcome, prev: Previous): Previous {
    match o
    case Sent(p) => Number(p.sequence)
    case Overflow(p) => Number(p.sequence)
    case Stale(_) => prev
    case Lost(_, _) => Nobody
  }

  /** The invariant of the release loop. */
  predicate Turning(s: State, prev: Previous) {
    && s.nextSet
    && Ordered(s.h, |s.h|)
    && (|s.h| > 0 ==> s.started)
    && (s.hasProcessed ==>
          && s.nextExpected == Next(s.lastProcessed)
          && InWindow(s.h, s.lastProcessed)
          && forall i :: 0 <= i < |s.h| && Key(s.h[i], s.lastProcessed) == 0 ==> prev == Number(s.lastProcessed))
    && (!s.hasProcessed ==> |s.h| > 0 && s.h[0].pkt.sequence == s.nextExpected && InWindow(s.h, s.nextExpected))
  }

  predicate Absent(n: Seq16, h: seq<Entry>) {
    forall i :: 0 <= i < |h| ==> h[i].pkt.sequence != n
  }

  lemma KeyOfNext(e: Entry, base: Seq16)
    ensures Key(e, base) > 0 ==> Key(e, Next(base)) == Key(e, base) - 1
    ensures Key(e, base) < HALF_RANGE ==> SeqDiff(e.pkt.sequence, Next(base)) == Key(e, base) - 1
  {
    if Key(e, base) < HALF_RANGE {
      SeqDiffIsUnique(e.pkt.sequence, Next(base), Key(e, base) - 1);
    }
  }

  lemma PoppedMembers(h: seq<Entry>)
    requires |h| > 0
    ensures forall e :: e in Popped(h) ==> e in h
    ensures forall e :: e in h && e != h[0] ==> e in Popped(h)
  {
    PoppedContents(h);
    forall e
      ensures e in Popped(h) ==> e in h
      ensures e in h && e != h[0] ==> e in Popped(h)
    {
      assert e in multiset(Popped(h)) <==> e in Popped(h);
      assert e in multiset(h) <==> e in h;
    }
  }

  lemma PushedMembers(h: seq<Entry>, e: Entry)
    ensures forall x :: x in Pushed(h, e) <==> x in h || x == e
  {
    PushedContents(h, e);
    forall x
      ensures x in Pushed(h, e) <==> x in h || x == e
    {
      assert x in multiset(Pushed(h, e)) <==> x in Pushed(h, e);
      assert x in multiset(h) <==> x in h;
    }
  }

  lemma PushSettles(cfg: Config, s: State, pkt: Packet, now: int)
    requires Settled(s) && Accumulating(PushStep(cfg, s, pkt, now).0)
    ensures Settled(PushStep(cfg, s, pkt, now).0)
  {
    var (t, kept) := PushStep(cfg, s, pkt, now);
    if kept {
      var e := Entry(pkt, now);
      var base: Seq16;
      if s.hasProcessed {
        base := s.lastProcessed;
        assert InWindow(s.h + [e], base);
      } else {
        base :| InWindow(t.h, base);
      }
      PushedMembers(s.h, e);
      forall i | 0 <= i < |s.h + [e]|
        ensures Key((s.h + [e])[i], base) < HALF_RANGE
      {
        assert (s.h + [e])[i] in Pushed(s.h, e);
      }
      PushKeepsOrder(s.h, e, base);
      if s.hasProcessed {
        forall i | 0 <= i < |t.h|
          ensures 1 <= Key(t.h[i], base) < HALF_RANGE
        {
          assert t.h[i] in Pushed(s.h, e);
        }
      }
    }
  }

  /** All keys are at least the root's. */
  lemma RootBounds(h: seq<Entry>, base: Seq16)
    requires |h| > 0 && Ordered(h, |h|) && InWindow(h, base)
    ensures forall i :: 0 <= i < |h| ==> Key(h[0], base) <= Key(h[i], base)
  {
    forall i | 0 <= i < |h|
      ensures Key(h[0], base) <= Key(h[i], base)
    {
      RootIsMinimum(h, base, i);
    }
  }

  /** A pop after which every key counts from `last`. */
  lemma PopRebases(h: seq<Entry>, base: Seq16, last: Seq16)
    requires |h| > 0 && Ordered(h, |h|) && InWindow(h, base)
    requires last == base || (last == Next(base) && Key(h[0], base) > 0)
    ensures Ordered(Popped(h), |h| - 1) && InWindow(Popped(h), last)
  {
    PopKeepsOrder(h, base);
    PoppedMembers(h);
    RootBounds(h, base);
    forall i | 0 <= i < |Popped(h)|
      ensures Key(Popped(h)[i], last) < HALF_RANGE
    {
      assert Popped(h)[i] in h;
      KeyOfNext(Popped(h)[i], base);
    }
  }

  lemma SendKeeps(cfg: Config, s: State, now: int, ok: bool, prev: Previous)
    requires Turning(s, prev) && |s.h| > 0 && Sends(s)
    ensures var (t, o) := Turn(cfg, s, now, ok);
            Turning(t, Number(s.nextExpected)) && t.hasProcessed && After(o, prev) == Number(s.nextExpected)
  {
    hide Popped, Ordered;
    var base := if s.hasProcessed then s.lastProcessed else s.nextExpected;
    KeyOfNext(s.h[0], base);
    PopRebases(s.h, base, s.nextExpected);
  }

  lemma DiscardKeeps(cfg: Config, s: State, now: int, ok: bool, prev: Previous)
    requires Turning(s, prev) && |s.h| > 0 && SeqDiff(s.h[0].pkt.sequence, s.nextExpected) < 0
    ensures s.hasProcessed && prev == Number(s.h[0].pkt.sequence)
    ensures Turning(Turn(cfg, s, now, ok).0, prev)
  {
    hide Popped, Ordered;
    assert s.hasProcessed;
    KeyOfNext(s.h[0], s.lastProcessed);
    assert Key(s.h[0], s.lastProcessed) == 0;
    PoppedMembers(s.h);
    PopRebases(s.h, s.lastProcessed, s.lastProcessed);
  }

  lemma LossKeeps(cfg: Config, s: State, now: int, ok: bool, prev: Previous)
    requires Turning(s, prev) && |s.h| > 0 && SeqDiff(s.h[0].pkt.sequence, s.nextExpected) > 0 && !Stops(s, now)
    ensures Turning(Turn(cfg, s, now, ok).0, Nobody) && Absent(s.nextExpected, s.h)
  {
    RootBounds(s.h, s.lastProcessed);
    forall i | 0 <= i < |s.h|
      ensures 0 < Key(s.h[i], s.nextExpected) < HALF_RANGE
    {
      KeyOfNext(s.h[i], s.lastProcessed);
      KeyOfNext(s.h[0], s.lastProcessed);
    }
  }

  /** Each turn of the release loop: the invariant is kept, a discard repeats the number
      just processed, and a loss is declared for a number that nothing buffered carries. */
  lemma TurnKeeps(cfg: Config, s: State, now: int, ok: bool, prev: Previous)
    requires Turning(s, prev) && !Stops(s, now)
    ensures var (t, o) := Turn(cfg, s, now, ok);
            && Turning(t, After(o, prev)) && t.hasProcessed
            && (o.Stale? ==> prev == Number(o.pkt.sequence))
            && (o.Lost? ==> Absent(o.number, s.h))
  {
    if Sends(s) {
      SendKeeps(cfg, s, now, ok, prev);
    } else if SeqDiff(s.h[0].pkt.sequence, s.nextExpected) < 0 {
      DiscardKeeps(cfg, s, now, ok, prev);
    } else {
      LossKeeps(cfg, s, now, ok, prev);
    }
  }

  lemma {:induction false} ReleaseSettles(cfg: Config, s: State, now: int, room: seq<bool>, prev: Previous)
    requires Turning(s, prev)
    ensures Settled(Release(cfg, s, now, room).0) && Release(cfg, s, now, room).0.hasProcessed
    decreases |s.h|, Gap(s)
  {
    hide Turn, Release;
    ReleaseUnfolds(cfg, s, now, room);
    if Stops(s, now) {
      if |s.h| > 0 {
        RootBounds(s.h, s.lastProcessed);
        KeyOfNext(s.h[0], s.lastProcessed);
      }
    } else {
      var (t, o) := Turn(cfg, s, now, HasRoom(room));
      TurnKeeps(cfg, s, now, HasRoom(room), prev);
      ReleaseSettles(cfg, t, now, RoomAfter(s, room), After(o, prev));
    }
  }

  /** A flush that gets past the accumulation window starts inside the loop invariant. */
  lemma OpenedTurns(cfg: Config, s: State, now: int)
    requires Settled(s) && Accumulating(s) && |s.h| > 0
    ensures Turning(Opened(cfg, s, now), Nobody)
  {
    hide Ordered;
    if !s.hasProcessed {
      var base: Seq16 :| InWindow(s.h, base);
      WindowFromRoot(s.h, base);
    }
  }

  /** A heap in a half range lies in the one that its root begins. */
  lemma WindowFromRoot(h: seq<Entry>, base: Seq16)
    requires |h| > 0 && Ordered(h, |h|) && InWindow(h, base)
    ensures InWindow(h, h[0].pkt.sequence)
  {
    RootBounds(h, base);
    hide Ordered;
    var root := h[0].pkt.sequence;
    forall i | 0 <= i < |h|
      ensures Key(h[i], root) < HALF_RANGE
    {
      assert Key(h[i], root) == Key(h[i], base) - Key(h[0], base);
    }
  }

  lemma FlushSettles(cfg: Config, s: State, now: int, room: seq<bool>)
    requires Settled(s) && Accumulating(s)
    ensures Settled(FlushStep(cfg, s, now, room).0)
  {
    if !Waiting(cfg, s, now) {
      OpenedTurns(cfg, s, now);
      ReleaseSettles(cfg, Opened(cfg, s, now), now, room, Nobody);
    }
  }

  lemma {:induction false} RunSettles(cfg: Config, hs: History)
    requires HalfRangeStart(cfg, hs)
    ensures Settled(Run(cfg, hs).0)
  {
    match hs
    case Begin =>
    case Then(past, e) =>
      RunSettles(cfg, past);
      match e
      case Arrive(pkt, now) => PushSettles(cfg, Run(cfg, past).0, pkt, now);
      case Tick(now, room) => FlushSettles(cfg, Run(cfg, past).0, now, room);
  }

  function Numbers(h: seq<Entry>): set<Seq16> {
    set i | 0 <= i < |h| :: h[i].pkt.sequence
  }

  lemma SettledOrders(s: State)
    requires Settled(s) && Accumulating(s)
    ensures StrictOrderOn(Numbers(s.h)) && forall i :: 0 <= i < |s.h| ==> !Less(s.h, i, 0)
  {
    var base: Seq16;
    if s.hasProcessed {
      base := s.lastProcessed;
    } else {
      base :| InWindow(s.h, base);
    }
    assert InWindow(s.h, base);
    forall x | x in Numbers(s.h)
      ensures Ahead(x, base) < HALF_RANGE
    {
      var i :| 0 <= i < |s.h| && s.h[i].pkt.sequence == x;
      assert Key(s.h[i], base) < HALF_RANGE;
    }
    assert WithinHalfRange(Numbers(s.h), base);
    OrderIffHalfRange(Numbers(s.h));
    if |s.h| > 0 {
      RootBounds(s.h, base);
      LessIsByKey(s.h, base);
    }
  }

  /** Main result: at every boundary of every run, what is buffered after the first
      release is 1 to 32767 ahead of the last processed number; the comparison is a strict
      total order on the buffered numbers; and no buffered number is less than the root. */
  lemma WindowInvariant(cfg: Config, hs: History)
    requires HalfRangeStart(cfg, hs)
    ensures var s := Run(cfg, hs).0;
            && (s.hasProcessed ==> Window(s.h, s.lastProcessed, 1))
            && StrictOrderOn(Numbers(s.h))
            && forall i :: 0 <= i < |s.h| ==> !Less(s.h, i, 0)
  {
    RunSettles(cfg, hs);
    SettledOrders(Run(cfg, hs).0);
  }

  /** At every boundary up to now, SeqLess orders what is buffered. */
  ghost predicate AlwaysOrdered(cfg: Config, hs: History) {
    StrictOrderOn(Numbers(Run(cfg, hs).0.h)) && (hs.Then? ==> AlwaysOrdered(cfg, hs.past))
  }

  lemma OrderedAccumulates(s: State)
    requires StrictOrderOn(Numbers(s.h))
    ensures Accumulating(s)
  {
    var ns := Numbers(s.h);
    OrderIffHalfRange(ns);
    var base: Seq16 :| WithinHalfRange(ns, base);
    forall i | 0 <= i < |s.h|
      ensures Key(s.h[i], base) < HALF_RANGE
    {
      assert s.h[i].pkt.sequence in ns;
    }
    assert InWindow(s.h, base);
  }

  /** The half-range start is exactly what the buffer needs: the comparison is a strict total
      order on the buffered numbers all along a run if and only if, until the first release,
      they always lie in one half range. */
  lemma {:induction false} OrderedIffHalfRangeStart(cfg: Config, hs: History)
    ensures AlwaysOrdered(cfg, hs) <==> HalfRangeStart(cfg, hs)
  {
    if hs.Then? {
      OrderedIffHalfRangeStart(cfg, hs.past);
    }
    if HalfRangeStart(cfg, hs) {
      WindowInvariant(cfg, hs);
    }
    if AlwaysOrdered(cfg, hs) {
      OrderedAccumulates(Run(cfg, hs).0);
    }
  }

  // ---- Loss exactness ----

  predicate Carries(o: Outcome, n: Seq16) {
    !o.Lost? && o.pkt.sequence == n
  }

  /** When a number is declared lost, no packet buffered at that moment carries it: neither
      one that leaves the buffer later in the same flush nor one that stays. */
  predicate LossExact(out: seq<Outcome>, left: seq<Entry>) {
    forall i :: 0 <= i < |out| && out[i].Lost? ==>
      Absent(out[i].number, left) && forall j :: i < j < |out| ==> !Carries(out[j], out[i].number)
  }

  lemma TurnConsumesBuffered(cfg: Config, s: State, now: int, ok: bool, n: Seq16)
    requires !Stops(s, now) && Absent(n, s.h)
    ensures var (t, o) := Turn(cfg, s, now, ok); Absent(n, t.h) && !Carries(o, n)
  {
    var t := Turn(cfg, s, now, ok).0;
    PoppedMembers(s.h);
    forall i | 0 <= i < |t.h|
      ensures t.h[i].pkt.sequence != n
    {
      assert t.h[i] in s.h;
    }
  }

  /** Whatever a release loop consumes or leaves was buffered when it began. */
  lemma {:induction false} ReleaseConsumesBuffered(cfg: Config, s: State, now: int, room: seq<bool>, n: Seq16)
    requires Absent(n, s.h)
    ensures Absent(n, Release(cfg, s, now, room).0.h)
    ensures forall j :: 0 <= j < |Release(cfg, s, now, room).1| ==> !Carries(Release(cfg, s, now, room).1[j], n)
    decreases |s.h|, Gap(s)
  {
    if !Stops(s, now) {
      TurnConsumesBuffered(cfg, s, now, HasRoom(room), n);
      ReleaseConsumesBuffered(cfg, Turn(cfg, s, now, HasRoom(room)).0, now, RoomAfter(s, room), n);
    }
  }

  lemma LossExactCons(o: Outcome, rest: seq<Outcome>, left: seq<Entry>)
    requires LossExact(rest, left)
    requires o.Lost? ==> Absent(o.number, left) && forall j :: 0 <= j < |rest| ==> !Carries(rest[j], o.number)
    ensures LossExact([o] + rest, left)
  {
    var out := [o] + rest;
    forall i, j | 0 <= i < j < |out| && out[i].Lost?
      ensures !Carries(out[j], out[i].number)
    {
      assert out[j] == rest[j - 1];
      if i > 0 {
        assert out[i] == rest[i - 1];
      }
    }
    forall i | 0 <= i < |out| && out[i].Lost?
      ensures Absent(out[i].number, left)
    {
      if i > 0 {
        assert out[i] == rest[i - 1];
      }
    }
  }

  /** Each discard follows the release or overflow of the same number, with nothing but
      discards in between. */
  predicate DiscardsOnlyRepeats(out: seq<Outcome>, prev: Previous)
  {
    out == [] || ((out[0].Stale? ==> prev == Number(out[0].pkt.sequence))
                  && DiscardsOnlyRepeats(out[1..], After(out[0], prev)))
  }

  lemma {:induction false} ReleaseLossExact(cfg: Config, s: State, now: int, room: seq<bool>, prev: Previous)
    requires Turning(s, prev)
    ensures LossExact(Release(cfg, s, now, room).1, Release(cfg, s, now, room).0.h)
    decreases |s.h|, Gap(s)
  {
    if !Stops(s, now) {
      var (t, o) := Turn(cfg, s, now, HasRoom(room));
      TurnKeeps(cfg, s, now, HasRoom(room), prev);
      TurnShrinks(cfg, s, now, HasRoom(room));
      var (u, rest) := Release(cfg, t, now, RoomAfter(s, room));
      ReleaseLossExact(cfg, t, now, RoomAfter(s, room), After(o, prev));
      if o.Lost? {
        ReleaseConsumesBuffered(cfg, t, now, RoomAfter(s, room), o.number);
      }
      LossExactCons(o, rest, u.h);
    }
  }

  lemma {:induction false} ReleaseDiscardsRepeats(cfg: Config, s: State, now: int, room: seq<bool>, prev: Previous)
    requires Turning(s, prev)
    ensures DiscardsOnlyRepeats(Release(cfg, s, now, room).1, prev)
    decreases |s.h|, Gap(s)
  {
    hide Turn, Release, Turning, Stops;
    ReleaseUnfolds(cfg, s, now, room);
    if !Stops(s, now) {
      var (t, o) := Turn(cfg, s, now, HasRoom(room));
      TurnKeeps(cfg, s, now, HasRoom(room), prev);
      ReleaseDiscardsRepeats(cfg, t, now, RoomAfter(s, room), After(o, prev));
      var rest := Release(cfg, t, now, RoomAfter(s, room)).1;
      assert ([o] + rest)[1..] == rest;
    }
  }

  predicate Processed(o: Outcome, n: Seq16) {
    (o.Sent? || o.Overflow?) && o.pkt.sequence == n
  }

  /** The recursive form of "discards only repeats" says what it should: before each
      discard there is a release or overflow of the same number. */
  lemma {:induction false} DiscardHasOriginal(out: seq<Outcome>, prev: Previous, i: nat)
    requires DiscardsOnlyRepeats(out, prev) && i < |out| && out[i].Stale?
    ensures prev == Number(out[i].pkt.sequence) || exists j :: 0 <= j < i && Processed(out[j], out[i].pkt.sequence)
    decreases i
  {
    if i > 0 {
      DiscardHasOriginal(out[1..], After(out[0], prev), i - 1);
      if After(out[0], prev) == Number(out[i].pkt.sequence) {
        if !out[0].Stale? {
          assert Processed(out[0], out[i].pkt.sequence);
        }
      } else {
        var j :| 0 <= j < i - 1 && Processed(out[1..][j], out[i].pkt.sequence);
        assert out[j + 1] == out[1..][j];
        assert Processed(out[j + 1], out[i].pkt.sequence);
      }
    }
  }

  lemma FlushIsExact(cfg: Config, s: State, now: int, room: seq<bool>)
    requires Settled(s) && Accumulating(s)
    ensures LossExact(FlushStep(cfg, s, now, room).1, FlushStep(cfg, s, now, room).0.h)
    ensures DiscardsOnlyRepeats(FlushStep(cfg, s, now, room).1, Nobody)
  {
    if !Waiting(cfg, s, now) {
      OpenedTurns(cfg, s, now);
      ReleaseLossExact(cfg, Opened(cfg, s, now), now, room, Nobody);
      ReleaseDiscardsRepeats(cfg, Opened(cfg, s, now), now, room, Nobody);
    }
  }

  /** Main result: after any history, a flush declares a number lost only when no buffered
      packet carries it, and a packet it discards is never a first copy: the same flush has
      just released that number or dropped it for a full output. */
  lemma LossExactness(cfg: Config, hs: History, now: int, room: seq<bool>)
    requires HalfRangeStart(cfg, hs)
    ensures var (t, out) := FlushStep(cfg, Run(cfg, hs).0, now, room);
            && LossExact(out, t.h)
            && forall i :: 0 <= i < |out| && out[i].Stale? ==>
                 exists j :: 0 <= j < i && Processed(out[j], out[i].pkt.sequence)
  {
    RunSettles(cfg, hs);
    FlushIsExact(cfg, Run(cfg, hs).0, now, room);
    var out := FlushStep(cfg, Run(cfg, hs).0, now, room).1;
    forall i | 0 <= i < |out| && out[i].Stale?
      ensures exists j :: 0 <= j < i && Processed(out[j], out[i].pkt.sequence)
    {
      DiscardHasOriginal(out, Nobody, i);
    }
  }
}
