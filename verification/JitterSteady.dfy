/** The jitter buffer in its steady state, across flushes: when a flush declares a number lost, and
    that a gap which is filled before its deadline leaves no trace in the output. */
module JitterSteady {
  import opened SequenceNumbers
  import opened PacketHeap
  import opened JitterBuffer
  import opened JitterProperties
  import opened JitterHistory
  import opened JitterReordering

  // ---- When a flush declares a loss ----

  /** The next number is missing while later ones are there. */
  predicate Gapped(s: State) {
    |s.h| > 0 && Absent(s.nextExpected, s.h)
  }

  /** Behind a processed number the root tells whether the next one is there. */
  lemma RootTells(s: State)
    requires Settled(s) && s.hasProcessed && |s.h| > 0
    ensures Sends(s) || SeqDiff(s.h[0].pkt.sequence, s.nextExpected) > 0
    ensures Sends(s) <==> !Absent(s.nextExpected, s.h)
  {
    RootBounds(s.h, s.lastProcessed);
    hide Ordered;
    KeyOfNext(s.h[0], s.lastProcessed);
    if i: nat :| i < |s.h| && s.h[i].pkt.sequence == s.nextExpected {
      KeyOfNext(s.h[i], s.lastProcessed);
    }
  }

  /** Main result: on every run with a half-range start a flush declares a number lost if and only
      if the next number is missing, a later one is buffered and the deadline is over; it is then
      the next number, and the only one. */
  lemma LossIffOverdue(cfg: Config, hs: History, now: int, room: seq<bool>)
    requires cfg.bufferMs >= 0 && HalfRangeStart(cfg, hs)
    ensures var s := Run(cfg, hs).0;
            var out := FlushStep(cfg, s, now, room).1;
            var overdue := s.hasProcessed && Gapped(s) && now > s.holdUntil;
            && (overdue ==> out != [] && out[0] == Lost(s.nextExpected, now) && NoLoss(out[1..]))
            && (!overdue ==> NoLoss(out))
  {
    RunSettles(cfg, hs);
    assert Accumulating(Run(cfg, hs).0);
    hide Run, HalfRangeStart, Settled, Accumulating, Gapped;
    FlushLosesOverdue(cfg, Run(cfg, hs).0, now, room);
  }

  lemma FlushLosesOverdue(cfg: Config, s: State, now: int, room: seq<bool>)
    requires cfg.bufferMs >= 0 && Settled(s) && Accumulating(s)
    ensures var out := FlushStep(cfg, s, now, room).1;
            var overdue := s.hasProcessed && Gapped(s) && now > s.holdUntil;
            && (overdue ==> out != [] && out[0] == Lost(s.nextExpected, now) && NoLoss(out[1..]))
            && (!overdue ==> NoLoss(out))
  {
    if !Waiting(cfg, s, now) {
      var o := Opened(cfg, s, now);
      if s.hasProcessed {
        RootTells(s);
      } else {
        assert Sends(o);
      }
      hide Release, Ordered;
      ReleaseUnfolds(cfg, o, now, room);
      if !Stops(o, now) {
        FirstTurnHolds(cfg, o, now, HasRoom(room));
        HeldReleaseLosesNothing(cfg, Turn(cfg, o, now, HasRoom(room)).0, now, RoomAfter(o, room));
      }
    }
  }

  /** A turn that sends or declares a loss sets a new deadline. */
  lemma FirstTurnHolds(cfg: Config, s: State, now: int, ok: bool)
    requires cfg.bufferMs >= 0 && !Stops(s, now) && (Sends(s) || SeqDiff(s.h[0].pkt.sequence, s.nextExpected) > 0)
    ensures var (t, o) := Turn(cfg, s, now, ok);
            && now <= t.holdUntil <= now + BufferNanos(cfg)
            && (if Sends(s) then !o.Lost? else o == Lost(s.nextExpected, now))
  {
  }

  /** After a flush everything that could be sent is out: the next number is not buffered. */
  lemma FlushLeavesGap(cfg: Config, s: State, now: int, room: seq<bool>)
    requires Settled(s) && Accumulating(s) && !Waiting(cfg, s, now)
    ensures var t := FlushStep(cfg, s, now, room).0; Settled(t) && t.hasProcessed && Absent(t.nextExpected, t.h)
  {
    hide Release, Settled, Turning, Opened, Stops;
    var o := Opened(cfg, s, now);
    FlushSettles(cfg, s, now, room);
    OpenedTurns(cfg, s, now);
    ReleaseSettles(cfg, o, now, room, Nobody);
    ReleaseStops(cfg, o, now, room);
    var t := Release(cfg, o, now, room).0;
    if |t.h| > 0 {
      RootTells(t);
      StoppedDoesNotSend(t, now);
    }
  }

  lemma StoppedDoesNotSend(s: State, now: int)
    requires Stops(s, now) && |s.h| > 0
    ensures !Sends(s)
  {
  }

  lemma {:induction false} ReleaseStops(cfg: Config, s: State, now: int, room: seq<bool>)
    ensures Stops(Release(cfg, s, now, room).0, now)
    decreases |s.h|, Gap(s)
  {
    hide Turn, Stops, Release;
    ReleaseUnfolds(cfg, s, now, room);
    if !Stops(s, now) {
      ReleaseStops(cfg, Turn(cfg, s, now, HasRoom(room)).0, now, RoomAfter(s, room));
    }
  }

  // ---- No overflow with room ----

  predicate NoOverflow(out: seq<Outcome>) {
    forall i :: 0 <= i < |out| ==> !out[i].Overflow?
  }

  lemma TurnHasRoom(cfg: Config, s: State, now: int, room: seq<bool>)
    requires !Stops(s, now) && AllRoom(room, |s.h|)
    ensures var (t, o) := Turn(cfg, s, now, HasRoom(room)); !o.Overflow? && AllRoom(RoomAfter(s, room), |t.h|)
  {
    hide Popped;
  }

  lemma {:induction false} RoomyRelease(cfg: Config, s: State, now: int, room: seq<bool>)
    requires AllRoom(room, |s.h|)
    ensures NoOverflow(Release(cfg, s, now, room).1)
    decreases |s.h|, Gap(s)
  {
    hide Turn, Stops, Release, AllRoom, RoomAfter;
    ReleaseUnfolds(cfg, s, now, room);
    if !Stops(s, now) {
      TurnHasRoom(cfg, s, now, room);
      RoomyRelease(cfg, Turn(cfg, s, now, HasRoom(room)).0, now, RoomAfter(s, room));
    }
  }

  /** Without losses and overflows what passes is what is sent. */
  lemma {:induction false} PassedIsSent(out: seq<Outcome>)
    requires NoLoss(out) && NoOverflow(out)
    ensures Passed(out) == SentNumbers(out)
  {
    if out != [] {
      PassedIsSent(out[1..]);
    }
  }

  // ---- Across flushes ----

  /** `hs` continues `past`, and every tick since finds room for what is buffered, and no number
      that is overdue. */
  predicate InTime(cfg: Config, hs: History, past: History) {
    hs == past
    || (hs.Then? && InTime(cfg, hs.past, past)
        && (hs.e.Tick? ==>
              var s := Run(cfg, hs.past).0;
              AllRoom(hs.e.room, |s.h|) && !(Gapped(s) && hs.e.now > s.holdUntil)))
  }

  /** What has been logged since then. */
  function Since(cfg: Config, hs: History, past: History): (out: seq<Outcome>)
    requires InTime(cfg, hs, past)
  {
    if hs == past then [] else Since(cfg, hs.past, past) + Apply(cfg, Run(cfg, hs.past).0, hs.e).1
  }

  lemma {:induction false} LogGrows(cfg: Config, hs: History, past: History)
    requires InTime(cfg, hs, past)
    ensures Run(cfg, hs).1 == Run(cfg, past).1 + Since(cfg, hs, past)
  {
    hide Run, Apply, InTime;
    if hs == past {
      assert Run(cfg, past).1 + [] == Run(cfg, past).1;
    } else {
      InTimeBefore(cfg, hs, past);
      LogGrows(cfg, hs.past, past);
      RunNext(cfg, hs.past, hs.e);
      Associate(Run(cfg, past).1, Since(cfg, hs.past, past), Apply(cfg, Run(cfg, hs.past).0, hs.e).1);
    }
  }

  lemma InTimeBefore(cfg: Config, hs: History, past: History)
    requires InTime(cfg, hs, past) && hs != past
    ensures hs.Then? && InTime(cfg, hs.past, past)
  {
  }

  lemma RunNext(cfg: Config, hs: History, e: Event)
    ensures var (t, out) := Apply(cfg, Run(cfg, hs).0, e); Run(cfg, Then(hs, e)) == (t, Run(cfg, hs).1 + out)
  {
  }

  lemma Associate<T>(a: seq<T>, b: seq<T>, c: seq<T>)
    ensures (a + b) + c == a + (b + c)
  {
  }

  /** What is kept: order, no loss, no overflow, and the numbers sent follow each other from where
      the buffer stood. */
  ghost predicate Seamless(s: State, t: State, out: seq<Outcome>) {
    && Settled(t) && t.hasProcessed && NoLoss(out) && NoOverflow(out) && t.lost == s.lost
    && Consecutive(SentNumbers(out), s.nextExpected) && t.nextExpected == Plus(s.nextExpected, |SentNumbers(out)|)
  }

  lemma TickIsSeamless(cfg: Config, s: State, now: int, room: seq<bool>)
    requires cfg.bufferMs >= 0 && Settled(s) && s.hasProcessed
    requires AllRoom(room, |s.h|) && !(Gapped(s) && now > s.holdUntil)
    ensures Seamless(s, FlushStep(cfg, s, now, room).0, FlushStep(cfg, s, now, room).1)
  {
    FlushLosesOverdue(cfg, s, now, room);
    FlushSettles(cfg, s, now, room);
    if !Waiting(cfg, s, now) {
      FlushLeavesGap(cfg, s, now, room);
      RoomyRelease(cfg, s, now, room);
      ReleasePassesConsecutive(cfg, s, now, room);
      ReleaseCountsLosses(cfg, s, now, room);
      PassedIsSent(FlushStep(cfg, s, now, room).1);
    }
    hide Release, Settled, Gapped, AllRoom;
  }

  lemma {:induction false} ReleaseCountsLosses(cfg: Config, s: State, now: int, room: seq<bool>)
    requires NoLoss(Release(cfg, s, now, room).1)
    ensures Release(cfg, s, now, room).0.lost == s.lost
    decreases |s.h|, Gap(s)
  {
    hide Stops, Release;
    ReleaseUnfolds(cfg, s, now, room);
    if !Stops(s, now) {
      var (t, o) := Turn(cfg, s, now, HasRoom(room));
      var rest := Release(cfg, t, now, RoomAfter(s, room)).1;
      assert ([o] + rest)[0] == o && forall i :: 0 <= i < |rest| ==> rest[i] == ([o] + rest)[i + 1];
      ReleaseCountsLosses(cfg, t, now, RoomAfter(s, room));
    }
  }

  lemma SeamlessJoin(s: State, t: State, u: State, a: seq<Outcome>, b: seq<Outcome>)
    requires Seamless(s, t, a) && Seamless(t, u, b)
    ensures Seamless(s, u, a + b)
  {
    hide Settled;
    SentConcat(a, b);
    ConsecutiveJoin(SentNumbers(a), SentNumbers(b), s.nextExpected);
    PlusPlus(s.nextExpected, |SentNumbers(a)|, |SentNumbers(b)|);
  }

  lemma {:induction false} SentConcat(a: seq<Outcome>, b: seq<Outcome>)
    ensures SentNumbers(a + b) == SentNumbers(a) + SentNumbers(b)
  {
    hide SentNumbers, SentBy;
    if a == [] {
      assert a + b == b;
      NothingSent();
    } else {
      SentConcat(a[1..], b);
      assert a == [a[0]] + a[1..] && a + b == [a[0]] + (a[1..] + b);
      SentCons(a[0], a[1..]);
      SentCons(a[0], a[1..] + b);
      Associate(SentBy(a[0]), SentNumbers(a[1..]), SentNumbers(b));
    }
  }

  lemma NothingSent()
    ensures SentNumbers([]) == []
  {
  }

  /** Main result: reordering is undone across flushes. From any point of a run after the first
      release on, as long as every number comes before its deadline and the output has room,
      whatever the order, the repeats and the number of flushes: nothing is lost, and the numbers
      sent are consecutive from the one that was expected then. */
  lemma {:induction false} GapsFilledInTimeLeaveNoTrace(cfg: Config, hs: History, past: History)
    requires cfg.bufferMs >= 0 && HalfRangeStart(cfg, past) && Run(cfg, past).0.hasProcessed && InTime(cfg, hs, past)
    ensures Run(cfg, hs).1 == Run(cfg, past).1 + Since(cfg, hs, past)
    ensures Seamless(Run(cfg, past).0, Run(cfg, hs).0, Since(cfg, hs, past))
  {
    hide Run, HalfRangeStart, Seamless, Settled, Gapped, AllRoom;
    LogGrows(cfg, hs, past);
    if hs == past {
      RunSettles(cfg, past);
      NothingIsSeamless(Run(cfg, past).0);
    } else {
      GapsFilledInTimeLeaveNoTrace(cfg, hs.past, past);
      var s, t := Run(cfg, past).0, Run(cfg, hs.past).0;
      SeamlessSettles(s, t, Since(cfg, hs.past, past));
      RunNext(cfg, hs.past, hs.e);
      match hs.e {
        case Arrive(pkt, now) => ArrivalIsSeamless(cfg, t, pkt, now);
        case Tick(now, room) => TickIsSeamless(cfg, t, now, room);
      }
      SeamlessJoin(s, t, Run(cfg, hs).0, Since(cfg, hs.past, past), Apply(cfg, t, hs.e).1);
    }
  }

  lemma NothingIsSeamless(s: State)
    requires Settled(s) && s.hasProcessed
    ensures Seamless(s, s, [])
  {
    hide Settled;
  }

  lemma SeamlessSettles(s: State, t: State, out: seq<Outcome>)
    requires Seamless(s, t, out)
    ensures Settled(t) && t.hasProcessed
  {
  }

  lemma ArrivalIsSeamless(cfg: Config, s: State, pkt: Packet, now: int)
    requires Settled(s) && s.hasProcessed
    ensures Seamless(s, PushStep(cfg, s, pkt, now).0, [])
  {
    PushSettles(cfg, s, pkt, now);
    hide Settled;
  }

  /** And after each tick nothing is held back that could go out. */
  lemma NothingIsHeldBack(cfg: Config, hs: History, now: int, room: seq<bool>)
    requires HalfRangeStart(cfg, Then(hs, Tick(now, room))) && Run(cfg, Then(hs, Tick(now, room))).0.hasProcessed
    ensures var t := Run(cfg, Then(hs, Tick(now, room))).0; Absent(t.nextExpected, t.h)
  {
    RunSettles(cfg, hs);
    var s := Run(cfg, hs).0;
    if !Waiting(cfg, s, now) {
      FlushLeavesGap(cfg, s, now, room);
    }
  }
}
