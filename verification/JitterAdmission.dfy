/** What the jitter buffer lets in and when it begins to let out, over every run and without any
    assumption on the packets: the age limit, the accumulation window and the hold deadline. */
module JitterAdmission {
  import opened Basics
  import opened SequenceNumbers
  import opened PacketHeap
  import opened JitterBuffer
  import opened JitterProperties
  import opened JitterHistory
  import opened JitterReordering
  import opened JitterSteady

  // ---- Which arrivals are kept ----

  /** The packet's number is ahead of the last one that was passed, if there is one. */
  predicate StillWanted(s: State, pkt: Packet) {
    s.hasProcessed ==> 0 < Ahead(pkt.sequence, s.lastProcessed) < HALF_RANGE
  }

  /** Main result: on every run an arrival is kept if and only if it is not older than MaxLateMs and
      its number is ahead of the last one passed. It then joins the buffer and is counted as
      received; otherwise it is counted as dropped. Nothing else of the buffer's contents or
      counters changes. */
  lemma KeptIff(cfg: Config, hs: History, pkt: Packet, now: int)
    ensures var s, t := Run(cfg, hs).0, Run(cfg, Then(hs, Arrive(pkt, now))).0;
            && t.released == s.released && t.lost == s.lost
            && if Punctual(cfg, Arrive(pkt, now)) && StillWanted(s, pkt) then
                 && multiset(t.h) == multiset(s.h) + multiset{Entry(pkt, now)}
                 && t.received == s.received + 1 && t.dropped == s.dropped
               else
                 t.h == s.h && t.received == s.received && t.dropped == s.dropped + 1
  {
    hide Pushed;
    var s := Run(cfg, hs).0;
    PushedContents(s.h, Entry(pkt, now));
  }

  // ---- Everything inside was punctual ----

  /** The packet arrived at `at`, and was not too old then. */
  predicate Admitted(cfg: Config, hs: History, pkt: Packet, at: int) {
    Happened(hs, Arrive(pkt, at)) && Punctual(cfg, Arrive(pkt, at))
  }

  ghost predicate AllAdmitted(cfg: Config, hs: History, h: seq<Entry>) {
    forall e :: e in h ==> Admitted(cfg, hs, e.pkt, e.arrivedAt)
  }

  ghost predicate OutcomesAdmitted(cfg: Config, hs: History, out: seq<Outcome>) {
    forall o :: o in out && !o.Lost? ==> exists at: int :: Admitted(cfg, hs, o.pkt, at)
  }

  lemma TurnAdmits(cfg: Config, hs: History, s: State, now: int, ok: bool)
    requires !Stops(s, now) && AllAdmitted(cfg, hs, s.h)
    ensures var (t, o) := Turn(cfg, s, now, ok);
            AllAdmitted(cfg, hs, t.h) && (!o.Lost? ==> exists at: int :: Admitted(cfg, hs, o.pkt, at))
  {
    hide Admitted, Popped;
    PoppedMembers(s.h);
    assert s.h[0] in s.h;
  }

  lemma {:induction false} ReleaseAdmits(cfg: Config, hs: History, s: State, now: int, room: seq<bool>)
    requires AllAdmitted(cfg, hs, s.h)
    ensures var (t, out) := Release(cfg, s, now, room); AllAdmitted(cfg, hs, t.h) && OutcomesAdmitted(cfg, hs, out)
    decreases |s.h|, Gap(s)
  {
    hide Turn, Stops, Release, Admitted;
    ReleaseUnfolds(cfg, s, now, room);
    if !Stops(s, now) {
      TurnAdmits(cfg, hs, s, now, HasRoom(room));
      ReleaseAdmits(cfg, hs, Turn(cfg, s, now, HasRoom(room)).0, now, RoomAfter(s, room));
    }
  }

  lemma AdmissionStays(cfg: Config, hs: History, e: Event, h: seq<Entry>, log: seq<Outcome>)
    requires AllAdmitted(cfg, hs, h) && OutcomesAdmitted(cfg, hs, log)
    ensures AllAdmitted(cfg, Then(hs, e), h) && OutcomesAdmitted(cfg, Then(hs, e), log)
  {
    forall o | o in log && !o.Lost?
      ensures exists at: int :: Admitted(cfg, Then(hs, e), o.pkt, at)
    {
      var at: int :| Admitted(cfg, hs, o.pkt, at);
      assert Admitted(cfg, Then(hs, e), o.pkt, at);
    }
  }

  /** Main result: on every run whatever is buffered, and whatever was sent, dropped for a full
      output or discarded, has arrived, and was not older than MaxLateMs when it did. */
  lemma {:induction false} EverythingWasPunctual(cfg: Config, hs: History)
    ensures var (s, log) := Run(cfg, hs); AllAdmitted(cfg, hs, s.h) && OutcomesAdmitted(cfg, hs, log)
  {
    match hs
    case Begin =>
    case Then(past, e) =>
      EverythingWasPunctual(cfg, past);
      var (s, log) := Run(cfg, past);
      AdmissionStays(cfg, past, e, s.h, log);
      match e
      case Arrive(pkt, now) => ArrivalAdmits(cfg, past, pkt, now);
      case Tick(now, room) => ReleaseAdmitsTick(cfg, hs, s, now, room);
  }

  lemma ArrivalAdmits(cfg: Config, past: History, pkt: Packet, now: int)
    requires AllAdmitted(cfg, Then(past, Arrive(pkt, now)), Run(cfg, past).0.h)
    ensures AllAdmitted(cfg, Then(past, Arrive(pkt, now)), Run(cfg, Then(past, Arrive(pkt, now))).0.h)
  {
    hide Pushed;
    PushedMembers(Run(cfg, past).0.h, Entry(pkt, now));
    assert Happened(Then(past, Arrive(pkt, now)), Arrive(pkt, now));
  }

  lemma ReleaseAdmitsTick(cfg: Config, hs: History, s: State, now: int, room: seq<bool>)
    requires AllAdmitted(cfg, hs, s.h)
    ensures var (t, out) := FlushStep(cfg, s, now, room); AllAdmitted(cfg, hs, t.h) && OutcomesAdmitted(cfg, hs, out)
  {
    hide Release, Admitted;
    if !Waiting(cfg, s, now) {
      ReleaseAdmits(cfg, hs, Opened(cfg, s, now), now, room);
    }
  }

  // ---- When the first packet goes out ----

  /** When the first arrival that was not too old came. */
  function FirstPunctual(cfg: Config, hs: History): Option<int> {
    match hs
    case Begin => None
    case Then(past, e) =>
      var first := FirstPunctual(cfg, past);
      if first.Some? then first else if Punctual(cfg, e) then Some(e.now) else None
  }

  /** Some tick has come BufferMs or more after the first punctual arrival. */
  predicate WindowIsOver(cfg: Config, hs: History) {
    hs.Then?
    && (WindowIsOver(cfg, hs.past)
        || (hs.e.Tick? && FirstPunctual(cfg, hs.past).Some?
            && hs.e.now >= FirstPunctual(cfg, hs.past).value + cfg.bufferMs * 1_000_000))
  }

  /** Before the window is over everything that was punctual is buffered. */
  predicate Accumulates(s: State, first: Option<int>) {
    && !s.hasProcessed && !s.nextSet && (s.started <==> first.Some?) && (s.started <==> |s.h| > 0)
    && (s.started ==> s.firstAt == first.value)
  }

  lemma ArrivalKeepsWindow(cfg: Config, s: State, first: Option<int>, pkt: Packet, now: int)
    requires Accumulates(s, first)
    ensures var e := Arrive(pkt, now);
            Accumulates(PushStep(cfg, s, pkt, now).0,
                        if first.Some? then first else if Punctual(cfg, e) then Some(now) else None)
  {
    hide Pushed;
    PushedContents(s.h, Entry(pkt, now));
    assert |multiset(Pushed(s.h, Entry(pkt, now)))| == |s.h| + 1;
  }

  /** The flush that ends the window sends the root, or drops it for a full output. */
  lemma WindowEnds(cfg: Config, s: State, now: int, room: seq<bool>)
    requires |s.h| > 0 && !s.nextSet
    ensures Release(cfg, Opened(cfg, s, now), now, room).1 != []
  {
    hide Turn;
    ReleaseUnfolds(cfg, Opened(cfg, s, now), now, room);
  }

  /** Main result: on every run nothing has come out of the buffer if and only if no tick has yet
      come BufferMs or more after the first punctual arrival. */
  lemma {:induction false} NothingOutIffWindowOpen(cfg: Config, hs: History)
    ensures Run(cfg, hs).1 == [] <==> !WindowIsOver(cfg, hs)
    ensures !WindowIsOver(cfg, hs) ==> Accumulates(Run(cfg, hs).0, FirstPunctual(cfg, hs))
  {
    match hs
    case Begin =>
    case Then(past, e) =>
      hide Release, Turn;
      NothingOutIffWindowOpen(cfg, past);
      var s := Run(cfg, past).0;
      match e
      case Arrive(pkt, now) =>
        if !WindowIsOver(cfg, past) { ArrivalKeepsWindow(cfg, s, FirstPunctual(cfg, past), pkt, now); }
      case Tick(now, room) =>
        if !WindowIsOver(cfg, past) && |s.h| > 0 { WindowEnds(cfg, s, now, room); }
  }

  // ---- The hold deadline ----

  predicate Progresses(out: seq<Outcome>) {
    exists i :: 0 <= i < |out| && !out[i].Stale?
  }

  /** When a number was last passed: sent, dropped for a full output or declared lost. */
  function LastProgress(cfg: Config, hs: History): int {
    match hs
    case Begin => 0
    case Then(past, e) =>
      if e.Tick? && Progresses(FlushStep(cfg, Run(cfg, past).0, e.now, e.room).1) then e.now
        else LastProgress(cfg, past)
  }

  lemma {:induction false} ReleaseHolds(cfg: Config, s: State, now: int, room: seq<bool>)
    ensures var (t, out) := Release(cfg, s, now, room);
            t.holdUntil == if Progresses(out) then now + cfg.bufferMs * 1_000_000 else s.holdUntil
    decreases |s.h|, Gap(s)
  {
    hide Turn, Stops, Release;
    ReleaseUnfolds(cfg, s, now, room);
    if !Stops(s, now) {
      var (t, o) := Turn(cfg, s, now, HasRoom(room));
      TurnHolds(cfg, s, now, HasRoom(room));
      ReleaseHolds(cfg, t, now, RoomAfter(s, room));
      ProgressCons(o, Release(cfg, t, now, RoomAfter(s, room)).1);
    }
  }

  lemma ProgressCons(o: Outcome, rest: seq<Outcome>)
    ensures Progresses([o] + rest) <==> !o.Stale? || Progresses(rest)
  {
    assert ([o] + rest)[0] == o;
    if i :| 0 <= i < |rest| && !rest[i].Stale? {
      assert ([o] + rest)[i + 1] == rest[i];
    }
  }

  /** The first flush past the window passes the root at once. */
  lemma OpeningProgresses(cfg: Config, s: State, now: int, room: seq<bool>)
    requires |s.h| > 0 && !s.nextSet
    ensures Progresses(Release(cfg, Opened(cfg, s, now), now, room).1)
  {
    var o := Opened(cfg, s, now);
    hide Release;
    ReleaseUnfolds(cfg, o, now, room);
    ProgressCons(Turn(cfg, o, now, HasRoom(room)).1,
                 Release(cfg, Turn(cfg, o, now, HasRoom(room)).0, now, RoomAfter(o, room)).1);
  }

  /** Main result: on every run that has begun to release, the deadline after which a missing number
      is given up is BufferMs after a number was last passed. */
  lemma {:induction false} DeadlineIsBufferAfterProgress(cfg: Config, hs: History)
    requires Run(cfg, hs).0.nextSet
    ensures Run(cfg, hs).0.holdUntil == LastProgress(cfg, hs) + cfg.bufferMs * 1_000_000
  {
    match hs
    case Then(past, e) =>
      hide Release, Progresses;
      var s := Run(cfg, past).0;
      if s.nextSet {
        DeadlineIsBufferAfterProgress(cfg, past);
      }
      match e
      case Arrive(_, _) =>
      case Tick(now, room) =>
        if Waiting(cfg, s, now) {
          NothingProgresses();
        } else {
          ReleaseHolds(cfg, Opened(cfg, s, now), now, room);
          ReleaseKeepsNextSet(cfg, Opened(cfg, s, now), now, room);
          if !s.nextSet {
            OpeningProgresses(cfg, s, now, room);
          }
        }
  }

  lemma NothingProgresses()
    ensures !Progresses([])
  {
  }

  /** Main result: on every run with a half-range start a flush declares a number lost if and only if
      the next number is missing, a later one is buffered, and more than BufferMs have gone by
      since a number was last passed. */
  lemma LossIffSilentForBuffer(cfg: Config, hs: History, now: int, room: seq<bool>)
    requires cfg.bufferMs >= 0 && HalfRangeStart(cfg, hs)
    ensures var s := Run(cfg, hs).0;
            NoLoss(FlushStep(cfg, s, now, room).1) <==>
              !(s.hasProcessed && Gapped(s) && now > LastProgress(cfg, hs) + cfg.bufferMs * 1_000_000)
  {
    LossIffOverdue(cfg, hs, now, room);
    RunSettles(cfg, hs);
    hide Run, HalfRangeStart, LastProgress, Gapped;
    if Run(cfg, hs).0.nextSet {
      DeadlineIsBufferAfterProgress(cfg, hs);
    }
  }

  // ---- Room in the output ----

  /** One for each send that a flush attempts: whether it went through. */
  function Attempts(out: seq<Outcome>): seq<bool> {
    if out == [] then []
    else (if out[0].Sent? then [true] else if out[0].Overflow? then [false] else []) + Attempts(out[1..])
  }

  lemma {:induction false} ReleaseAttempts(cfg: Config, s: State, now: int, room: seq<bool>)
    ensures var tries := Attempts(Release(cfg, s, now, room).1);
            forall k :: 0 <= k < |tries| ==> (tries[k] <==> k < |room| && room[k])
    decreases |s.h|, Gap(s)
  {
    hide Turn, Stops, Release, Sends;
    ReleaseUnfolds(cfg, s, now, room);
    if !Stops(s, now) {
      var (t, o) := Turn(cfg, s, now, HasRoom(room));
      TurnTries(cfg, s, now, HasRoom(room));
      var rest := Release(cfg, t, now, RoomAfter(s, room)).1;
      ReleaseAttempts(cfg, t, now, RoomAfter(s, room));
      assert ([o] + rest)[1..] == rest;
    }
  }

  lemma TurnTries(cfg: Config, s: State, now: int, ok: bool)
    requires !Stops(s, now)
    ensures var o := Turn(cfg, s, now, ok).1;
            (Sends(s) <==> o.Sent? || o.Overflow?) && (o.Sent? ==> ok) && (o.Overflow? ==> !ok)
  {
  }

  /** Main result: on every run the k-th packet that a flush tries to send goes out if and only if the output
      has room for the k-th send; otherwise it is dropped. */
  lemma RoomDecides(cfg: Config, hs: History, now: int, room: seq<bool>)
    ensures var tries := Attempts(FlushStep(cfg, Run(cfg, hs).0, now, room).1);
            forall k :: 0 <= k < |tries| ==> (tries[k] <==> k < |room| && room[k])
  {
    hide Release, Waiting;
    var s := Run(cfg, hs).0;
    if !Waiting(cfg, s, now) {
      RoomIsUsed(cfg, s, now, room);
    }
  }

  lemma RoomIsUsed(cfg: Config, s: State, now: int, room: seq<bool>)
    requires !Waiting(cfg, s, now)
    ensures var tries := Attempts(Release(cfg, Opened(cfg, s, now), now, room).1);
            forall k :: 0 <= k < |tries| ==> (tries[k] <==> k < |room| && room[k])
  {
    ReleaseAttempts(cfg, Opened(cfg, s, now), now, room);
  }
}
