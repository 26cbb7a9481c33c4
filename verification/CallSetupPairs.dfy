/** Call set-up is all or nothing: as long as nobody asks to close a side of a call, either both
    its sessions are live at rest or neither is. */
module CallSetupPairs {
  import opened Basics
  import opened CallSetup
  import opened CallSetupPlans
  import opened CallSetupLeaks
  import opened CallSetupPipelines

  // ---- The two sides of a call ----

  /** The ID of one side of the call. */
  function Side(call: string, second: bool): string {
    if second then TAccess(call) else TCore(call)
  }

  /** IDs of different calls or sides are different. */
  lemma SidesAreUnique(a: string, i: bool, b: string, j: bool)
    requires Side(a, i) == Side(b, j)
    ensures a == b && i == j
  {
    var x, y := Side(a, i), Side(b, j);
    assert x[|x| - 1] == (if i then 's' else 'e') && y[|y| - 1] == (if j then 's' else 'e');
    assert a == x[..|a|] && b == y[..|b|];
  }

  /** The session of one side that a handler at this stage has created. */
  function RefOf(stage: Stage, second: bool): Option<nat> {
    match stage
    case CreateTCore => None
    case CreateTAccess(rt) => if second then None else Some(rt)
    case AcquireFirst(rt, ra) => Some(if second then ra else rt)
    case AcquireSecond(rt, ra, _) => Some(if second then ra else rt)
    case ListenFirst(rt, ra, _, _) => Some(if second then ra else rt)
    case ListenSecond(rt, ra, _) => Some(if second then ra else rt)
    case AddSink(rt, ra, _) => Some(if second then ra else rt)
    case AddPipeline(rt, ra, _) => Some(if second then ra else rt)
    case OpenStream(rt, ra, _) => Some(if second then ra else rt)
    case StartPumps(rt, ra, _) => Some(if second then ra else rt)
    case Committed => None
    case Watching(_, _) => None
    case Closer => None
  }

  /** The plan of a stage closes what the handler has created, and nothing else. */
  lemma PlannedCloses(th: Thread, call: string, second: bool)
    ensures Occurs(Planned(th), CloseSession(Side(call, second)))
            == One(th.call == call && RefOf(th.stage, second).Some?)
  {
    hide Occurs, Closes, Side;
    var u := CloseSession(Side(call, second));
    OccursInCloses(th.call, call, second);
    OccursNot([], u);
    match th.stage
    case CreateTAccess(_) => OccursInFirst(th.call, call, second);
    case AcquireSecond(_, _, p1) => OtherAndCloses([FreePort(p1)], th.call, u);
    case ListenFirst(_, _, p1, p2) => OtherAndCloses([FreePort(p1), FreePort(p2)], th.call, u);
    case ListenSecond(_, _, p2) => OtherAndCloses([FreePort(p2)], th.call, u);
    case AddPipeline(_, _, _) => OtherAndCloses([Unsink(Starting(th))], th.call, u);
    case OpenStream(_, _, _) => OtherAndCloses([Unpool(Starting(th)), Unsink(Starting(th))], th.call, u);
    case StartPumps(_, _, _) => OtherAndCloses([Unpool(Starting(th)), Unsink(Starting(th))], th.call, u);
    case Watching(_, _) => OccursNot(Planned(th), u);
    case _ =>
  }

  lemma OtherAndCloses(us: seq<Undo>, call: string, u: Undo)
    requires u !in us
    ensures Occurs(us + Closes(call), u) == Occurs(Closes(call), u)
  {
    OccursConcat(us, Closes(call), u);
    OccursNot(us, u);
  }

  lemma OccursInFirst(mine: string, call: string, second: bool)
    ensures Occurs([CloseSession(TCore(mine))], CloseSession(Side(call, second))) == One(mine == call && !second)
  {
    assert [CloseSession(TCore(mine))][1..] == [];
    if Side(mine, false) == Side(call, second) { SidesAreUnique(mine, false, call, second); }
  }

  lemma OccursInCloses(mine: string, call: string, second: bool)
    ensures Occurs(Closes(mine), CloseSession(Side(call, second))) == One(mine == call)
  {
    var u := CloseSession(Side(call, second));
    var first, last := CloseSession(Side(mine, false)), CloseSession(Side(mine, true));
    assert Closes(mine) == [first] + [last];
    OccursConcat([first], [last], u);
    assert [first][1..] == [] && [last][1..] == [];
    if first == u { SidesAreUnique(mine, false, call, second); }
    if last == u { SidesAreUnique(mine, true, call, second); }
  }

  // ---- Who may close a side ----

  /** The side is live, but its set-up has not succeeded. */
  predicate Open(w: World, id: string) {
    id in w.live && w.live[id] !in w.committed
  }

  /** Only the creator of the live session of this side is going to close it. */
  predicate HoldsOwn(w: World, th: Thread, call: string, second: bool) {
    var id := Side(call, second);
    CloseSession(id) in th.undo ==> th.call == call && id in w.live && RefOf(th.stage, second) == Some(w.live[id])
  }

  /** A session of this side whose set-up succeeded is live, unless it had ended long ago. */
  ghost predicate CommittedLive(w: World, id: string, gone: set<nat>) {
    forall r: nat :: r in w.committed && r !in gone && RefIs(w.objs, r, id) ==> id in w.live && w.live[id] == r
  }

  ghost predicate SideInv(s: State, call: string, second: bool, gone: set<nat>) {
    var id := Side(call, second);
    && Holders(s.threads, CloseSession(id)) == One(Open(s.w, id))
    && (forall i :: 0 <= i < |s.threads| ==> HoldsOwn(s.w, s.threads[i], call, second))
    && CommittedLive(s.w, id, gone)
  }

  predicate CommittedKnown(w: World) {
    forall r: nat :: r in w.committed ==> r < |w.objs|
  }

  /** What one step may do to a side: open it, commit it, close it, or leave it alone. */
  ghost predicate SideMoved(w: World, th: Thread, e: Effect, call: string, second: bool, gone: set<nat>) {
    var id := Side(call, second);
    var u := CloseSession(id);
    && Occurs(e.th.undo, u) + One(Open(w, id)) == Occurs(th.undo, u) + One(Open(e.w, id))
    && HoldsOwn(e.w, e.th, call, second)
    && (|e.started| == 1 ==> u !in e.started[0].undo)
    && (Open(w, id) && Open(e.w, id) ==> w.live[id] == e.w.live[id])
    && CommittedLive(e.w, id, gone)
  }

  /** What is known of a goroutine and of the world before its step. */
  ghost predicate Before(w: World, th: Thread, call: string, second: bool, gone: set<nat>) {
    && ThreadOk(w.objs, th) && Mapped(w) && CommittedKnown(w)
    && HoldsOwn(w, th, call, second) && CommittedLive(w, Side(call, second), gone)
    && Occurs(th.undo, CloseSession(Side(call, second))) <= One(Open(w, Side(call, second)))
  }

  /** A step that neither opens, commits nor closes a session of this side. */
  lemma QuietMoves(w: World, th: Thread, e: Effect, call: string, second: bool, gone: set<nat>)
    requires Before(w, th, call, second, gone) && w.committed == e.w.committed && Grows(w.objs, e.w.objs)
    requires var id := Side(call, second);
             && (id in w.live <==> id in e.w.live) && (id in w.live ==> w.live[id] == e.w.live[id])
             && Occurs(e.th.undo, CloseSession(id)) == Occurs(th.undo, CloseSession(id))
             && e.th.call == th.call && (th.call == call ==> RefOf(e.th.stage, second) == RefOf(th.stage, second))
             && forall i :: 0 <= i < |e.started| ==> CloseSession(id) !in e.started[i].undo
    ensures SideMoved(w, th, e, call, second, gone)
  {
    var id := Side(call, second);
    hide ThreadOk, Side, RefOf;
    OccursIff(e.th.undo, CloseSession(id));
    OccursIff(th.undo, CloseSession(id));
  }

  /** A handler creates a session of this side. */
  lemma CreateMoves(w: World, th: Thread, call: string, second: bool, gone: set<nat>)
    requires Before(w, th, call, second, gone) && !th.rolling && Creating(th.stage)
    ensures SideMoved(w, th, CreateStep(w, th), call, second, gone)
  {
    hide Planned, Closes, RefsOk, Occurs, CreateStep, NewSession, SideMoved, RefOf;
    var e := CreateStep(w, th);
    var now := th.stage.CreateTAccess?;
    var id, mine := Side(call, second), Side(th.call, now);
    assert mine == if now then TAccess(th.call) else TCore(th.call);
    CreateStepOk(w, th);
    CreateKeepsRest(w, th, id, second);
    PlannedCloses(th, call, second);
    PlannedCloses(e.th, call, second);
    if CanCreate(w, mine) && mine == id {
      SidesAreUnique(th.call, now, call, second);
      CreatedSide(w, th, call, second, gone);
    } else {
      QuietMoves(w, th, e, call, second, gone);
    }
  }

  /** Creating a session concerns no other ID. */
  lemma CreateKeepsRest(w: World, th: Thread, id: string, second: bool)
    requires !th.rolling && Creating(th.stage)
    ensures var e := CreateStep(w, th);
            var mine := if th.stage.CreateTAccess? then TAccess(th.call) else TCore(th.call);
            && e.w.committed == w.committed && e.started == [] && e.th.call == th.call
            && (if CanCreate(w, mine) then !e.th.rolling else e.th == th.(rolling := true) && e.w == w)
            && (mine != id || !CanCreate(w, mine) ==>
                  (id in w.live <==> id in e.w.live) && (id in w.live ==> w.live[id] == e.w.live[id]))
            && (!CanCreate(w, mine) || second != th.stage.CreateTAccess? ==>
                  RefOf(e.th.stage, second) == RefOf(th.stage, second))
  {
  }

  lemma CreatedSide(w: World, th: Thread, call: string, second: bool, gone: set<nat>)
    requires Before(w, th, call, second, gone) && !th.rolling && th.call == call
    requires if second then th.stage.CreateTAccess? else th.stage.CreateTCore?
    requires CanCreate(w, Side(call, second))
    ensures SideMoved(w, th, CreateStep(w, th), call, second, gone)
  {
    var e := CreateStep(w, th);
    var id := Side(call, second);
    CreateStepOk(w, th);
    PlannedCloses(th, call, second);
    PlannedCloses(e.th, call, second);
    hide Planned, Closes, TCore, TAccess, RefsOk, Occurs;
    assert e.w.live[id] == |w.objs|;
  }

  lemma PortKeepsSessions(w: World, th: Thread, ok: bool, second: bool)
    requires !th.rolling && Porting(th.stage)
    ensures var e := PortStep(w, th, ok);
            && e.w.live == w.live && e.w.objs == w.objs && e.w.committed == w.committed && e.started == []
            && e.th.call == th.call && RefOf(e.th.stage, second) == RefOf(th.stage, second)
  {
  }

  lemma PortMoves(w: World, th: Thread, ok: bool, call: string, second: bool, gone: set<nat>)
    requires Before(w, th, call, second, gone) && !th.rolling && Porting(th.stage)
    ensures SideMoved(w, th, PortStep(w, th, ok), call, second, gone)
  {
    hide Planned, Closes, TCore, TAccess, RefsOk, Occurs, PortStep, RefOf;
    PortStepOk(w, th, ok);
    PortKeepsSessions(w, th, ok, second);
    PlannedCloses(th, call, second);
    PlannedCloses(PortStep(w, th, ok).th, call, second);
    PortFails(w, th, ok);
    QuietMoves(w, th, PortStep(w, th, ok), call, second, gone);
  }

  lemma PortFails(w: World, th: Thread, ok: bool)
    requires !th.rolling && Porting(th.stage)
    ensures PortStep(w, th, ok).th.rolling ==> PortStep(w, th, ok).th.undo == th.undo
  {
  }

  lemma StartKeepsSessions(w: World, th: Thread, ok: bool, second: bool, id: string)
    requires !th.rolling && Piping(th.stage) && !(th.stage.StartPumps? && th.stage.second)
    ensures var e := StartStep(w, th, ok);
            && e.w.live == w.live && e.w.objs == w.objs && e.w.committed == w.committed
            && e.th.call == th.call && RefOf(e.th.stage, second) == RefOf(th.stage, second)
            && (forall i :: 0 <= i < |e.started| ==> CloseSession(id) !in e.started[i].undo)
            && (e.th.rolling ==> e.th.undo == th.undo)
  {
  }

  /** Every step of starting a pipeline but the last. */
  lemma StartMoves(w: World, th: Thread, ok: bool, call: string, second: bool, gone: set<nat>)
    requires Before(w, th, call, second, gone) && !th.rolling && Piping(th.stage)
             && !(th.stage.StartPumps? && th.stage.second)
    ensures SideMoved(w, th, StartStep(w, th, ok), call, second, gone)
  {
    hide Planned, Closes, TCore, TAccess, RefsOk, Occurs, StartStep, RefOf;
    StartStepOk(w, th, ok);
    StartKeepsSessions(w, th, ok, second, Side(call, second));
    PlannedCloses(th, call, second);
    PlannedCloses(StartStep(w, th, ok).th, call, second);
    QuietMoves(w, th, StartStep(w, th, ok), call, second, gone);
  }

  /** The last step commits both sides. */
  lemma CommitMoves(w: World, th: Thread, ok: bool, call: string, second: bool, gone: set<nat>)
    requires Before(w, th, call, second, gone) && !th.rolling && th.stage.StartPumps? && th.stage.second
    ensures SideMoved(w, th, StartStep(w, th, ok), call, second, gone)
  {
    var e := StartStep(w, th, ok);
    var id := Side(call, second);
    var rt, ra := th.stage.rt, th.stage.ra;
    PlannedCloses(th, call, second);
    OccursIff(th.undo, CloseSession(id));
    assert e.w.live == w.live && e.w.objs == w.objs && e.w.committed == w.committed + {rt, ra};
    assert e.th.undo == [] && CloseSession(id) !in e.started[0].undo;
    assert RefIs(w.objs, rt, Side(th.call, false)) && RefIs(w.objs, ra, Side(th.call, true));
    hide Planned, Closes, TCore, TAccess, RefsOk, StartStep, Side;
    if th.call == call {
      assert CloseSession(id) in th.undo && w.live[id] in {rt, ra};
      OwnSidesCommit(w, th, call, second, gone);
    } else {
      OtherSidesCommit(w, th, call, second, gone);
    }
  }

  /** The handler of this call commits the live sessions of both its sides. */
  lemma OwnSidesCommit(w: World, th: Thread, call: string, second: bool, gone: set<nat>)
    requires Before(w, th, call, second, gone) && th.stage.StartPumps? && th.call == call
    requires CloseSession(Side(call, second)) in th.undo
    requires RefIs(w.objs, th.stage.rt, Side(call, false)) && RefIs(w.objs, th.stage.ra, Side(call, true))
    ensures CommittedLive(w.(committed := w.committed + {th.stage.rt, th.stage.ra}), Side(call, second), gone)
  {
    if Side(call, false) == Side(call, true) {
      SidesAreUnique(call, false, call, true);
    }
  }

  lemma OtherSidesCommit(w: World, th: Thread, call: string, second: bool, gone: set<nat>)
    requires Before(w, th, call, second, gone) && th.stage.StartPumps? && th.call != call
    requires RefIs(w.objs, th.stage.rt, Side(th.call, false)) && RefIs(w.objs, th.stage.ra, Side(th.call, true))
    ensures var w' := w.(committed := w.committed + {th.stage.rt, th.stage.ra});
            CommittedLive(w', Side(call, second), gone) && Open(w', Side(call, second)) == Open(w, Side(call, second))
  {
    var id := Side(call, second);
    if Side(th.call, false) == id { SidesAreUnique(th.call, false, call, second); }
    if Side(th.call, true) == id { SidesAreUnique(th.call, true, call, second); }
  }

  lemma AdvancedMoves(w: World, th: Thread, ok: bool, call: string, second: bool, gone: set<nat>)
    requires Before(w, th, call, second, gone)
    ensures SideMoved(w, th, Advanced(w, th, ok), call, second, gone)
  {
    hide CreateStep, PortStep, StartStep, Planned, RefsOk, Side, RefOf, SideMoved;
    if !th.rolling && Creating(th.stage) {
      CreateMoves(w, th, call, second, gone);
    } else if !th.rolling && Porting(th.stage) {
      PortMoves(w, th, ok, call, second, gone);
    } else if !th.rolling && th.stage.StartPumps? && th.stage.second {
      CommitMoves(w, th, ok, call, second, gone);
    } else if !th.rolling && Piping(th.stage) {
      StartMoves(w, th, ok, call, second, gone);
    } else {
      QuietMoves(w, th, Advanced(w, th, ok), call, second, gone);
    }
  }

  lemma RolledMoves(w: World, th: Thread, call: string, second: bool, gone: set<nat>)
    requires Before(w, th, call, second, gone)
    ensures SideMoved(w, th, Rolled(w, th), call, second, gone)
  {
    var e := Rolled(w, th);
    var id := Side(call, second);
    RolledOk(w, th);
    if th.rolling && th.undo != [] && th.undo[0] == CloseSession(id) {
      RolledClose(w, th, call, second, gone);
    } else {
      RolledElsewhere(w, th, id);
      hide Planned, RefsOk, Side, RefOf, ThreadOk, Rolled, SideMoved;
      QuietMoves(w, th, e, call, second, gone);
    }
  }

  lemma RolledElsewhere(w: World, th: Thread, id: string)
    requires Mapped(w) && !(th.rolling && th.undo != [] && th.undo[0] == CloseSession(id))
    ensures var e := Rolled(w, th);
            && (id in w.live <==> id in e.w.live) && (id in w.live ==> w.live[id] == e.w.live[id])
            && Occurs(e.th.undo, CloseSession(id)) == Occurs(th.undo, CloseSession(id))
            && e.w.committed == w.committed && e.started == [] && e.th.call == th.call && e.th.stage == th.stage
  {
    hide Mapped;
  }

  lemma RolledClose(w: World, th: Thread, call: string, second: bool, gone: set<nat>)
    requires Before(w, th, call, second, gone) && th.rolling && th.undo != []
             && th.undo[0] == CloseSession(Side(call, second))
    ensures SideMoved(w, th, Rolled(w, th), call, second, gone)
  {
    hide Planned, RefsOk, Side, RefOf, ThreadOk;
    OccursIff(Rolled(w, th).th.undo, CloseSession(Side(call, second)));
  }

  lemma TakeKeepsSide(s: State, t: nat, e: Effect, call: string, second: bool, gone: set<nat>)
    requires SideInv(s, call, second, gone) && t < |s.threads| && |e.started| <= 1
             && SideMoved(s.w, s.threads[t], e, call, second, gone)
    ensures SideInv(Take(s, t, e), call, second, gone)
  {
    var u := CloseSession(Side(call, second));
    var s' := Take(s, t, e);
    HoldersUpdate(s.threads, t, e.th, u);
    var updated := s.threads[t := e.th];
    if |e.started| == 1 {
      HoldersAppend(updated, e.started[0], u);
      OccursNot(e.started[0].undo, u);
      assert e.started == [e.started[0]];
    } else {
      assert updated + e.started == updated;
    }
    hide Occurs, Holders, Side;
    forall i: nat | i < |s'.threads|
      ensures HoldsOwn(s'.w, s'.threads[i], call, second)
    {
      if i < |s.threads| && i != t && u in s.threads[i].undo {
        OtherHolds(s, t, e, i, call, second, gone);
      }
    }
  }

  /** Another goroutine holds the close of this side: then the step did not touch it. */
  lemma OtherHolds(s: State, t: nat, e: Effect, i: nat, call: string, second: bool, gone: set<nat>)
    requires SideInv(s, call, second, gone) && t < |s.threads| && SideMoved(s.w, s.threads[t], e, call, second, gone)
    requires i < |s.threads| && i != t && CloseSession(Side(call, second)) in s.threads[i].undo
    ensures HoldsOwn(e.w, s.threads[i], call, second)
  {
    var u := CloseSession(Side(call, second));
    HoldersIff(s.threads, u);
    OccursIff(s.threads[t].undo, u);
    if u in s.threads[t].undo {
      TwoHolders(s.threads, if i < t then i else t, if i < t then t else i, u);
    }
    assert HoldsOwn(s.w, s.threads[i], call, second);
  }

  // ---- Runs in which nobody asks to close a side ----

  /** `hs` is `from`, continued in some way. */
  predicate Follows(hs: History, from: History) {
    hs == from || (hs.Then? && Follows(hs.past, from))
  }

  /** `hs` continues `from`, and no Close since names a side of this call: no DELETE, no timeout, no
      failed call control. */
  predicate NobodyCloses(hs: History, from: History, call: string) {
    hs == from
    || (hs.Then? && NobodyCloses(hs.past, from, call)
        && (hs.op.Close? ==> TCore(call) !in hs.op.ids && TAccess(call) !in hs.op.ids))
  }

  /** No goroutine is going to close a side of this call: none has been asked to, and no handler of
      the call is half-way. */
  predicate NothingPending(s: State, call: string) {
    forall i :: 0 <= i < |s.threads| ==>
      CloseSession(TCore(call)) !in s.threads[i].undo && CloseSession(TAccess(call)) !in s.threads[i].undo
  }

  /** The sessions that have ended. */
  function Gone(w: World): set<nat> {
    set r: nat | r < |w.objs| && w.objs[r].phase != Live
  }

  lemma AdvanceKeepsSide(s: State, t: nat, ok: bool, call: string, second: bool, gone: set<nat>)
    requires Inv(s) && WatchInv(s) && SideInv(s, call, second, gone) && t < |s.threads|
    ensures SideInv(Take(s, t, Advanced(s.w, s.threads[t], ok)), call, second, gone)
  {
    hide Advanced, Covered, Streaming, Watched, WatcherOk, FirstWatched, Side, SideMoved, Planned, RefsOk, Take, Occurs,
         Holders;
    var th := s.threads[t];
    assert ThreadOk(s.w.objs, th) && HoldsOwn(s.w, th, call, second);
    AdvancedOk(s.w, th, ok);
    HoldersUpdate(s.threads, t, th, CloseSession(Side(call, second)));
    AdvancedMoves(s.w, th, ok, call, second, gone);
    TakeKeepsSide(s, t, Advanced(s.w, th, ok), call, second, gone);
  }

  lemma RollKeepsSide(s: State, t: nat, call: string, second: bool, gone: set<nat>)
    requires Inv(s) && WatchInv(s) && SideInv(s, call, second, gone) && t < |s.threads|
    ensures SideInv(Take(s, t, Rolled(s.w, s.threads[t])), call, second, gone)
  {
    hide Rolled, Covered, Streaming, Watched, WatcherOk, FirstWatched, Side, SideMoved, Planned, RefsOk, Take, Occurs,
         Holders;
    var th := s.threads[t];
    assert ThreadOk(s.w.objs, th) && HoldsOwn(s.w, th, call, second);
    RolledOk(s.w, th);
    HoldersUpdate(s.threads, t, th, CloseSession(Side(call, second)));
    RolledMoves(s.w, th, call, second, gone);
    TakeKeepsSide(s, t, Rolled(s.w, th), call, second, gone);
  }

  lemma AppendKeepsSide(s: State, th: Thread, call: string, second: bool, gone: set<nat>)
    requires SideInv(s, call, second, gone) && CloseSession(Side(call, second)) !in th.undo
    ensures SideInv(s.(threads := s.threads + [th]), call, second, gone)
  {
    HoldersAppend(s.threads, th, CloseSession(Side(call, second)));
    OccursNot(th.undo, CloseSession(Side(call, second)));
  }

  lemma StepKeepsSide(s: State, op: Op, call: string, second: bool, gone: set<nat>)
    requires Inv(s) && WatchInv(s) && SideInv(s, call, second, gone)
    requires op.Close? ==> Side(call, second) !in op.ids
    ensures SideInv(Step(s, op), call, second, gone)
  {
    hide Advanced, Rolled, Environment, Inv, WatchInv, SideInv, Side;
    if op.Answer? {
      AppendKeepsSide(s, Thread(op.call, CreateTCore, false, []), call, second, gone);
    } else if op.Close? {
      AppendKeepsSide(s, Thread("", Closer, true, CloseAll(op.ids)), call, second, gone);
    } else if op.Advance? {
      if op.t < |s.threads| {
        AdvanceKeepsSide(s, op.t, op.ok, call, second, gone);
      }
    } else if op.Roll? {
      if op.t < |s.threads| {
        RollKeepsSide(s, op.t, call, second, gone);
      }
    } else {
      EnvironmentKeepsSide(s, op, call, second, gone);
    }
  }

  lemma EnvironmentKeepsSide(s: State, op: Op, call: string, second: bool, gone: set<nat>)
    requires SideInv(s, call, second, gone)
    ensures SideInv(s.(w := Environment(s.w, op)), call, second, gone)
  {
    hide Side, Holders, Occurs, RefOf;
    var w' := Environment(s.w, op);
    EnvironmentCommits(s.w, op);
    EnvironmentGrows(s.w, op);
    assert w'.live == s.w.live && |w'.objs| == |s.w.objs|;
    forall i: nat | i < |s.threads|
      ensures HoldsOwn(w', s.threads[i], call, second)
    {
      assert HoldsOwn(s.w, s.threads[i], call, second);
    }
  }

  lemma NothingPendingIsSide(c: Config, from: History, call: string, second: bool)
    requires NothingPending(Run(c, from), call)
    ensures SideInv(Run(c, from), call, second, Gone(Run(c, from).w))
    ensures !Open(Run(c, from).w, Side(call, second))
  {
    hide Run, ThreadsOk, Streaming, Occurs, Holders;
    var s := Run(c, from);
    var id := Side(call, second);
    RunKeepsInv(c, from);
    RunKeepsWatch(c, from);
    HoldersIff(s.threads, CloseSession(id));
    assert Open(s.w, id) ==> Pending(s.w, s.w.live[id]);
  }

  lemma {:induction false} RunKeepsSide(c: Config, hs: History, from: History, call: string, second: bool)
    requires NobodyCloses(hs, from, call) && NothingPending(Run(c, from), call)
    ensures SideInv(Run(c, hs), call, second, Gone(Run(c, from).w))
  {
    hide Step, Inv, WatchInv, SideInv, Gone, NothingPending;
    if hs == from {
      NothingPendingIsSide(c, from, call, second);
    } else {
      RunKeepsSide(c, hs.past, from, call, second);
      RunKeepsInv(c, hs.past);
      RunKeepsWatch(c, hs.past);
      StepKeepsSide(Run(c, hs.past), hs.op, call, second, Gone(Run(c, from).w));
    }
  }

  // ---- Sessions are committed together ----

  /** This step ends the set-up of the sessions `rt` and `ra` of the call. */
  predicate CommitsNow(s: State, op: Op, rt: nat, ra: nat, call: string) {
    && op.Advance? && op.t < |s.threads| && !s.threads[op.t].rolling
    && s.threads[op.t].call == call && s.threads[op.t].stage == StartPumps(rt, ra, true)
  }

  /** One handler of the call has set up `rt` and `ra` together, since `from`. */
  predicate Together(c: Config, hs: History, from: History, rt: nat, ra: nat, call: string) {
    hs != from && hs.Then?
    && (Together(c, hs.past, from, rt, ra, call) || CommitsNow(Run(c, hs.past), hs.op, rt, ra, call))
  }

  /** A step commits nothing, or the two sessions of a handler at its last stage. */
  lemma StepCommits(s: State, op: Op)
    ensures var s' := Step(s, op);
            s'.w.committed == s.w.committed
            || (op.Advance? && op.t < |s.threads|
                && var th := s.threads[op.t];
                   !th.rolling && th.stage.StartPumps? && th.stage.second
                   && s'.w.committed == s.w.committed + {th.stage.rt, th.stage.ra})
  {
    hide Advanced, Environment;
    if op.Advance? && op.t < |s.threads| {
      AdvancedCommits(s.w, s.threads[op.t], op.ok);
    } else if !op.Roll? {
      EnvironmentCommits(s.w, op);
    }
  }

  lemma AdvancedCommits(w: World, th: Thread, ok: bool)
    ensures var w' := Advanced(w, th, ok).w;
            w'.committed == w.committed
            || (!th.rolling && th.stage.StartPumps? && th.stage.second
                && w'.committed == w.committed + {th.stage.rt, th.stage.ra})
  {
    hide CreateStep, PortStep, StartStep;
    if Creating(th.stage) {
      CreateCommitsNone(w, th);
    } else if Porting(th.stage) {
      PortCommitsNone(w, th, ok);
    } else if Piping(th.stage) {
      StartCommits(w, th, ok);
    }
  }

  lemma CommitsAll(s: State, op: Op, rt: nat, ra: nat, call: string)
    requires CommitsNow(s, op, rt, ra, call)
    ensures rt in Step(s, op).w.committed && ra in Step(s, op).w.committed
  {
    hide StartStep;
    StartCommits(s.w, s.threads[op.t], op.ok);
  }

  /** Sessions, their IDs and their commitment are never forgotten. */
  lemma {:induction false} RunGrows(c: Config, hs: History, from: History)
    requires Follows(hs, from)
    ensures Grows(Run(c, from).w.objs, Run(c, hs).w.objs)
    ensures Run(c, from).w.committed <= Run(c, hs).w.committed
    ensures forall r :: r in Gone(Run(c, from).w) ==> !Alive(Run(c, hs).w, r)
  {
    hide Step;
    if hs != from {
      RunGrows(c, hs.past, from);
      var s := Run(c, hs.past);
      StepCommits(s, hs.op);
      if s.w.objs != [] {
        StepRevivesNone(s, hs.op, |s.w.objs| - 1);
      }
      forall r: nat | r < |s.w.objs|
        ensures Step(s, hs.op).w.objs[r].id == s.w.objs[r].id && (Alive(Step(s, hs.op).w, r) ==> Alive(s.w, r))
      {
        StepRevivesNone(s, hs.op, r);
      }
    }
  }

  /** Whatever has been committed since was committed together with the other side of its call. */
  lemma {:induction false} CommittedTogether(c: Config, hs: History, from: History, r: nat)
    returns (rt: nat, ra: nat, call: string)
    requires Follows(hs, from) && r in Run(c, hs).w.committed && r !in Run(c, from).w.committed
    ensures Together(c, hs, from, rt, ra, call) && r in {rt, ra}
  {
    hide Step;
    var s := Run(c, hs.past);
    if r in s.w.committed {
      rt, ra, call := CommittedTogether(c, hs.past, from, r);
    } else {
      StepCommits(s, hs.op);
      var th := s.threads[hs.op.t];
      rt, ra, call := th.stage.rt, th.stage.ra, th.call;
    }
  }

  /** The two are the sides of that call. */
  lemma {:induction false} TogetherAreSides(c: Config, hs: History, from: History, rt: nat, ra: nat, call: string)
    requires Together(c, hs, from, rt, ra, call)
    ensures var w := Run(c, hs).w;
            && rt in w.committed && ra in w.committed
            && RefIs(w.objs, rt, TCore(call)) && RefIs(w.objs, ra, TAccess(call))
  {
    var s := Run(c, hs.past);
    RunGrows(c, hs, hs.past);
    hide Step;
    if Together(c, hs.past, from, rt, ra, call) {
      TogetherAreSides(c, hs.past, from, rt, ra, call);
    } else {
      CommitsAll(s, hs.op, rt, ra, call);
      RunKeepsThreadsOk(c, hs.past);
      assert ThreadOk(s.w.objs, s.threads[hs.op.t]);
    }
  }

  /** As long as nobody closes a side, sessions that are committed had not ended before. */
  lemma {:induction false} TogetherAreNew(c: Config, hs: History, from: History, rt: nat, ra: nat, call: string,
                                          second: bool)
    requires Together(c, hs, from, rt, ra, call) && NobodyCloses(hs, from, call) && NothingPending(Run(c, from), call)
    ensures (if second then ra else rt) !in Gone(Run(c, from).w)
  {
    hide Step, NothingPending, Gone;
    var s := Run(c, hs.past);
    if Together(c, hs.past, from, rt, ra, call) {
      TogetherAreNew(c, hs.past, from, rt, ra, call, second);
    } else {
      RunKeepsSide(c, hs.past, from, call, second);
      RunKeepsInv(c, hs.past);
      NobodyClosesFollows(hs.past, from, call);
      RunGrows(c, hs.past, from);
      CommitterHolds(s, hs.op.t, call, second, Gone(Run(c, from).w));
    }
  }

  /** A handler at its last stage holds the live session of each side. */
  lemma CommitterHolds(s: State, t: nat, call: string, second: bool, gone: set<nat>)
    requires Inv(s) && SideInv(s, call, second, gone) && t < |s.threads| && !s.threads[t].rolling
    requires s.threads[t].call == call && s.threads[t].stage.StartPumps?
    ensures var r := if second then s.threads[t].stage.ra else s.threads[t].stage.rt; Alive(s.w, r)
  {
    hide Covered, Streaming, Occurs, Holders, Side;
    var th := s.threads[t];
    assert ThreadOk(s.w.objs, th) && HoldsOwn(s.w, th, call, second);
    PlannedCloses(th, call, second);
    OccursIff(th.undo, CloseSession(Side(call, second)));
  }

  // ---- Main result ----

  /** Main result, all or nothing: take any point of a run at which no close of the call is pending
      and its sides are both live or neither, such as the beginning, or after a deletion. After any
      continuation that has come to rest, and in which nobody asked to close a side of the call,
      they are again both live or neither. */
  lemma SuccessIsBoth(c: Config, hs: History, from: History, call: string)
    requires AtRest(Run(c, hs)) && NobodyCloses(hs, from, call) && NothingPending(Run(c, from), call)
    requires TCore(call) in Run(c, from).w.live <==> TAccess(call) in Run(c, from).w.live
    ensures TCore(call) in Run(c, hs).w.live <==> TAccess(call) in Run(c, hs).w.live
  {
    hide Run, AtRest, NothingPending;
    if TCore(call) in Run(c, hs).w.live {
      SideBringsOther(c, hs, from, call, false);
    }
    if TAccess(call) in Run(c, hs).w.live {
      SideBringsOther(c, hs, from, call, true);
    }
  }

  lemma {:induction false} NobodyClosesFollows(hs: History, from: History, call: string)
    requires NobodyCloses(hs, from, call)
    ensures Follows(hs, from)
  {
    if hs != from {
      NobodyClosesFollows(hs.past, from, call);
    }
  }

  lemma SideBringsOther(c: Config, hs: History, from: History, call: string, second: bool)
    requires AtRest(Run(c, hs)) && NobodyCloses(hs, from, call) && NothingPending(Run(c, from), call)
    requires Side(call, second) in Run(c, from).w.live ==> Side(call, !second) in Run(c, from).w.live
    requires Side(call, second) in Run(c, hs).w.live
    ensures Side(call, !second) in Run(c, hs).w.live
  {
    hide Run, AtRest, Covered, ThreadsOk, Streaming, NothingPending, Gone, TCore, TAccess;
    var w := Run(c, hs).w;
    var r := w.live[Side(call, second)];
    NobodyClosesFollows(hs, from, call);
    RunKeepsInv(c, hs);
    RunKeepsSide(c, hs, from, call, !second);
    SessionsAtRest(Run(c, hs), Side(call, second));
    if r in Run(c, from).w.committed {
      OldSideBringsOther(c, hs, from, call, second);
    } else {
      var rt, ra, other := CommittedTogether(c, hs, from, r);
      TogetherAreSides(c, hs, from, rt, ra, other);
      CommittedSide(w, rt, ra, other, r, call, second);
      TogetherAreNew(c, hs, from, rt, ra, call, !second);
      assert RefIs(w.objs, if second then rt else ra, Side(call, !second));
    }
  }

  /** The side was live already: then the other one was, and still is. */
  lemma OldSideBringsOther(c: Config, hs: History, from: History, call: string, second: bool)
    requires Follows(hs, from) && NothingPending(Run(c, from), call)
    requires Side(call, second) in Run(c, from).w.live ==> Side(call, !second) in Run(c, from).w.live
    requires var w, id := Run(c, hs).w, Side(call, second); id in w.live && w.live[id] in Run(c, from).w.committed
    requires SideInv(Run(c, hs), call, !second, Gone(Run(c, from).w))
    ensures Side(call, !second) in Run(c, hs).w.live
  {
    hide Run, Covered, ThreadsOk, Streaming, NothingPending, Side, Holders, HoldsOwn;
    var w, v := Run(c, hs).w, Run(c, from).w;
    var r := w.live[Side(call, second)];
    RunKeepsInv(c, hs);
    RunKeepsInv(c, from);
    RunKeepsWatch(c, from);
    RunGrows(c, hs, from);
    assert r !in Gone(v) && Alive(v, r);
    NothingPendingIsSide(c, from, call, !second);
    var q := v.live[Side(call, !second)];
    assert q in w.committed && q !in Gone(v) && RefIs(w.objs, q, Side(call, !second));
  }

  /** A session with the ID of a side of the call was set up by a handler of that call. */
  lemma CommittedSide(w: World, rt: nat, ra: nat, other: string, r: nat, call: string, second: bool)
    requires RefIs(w.objs, rt, TCore(other)) && RefIs(w.objs, ra, TAccess(other)) && r in {rt, ra}
    requires RefIs(w.objs, r, Side(call, second))
    ensures other == call && r == (if second then ra else rt)
  {
    SidesAreUnique(other, r != rt, call, second);
    if second && r == rt {
      SidesAreUnique(other, false, call, second);
    }
  }
}
