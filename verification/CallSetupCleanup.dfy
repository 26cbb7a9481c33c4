/** Which live sessions keep their callback sink and their jitter buffer: a cleanup goroutine
    unregisters by ID, so that of an older session can take the entries of a newer one. */
module CallSetupCleanup {
  import opened CallSetup
  import opened CallSetupPlans
  import opened CallSetupLeaks
  import opened CallSetupPipelines

  /** The two registries without a check for duplicates. */
  datatype Registry = Sinks | JitterBuffers

  predicate Registered(w: World, g: Registry, id: string) {
    if g.Sinks? then id in w.sinks else id in w.jitter
  }

  function Removal(g: Registry, id: string): Undo {
    if g.Sinks? then Unsink(id) else Unjitter(id)
  }

  // ---- Clean hand-overs ----

  /** This goroutine is about to start the pumps, and the cleanup, of session `r`. */
  predicate HandsOver(th: Thread, r: nat) {
    !th.rolling && th.stage.StartPumps? && (if th.stage.second then th.stage.ra else th.stage.rt) == r
  }

  predicate HandsOverNow(s: State, op: Op, r: nat) {
    op.Advance? && op.t < |s.threads| && HandsOver(s.threads[op.t], r)
  }

  /** A cleanup goroutine of another session than `r` is still going to do `u`. */
  predicate Cleans(th: Thread, r: nat, u: Undo) {
    th.stage.Watching? && th.stage.ref != r && u in th.undo
  }

  ghost predicate OtherCleans(threads: seq<Thread>, r: nat, u: Undo) {
    exists i :: 0 <= i < |threads| && Cleans(threads[i], r, u)
  }

  /** At the hand-over of `r`: no cleanup of another session is still to remove the entry, and a
      sink, which is registered before, is still there. */
  ghost predicate CleanNow(s: State, g: Registry, r: nat, id: string) {
    (g.Sinks? ==> id in s.w.sinks) && !OtherCleans(s.threads, r, Removal(g, id))
  }

  /** The hand-over of session `r` was clean. */
  ghost predicate CleanStart(c: Config, hs: History, g: Registry, r: nat) {
    match hs
    case Begin => false
    case Then(past, op) =>
      var s := Run(c, past);
      if HandsOverNow(s, op, r) then CleanNow(s, g, r, Starting(s.threads[op.t])) else CleanStart(c, past, g, r)
  }

  // ---- The invariant ----

  /** This goroutine is bound to close the session `id`: a sink it takes or adds does not matter. */
  predicate Dooms(th: Thread, id: string) {
    (th.rolling && CloseSession(id) in th.undo) || (!th.rolling && th.stage.AddPipeline? && Starting(th) == id)
  }

  ghost predicate Doomed(threads: seq<Thread>, g: Registry, id: string) {
    g.Sinks? && exists i :: 0 <= i < |threads| && Dooms(threads[i], id)
  }

  ghost predicate Settled(s: State, g: Registry, r: nat, clean: bool) {
    Alive(s.w, r) && Watched(s.threads, r, s.w.objs[r].id) ==>
      var id := s.w.objs[r].id;
      Doomed(s.threads, g, id) || (clean <==> Registered(s.w, g, id) && !OtherCleans(s.threads, r, Removal(g, id)))
  }

  /** What is known of every reachable state. */
  ghost predicate Known(s: State, id: string) {
    Inv(s) && WatchInv(s) && AllShaped(s.threads) && PoolCounted(s, id)
  }

  /** Nobody but the waiting cleanup goroutine of a live session answers for its pipeline. */
  lemma NoRival(s: State, r: nat, id: string, j: nat)
    requires ThreadsOk(s) && WatchInv(s) && PoolCounted(s, id) && Alive(s.w, r) && Watched(s.threads, r, id)
    requires j < |s.threads| && Unpool(id) in s.threads[j].undo
    ensures id in s.w.pool && s.threads[j].stage == Watching(r, id) && !s.threads[j].rolling
  {
    hide ThreadsOk, WatchInv, Watched;
    var i := LiveWatcherWaits(s, r, id);
    HoldersIff(s.threads, Unpool(id));
    if i != j {
      TwoHolders(s.threads, if i < j then i else j, if i < j then j else i, Unpool(id));
    }
  }

  lemma PipelineIsThere(s: State, r: nat, id: string)
    requires ThreadsOk(s) && WatchInv(s) && PoolCounted(s, id) && Alive(s.w, r) && Watched(s.threads, r, id)
    ensures id in s.w.pool
  {
    hide ThreadsOk, WatchInv, Watched;
    var i := LiveWatcherWaits(s, r, id);
    NoRival(s, r, id, i);
  }

  // ---- Single steps ----

  /** A step changes neither the entry nor who is going to remove it. */
  predicate Quiet(w: World, th: Thread, e: Effect, g: Registry, r: nat, id: string) {
    && Registered(e.w, g, id) == Registered(w, g, id)
    && Cleans(e.th, r, Removal(g, id)) == Cleans(th, r, Removal(g, id))
    && forall i :: 0 <= i < |e.started| ==> !Cleans(e.started[i], r, Removal(g, id))
  }

  lemma QuietTake(s: State, t: nat, e: Effect, g: Registry, r: nat, id: string)
    requires t < |s.threads| && Quiet(s.w, s.threads[t], e, g, r, id)
    ensures OtherCleans(Take(s, t, e).threads, r, Removal(g, id)) == OtherCleans(s.threads, r, Removal(g, id))
  {
    hide Cleans, Removal;
    var u := Removal(g, id);
    var s' := Take(s, t, e);
    if OtherCleans(s.threads, r, u) {
      var i :| 0 <= i < |s.threads| && Cleans(s.threads[i], r, u);
      assert Cleans(s'.threads[i], r, u);
    }
    if OtherCleans(s'.threads, r, u) {
      var i :| 0 <= i < |s'.threads| && Cleans(s'.threads[i], r, u);
      assert i < |s.threads| ==> Cleans(s.threads[i], r, u);
    }
  }

  lemma StartQuiet(w: World, th: Thread, ok: bool, g: Registry, r: nat, id: string)
    requires Piping(th.stage) && !th.rolling && !(th.stage.StartPumps? && Starting(th) == id)
    ensures var e := StartStep(w, th, ok); Quiet(w, th, e, g, r, id) || (g.Sinks? && Dooms(e.th, id))
  {
  }

  lemma EarlyQuiet(w: World, th: Thread, ok: bool, g: Registry, r: nat, id: string)
    requires (Creating(th.stage) || Porting(th.stage)) && !th.rolling
    ensures Quiet(w, th, if Creating(th.stage) then CreateStep(w, th) else PortStep(w, th, ok), g, r, id)
  {
  }

  /** Adding the sink dooms a session that already has a pipeline; nothing but the hand-over of
      this ID adds a jitter buffer or a cleanup. */
  lemma AdvancedQuiet(w: World, th: Thread, ok: bool, g: Registry, r: nat, id: string)
    requires !(th.stage.StartPumps? && !th.rolling && Starting(th) == id)
    ensures var e := Advanced(w, th, ok); Quiet(w, th, e, g, r, id) || (g.Sinks? && Dooms(e.th, id))
  {
    hide CreateStep, PortStep, StartStep, Dooms;
    if !th.rolling && Piping(th.stage) {
      StartQuiet(w, th, ok, g, r, id);
    } else if !th.rolling && (Creating(th.stage) || Porting(th.stage)) {
      EarlyQuiet(w, th, ok, g, r, id);
    }
  }

  lemma AdvancedDooms(w: World, th: Thread, ok: bool, id: string)
    requires ThreadOk(w.objs, th) && Dooms(th, id) && id in w.pool
    ensures Dooms(Advanced(w, th, ok).th, id)
  {
    hide RefsOk;
    if th.stage.AddPipeline? && !th.rolling {
      assert th.undo == [Unsink(id), CloseSession(TCore(th.call)), CloseSession(TAccess(th.call))];
      assert CloseSession(TCore(th.call)) in th.undo && CloseSession(TAccess(th.call)) in th.undo;
    }
  }

  lemma RolledDooms(w: World, th: Thread, r: nat, id: string)
    requires Mapped(w) && Alive(w, r) && w.objs[r].id == id && Dooms(th, id) && Alive(Rolled(w, th).w, r)
    ensures Dooms(Rolled(w, th).th, id)
  {
  }

  /** A handler that takes the sink also closes the session. */
  lemma RolledQuiet(w: World, th: Thread, g: Registry, r: nat, id: string)
    requires Shaped(th) && WatcherOk(w, th) && Alive(w, r) && ThreadOk(w.objs, th)
    ensures var e := Rolled(w, th);
            || Quiet(w, th, e, g, r, id)
            || (g.Sinks? && Dooms(th, id))
            || (Cleans(th, r, Removal(g, id)) && !Registered(e.w, g, id))
  {
    if th.rolling && th.undo != [] && th.undo[0] == Removal(g, id) {
      if th.stage.Watching? {
        RolledWatcher(w, th, g, r, id);
      } else {
        RollingHandler(th, g, id);
      }
    } else {
      hide Shaped, WatcherOk, ThreadOk, Dooms;
    }
  }

  /** A cleanup goroutine removes the entry: that of `r` does so only after the end of `r`. */
  lemma RolledWatcher(w: World, th: Thread, g: Registry, r: nat, id: string)
    requires th.rolling && th.undo != [] && th.undo[0] == Removal(g, id) && th.stage.Watching?
    requires WatcherOk(w, th) && Alive(w, r)
    ensures Cleans(th, r, Removal(g, id)) && !Registered(Rolled(w, th).w, g, id)
  {
  }

  lemma RollingHandler(th: Thread, g: Registry, id: string)
    requires Shaped(th) && !th.stage.Watching? && th.undo != [] && th.undo[0] == Removal(g, id)
    ensures g.Sinks? && CloseSession(id) in th.undo
  {
    hide Closes;
    var p := Planned(th);
    var k := |p| - |th.undo|;
    assert th.undo[0] == p[k];
    ClosesBoth(th.call);
    assert th.stage.AddPipeline? || th.stage.OpenStream? || th.stage.StartPumps?;
    assert th.undo[1..] == Closes(th.call);
    assert id == Starting(th);
    assert CloseSession(id) in th.undo[1..];
  }

  lemma ClosesBoth(call: string)
    ensures Closes(call) == [CloseSession(TCore(call)), CloseSession(TAccess(call))]
    ensures CloseSession(TCore(call)) in Closes(call) && CloseSession(TAccess(call)) in Closes(call)
  {
  }

  // ---- Whole steps ----

  lemma TakeDoomed(s: State, t: nat, e: Effect, g: Registry, id: string)
    requires t < |s.threads| && Doomed(s.threads, g, id) && (Dooms(s.threads[t], id) ==> Dooms(e.th, id))
    ensures Doomed(Take(s, t, e).threads, g, id)
  {
    hide Dooms;
    var i :| 0 <= i < |s.threads| && Dooms(s.threads[i], id);
    assert Dooms(Take(s, t, e).threads[i], id);
  }

  lemma NowDoomed(s: State, t: nat, e: Effect, g: Registry, id: string)
    requires t < |s.threads| && g.Sinks? && Dooms(e.th, id)
    ensures Doomed(Take(s, t, e).threads, g, id)
  {
    assert Take(s, t, e).threads[t] == e.th;
  }

  lemma RunIsKnown(c: Config, hs: History, id: string)
    ensures Known(Run(c, hs), id)
  {
    hide Run;
    RunKeepsInv(c, hs);
    RunKeepsWatch(c, hs);
    RunShaped(c, hs);
    PipelinesHaveOneHolder(c, hs, id);
  }

  lemma NotHandedOverAgain(c: Config, hs: History, t: nat, r: nat, id: string)
    requires var s := Run(c, hs); t < |s.threads| && Alive(s.w, r) && Watched(s.threads, r, id)
    ensures var th := Run(c, hs).threads[t]; !(th.stage.StartPumps? && !th.rolling && Starting(th) == id)
  {
    hide Run, WatchInv, AllShaped, PoolCounted, Covered, WorldOk, Watched;
    RunIsKnown(c, hs, id);
    var s := Run(c, hs);
    var th := s.threads[t];
    assert ThreadOk(s.w.objs, th);
    if th.stage.StartPumps? && !th.rolling && Starting(th) == id {
      assert Unpool(id) in th.undo;
      NoRival(s, r, id, t);
    }
  }

  lemma StaysDoomed(c: Config, hs: History, t: nat, ok: bool, r: nat, id: string)
    requires var s := Run(c, hs);
             t < |s.threads| && Alive(s.w, r) && Watched(s.threads, r, id) && Dooms(s.threads[t], id)
    ensures var s := Run(c, hs); Dooms(Advanced(s.w, s.threads[t], ok).th, id)
  {
    hide Run, WatchInv, AllShaped, PoolCounted, Covered, WorldOk, Watched, Dooms, Advanced;
    RunIsKnown(c, hs, id);
    var s := Run(c, hs);
    assert ThreadOk(s.w.objs, s.threads[t]);
    PipelineIsThere(s, r, id);
    AdvancedDooms(s.w, s.threads[t], ok, id);
  }

  /** A step that does not hand `r` over leaves it settled, if it was live and handed over. */
  lemma AdvanceSettles(c: Config, hs: History, t: nat, ok: bool, g: Registry, r: nat, clean: bool)
    requires var s := Run(c, hs); t < |s.threads| && Alive(s.w, r) && Watched(s.threads, r, s.w.objs[r].id)
    requires Settled(Run(c, hs), g, r, clean)
    ensures var s := Run(c, hs);
            var s' := Take(s, t, Advanced(s.w, s.threads[t], ok));
            var id := s.w.objs[r].id;
            Doomed(s'.threads, g, id)
            || (clean <==> Registered(s'.w, g, id) && !OtherCleans(s'.threads, r, Removal(g, id)))
  {
    hide Run, Advanced, Dooms, Registered, OtherCleans, ThreadOk, Known, Starting, Watched, Removal;
    var s := Run(c, hs);
    var th, id := s.threads[t], s.w.objs[r].id;
    var e := Advanced(s.w, th, ok);
    NotHandedOverAgain(c, hs, t, r, id);
    AdvancedQuiet(s.w, th, ok, g, r, id);
    if Dooms(th, id) {
      StaysDoomed(c, hs, t, ok, r, id);
    }
    if Doomed(s.threads, g, id) {
      TakeDoomed(s, t, e, g, id);
    } else if g.Sinks? && Dooms(e.th, id) {
      NowDoomed(s, t, e, g, id);
    } else {
      QuietTake(s, t, e, g, r, id);
    }
  }

  lemma RollSettles(c: Config, hs: History, t: nat, g: Registry, r: nat, clean: bool)
    requires var s := Run(c, hs);
             && t < |s.threads| && Alive(s.w, r) && Watched(s.threads, r, s.w.objs[r].id)
             && Settled(s, g, r, clean) && Alive(Rolled(s.w, s.threads[t]).w, r)
    ensures var s := Run(c, hs);
            var s' := Take(s, t, Rolled(s.w, s.threads[t]));
            var id := s.w.objs[r].id;
            Doomed(s'.threads, g, id)
            || (clean <==> Registered(s'.w, g, id) && !OtherCleans(s'.threads, r, Removal(g, id)))
  {
    hide Run;
    var s := Run(c, hs);
    var th, id := s.threads[t], s.w.objs[r].id;
    var e := Rolled(s.w, th);
    RunIsKnown(c, hs, id);
    assert ThreadOk(s.w.objs, th) && Shaped(th) && WatcherOk(s.w, th);
    RolledQuiet(s.w, th, g, r, id);
    if Dooms(th, id) {
      RolledDooms(s.w, th, r, id);
    }
    hide Rolled, Dooms, Registered, ThreadOk, Inv, WatchInv, AllShaped, PoolCounted, Cleans, Shaped, WatcherOk, Removal;
    if g.Sinks? && Dooms(th, id) {
      assert Doomed(s.threads, g, id);
    }
    if Doomed(s.threads, g, id) {
      TakeDoomed(s, t, e, g, id);
    } else if Quiet(s.w, th, e, g, r, id) {
      QuietTake(s, t, e, g, r, id);
    } else {
      assert OtherCleans(s.threads, r, Removal(g, id));
    }
  }

  lemma HandOverEffect(w: World, th: Thread, ok: bool, g: Registry, r: nat)
    requires HandsOver(th, r) && ThreadOk(w.objs, th)
    ensures var e := Advanced(w, th, ok);
            var id := Starting(th);
            var u := Removal(g, id);
            && RefIs(w.objs, r, id) && e.w.objs == w.objs
            && Registered(e.w, g, id) == (g.Sinks? ==> id in w.sinks)
            && !Cleans(th, r, u) && !Cleans(e.th, r, u) && |e.started| == 1 && !Cleans(e.started[0], r, u)
  {
  }

  /** A hand-over decides: from now on `r` keeps its entry exactly if it was clean. */
  lemma HandOverSettles(c: Config, hs: History, t: nat, ok: bool, g: Registry, r: nat)
    requires var s := Run(c, hs); t < |s.threads| && HandsOver(s.threads[t], r)
    ensures var s := Run(c, hs);
            var s' := Take(s, t, Advanced(s.w, s.threads[t], ok));
            Settled(s', g, r, CleanNow(s, g, r, Starting(s.threads[t])))
  {
    hide Run, Cleans, Removal, Advanced, ThreadOk, Inv, Starting, Registered, HandsOver;
    var s := Run(c, hs);
    var th := s.threads[t];
    var id := Starting(th);
    RunKeepsInv(c, hs);
    InvHasThreadsOk(s);
    HandOverEffect(s.w, th, ok, g, r);
    var e := Advanced(s.w, th, ok);
    var u := Removal(g, id);
    var s' := Take(s, t, e);
    if OtherCleans(s.threads, r, u) {
      var i :| 0 <= i < |s.threads| && Cleans(s.threads[i], r, u);
      assert Cleans(s'.threads[i], r, u);
    }
    if OtherCleans(s'.threads, r, u) {
      var i :| 0 <= i < |s'.threads| && Cleans(s'.threads[i], r, u);
      assert Cleans(s.threads[i], r, u);
    }
  }

  // ---- Whole runs ----

  /** Cleanup goroutines of `r` come only from its hand-over. */
  lemma WatchedBefore(s: State, op: Op, r: nat, id: string)
    requires Watched(Step(s, op).threads, r, id) && !HandsOverNow(s, op, r)
    ensures Watched(s.threads, r, id)
  {
    var s' := Step(s, op);
    var i: nat :| i < |s'.threads| && s'.threads[i].stage == Watching(r, id);
    if op.Advance? && op.t < |s.threads| {
      WatchersComeFromHandOvers(s.w, s.threads[op.t], op.ok, r, id);
    } else if op.Roll? && op.t < |s.threads| {
      RolledKeepsStage(s.w, s.threads[op.t]);
    }
    hide Advanced, Rolled, Environment, HandsOver;
    assert i < |s.threads| && s.threads[i].stage == Watching(r, id);
  }

  lemma WatchersComeFromHandOvers(w: World, th: Thread, ok: bool, r: nat, id: string)
    ensures var e := Advanced(w, th, ok);
            && (e.th.stage == Watching(r, id) ==> th.stage == Watching(r, id))
            && (forall i :: 0 <= i < |e.started| ==> e.started[i].stage == Watching(r, id) ==> HandsOver(th, r))
  {
  }

  lemma AliveBefore(s: State, op: Op, r: nat)
    requires r < |s.w.objs| && Alive(Step(s, op).w, r)
    ensures Alive(s.w, r) && Step(s, op).w.objs[r].id == s.w.objs[r].id
  {
    if op.Advance? && op.t < |s.threads| {
      AdvancedStages(s.w, s.threads[op.t], op.ok);
    } else if op.Roll? && op.t < |s.threads| {
      RolledStages(s.w, s.threads[op.t]);
    } else {
      EnvironmentRevivesNone(s.w, op);
    }
    hide Advanced, Rolled, Environment, KeepsStages;
  }

  /** A session that is watched exists. */
  lemma WatchedExists(s: State, r: nat, id: string)
    requires ThreadsOk(s) && Watched(s.threads, r, id)
    ensures RefIs(s.w.objs, r, id)
  {
    var i :| 0 <= i < |s.threads| && s.threads[i].stage == Watching(r, id);
    assert ThreadOk(s.w.objs, s.threads[i]);
  }

  lemma OtherStepSettles(s: State, op: Op, g: Registry, r: nat, clean: bool)
    requires Alive(s.w, r) && Settled(s, g, r, clean) && Watched(s.threads, r, s.w.objs[r].id)
    requires !op.Advance? && !op.Roll?
    ensures var s' := Step(s, op);
            var id := s.w.objs[r].id;
            Doomed(s'.threads, g, id)
            || (clean <==> Registered(s'.w, g, id) && !OtherCleans(s'.threads, r, Removal(g, id)))
  {
    var id := s.w.objs[r].id;
    var s' := Step(s, op);
    assert Registered(s'.w, g, id) == Registered(s.w, g, id);
    assert s.threads <= s'.threads && forall i :: |s.threads| <= i < |s'.threads| ==> !s'.threads[i].stage.Watching?;
    hide Step, Removal, Registered;
    MoreThreads(s.threads, s'.threads, g, r, id);
  }

  /** New goroutines that clean nothing up. */
  lemma MoreThreads(a: seq<Thread>, b: seq<Thread>, g: Registry, r: nat, id: string)
    requires a <= b && forall i :: |a| <= i < |b| ==> !b[i].stage.Watching?
    ensures Doomed(a, g, id) ==> Doomed(b, g, id)
    ensures OtherCleans(a, r, Removal(g, id)) == OtherCleans(b, r, Removal(g, id))
  {
    hide Dooms, Removal;
    var u := Removal(g, id);
    if Doomed(a, g, id) {
      var i :| 0 <= i < |a| && Dooms(a[i], id);
      assert Dooms(b[i], id);
    }
    if OtherCleans(a, r, u) {
      var i :| 0 <= i < |a| && Cleans(a[i], r, u);
      assert Cleans(b[i], r, u);
    }
    if OtherCleans(b, r, u) {
      var i :| 0 <= i < |b| && Cleans(b[i], r, u);
      assert Cleans(a[i], r, u);
    }
  }

  lemma StepSettles(c: Config, hs: History, op: Op, g: Registry, r: nat, clean: bool)
    requires Settled(Run(c, hs), g, r, clean)
    ensures var s := Run(c, hs);
            Settled(Step(s, op), g, r,
                    if HandsOverNow(s, op, r) then CleanNow(s, g, r, Starting(s.threads[op.t])) else clean)
  {
    hide Run, Advanced, Rolled, Environment, HandsOver, Inv;
    RunKeepsInv(c, hs);
    var s := Run(c, hs);
    hide Doomed, Registered, OtherCleans, Starting, CleanNow, Watched;
    var s' := Step(s, op);
    if HandsOverNow(s, op, r) {
      HandOverSettles(c, hs, op.t, op.ok, g, r);
    } else if Alive(s'.w, r) && Watched(s'.threads, r, s'.w.objs[r].id) {
      WatchedBefore(s, op, r, s'.w.objs[r].id);
      InvHasThreadsOk(s);
      WatchedExists(s, r, s'.w.objs[r].id);
      AliveBefore(s, op, r);
      if op.Advance? && op.t < |s.threads| {
        AdvanceSettles(c, hs, op.t, op.ok, g, r, clean);
      } else if op.Roll? && op.t < |s.threads| {
        RollSettles(c, hs, op.t, g, r, clean);
      } else if !op.Advance? && !op.Roll? {
        OtherStepSettles(s, op, g, r, clean);
      }
    }
  }

  lemma InvHasThreadsOk(s: State)
    requires Inv(s)
    ensures ThreadsOk(s)
  {
  }

  lemma {:induction false} RunSettles(c: Config, hs: History, g: Registry, r: nat)
    ensures Settled(Run(c, hs), g, r, CleanStart(c, hs, g, r))
  {
    match hs
    case Begin =>
    case Then(past, op) =>
      hide Step, Settled, CleanNow, HandsOverNow;
      RunSettles(c, past, g, r);
      StepSettles(c, past, op, g, r, CleanStart(c, past, g, r));
  }

  // ---- Main results ----

  lemma RestingDoomsNobody(w: World, th: Thread, id: string)
    requires ThreadAtRest(w, th) && ThreadOk(w.objs, th)
    ensures !Dooms(th, id)
  {
  }

  lemma RestingCleansOwn(w: World, th: Thread, r: nat, g: Registry)
    requires Mapped(w) && Alive(w, r) && ThreadAtRest(w, th) && ThreadOk(w.objs, th)
    ensures !Cleans(th, r, Removal(g, w.objs[r].id))
  {
  }

  lemma NobodyMeddlesAtRest(s: State, r: nat, g: Registry)
    requires Inv(s) && AtRest(s) && Alive(s.w, r)
    ensures var id := s.w.objs[r].id; !Doomed(s.threads, g, id) && !OtherCleans(s.threads, r, Removal(g, id))
  {
    hide Dooms, Cleans, Covered, Streaming, ThreadOk, ThreadAtRest, Removal;
    forall i | 0 <= i < |s.threads|
      ensures !Dooms(s.threads[i], s.w.objs[r].id) && !Cleans(s.threads[i], r, Removal(g, s.w.objs[r].id))
    {
      RestingDoomsNobody(s.w, s.threads[i], s.w.objs[r].id);
      RestingCleansOwn(s.w, s.threads[i], r, g);
    }
  }

  /** Main result: once all goroutines have run, a live session has its sink, and its jitter
      buffer, if and only if its hand-over was clean: no cleanup of an older session with the
      same ID was then still to remove the entry, and the sink had not been removed before. */
  lemma EntryIffCleanStart(c: Config, hs: History, g: Registry, id: string)
    requires AtRest(Run(c, hs)) && id in Run(c, hs).w.live
    ensures Registered(Run(c, hs).w, g, id) <==> CleanStart(c, hs, g, Run(c, hs).w.live[id])
  {
    var r := Run(c, hs).w.live[id];
    RunKeepsInv(c, hs);
    RunKeepsWatch(c, hs);
    RunSettles(c, hs, g, r);
    hide Run, CleanStart, AtRest, Covered, Streaming, ThreadsOk, Removal;
    var s := Run(c, hs);
    SessionsAtRest(s, id);
    NobodyMeddlesAtRest(s, r, g);
  }

  /** If all hand-overs of live sessions were clean, pipelines, jitter buffers and, with callbacks,
      sinks are exactly those of the live sessions. */
  lemma RegistriesAreTheLiveSessions(c: Config, hs: History)
    requires AtRest(Run(c, hs))
    requires var w := Run(c, hs).w;
             forall id, g: Registry :: id in w.live && (g.Sinks? ==> w.callbacks) ==> CleanStart(c, hs, g, w.live[id])
    ensures var w := Run(c, hs).w;
            && w.pool == w.live.Keys && w.jitter == w.live.Keys
            && (w.callbacks ==> w.sinks == w.live.Keys)
  {
    var w := Run(c, hs).w;
    PipelinesAreTheLiveSessions(c, hs);
    NothingLeaks(c, hs, 0);
    hide Run, CleanStart, AtRest;
    forall id | id in w.live
      ensures id in w.jitter && (w.callbacks ==> id in w.sinks)
    {
      EntryIffCleanStart(c, hs, JitterBuffers, id);
      EntryIffCleanStart(c, hs, Sinks, id);
    }
  }
}
