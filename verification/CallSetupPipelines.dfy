/** Live sessions keep their pipelines: a session's entry in the worker pool belongs to exactly
    one goroutine, which leaves it alone as long as the session lives. */
module CallSetupPipelines {
  import opened Basics
  import opened CallSetup
  import opened CallSetupPlans
  import opened CallSetupLeaks

  // ---- Each pipeline has exactly one goroutine that will remove it ----

  lemma PlannedPools(th: Thread, id: string)
    ensures Occurs(Planned(th), Unpool(id))
         == (if th.stage.OpenStream? || th.stage.StartPumps? then One(Starting(th) == id)
             else if th.stage.Watching? then One(th.stage.id == id) else 0)
  {
    var u := Unpool(id);
    OccursNot(Closes(th.call), u);
    if th.stage.OpenStream? || th.stage.StartPumps? {
      OccursConcat([Unpool(Starting(th)), Unsink(Starting(th))], Closes(th.call), u);
      assert [Unpool(Starting(th)), Unsink(Starting(th))][1..] == [Unsink(Starting(th))];
    } else if !th.stage.Watching? {
      OccursNot(Planned(th), u);
    } else {
      OccursNot(Planned(th)[1..], u);
    }
  }

  predicate KeepsPool(w: World, th: Thread, e: Effect, id: string) {
    Occurs(e.th.undo, Unpool(id)) + Holders(e.started, Unpool(id)) + One(id in w.pool)
    == Occurs(th.undo, Unpool(id)) + One(id in e.w.pool)
  }

  lemma HoldersOfNone(u: Undo)
    ensures Holders([], u) == 0
  {
  }

  lemma HoldersOfOne(th: Thread, u: Undo)
    ensures Holders([th], u) == Occurs(th.undo, u)
  {
    HoldersAppend([], th, u);
    assert [] + [th] == [th];
  }

  lemma AdvancedKeepsPool(w: World, th: Thread, ok: bool, id: string)
    requires ThreadOk(w.objs, th)
    ensures KeepsPool(w, th, Advanced(w, th, ok), id)
  {
    var e := Advanced(w, th, ok);
    AdvancedOk(w, th, ok);
    HoldersOfNone(Unpool(id));
    PlannedPools(th, id);
    PlannedPools(e.th, id);
    if e.started != [] {
      PlannedPools(e.started[0], id);
      HoldersOfOne(e.started[0], Unpool(id));
      StartsPlanned(w, th, ok);
      assert e.started == [e.started[0]];
    }
    hide Planned, Occurs, Holders, RefsOk, Grows;
    PoolMoves(w, th, ok, id);
  }

  /** A step changes the pool as it changes who answers for the pipeline. */
  predicate PoolMoved(w: World, th: Thread, e: Effect, id: string) {
    && (e.th.rolling ==> e.w.pool == w.pool && e.th.undo == th.undo && e.started == [])
    && (!e.th.rolling ==>
          One(id in e.w.pool) + Answers(th, id) == One(id in w.pool) + Answers(e.th, id)
          + if e.started == [] then 0 else Answers(e.started[0], id))
  }

  lemma StartPoolMoves(w: World, th: Thread, ok: bool, id: string)
    requires Piping(th.stage) && !th.rolling
    ensures PoolMoved(w, th, StartStep(w, th, ok), id)
  {
  }

  lemma EarlyPoolMoves(w: World, th: Thread, ok: bool, id: string)
    requires (Creating(th.stage) || Porting(th.stage)) && !th.rolling
    ensures PoolMoved(w, th, if Creating(th.stage) then CreateStep(w, th) else PortStep(w, th, ok), id)
  {
  }

  lemma PoolMoves(w: World, th: Thread, ok: bool, id: string)
    ensures PoolMoved(w, th, Advanced(w, th, ok), id)
  {
    hide CreateStep, PortStep, StartStep;
    if !th.rolling && Piping(th.stage) {
      StartPoolMoves(w, th, ok, id);
    } else if !th.rolling && (Creating(th.stage) || Porting(th.stage)) {
      EarlyPoolMoves(w, th, ok, id);
    }
  }

  /** The plan of this stage removes the pipeline of `id`. */
  function Answers(th: Thread, id: string): nat {
    if th.stage.OpenStream? || th.stage.StartPumps? then One(Starting(th) == id)
    else if th.stage.Watching? then One(th.stage.id == id)
    else 0
  }

  lemma RolledKeepsPool(w: World, th: Thread, id: string)
    requires Occurs(th.undo, Unpool(id)) <= One(id in w.pool)
    ensures KeepsPool(w, th, Rolled(w, th), id)
  {
    HoldersOfNone(Unpool(id));
  }

  /** Exactly one goroutine answers for a pipeline, and none for one that is not there. */
  predicate PoolCounted(s: State, id: string) {
    Holders(s.threads, Unpool(id)) == One(id in s.w.pool)
  }

  lemma TakeKeepsPool(s: State, t: nat, e: Effect, id: string)
    requires PoolCounted(s, id) && t < |s.threads| && |e.started| <= 1 && KeepsPool(s.w, s.threads[t], e, id)
    ensures PoolCounted(Take(s, t, e), id)
  {
    hide Occurs;
    var u := Unpool(id);
    HoldersUpdate(s.threads, t, e.th, u);
    var updated := s.threads[t := e.th];
    if |e.started| == 1 {
      HoldersAppend(updated, e.started[0], u);
      HoldersOfOne(e.started[0], u);
      assert e.started == [e.started[0]];
    } else {
      assert updated + e.started == updated;
    }
  }

  lemma StepKeepsPool(s: State, op: Op, id: string)
    requires ThreadsOk(s) && PoolCounted(s, id)
    ensures PoolCounted(Step(s, op), id)
  {
    hide Advanced, Rolled, Take, ThreadOk, Occurs, Holders;
    var u := Unpool(id);
    if op.Answer? {
      HoldersAppend(s.threads, Thread(op.call, CreateTCore, false, []), u);
      OccursNot([], u);
    } else if op.Close? {
      HoldersAppend(s.threads, Thread("", Closer, true, CloseAll(op.ids)), u);
      OccursNot(CloseAll(op.ids), u);
    } else if op.Advance? {
      if op.t < |s.threads| {
        AdvancedOk(s.w, s.threads[op.t], op.ok);
        AdvancedKeepsPool(s.w, s.threads[op.t], op.ok, id);
        TakeKeepsPool(s, op.t, Advanced(s.w, s.threads[op.t], op.ok), id);
      }
    } else if op.Roll? {
      if op.t < |s.threads| {
        RolledOk(s.w, s.threads[op.t]);
        HoldersUpdate(s.threads, op.t, s.threads[op.t], u);
        RolledKeepsPool(s.w, s.threads[op.t], id);
        TakeKeepsPool(s, op.t, Rolled(s.w, s.threads[op.t]), id);
      }
    }
  }

  /** In every interleaving each pipeline has exactly one goroutine that will remove it. */
  lemma {:induction false} PipelinesHaveOneHolder(c: Config, hs: History, id: string)
    ensures PoolCounted(Run(c, hs), id)
  {
    match hs
    case Begin =>
    case Then(past, op) =>
      hide Step, PoolCounted, ThreadsOk;
      PipelinesHaveOneHolder(c, past, id);
      RunKeepsThreadsOk(c, past);
      StepKeepsPool(Run(c, past), op, id);
  }

  // ---- The cleanup goroutines of live sessions wait ----

  /** A cleanup goroutine starts only after its session's end. */
  predicate WatcherOk(w: World, th: Thread) {
    th.stage.Watching? && th.rolling ==> !Alive(w, th.stage.ref)
  }

  /** The cleanup goroutine of session `r` has been started. */
  ghost predicate Watched(threads: seq<Thread>, r: nat, id: string) {
    exists i :: 0 <= i < |threads| && threads[i].stage == Watching(r, id)
  }

  /** A handler that is at the second session has started the cleanup of the first. */
  ghost predicate FirstWatched(threads: seq<Thread>, th: Thread) {
    Piping(th.stage) && th.stage.second ==> Watched(threads, th.stage.rt, TCore(th.call))
  }

  ghost predicate WatchInv(s: State) {
    && (forall i :: 0 <= i < |s.threads| ==> WatcherOk(s.w, s.threads[i]) && FirstWatched(s.threads, s.threads[i]))
    && (forall r: nat :: r in s.w.committed ==> r < |s.w.objs| && Watched(s.threads, r, s.w.objs[r].id))
  }

  /** No session comes back to life. */
  predicate NoRevival(w: World, w': World) {
    Grows(w.objs, w'.objs) && forall r: nat :: r < |w.objs| && w.objs[r].phase != Live ==> w'.objs[r].phase != Live
  }

  /** What a step does to the stages of goroutines. */
  ghost predicate KeepsStages(w: World, th: Thread, e: Effect) {
    && e.th.call == th.call && |e.started| <= 1
    && (th.stage.Watching? ==> e.th.stage == th.stage)
    && (e.th.stage.Watching? ==> th.stage.Watching?)
    && (e.th.stage.Watching? && e.th.rolling && !th.rolling ==> !Alive(w, th.stage.ref))
    && (forall i :: 0 <= i < |e.started| ==> e.started[i].stage.Watching? && !e.started[i].rolling)
    && (Piping(e.th.stage) && e.th.stage.second
        && !(Piping(th.stage) && th.stage.second && th.stage.rt == e.th.stage.rt) ==>
          |e.started| == 1 && e.started[0].stage == Watching(e.th.stage.rt, TCore(th.call)))
  }

  lemma CreateStages(w: World, th: Thread)
    requires Creating(th.stage) && !th.rolling
    ensures KeepsStages(w, th, CreateStep(w, th)) && NoRevival(w, CreateStep(w, th).w)
  {
  }

  lemma PortStages(w: World, th: Thread, ok: bool)
    requires Porting(th.stage) && !th.rolling
    ensures KeepsStages(w, th, PortStep(w, th, ok)) && NoRevival(w, PortStep(w, th, ok).w)
  {
  }

  lemma StartStages(w: World, th: Thread, ok: bool)
    requires Piping(th.stage) && !th.rolling
    ensures KeepsStages(w, th, StartStep(w, th, ok)) && NoRevival(w, StartStep(w, th, ok).w)
  {
  }

  lemma AdvancedStages(w: World, th: Thread, ok: bool)
    ensures KeepsStages(w, th, Advanced(w, th, ok)) && NoRevival(w, Advanced(w, th, ok).w)
  {
    hide CreateStep, PortStep, StartStep;
    if !th.rolling && Creating(th.stage) {
      CreateStages(w, th);
    } else if !th.rolling && Porting(th.stage) {
      PortStages(w, th, ok);
    } else if !th.rolling && Piping(th.stage) {
      StartStages(w, th, ok);
    }
  }

  lemma RolledStages(w: World, th: Thread)
    ensures KeepsStages(w, th, Rolled(w, th))
    ensures NoRevival(w, Rolled(w, th).w)
  {
  }

  lemma EnvironmentRevivesNone(w: World, op: Op)
    ensures NoRevival(w, Environment(w, op))
  {
  }

  /** No step forgets a session, renames it or brings it back. */
  lemma StepRevivesNone(s: State, op: Op, r: nat)
    ensures var w' := Step(s, op).w;
            r < |s.w.objs| ==> r < |w'.objs| && w'.objs[r].id == s.w.objs[r].id && (Alive(w', r) ==> Alive(s.w, r))
  {
    hide Advanced, Rolled, Environment, KeepsStages;
    if op.Advance? && op.t < |s.threads| {
      AdvancedStages(s.w, s.threads[op.t], op.ok);
    } else if op.Roll? && op.t < |s.threads| {
      RolledStages(s.w, s.threads[op.t]);
    } else if !op.Advance? && !op.Roll? && !op.Answer? && !op.Close? {
      EnvironmentRevivesNone(s.w, op);
    }
  }

  lemma TakeWatched(s: State, t: nat, e: Effect, r: nat, id: string)
    requires t < |s.threads| && KeepsStages(s.w, s.threads[t], e) && Watched(s.threads, r, id)
    ensures Watched(Take(s, t, e).threads, r, id)
  {
    var i :| 0 <= i < |s.threads| && s.threads[i].stage == Watching(r, id);
    assert Take(s, t, e).threads[i].stage == Watching(r, id);
  }

  lemma StartedWatched(s: State, t: nat, e: Effect)
    requires t < |s.threads| && |e.started| == 1 && e.started[0].stage.Watching?
    ensures Watched(Take(s, t, e).threads, e.started[0].stage.ref, e.started[0].stage.id)
  {
    assert Take(s, t, e).threads[|s.threads|] == e.started[0];
  }

  lemma TakeFirstWatched(s: State, t: nat, e: Effect, i: nat)
    requires t < |s.threads| && KeepsStages(s.w, s.threads[t], e) && i < |Take(s, t, e).threads|
    requires forall j :: 0 <= j < |s.threads| ==> FirstWatched(s.threads, s.threads[j])
    ensures var s' := Take(s, t, e); FirstWatched(s'.threads, s'.threads[i])
  {
    hide Watched;
    var s' := Take(s, t, e);
    var th := s'.threads[i];
    if Piping(th.stage) && th.stage.second {
      if i == t && !(Piping(s.threads[t].stage) && s.threads[t].stage.second && s.threads[t].stage.rt == th.stage.rt) {
        StartedWatched(s, t, e);
      } else {
        assert FirstWatched(s.threads, s.threads[i]);
        TakeWatched(s, t, e, th.stage.rt, TCore(th.call));
      }
    }
  }

  lemma TakeWatchersOk(s: State, t: nat, e: Effect, i: nat)
    requires t < |s.threads| && KeepsStages(s.w, s.threads[t], e) && NoRevival(s.w, e.w) && i < |Take(s, t, e).threads|
    requires ThreadsOk(s) && forall j :: 0 <= j < |s.threads| ==> WatcherOk(s.w, s.threads[j])
    ensures var s' := Take(s, t, e); WatcherOk(s'.w, s'.threads[i])
  {
    hide Planned;
    var s' := Take(s, t, e);
    if i < |s.threads| {
      assert ThreadOk(s.w.objs, s.threads[i]) && WatcherOk(s.w, s.threads[i]);
    }
  }

  /** What a step adds to the committed sessions is watched: one from before, one from now on. */
  lemma AdvancedCommitsWatched(w: World, th: Thread, ok: bool)
    requires ThreadOk(w.objs, th)
    ensures var e := Advanced(w, th, ok);
            e.w.committed == w.committed
            || (&& Piping(th.stage) && th.stage.second
                && e.w.committed == w.committed + {th.stage.rt, th.stage.ra} && e.w.objs == w.objs
                && |e.started| == 1 && e.started[0].stage == Watching(th.stage.ra, TAccess(th.call))
                && RefIs(w.objs, th.stage.rt, TCore(th.call)) && RefIs(w.objs, th.stage.ra, TAccess(th.call)))
            || (&& Piping(th.stage) && !th.stage.second && e.w.committed == w.committed)
  {
    hide Planned, CreateStep, PortStep, StartStep;
    if !th.rolling && Creating(th.stage) {
      CreateCommitsNone(w, th);
    } else if !th.rolling && Porting(th.stage) {
      PortCommitsNone(w, th, ok);
    } else if !th.rolling && Piping(th.stage) {
      StartCommits(w, th, ok);
    }
  }

  lemma CreateCommitsNone(w: World, th: Thread)
    requires Creating(th.stage)
    ensures CreateStep(w, th).w.committed == w.committed
  {
  }

  lemma PortCommitsNone(w: World, th: Thread, ok: bool)
    requires Porting(th.stage)
    ensures PortStep(w, th, ok).w.committed == w.committed
  {
  }

  lemma StartCommits(w: World, th: Thread, ok: bool)
    requires Piping(th.stage)
    ensures var e := StartStep(w, th, ok);
            if th.stage.StartPumps? && th.stage.second then
              && e.w.committed == w.committed + {th.stage.rt, th.stage.ra} && e.w.objs == w.objs
              && |e.started| == 1 && e.started[0].stage == Watching(th.stage.ra, TAccess(th.call))
            else e.w.committed == w.committed
  {
  }

  lemma AdvanceKeepsWatch(s: State, t: nat, ok: bool)
    requires ThreadsOk(s) && WatchInv(s) && t < |s.threads|
    ensures WatchInv(Take(s, t, Advanced(s.w, s.threads[t], ok)))
  {
    var th := s.threads[t];
    var e := Advanced(s.w, th, ok);
    assert ThreadOk(s.w.objs, th) && FirstWatched(s.threads, th);
    AdvancedStages(s.w, th, ok);
    AdvancedCommitsWatched(s.w, th, ok);
    hide Advanced, ThreadOk, WatcherOk, Watched, KeepsStages, NoRevival;
    TakeKeepsWatch(s, t, e);
  }

  lemma TakeKeepsWatch(s: State, t: nat, e: Effect)
    requires ThreadsOk(s) && WatchInv(s) && t < |s.threads| && KeepsStages(s.w, s.threads[t], e) && NoRevival(s.w, e.w)
    requires var th := s.threads[t];
             e.w.committed == s.w.committed
             || (&& Piping(th.stage) && th.stage.second
                 && e.w.committed == s.w.committed + {th.stage.rt, th.stage.ra} && e.w.objs == s.w.objs
                 && |e.started| == 1 && e.started[0].stage == Watching(th.stage.ra, TAccess(th.call))
                 && RefIs(s.w.objs, th.stage.rt, TCore(th.call)) && RefIs(s.w.objs, th.stage.ra, TAccess(th.call)))
    ensures WatchInv(Take(s, t, e))
  {
    hide WatcherOk, FirstWatched, Watched, KeepsStages;
    var s' := Take(s, t, e);
    forall i: nat | i < |s'.threads|
      ensures WatcherOk(s'.w, s'.threads[i]) && FirstWatched(s'.threads, s'.threads[i])
    {
      TakeWatchersOk(s, t, e, i);
      TakeFirstWatched(s, t, e, i);
    }
    forall r: nat | r in s'.w.committed
      ensures r < |s'.w.objs| && Watched(s'.threads, r, s'.w.objs[r].id)
    {
      if r in s.w.committed {
        TakeWatched(s, t, e, r, s.w.objs[r].id);
      } else {
        CommittedNow(s, t, e, r);
      }
    }
  }

  lemma CommittedNow(s: State, t: nat, e: Effect, r: nat)
    requires WatchInv(s) && t < |s.threads| && KeepsStages(s.w, s.threads[t], e)
    requires var th := s.threads[t];
             && Piping(th.stage) && th.stage.second && (r == th.stage.rt || r == th.stage.ra) && e.w.objs == s.w.objs
             && |e.started| == 1 && e.started[0].stage == Watching(th.stage.ra, TAccess(th.call))
             && RefIs(s.w.objs, th.stage.rt, TCore(th.call)) && RefIs(s.w.objs, th.stage.ra, TAccess(th.call))
    ensures r < |e.w.objs| && Watched(Take(s, t, e).threads, r, e.w.objs[r].id)
  {
    hide KeepsStages, WatcherOk, Watched;
    assert FirstWatched(s.threads, s.threads[t]);
    if r == s.threads[t].stage.ra {
      StartedWatched(s, t, e);
    } else {
      TakeWatched(s, t, e, r, TCore(s.threads[t].call));
    }
  }

  lemma AppendKeepsWatch(s: State, th: Thread)
    requires WatchInv(s) && !th.stage.Watching? && !Piping(th.stage)
    ensures WatchInv(s.(threads := s.threads + [th]))
  {
    var s' := s.(threads := s.threads + [th]);
    forall r: nat, id | Watched(s.threads, r, id)
      ensures Watched(s'.threads, r, id)
    {
      var i :| 0 <= i < |s.threads| && s.threads[i].stage == Watching(r, id);
      assert s'.threads[i].stage == Watching(r, id);
    }
    hide Watched, WatcherOk;
    forall i: nat | i < |s'.threads|
      ensures WatcherOk(s'.w, s'.threads[i]) && FirstWatched(s'.threads, s'.threads[i])
    {
      if i < |s.threads| {
        assert WatcherOk(s.w, s.threads[i]) && FirstWatched(s.threads, s.threads[i]);
      } else {
        NotAWatcher(s.w, th);
      }
    }
  }

  lemma NotAWatcher(w: World, th: Thread)
    requires !th.stage.Watching?
    ensures WatcherOk(w, th)
  {
  }

  lemma RollKeepsWatch(s: State, t: nat)
    requires ThreadsOk(s) && WatchInv(s) && t < |s.threads|
    ensures WatchInv(Take(s, t, Rolled(s.w, s.threads[t])))
  {
    RolledStages(s.w, s.threads[t]);
    assert Rolled(s.w, s.threads[t]).w.committed == s.w.committed;
    hide Rolled, ThreadsOk, WatchInv, KeepsStages, NoRevival;
    TakeKeepsWatch(s, t, Rolled(s.w, s.threads[t]));
  }

  lemma EnvironmentKeepsWatch(s: State, op: Op)
    requires ThreadsOk(s) && WatchInv(s)
    ensures WatchInv(s.(w := Environment(s.w, op)))
  {
    EnvironmentRevivesNone(s.w, op);
    EnvironmentCommits(s.w, op);
    hide Environment, Planned, Watched;
    var w' := Environment(s.w, op);
    forall i: nat | i < |s.threads|
      ensures WatcherOk(w', s.threads[i]) && FirstWatched(s.threads, s.threads[i])
    {
      assert ThreadOk(s.w.objs, s.threads[i]) && WatcherOk(s.w, s.threads[i]);
    }
  }

  lemma StepKeepsWatch(s: State, op: Op)
    requires ThreadsOk(s) && WatchInv(s)
    ensures WatchInv(Step(s, op))
  {
    hide Advanced, Rolled, Environment, WatchInv, ThreadsOk;
    if op.Answer? {
      AppendKeepsWatch(s, Thread(op.call, CreateTCore, false, []));
    } else if op.Close? {
      AppendKeepsWatch(s, Thread("", Closer, true, CloseAll(op.ids)));
    } else if op.Advance? {
      if op.t < |s.threads| {
        AdvanceKeepsWatch(s, op.t, op.ok);
      }
    } else if op.Roll? {
      if op.t < |s.threads| {
        RollKeepsWatch(s, op.t);
      }
    } else {
      EnvironmentKeepsWatch(s, op);
    }
  }

  lemma {:induction false} RunKeepsWatch(c: Config, hs: History)
    ensures WatchInv(Run(c, hs))
  {
    match hs
    case Begin =>
    case Then(past, op) =>
      hide Step, WatchInv, ThreadsOk;
      RunKeepsWatch(c, past);
      RunKeepsThreadsOk(c, past);
      StepKeepsWatch(Run(c, past), op);
  }

  // ---- Main results ----

  /** The cleanup goroutine of a live session still holds its whole plan. */
  lemma LiveWatcherWaits(s: State, r: nat, id: string) returns (i: nat)
    requires ThreadsOk(s) && WatchInv(s) && Alive(s.w, r) && Watched(s.threads, r, id)
    ensures i < |s.threads| && s.threads[i].stage == Watching(r, id) && !s.threads[i].rolling
    ensures s.threads[i].undo == [Unpool(id), Unsink(id), Unjitter(id)]
  {
    i :| 0 <= i < |s.threads| && s.threads[i].stage == Watching(r, id);
    assert ThreadOk(s.w.objs, s.threads[i]) && WatcherOk(s.w, s.threads[i]);
  }

  /** Main result: in every interleaving a live session whose set-up succeeded has its pipeline.
      No cleanup of an older session with the same ID can take it: while that one still holds the
      older pipeline, no newer one can be registered. */
  lemma LiveSessionsKeepPipelines(c: Config, hs: History, id: string)
    requires var w := Run(c, hs).w; id in w.live && w.live[id] in w.committed
    ensures id in Run(c, hs).w.pool
  {
    RunKeepsInv(c, hs);
    RunKeepsWatch(c, hs);
    PipelinesHaveOneHolder(c, hs, id);
    hide Run, Covered, Streaming;
    var s := Run(c, hs);
    var i := LiveWatcherWaits(s, s.w.live[id], id);
    assert Unpool(id) in s.threads[i].undo;
    HoldersIff(s.threads, Unpool(id));
  }

  /** Once all goroutines have run, exactly the live sessions have pipelines. */
  lemma PipelinesAreTheLiveSessions(c: Config, hs: History)
    requires AtRest(Run(c, hs))
    ensures Run(c, hs).w.pool == Run(c, hs).w.live.Keys
  {
    var w := Run(c, hs).w;
    NothingLeaks(c, hs, 0);
    hide Run, AtRest;
    forall id | id in w.live
      ensures id in w.pool
    {
      LiveSessionsKeepPipelines(c, hs, id);
    }
  }
}
