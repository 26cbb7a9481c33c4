/** Nothing leaks from call set-up: at rest, every registered pipeline, sink, jitter buffer, AI
    stream and listener belongs to a live session, and every live session to a call whose
    set-up succeeded. */
module CallSetupLeaks {
  import opened Basics
  import opened PortAllocator
  import opened CallSetup
  import opened CallSetupPlans
  import opened CallSetupSafety

  /** The map of live sessions and the phases agree. */
  ghost predicate Mapped(w: World) {
    && (forall id :: id in w.live ==> RefIs(w.objs, w.live[id], id) && w.objs[w.live[id]].phase == Live)
    && (forall r :: 0 <= r < |w.objs| && w.objs[r].phase == Live ==>
          w.objs[r].id in w.live && w.live[w.objs[r].id] == r)
  }

  /** Every mapped AI stream runs, and serves the session it is mapped under. */
  ghost predicate Streaming(w: World) {
    forall id :: id in w.ai ==>
      w.ai[id] < |w.streams| && w.streams[w.ai[id]].running && RefIs(w.objs, w.streams[w.ai[id]].ref, id)
  }

  ghost predicate WorldOk(w: World) {
    Mapped(w) && Streaming(w)
  }

  lemma NewSessionOk(w: World, id: string)
    requires WorldOk(w) && id !in w.live
    ensures WorldOk(NewSession(w, id))
  {
  }

  lemma UndoneOk(w: World, u: Undo)
    requires WorldOk(w)
    ensures WorldOk(Undone(w, u))
  {
  }

  lemma CreateStepWorldOk(w: World, th: Thread)
    requires WorldOk(w) && Creating(th.stage)
    ensures WorldOk(CreateStep(w, th).w)
  {
    hide NewSession, WorldOk;
    var id := if th.stage.CreateTCore? then TCore(th.call) else TAccess(th.call);
    if CanCreate(w, id) {
      NewSessionOk(w, id);
    }
  }

  lemma PortStepWorldOk(w: World, th: Thread, ok: bool)
    requires WorldOk(w) && Porting(th.stage)
    ensures WorldOk(PortStep(w, th, ok).w)
  {
  }

  lemma StartStepWorldOk(w: World, th: Thread, ok: bool)
    requires WorldOk(w) && Piping(th.stage) && RefsOk(w.objs, th)
    ensures WorldOk(StartStep(w, th, ok).w)
  {
    hide TCore, TAccess, Mapped;
    assert Mapped(w) ==> Mapped(StartStep(w, th, ok).w) by {
      StartKeepsMapped(w, th, ok);
    }
  }

  lemma StartKeepsMapped(w: World, th: Thread, ok: bool)
    requires Piping(th.stage) && Mapped(w)
    ensures Mapped(StartStep(w, th, ok).w)
  {
    hide TCore, TAccess;
  }

  lemma AdvancedWorldOk(w: World, th: Thread, ok: bool)
    requires WorldOk(w) && ThreadOk(w.objs, th)
    ensures WorldOk(Advanced(w, th, ok).w)
  {
    hide WorldOk, CreateStep, PortStep, StartStep, Planned, RefsOk;
    if !th.rolling {
      if Creating(th.stage) {
        CreateStepWorldOk(w, th);
      } else if Porting(th.stage) {
        PortStepWorldOk(w, th, ok);
      } else if Piping(th.stage) {
        StartStepWorldOk(w, th, ok);
      }
    }
  }

  lemma EnvironmentOk(w: World, op: Op)
    requires WorldOk(w)
    ensures WorldOk(Environment(w, op))
  {
  }

  lemma EnvironmentCommits(w: World, op: Op)
    ensures Environment(w, op).committed == w.committed
  {
  }

  // ---- Who will undo what ----

  ghost predicate Held(threads: seq<Thread>, u: Undo) {
    exists i :: 0 <= i < |threads| && u in threads[i].undo
  }

  predicate Owns(th: Thread, r: nat, id: string) {
    r in Refs(th.stage) && CloseSession(id) in th.undo
  }

  ghost predicate Owned(threads: seq<Thread>, r: nat, id: string) {
    exists i :: 0 <= i < |threads| && Owns(threads[i], r, id)
  }

  /** A live session whose set-up has not succeeded (yet). */
  predicate Pending(w: World, r: nat) {
    r < |w.objs| && w.objs[r].phase == Live && r !in w.committed
  }

  /** Each registry entry has a goroutine that will remove it; each pending session has a
      creator that will close it. */
  ghost predicate Covered(s: State) {
    && (forall id :: id in s.w.pool ==> Held(s.threads, Unpool(id)))
    && (forall id :: id in s.w.sinks ==> Held(s.threads, Unsink(id)))
    && (forall id :: id in s.w.jitter ==> Held(s.threads, Unjitter(id)))
    && (forall r: nat :: Pending(s.w, r) ==> Owned(s.threads, r, s.w.objs[r].id))
  }

  predicate NowHeld(e: Effect, u: Undo) {
    u in e.th.undo || (|e.started| == 1 && u in e.started[0].undo)
  }

  /** A step that touches only what its goroutine answers for. */
  ghost predicate KeepsCover(w: World, th: Thread, e: Effect) {
    && (forall id :: id in e.w.pool ==> NowHeld(e, Unpool(id)) || (id in w.pool && Unpool(id) !in th.undo))
    && (forall id :: id in e.w.sinks ==> NowHeld(e, Unsink(id)) || (id in w.sinks && Unsink(id) !in th.undo))
    && (forall id :: id in e.w.jitter ==> NowHeld(e, Unjitter(id)) || (id in w.jitter && Unjitter(id) !in th.undo))
    && (forall r: nat :: Pending(e.w, r) ==>
          Owns(e.th, r, e.w.objs[r].id)
          || (Pending(w, r) && w.objs[r].id == e.w.objs[r].id && !Owns(th, r, w.objs[r].id)))
  }

  lemma CreateKeepsCover(w: World, th: Thread)
    requires ThreadOk(w.objs, th) && WorldOk(w) && Creating(th.stage) && !th.rolling
    ensures KeepsCover(w, th, CreateStep(w, th))
  {
    hide TCore, TAccess, Streaming;
  }

  lemma AcquireKeepsCover(w: World, th: Thread, ok: bool)
    requires ThreadOk(w.objs, th) && !th.rolling && (th.stage.AcquireFirst? || th.stage.AcquireSecond?)
    ensures KeepsCover(w, th, PortStep(w, th, ok))
  {
  }

  lemma ListenKeepsCover(w: World, th: Thread, ok: bool)
    requires ThreadOk(w.objs, th) && !th.rolling && (th.stage.ListenFirst? || th.stage.ListenSecond?)
    ensures KeepsCover(w, th, PortStep(w, th, ok))
  {
  }

  lemma SinkKeepsCover(w: World, th: Thread, ok: bool)
    requires ThreadOk(w.objs, th) && !th.rolling && th.stage.AddSink?
    ensures KeepsCover(w, th, StartStep(w, th, ok))
  {
  }

  lemma PipelineKeepsCover(w: World, th: Thread, ok: bool)
    requires ThreadOk(w.objs, th) && !th.rolling && th.stage.AddPipeline?
    ensures KeepsCover(w, th, StartStep(w, th, ok))
  {
  }

  lemma StreamKeepsCover(w: World, th: Thread, ok: bool)
    requires ThreadOk(w.objs, th) && !th.rolling && th.stage.OpenStream?
    ensures KeepsCover(w, th, StartStep(w, th, ok))
  {
  }

  lemma PumpsKeepCover(w: World, th: Thread, ok: bool)
    requires ThreadOk(w.objs, th) && WorldOk(w) && th.stage.StartPumps? && !th.rolling
    ensures KeepsCover(w, th, StartStep(w, th, ok))
  {
    hide WorldOk;
  }

  lemma AdvancedKeepsCover(w: World, th: Thread, ok: bool)
    requires ThreadOk(w.objs, th) && WorldOk(w)
    ensures KeepsCover(w, th, Advanced(w, th, ok))
  {
    hide CreateStep, PortStep, StartStep, Planned, WorldOk;
    if !th.rolling && Creating(th.stage) {
      CreateKeepsCover(w, th);
    } else if !th.rolling && (th.stage.AcquireFirst? || th.stage.AcquireSecond?) {
      AcquireKeepsCover(w, th, ok);
    } else if !th.rolling && Porting(th.stage) {
      ListenKeepsCover(w, th, ok);
    } else if !th.rolling && th.stage.AddSink? {
      SinkKeepsCover(w, th, ok);
    } else if !th.rolling && th.stage.AddPipeline? {
      PipelineKeepsCover(w, th, ok);
    } else if !th.rolling && th.stage.OpenStream? {
      StreamKeepsCover(w, th, ok);
    } else if !th.rolling && th.stage.StartPumps? {
      PumpsKeepCover(w, th, ok);
    }
  }

  lemma RolledCloseKeepsCover(w: World, th: Thread)
    requires ThreadOk(w.objs, th) && WorldOk(w) && th.rolling && th.undo != [] && th.undo[0].CloseSession?
    ensures KeepsCover(w, th, Rolled(w, th))
  {
    hide Planned;
  }

  lemma RolledKeepsCover(w: World, th: Thread)
    requires ThreadOk(w.objs, th) && WorldOk(w)
    ensures KeepsCover(w, th, Rolled(w, th))
  {
    hide WorldOk, Planned, RefsOk;
    if th.rolling && th.undo != [] && th.undo[0].CloseSession? {
      hide Rolled, KeepsCover;
      RolledCloseKeepsCover(w, th);
    }
  }

  lemma TakeHolds(s: State, t: nat, e: Effect, u: Undo)
    requires t < |s.threads| && |e.started| <= 1
    requires NowHeld(e, u) || (Held(s.threads, u) && u !in s.threads[t].undo)
    ensures Held(Take(s, t, e).threads, u)
  {
    var s' := Take(s, t, e);
    if u in e.th.undo {
      assert s'.threads[t] == e.th;
    } else if NowHeld(e, u) {
      assert s'.threads[|s.threads|] == e.started[0];
    } else {
      var i :| 0 <= i < |s.threads| && u in s.threads[i].undo;
      assert s'.threads[i] == s.threads[i];
    }
  }

  lemma TakeOwns(s: State, t: nat, e: Effect, r: nat, id: string)
    requires t < |s.threads|
    requires Owns(e.th, r, id) || (Owned(s.threads, r, id) && !Owns(s.threads[t], r, id))
    ensures Owned(Take(s, t, e).threads, r, id)
  {
    var s' := Take(s, t, e);
    if Owns(e.th, r, id) {
      assert s'.threads[t] == e.th;
    } else {
      var i :| 0 <= i < |s.threads| && Owns(s.threads[i], r, id);
      assert s'.threads[i] == s.threads[i];
    }
  }

  lemma TakeKeepsCover(s: State, t: nat, e: Effect)
    requires t < |s.threads| && |e.started| <= 1 && Covered(s) && KeepsCover(s.w, s.threads[t], e)
    ensures Covered(Take(s, t, e))
  {
    hide NowHeld, Owns, Held, Owned;
    var s' := Take(s, t, e);
    forall id | id in s'.w.pool ensures Held(s'.threads, Unpool(id)) { TakeHolds(s, t, e, Unpool(id)); }
    forall id | id in s'.w.sinks ensures Held(s'.threads, Unsink(id)) { TakeHolds(s, t, e, Unsink(id)); }
    forall id | id in s'.w.jitter ensures Held(s'.threads, Unjitter(id)) { TakeHolds(s, t, e, Unjitter(id)); }
    forall r: nat | Pending(s'.w, r)
      ensures Owned(s'.threads, r, s'.w.objs[r].id)
    {
      TakeOwns(s, t, e, r, s'.w.objs[r].id);
    }
  }

  lemma NewThreadKeepsCover(s: State, th: Thread)
    requires Covered(s)
    ensures Covered(s.(threads := s.threads + [th]))
  {
    var s' := s.(threads := s.threads + [th]);
    assert forall i :: 0 <= i < |s.threads| ==> s'.threads[i] == s.threads[i];
    forall u | Held(s.threads, u) ensures Held(s'.threads, u) {
      var i :| 0 <= i < |s.threads| && u in s.threads[i].undo;
      assert u in s'.threads[i].undo;
    }
    forall r, id | Owned(s.threads, r, id) ensures Owned(s'.threads, r, id) {
      var i :| 0 <= i < |s.threads| && Owns(s.threads[i], r, id);
      assert Owns(s'.threads[i], r, id);
    }
  }

  lemma EnvironmentKeepsCover(s: State, op: Op)
    requires Covered(s)
    ensures Covered(s.(w := Environment(s.w, op)))
  {
    hide Held, Owned;
  }

  ghost predicate Inv(s: State) {
    ThreadsOk(s) && WorldOk(s.w) && Covered(s)
  }

  lemma StepKeepsInv(s: State, op: Op)
    requires Inv(s)
    ensures Inv(Step(s, op))
  {
    hide Advanced, Rolled, Environment, ThreadOk, WorldOk, Covered;
    StepKeepsThreadsOk(s, op);
    if op.Answer? {
      NewThreadKeepsCover(s, Thread(op.call, CreateTCore, false, []));
    } else if op.Close? {
      NewThreadKeepsCover(s, Thread("", Closer, true, CloseAll(op.ids)));
    } else if op.Advance? {
      if op.t < |s.threads| {
        var th := s.threads[op.t];
        AdvancedOk(s.w, th, op.ok);
        AdvancedWorldOk(s.w, th, op.ok);
        AdvancedKeepsCover(s.w, th, op.ok);
        TakeKeepsCover(s, op.t, Advanced(s.w, th, op.ok));
      }
    } else if op.Roll? {
      if op.t < |s.threads| {
        var th := s.threads[op.t];
        RolledOk(s.w, th);
        RolledWorldOk(s.w, th);
        RolledKeepsCover(s.w, th);
        TakeKeepsCover(s, op.t, Rolled(s.w, th));
      }
    } else {
      EnvironmentOk(s.w, op);
      EnvironmentKeepsCover(s, op);
    }
  }

  lemma RolledWorldOk(w: World, th: Thread)
    requires WorldOk(w)
    ensures WorldOk(Rolled(w, th).w)
  {
    hide WorldOk, Undone;
    if th.rolling && th.undo != [] {
      UndoneOk(w, th.undo[0]);
    }
  }

  lemma {:induction false} RunKeepsInv(c: Config, hs: History)
    ensures Inv(Run(c, hs))
  {
    match hs
    case Begin =>
    case Then(past, op) =>
      hide Step, Inv;
      RunKeepsInv(c, past);
      StepKeepsInv(Run(c, past), op);
  }

  // ---- At rest ----

  predicate Alive(w: World, r: nat) {
    r < |w.objs| && w.objs[r].phase == Live
  }

  predicate ThreadAtRest(w: World, th: Thread) {
    th.undo == [] || (th.stage.Watching? && !th.rolling && Alive(w, th.stage.ref))
  }

  /** All cancelled goroutines have run: nobody is undoing or half-way through a set-up, no
      session is half closed, and whatever still runs serves a live session. */
  ghost predicate AtRest(s: State) {
    && (forall i :: 0 <= i < |s.threads| ==> ThreadAtRest(s.w, s.threads[i]))
    && (forall r :: 0 <= r < |s.w.objs| ==> s.w.objs[r].phase != Unmapped)
    && (forall i :: 0 <= i < |s.w.socks| && s.w.socks[i].open ==> Alive(s.w, s.w.socks[i].ref))
    && (forall k :: 0 <= k < |s.w.streams| && s.w.streams[k].running ==> Alive(s.w, s.w.streams[k].ref))
  }

  lemma {:induction false} NoHandsAtRest(w: World, threads: seq<Thread>, p: int)
    requires forall i :: 0 <= i < |threads| ==> ThreadAtRest(w, threads[i]) && ThreadOk(w.objs, threads[i])
    ensures Holders(threads, FreePort(p)) == 0
  {
    if threads != [] {
      var n := |threads| - 1;
      NoHandsAtRest(w, threads[..n], p);
      assert ThreadAtRest(w, threads[n]) && ThreadOk(w.objs, threads[n]);
      PlannedPorts(threads[n], p);
      EmptyHands(p);
    }
  }

  /** A held registry entry belongs to a live session. */
  lemma HeldAtRest(s: State, u: Undo)
    requires Inv(s) && AtRest(s) && Held(s.threads, u)
    ensures !u.FreePort? && !u.CloseSession? && u.id in s.w.live
  {
    hide Covered, Streaming;
    var i :| 0 <= i < |s.threads| && u in s.threads[i].undo;
    var th := s.threads[i];
    assert ThreadAtRest(s.w, th) && ThreadOk(s.w.objs, th);
    assert th.stage.Watching? && th.undo == [Unpool(th.stage.id), Unsink(th.stage.id), Unjitter(th.stage.id)];
  }

  lemma AIStreamAtRest(s: State, id: string)
    requires WorldOk(s.w) && AtRest(s) && id in s.w.ai
    ensures id in s.w.live
  {
  }

  lemma PendingAtRest(s: State, r: nat)
    requires Inv(s) && AtRest(s)
    ensures !Pending(s.w, r)
  {
    if Pending(s.w, r) {
      var id := s.w.objs[r].id;
      assert Owned(s.threads, r, id);
      var i :| 0 <= i < |s.threads| && Owns(s.threads[i], r, id);
      assert Held(s.threads, CloseSession(id));
      HeldAtRest(s, CloseSession(id));
    }
  }

  lemma RegistriesAtRest(s: State)
    requires Inv(s) && AtRest(s)
    ensures s.w.pool <= s.w.live.Keys && s.w.sinks <= s.w.live.Keys && s.w.jitter <= s.w.live.Keys
            && s.w.ai.Keys <= s.w.live.Keys
  {
    hide Held, AtRest, ThreadsOk, WorldOk;
    forall id | id in s.w.pool ensures id in s.w.live { HeldAtRest(s, Unpool(id)); }
    forall id | id in s.w.sinks ensures id in s.w.live { HeldAtRest(s, Unsink(id)); }
    forall id | id in s.w.jitter ensures id in s.w.live { HeldAtRest(s, Unjitter(id)); }
    forall id | id in s.w.ai ensures id in s.w.live { AIStreamAtRest(s, id); }
  }

  lemma SessionsAtRest(s: State, id: string)
    requires Inv(s) && AtRest(s) && id in s.w.live
    ensures s.w.live[id] in s.w.committed
  {
    hide Covered, AtRest, ThreadsOk;
    PendingAtRest(s, s.w.live[id]);
  }

  /** Main result: after any interleaving that has come to rest, every pipeline, sink, jitter
      buffer and AI stream belongs to a live session; every live session was set up by a
      handler that succeeded; and every port is free or has exactly one listener. */
  lemma NothingLeaks(c: Config, hs: History, p: int)
    requires AtRest(Run(c, hs))
    ensures var w := Run(c, hs).w;
            && w.pool <= w.live.Keys && w.sinks <= w.live.Keys && w.jitter <= w.live.Keys && w.ai.Keys <= w.live.Keys
            && (forall id :: id in w.live ==> w.live[id] in w.committed)
            && Count(w.free, p) + Listening(w.socks, p) == One(c.lo <= p <= c.hi)
  {
    hide Run;
    var s := Run(c, hs);
    RunKeepsInv(c, hs);
    RegistriesAtRest(s);
    forall id | id in s.w.live ensures s.w.live[id] in s.w.committed { SessionsAtRest(s, id); }
    PortsHaveOneOwner(c, hs, p);
    NoHandsAtRest(s.w, s.threads, p);
  }

  lemma {:induction false} NoListeners(w: World, socks: seq<Sock>, p: int)
    requires forall i :: 0 <= i < |socks| ==> !socks[i].open
    ensures Listening(socks, p) == 0
  {
    if socks != [] {
      NoListeners(w, socks[..|socks| - 1], p);
    }
  }

  lemma ListenerServes(s: State, i: nat)
    requires WorldOk(s.w) && AtRest(s) && i < |s.w.socks|
    ensures s.w.socks[i].open ==> exists id :: id in s.w.live && s.w.live[id] == s.w.socks[i].ref
  {
    if s.w.socks[i].open {
      assert Alive(s.w, s.w.socks[i].ref);
      assert s.w.objs[s.w.socks[i].ref].id in s.w.live;
    }
  }

  /** Main result: once all sessions have ended and the goroutines have run, every registry is
      empty and the free list holds exactly the ports of the range, each once. */
  lemma EverythingComesBack(c: Config, hs: History, p: int)
    requires AtRest(Run(c, hs)) && Run(c, hs).w.live == map[]
    ensures var w := Run(c, hs).w;
            && w.pool == {} && w.sinks == {} && w.jitter == {} && w.ai == map[]
            && Count(w.free, p) == One(c.lo <= p <= c.hi)
  {
    hide Run;
    var s := Run(c, hs);
    NothingLeaks(c, hs, p);
    RunKeepsInv(c, hs);
    forall i | 0 <= i < |s.w.socks| ensures !s.w.socks[i].open {
      ListenerServes(s, i);
    }
    NoListeners(s.w, s.w.socks, p);
  }
}
