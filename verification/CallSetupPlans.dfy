/** What every goroutine of call set-up still has to undo, at each of its stages. */
module CallSetupPlans {
  import opened Basics
  import opened CallSetup

  // ---- Counting undo actions ----

  function Occurs(us: seq<Undo>, u: Undo): nat {
    if us == [] then 0 else One(us[0] == u) + Occurs(us[1..], u)
  }

  /** How often `u` is still to be done, over all goroutines. */
  function Holders(threads: seq<Thread>, u: Undo): nat {
    if threads == [] then 0 else Holders(threads[..|threads| - 1], u) + Occurs(threads[|threads| - 1].undo, u)
  }

  lemma {:induction false} HoldersUpdate(threads: seq<Thread>, t: nat, th: Thread, u: Undo)
    requires t < |threads|
    ensures Holders(threads[t := th], u) == Holders(threads, u) - Occurs(threads[t].undo, u) + Occurs(th.undo, u)
    ensures Holders(threads, u) >= Occurs(threads[t].undo, u)
    decreases |threads|
  {
    var n := |threads| - 1;
    if t < n {
      assert threads[t := th][..n] == threads[..n][t := th];
      HoldersUpdate(threads[..n], t, th, u);
    } else {
      assert threads[t := th][..n] == threads[..n];
    }
  }

  lemma HoldersAppend(threads: seq<Thread>, th: Thread, u: Undo)
    ensures Holders(threads + [th], u) == Holders(threads, u) + Occurs(th.undo, u)
  {
    assert (threads + [th])[..|threads|] == threads;
  }

  lemma {:induction false} OccursConcat(a: seq<Undo>, b: seq<Undo>, u: Undo)
    ensures Occurs(a + b, u) == Occurs(a, u) + Occurs(b, u)
  {
    if a == [] {
      assert a + b == b;
    } else {
      assert (a + b)[1..] == a[1..] + b;
      OccursConcat(a[1..], b, u);
    }
  }

  lemma {:induction false} OccursIff(us: seq<Undo>, u: Undo)
    ensures Occurs(us, u) > 0 <==> u in us
  {
    if us != [] {
      OccursIff(us[1..], u);
    }
  }

  lemma OccursNot(us: seq<Undo>, u: Undo)
    requires u !in us
    ensures Occurs(us, u) == 0
  {
    OccursIff(us, u);
  }

  lemma {:induction false} HoldersIff(threads: seq<Thread>, u: Undo)
    ensures Holders(threads, u) > 0 <==> exists i :: 0 <= i < |threads| && u in threads[i].undo
  {
    if threads != [] {
      var n := |threads| - 1;
      HoldersIff(threads[..n], u);
      OccursIff(threads[n].undo, u);
    }
  }

  /** Two goroutines that both hold `u`. */
  lemma {:induction false} TwoHolders(threads: seq<Thread>, i: nat, j: nat, u: Undo)
    requires i < j < |threads| && u in threads[i].undo && u in threads[j].undo
    ensures Holders(threads, u) >= 2
    decreases |threads|
  {
    var n := |threads| - 1;
    if j < n {
      TwoHolders(threads[..n], i, j, u);
    } else {
      assert u in threads[..n][i].undo;
      HoldersIff(threads[..n], u);
      OccursIff(threads[n].undo, u);
    }
  }

  // ---- The plan of every stage ----

  /** What a goroutine at this stage undoes if its next step fails: the code's failing exits. */
  function Planned(th: Thread): seq<Undo> {
    var id := Starting(th);
    match th.stage
    case CreateTCore => []
    case CreateTAccess(_) => [CloseSession(TCore(th.call))]
    case AcquireFirst(_, _) => Closes(th.call)
    case AcquireSecond(_, _, p1) => [FreePort(p1)] + Closes(th.call)
    case ListenFirst(_, _, p1, p2) => [FreePort(p1), FreePort(p2)] + Closes(th.call)
    case ListenSecond(_, _, p2) => [FreePort(p2)] + Closes(th.call)
    case AddSink(_, _, _) => Closes(th.call)
    case AddPipeline(_, _, _) => [Unsink(id)] + Closes(th.call)
    case OpenStream(_, _, _) => [Unpool(id), Unsink(id)] + Closes(th.call)
    case StartPumps(_, _, _) => [Unpool(id), Unsink(id)] + Closes(th.call)
    case Committed => []
    case Watching(_, id) => [Unpool(id), Unsink(id), Unjitter(id)]
    case Closer => []
  }

  /** The sessions a handler has created and not yet committed. */
  function Refs(stage: Stage): set<nat> {
    match stage
    case CreateTCore => {}
    case CreateTAccess(rt) => {rt}
    case AcquireFirst(rt, ra) => {rt, ra}
    case AcquireSecond(rt, ra, _) => {rt, ra}
    case ListenFirst(rt, ra, _, _) => {rt, ra}
    case ListenSecond(rt, ra, _) => {rt, ra}
    case AddSink(rt, ra, _) => {rt, ra}
    case AddPipeline(rt, ra, _) => {rt, ra}
    case OpenStream(rt, ra, _) => {rt, ra}
    case StartPumps(rt, ra, _) => {rt, ra}
    case Committed => {}
    case Watching(_, _) => {}
    case Closer => {}
  }

  predicate RefIs(objs: seq<Session>, r: nat, id: string) {
    r < |objs| && objs[r].id == id
  }

  predicate RefsOk(objs: seq<Session>, th: Thread) {
    match th.stage
    case CreateTCore => true
    case CreateTAccess(rt) => RefIs(objs, rt, TCore(th.call))
    case AcquireFirst(rt, ra) => RefIs(objs, rt, TCore(th.call)) && RefIs(objs, ra, TAccess(th.call))
    case AcquireSecond(rt, ra, _) => RefIs(objs, rt, TCore(th.call)) && RefIs(objs, ra, TAccess(th.call))
    case ListenFirst(rt, ra, _, _) => RefIs(objs, rt, TCore(th.call)) && RefIs(objs, ra, TAccess(th.call))
    case ListenSecond(rt, ra, _) => RefIs(objs, rt, TCore(th.call)) && RefIs(objs, ra, TAccess(th.call))
    case AddSink(rt, ra, _) => RefIs(objs, rt, TCore(th.call)) && RefIs(objs, ra, TAccess(th.call))
    case AddPipeline(rt, ra, _) => RefIs(objs, rt, TCore(th.call)) && RefIs(objs, ra, TAccess(th.call))
    case OpenStream(rt, ra, _) => RefIs(objs, rt, TCore(th.call)) && RefIs(objs, ra, TAccess(th.call))
    case StartPumps(rt, ra, _) => RefIs(objs, rt, TCore(th.call)) && RefIs(objs, ra, TAccess(th.call))
    case Committed => true
    case Watching(ref, id) => RefIs(objs, ref, id)
    case Closer => true
  }

  predicate ThreadOk(objs: seq<Session>, th: Thread) {
    (!th.rolling ==> th.undo == Planned(th)) && RefsOk(objs, th) && (th.stage.Closer? ==> th.rolling)
  }

  ghost predicate ThreadsOk(s: State) {
    forall i :: 0 <= i < |s.threads| ==> ThreadOk(s.w.objs, s.threads[i])
  }

  /** Sessions keep their IDs and are never forgotten. */
  predicate Grows(a: seq<Session>, b: seq<Session>) {
    |a| <= |b| && forall r :: 0 <= r < |a| ==> b[r].id == a[r].id
  }

  lemma ThreadStaysOk(a: seq<Session>, b: seq<Session>, th: Thread)
    requires Grows(a, b) && ThreadOk(a, th)
    ensures ThreadOk(b, th)
  {
    hide Planned;
  }

  predicate EffectOk(w: World, e: Effect) {
    && Grows(w.objs, e.w.objs) && ThreadOk(e.w.objs, e.th)
    && |e.started| <= 1 && (|e.started| == 1 ==> ThreadOk(e.w.objs, e.started[0]))
  }

  predicate Creating(stage: Stage) {
    stage.CreateTCore? || stage.CreateTAccess?
  }

  predicate Porting(stage: Stage) {
    stage.AcquireFirst? || stage.AcquireSecond? || stage.ListenFirst? || stage.ListenSecond?
  }

  predicate Piping(stage: Stage) {
    stage.AddSink? || stage.AddPipeline? || stage.OpenStream? || stage.StartPumps?
  }

  lemma CreateStepOk(w: World, th: Thread)
    requires ThreadOk(w.objs, th) && Creating(th.stage) && !th.rolling
    ensures EffectOk(w, CreateStep(w, th))
  {
  }

  lemma PortStepOk(w: World, th: Thread, ok: bool)
    requires ThreadOk(w.objs, th) && Porting(th.stage) && !th.rolling
    ensures EffectOk(w, PortStep(w, th, ok))
  {
  }

  lemma PumpStepOk(w: World, th: Thread, ok: bool)
    requires ThreadOk(w.objs, th) && th.stage.StartPumps? && !th.rolling
    ensures EffectOk(w, StartStep(w, th, ok))
  {
    hide Closes;
  }

  lemma AddStepOk(w: World, th: Thread, ok: bool)
    requires ThreadOk(w.objs, th) && Piping(th.stage) && !th.stage.StartPumps? && !th.rolling
    ensures EffectOk(w, StartStep(w, th, ok))
  {
    hide Closes;
  }

  lemma StartStepOk(w: World, th: Thread, ok: bool)
    requires ThreadOk(w.objs, th) && Piping(th.stage) && !th.rolling
    ensures EffectOk(w, StartStep(w, th, ok))
  {
    hide StartStep, EffectOk, ThreadOk;
    if th.stage.StartPumps? {
      PumpStepOk(w, th, ok);
    } else {
      AddStepOk(w, th, ok);
    }
  }

  /** Every step of a goroutine leaves it, and what it starts, with the right plan. */
  lemma AdvancedOk(w: World, th: Thread, ok: bool)
    requires ThreadOk(w.objs, th)
    ensures EffectOk(w, Advanced(w, th, ok))
  {
    hide CreateStep, PortStep, StartStep, Planned;
    if !th.rolling {
      if Creating(th.stage) {
        CreateStepOk(w, th);
      } else if Porting(th.stage) {
        PortStepOk(w, th, ok);
      } else if Piping(th.stage) {
        StartStepOk(w, th, ok);
      }
    }
  }

  lemma RolledOk(w: World, th: Thread)
    requires ThreadOk(w.objs, th)
    ensures EffectOk(w, Rolled(w, th))
  {
    hide Planned;
  }

  lemma EnvironmentGrows(w: World, op: Op)
    ensures Grows(w.objs, Environment(w, op).objs)
  {
  }

  lemma TakeKeepsThreadsOk(s: State, t: nat, e: Effect)
    requires ThreadsOk(s) && t < |s.threads| && EffectOk(s.w, e)
    ensures ThreadsOk(Take(s, t, e))
  {
    hide ThreadOk, Grows;
    var s' := Take(s, t, e);
    forall i | 0 <= i < |s'.threads|
      ensures ThreadOk(s'.w.objs, s'.threads[i])
    {
      if i < |s.threads| && i != t {
        ThreadStaysOk(s.w.objs, e.w.objs, s.threads[i]);
      }
    }
  }

  lemma NewThreadKeepsThreadsOk(s: State, th: Thread)
    requires ThreadsOk(s) && ThreadOk(s.w.objs, th)
    ensures ThreadsOk(s.(threads := s.threads + [th]))
  {
    hide ThreadOk;
  }

  lemma StepKeepsThreadsOk(s: State, op: Op)
    requires ThreadsOk(s)
    ensures ThreadsOk(Step(s, op))
  {
    hide Advanced, Rolled, Environment, Take;
    if op.Answer? {
      NewThreadKeepsThreadsOk(s, Thread(op.call, CreateTCore, false, []));
    } else if op.Close? {
      NewThreadKeepsThreadsOk(s, Thread("", Closer, true, CloseAll(op.ids)));
    } else if op.Advance? {
      if op.t < |s.threads| {
        AdvancedOk(s.w, s.threads[op.t], op.ok);
        TakeKeepsThreadsOk(s, op.t, Advanced(s.w, s.threads[op.t], op.ok));
      }
    } else if op.Roll? {
      if op.t < |s.threads| {
        RolledOk(s.w, s.threads[op.t]);
        TakeKeepsThreadsOk(s, op.t, Rolled(s.w, s.threads[op.t]));
      }
    } else {
      EnvironmentGrows(s.w, op);
      forall i | 0 <= i < |s.threads|
        ensures ThreadOk(Step(s, op).w.objs, s.threads[i])
      {
        ThreadStaysOk(s.w.objs, Environment(s.w, op).objs, s.threads[i]);
      }
    }
  }

  lemma {:induction false} RunKeepsThreadsOk(c: Config, hs: History)
    ensures ThreadsOk(Run(c, hs))
  {
    match hs
    case Begin =>
    case Then(past, op) =>
      hide Step, ThreadsOk;
      RunKeepsThreadsOk(c, past);
      StepKeepsThreadsOk(Run(c, past), op);
  }

  // ---- A goroutine undoes the rest of its plan ----

  /** Whatever a handler or watcher still has to undo is the end of the plan of its stage. */
  predicate Shaped(th: Thread) {
    if th.stage.Closer? then forall i :: 0 <= i < |th.undo| ==> th.undo[i].CloseSession?
    else |th.undo| <= |Planned(th)| && th.undo == Planned(th)[|Planned(th)| - |th.undo|..]
  }

  ghost predicate AllShaped(threads: seq<Thread>) {
    forall i :: 0 <= i < |threads| ==> Shaped(threads[i])
  }

  lemma AdvancedShaped(w: World, th: Thread, ok: bool)
    requires ThreadOk(w.objs, th) && Shaped(th)
    ensures var e := Advanced(w, th, ok); Shaped(e.th) && AllShaped(e.started)
  {
    hide Planned, RefsOk, CreateStep, PortStep, StartStep;
    var e := Advanced(w, th, ok);
    AdvancedOk(w, th, ok);
    FailsOrPlans(w, th, ok);
    StartsPlanned(w, th, ok);
  }

  /** A step that starts to undo changes nothing else about the goroutine. */
  lemma FailsOrPlans(w: World, th: Thread, ok: bool)
    ensures var e := Advanced(w, th, ok); e.th.rolling ==> e.th == th || e == Fail(w, th)
    ensures var e := Advanced(w, th, ok); e.th.rolling ==> Planned(e.th) == Planned(th)
  {
  }

  lemma StartsPlanned(w: World, th: Thread, ok: bool)
    ensures var e := Advanced(w, th, ok);
            forall i :: 0 <= i < |e.started| ==> !e.started[i].rolling && e.started[i].stage.Watching?
  {
  }

  lemma RolledShaped(w: World, th: Thread)
    requires Shaped(th)
    ensures Shaped(Rolled(w, th).th)
  {
    hide Undone;
    var e := Rolled(w, th);
    assert Planned(e.th) == Planned(th) by {
      hide Rolled;
      RolledKeepsStage(w, th);
    }
  }

  lemma RolledKeepsStage(w: World, th: Thread)
    ensures var e := Rolled(w, th);
            e.th.stage == th.stage && e.th.call == th.call && e.th.rolling == th.rolling && e.started == []
  {
  }

  lemma StepShaped(s: State, op: Op)
    requires ThreadsOk(s) && AllShaped(s.threads)
    ensures AllShaped(Step(s, op).threads)
  {
    hide Advanced, Rolled, Environment, ThreadOk, Shaped;
    if op.Answer? {
      NewThreadsShaped(op.call, []);
    } else if op.Close? {
      NewThreadsShaped("", op.ids);
    } else if op.Advance? {
      if op.t < |s.threads| {
        AdvancedShaped(s.w, s.threads[op.t], op.ok);
      }
    } else if op.Roll? {
      if op.t < |s.threads| {
        RolledShaped(s.w, s.threads[op.t]);
        RolledKeepsStage(s.w, s.threads[op.t]);
      }
    }
  }

  lemma NewThreadsShaped(call: string, ids: seq<string>)
    ensures Shaped(Thread(call, CreateTCore, false, [])) && Shaped(Thread("", Closer, true, CloseAll(ids)))
  {
  }

  lemma {:induction false} RunShaped(c: Config, hs: History)
    ensures AllShaped(Run(c, hs).threads)
  {
    match hs
    case Begin =>
    case Then(past, op) =>
      hide Step, AllShaped, ThreadsOk;
      RunShaped(c, past);
      RunKeepsThreadsOk(c, past);
      StepShaped(Run(c, past), op);
  }
}
