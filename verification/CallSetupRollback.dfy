/** Rolling back closes sessions by ID, not by identity: when a handler's rollback closes the session
    that it created, and when a session that another request of the same call has created since. */
module CallSetupRollback {
  import opened Basics
  import opened CallSetup
  import opened CallSetupPlans
  import opened CallSetupLeaks
  import opened CallSetupPipelines
  import opened CallSetupPairs

  // ---- A foreign session is closed ----

  /** The deployment of the example below: no ports, no callbacks. */
  const LAB := Config(10, 10, false, false, 1, 2)

  function LabWorld(objs: seq<Session>, live: map<string, nat>): World {
    Initial(LAB).w.(objs := objs, live := live)
  }

  /** The call's first handler has created both sessions; its first session is deleted and the
      call is answered again. */
  function Meanwhile(call: string): History {
    Then(Then(Then(Then(Then(Then(Then(Begin,
      Answer(call)), Advance(0, true)), Advance(0, true)),
      Close([TCore(call)])), Roll(1)),
      Answer(call)), Advance(2, true))
  }

  function BothCreated(call: string): State {
    State(LabWorld([Session(TCore(call), Live), Session(TAccess(call), Live)],
                   map[TCore(call) := 0, TAccess(call) := 1]),
          [Thread(call, AddSink(0, 1, false), false, Closes(call))])
  }

  function FirstRecreated(call: string): State {
    State(LabWorld([Session(TCore(call), Unmapped), Session(TAccess(call), Live), Session(TCore(call), Live)],
                   map[TAccess(call) := 1, TCore(call) := 2]),
          [Thread(call, AddSink(0, 1, false), false, Closes(call)), Thread("", Closer, true, []),
           Thread(call, CreateTAccess(2), false, [CloseSession(TCore(call))])])
  }

  lemma ReachBothCreated(call: string)
    ensures Step(Step(Step(Initial(LAB), Answer(call)), Advance(0, true)), Advance(0, true)) == BothCreated(call)
  {
    SidesDiffer(call);
    var id := TCore(call);
    hide TCore, TAccess;
    var s1 := Step(Initial(LAB), Answer(call));
    assert s1.threads == [Thread(call, CreateTCore, false, [])];
    var s2 := Step(s1, Advance(0, true));
    assert s2.w == LabWorld([Session(id, Live)], map[id := 0]);
    assert s2.threads == [Thread(call, CreateTAccess(0), false, [CloseSession(id)])];
    var s3 := Step(s2, Advance(0, true));
    assert s3.w == BothCreated(call).w && s3.threads == BothCreated(call).threads;
  }

  lemma ReachFirstRecreated(call: string)
    ensures Step(Step(Step(Step(BothCreated(call), Close([TCore(call)])), Roll(1)), Answer(call)), Advance(2, true))
            == FirstRecreated(call)
  {
    SidesDiffer(call);
    var id, aid := TCore(call), TAccess(call);
    hide TCore, TAccess;
    var s3 := BothCreated(call);
    var s4 := Step(s3, Close([id]));
    assert CloseAll([id]) == [CloseSession(id)];
    assert s4.threads == s3.threads + [Thread("", Closer, true, [CloseSession(id)])];
    var s5 := Step(s4, Roll(1));
    assert [CloseSession(id)][1..] == [];
    assert s5.w == LabWorld([Session(id, Unmapped), Session(aid, Live)], map[aid := 1]);
    assert s5.threads == s3.threads + [Thread("", Closer, true, [])];
    var s6 := Step(s5, Answer(call));
    assert s6.w == s5.w && s6.threads == s5.threads + [Thread(call, CreateTCore, false, [])];
    var s7 := Step(s6, Advance(2, true));
    assert s7.w == FirstRecreated(call).w;
    assert s7.threads == FirstRecreated(call).threads;
  }

  /** The old handler fails at its codec and rolls back twice: a sink and a session. */
  lemma OldHandlerClosesNew(call: string)
    ensures var w := Step(Step(Step(Step(FirstRecreated(call), Advance(0, true)), Advance(0, false)), Roll(0)),
                          Roll(0)).w;
            |w.objs| == 3 && w.objs[2] == Session(TCore(call), Unmapped)
  {
    SidesDiffer(call);
    var id := TCore(call);
    hide TCore, TAccess;
    var s7 := FirstRecreated(call);
    var s8 := Step(s7, Advance(0, true));
    assert s8.w == s7.w && s8.threads[0] == Thread(call, AddPipeline(0, 1, false), false, [Unsink(id)] + Closes(call));
    var s9 := Step(s8, Advance(0, false));
    assert s9.w == s7.w && s9.threads[0] == s8.threads[0].(rolling := true);
    var s10 := Step(s9, Roll(0));
    assert s10.w.objs == s7.w.objs && s10.w.live == s7.w.live && s10.threads[0].undo == Closes(call);
  }

  /** Rolling back closes by ID, not by identity. When a call is deleted and set up again while
      an earlier handler of the same call is still failing, that handler closes a session it
      did not create. */
  lemma RollbackMayCloseAnother(call: string)
    ensures Run(LAB, Meanwhile(call)).w.live == map[TAccess(call) := 1, TCore(call) := 2]
    ensures var w := Run(LAB, Then(Then(Then(Then(Meanwhile(call), Advance(0, true)), Advance(0, false)), Roll(0)),
                                   Roll(0))).w;
            |w.objs| == 3 && w.objs[2] == Session(TCore(call), Unmapped)
  {
    ReachBothCreated(call);
    ReachFirstRecreated(call);
    OldHandlerClosesNew(call);
    assert FirstRecreated(call).w.live == map[TAccess(call) := 1, TCore(call) := 2];
    hide Step, Initial, LabWorld;
    var h3 := Then(Then(Then(Begin, Answer(call)), Advance(0, true)), Advance(0, true));
    assert Run(LAB, h3) == BothCreated(call) by {
      assert Run(LAB, Begin) == Initial(LAB);
      assert Run(LAB, Then(Begin, Answer(call))) == Step(Initial(LAB), Answer(call));
    }
    var h5 := Then(Then(h3, Close([TCore(call)])), Roll(1));
    assert Run(LAB, h5) == Step(Step(BothCreated(call), Close([TCore(call)])), Roll(1));
    assert Meanwhile(call) == Then(Then(h5, Answer(call)), Advance(2, true));
    assert Run(LAB, Meanwhile(call)) == FirstRecreated(call);
    var h9 := Then(Then(Meanwhile(call), Advance(0, true)), Advance(0, false));
    assert Run(LAB, h9) == Step(Step(FirstRecreated(call), Advance(0, true)), Advance(0, false));
  }

  // ---- Exactly when ----

  /** This step closes the ID of session `r`, which is there already. */
  predicate ClosesNow(s: State, op: Op, r: nat, id: string) {
    && op.Roll? && op.t < |s.threads| && r < |s.w.objs|
    && s.threads[op.t].rolling && s.threads[op.t].undo != [] && s.threads[op.t].undo[0] == CloseSession(id)
  }

  /** ... and it is not one of `t`. */
  predicate Strikes(s: State, op: Op, t: nat, r: nat, id: string) {
    ClosesNow(s, op, r, id) && op.t != t
  }

  /** Since session `r` was created a goroutine other than `t` has closed its ID. */
  predicate Struck(c: Config, hs: History, t: nat, r: nat, id: string) {
    match hs
    case Begin => false
    case Then(past, op) => Struck(c, past, t, r, id) || Strikes(Run(c, past), op, t, r, id)
  }

  /** A goroutine that owns `r` after a step, of the sessions that were there before, owned it before. */
  ghost predicate OwnedOnlyBefore(w: World, th: Thread, now: Thread) {
    forall r: nat, id: string :: RefIs(w.objs, r, id) && Owns(now, r, id) ==> Owns(th, r, id)
  }

  lemma CreateOwns(w: World, th: Thread)
    requires ThreadOk(w.objs, th) && !th.rolling && Creating(th.stage)
    ensures OwnedOnlyBefore(w, th, CreateStep(w, th).th) && w.objs <= CreateStep(w, th).w.objs
    ensures forall r: nat :: |w.objs| <= r < |CreateStep(w, th).w.objs| ==> Alive(CreateStep(w, th).w, r)
  {
    hide TCore, TAccess;
  }

  lemma PortOwns(w: World, th: Thread, ok: bool)
    requires ThreadOk(w.objs, th) && !th.rolling && Porting(th.stage)
    ensures OwnedOnlyBefore(w, th, PortStep(w, th, ok).th) && PortStep(w, th, ok).w.objs == w.objs
  {
    hide TCore, TAccess;
  }

  lemma StartOwns(w: World, th: Thread, ok: bool)
    requires ThreadOk(w.objs, th) && !th.rolling && Piping(th.stage)
    ensures var e := StartStep(w, th, ok);
            && OwnedOnlyBefore(w, th, e.th) && e.w.objs == w.objs
            && forall i :: 0 <= i < |e.started| ==> e.started[i].stage.Watching?
  {
    hide TCore, TAccess;
  }

  lemma AdvancedOwns(w: World, th: Thread, ok: bool)
    requires ThreadOk(w.objs, th)
    ensures var e := Advanced(w, th, ok);
            && OwnedOnlyBefore(w, th, e.th) && w.objs <= e.w.objs
            && (forall i :: 0 <= i < |e.started| ==> e.started[i].stage.Watching?)
            && forall r: nat :: |w.objs| <= r < |e.w.objs| ==> Alive(e.w, r)
  {
    hide CreateStep, PortStep, StartStep, Planned, RefsOk;
    if !th.rolling && Creating(th.stage) {
      CreateOwns(w, th);
      StartsPlanned(w, th, ok);
    } else if !th.rolling && Porting(th.stage) {
      PortOwns(w, th, ok);
      StartsPlanned(w, th, ok);
    } else if !th.rolling && Piping(th.stage) {
      StartOwns(w, th, ok);
    }
  }

  /** Undoing one thing ends session `r` exactly if it closes the ID under which `r` is live. */
  lemma RolledEnds(w: World, th: Thread, r: nat, id: string)
    requires Mapped(w) && RefIs(w.objs, r, id)
    ensures var w' := Rolled(w, th).w;
            && |w'.objs| == |w.objs| && w'.objs[r].id == id
            && (Alive(w', r) <==> Alive(w, r) && !(th.rolling && th.undo != [] && th.undo[0] == CloseSession(id)))
  {
  }

  /** A handler has the close of a session of its own in its plan at most once. */
  lemma OwnCloseOnce(objs: seq<Session>, th: Thread, r: nat, id: string)
    requires ThreadOk(objs, th) && Shaped(th) && r in Refs(th.stage) && RefIs(objs, r, id)
    requires th.undo != [] && th.undo[0] == CloseSession(id)
    ensures CloseSession(id) !in th.undo[1..]
  {
    hide Planned, TCore, TAccess, RefsOk, Refs, Side, Occurs;
    var p, u := Planned(th), CloseSession(id);
    var second := OwnSide(objs, th, r, id);
    PlannedCloses(th, th.call, second);
    OccursFirst(th.undo, u);
    assert p == p[..|p| - |th.undo|] + th.undo;
    OccursConcat(p[..|p| - |th.undo|], th.undo, u);
    OccursIff(th.undo[1..], u);
  }

  /** A session that a handler has created is one side of its call. */
  lemma OwnSide(objs: seq<Session>, th: Thread, r: nat, id: string) returns (second: bool)
    requires RefsOk(objs, th) && r in Refs(th.stage) && RefIs(objs, r, id)
    ensures id == Side(th.call, second) && !th.stage.Closer?
  {
    hide TCore, TAccess;
    second := id != TCore(th.call);
  }

  lemma OccursFirst(us: seq<Undo>, u: Undo)
    requires us != []
    ensures Occurs(us, u) == One(us[0] == u) + Occurs(us[1..], u)
  {
  }

  lemma EnvironmentEndsNone(w: World, op: Op, r: nat)
    ensures |Environment(w, op).objs| == |w.objs|
    ensures r < |w.objs| ==> Environment(w, op).objs[r].id == w.objs[r].id
    ensures Alive(Environment(w, op), r) <==> Alive(w, r)
  {
  }

  /** Who owns a session after a step owned it before, or has just created it; and the session goes
      on living unless another goroutine closes its ID. */
  ghost predicate OwnedBefore(s: State, op: Op, t: nat, r: nat, id: string) {
    var w' := Step(s, op).w;
    if r < |s.w.objs| then
      && s.w.objs[r].id == id && t < |s.threads| && Owns(s.threads[t], r, id)
      && (Alive(w', r) <==> Alive(s.w, r) && !Strikes(s, op, t, r, id))
    else Alive(w', r) && !Strikes(s, op, t, r, id)
  }

  lemma AdvanceOwns(s: State, op: Op, t: nat, r: nat, id: string)
    requires ThreadsOk(s) && op.Advance? && op.t < |s.threads|
    requires var s' := Step(s, op); t < |s'.threads| && RefIs(s'.w.objs, r, id) && Owns(s'.threads[t], r, id)
    ensures OwnedBefore(s, op, t, r, id)
  {
    var th := s.threads[op.t];
    assert ThreadOk(s.w.objs, th);
    AdvancedOwns(s.w, th, op.ok);
    hide Advanced, ThreadOk, ThreadsOk;
    var e := Advanced(s.w, th, op.ok);
    var s' := Step(s, op);
    assert t < |s.threads| && s'.threads[t] == if t == op.t then e.th else s.threads[t];
    if r >= |s.w.objs| {
      assert Alive(s'.w, r);
    }
  }

  lemma RollOwns(s: State, op: Op, t: nat, r: nat, id: string)
    requires op.Roll? && op.t < |s.threads|
    requires Mapped(s.w) && ThreadOk(s.w.objs, s.threads[op.t]) && Shaped(s.threads[op.t])
    requires var s' := Step(s, op); t < |s'.threads| && RefIs(s'.w.objs, r, id) && Owns(s'.threads[t], r, id)
    ensures OwnedBefore(s, op, t, r, id)
  {
    hide Rolled, ThreadOk, Shaped, Mapped, Refs, Alive;
    var th := s.threads[op.t];
    RolledKeepsStage(s.w, th);
    RolledLeavesRest(s.w, th);
    RolledEnds(s.w, th, r, s.w.objs[r].id);
    if t == op.t && th.rolling && th.undo != [] && th.undo[0] == CloseSession(id) {
      OwnCloseOnce(s.w.objs, th, r, id);
    }
  }

  lemma RolledLeavesRest(w: World, th: Thread)
    ensures |Rolled(w, th).w.objs| == |w.objs|
    ensures Rolled(w, th).th.undo == if th.rolling && th.undo != [] then th.undo[1..] else th.undo
  {
  }

  lemma OtherStepOwns(s: State, op: Op, t: nat, r: nat, id: string)
    requires !op.Advance? && !op.Roll?
    requires var s' := Step(s, op); t < |s'.threads| && RefIs(s'.w.objs, r, id) && Owns(s'.threads[t], r, id)
    ensures OwnedBefore(s, op, t, r, id)
  {
    hide Environment;
    if !op.Answer? && !op.Close? {
      EnvironmentGrows(s.w, op);
      EnvironmentEndsNone(s.w, op, r);
    }
  }

  lemma StepOwns(s: State, op: Op, t: nat, r: nat, id: string)
    requires ThreadsOk(s) && Mapped(s.w) && AllShaped(s.threads)
    requires var s' := Step(s, op); t < |s'.threads| && RefIs(s'.w.objs, r, id) && Owns(s'.threads[t], r, id)
    ensures OwnedBefore(s, op, t, r, id)
  {
    hide Advanced, Rolled, Environment, Mapped, Alive, Owns, ThreadOk, Shaped;
    if op.Advance? && op.t < |s.threads| {
      AdvanceOwns(s, op, t, r, id);
    } else if op.Roll? && op.t < |s.threads| {
      RollOwns(s, op, t, r, id);
    } else if !op.Advance? && !op.Roll? {
      OtherStepOwns(s, op, t, r, id);
    }
  }

  /** Whoever else has closed the ID since, the session is gone then. */
  lemma {:induction false} StruckIsGone(c: Config, hs: History, t: nat, r: nat, id: string)
    requires Struck(c, hs, t, r, id) && (r < |Run(c, hs).w.objs| ==> Run(c, hs).w.objs[r].id == id)
    ensures r < |Run(c, hs).w.objs| && !Alive(Run(c, hs).w, r)
  {
    var Then(past, op) := hs;
    var s := Run(c, past);
    RunKeepsInv(c, past);
    StepRevivesNone(s, op, r);
    hide Step, Run, ThreadsOk, Covered, Streaming;
    if Struck(c, past, t, r, id) {
      StruckIsGone(c, past, t, r, id);
    } else {
      StrikeEnds(s, op, t, r, id);
    }
  }

  lemma StrikeEnds(s: State, op: Op, t: nat, r: nat, id: string)
    requires Mapped(s.w) && Strikes(s, op, t, r, id) && s.w.objs[r].id == id
    ensures !Alive(Step(s, op).w, r)
  {
    RolledEnds(s.w, s.threads[op.t], r, id);
    hide Rolled, Mapped;
  }

  /** The session that a goroutine holds to close lives as long as nobody else closes its ID. */
  lemma {:induction false} OwnLivesUnlessStruck(c: Config, hs: History, t: nat, r: nat, id: string)
    requires var s := Run(c, hs); t < |s.threads| && RefIs(s.w.objs, r, id) && Owns(s.threads[t], r, id)
    ensures Alive(Run(c, hs).w, r) <==> !Struck(c, hs, t, r, id)
  {
    var Then(past, op) := hs;
    var s := Run(c, past);
    RunKeepsInv(c, past);
    RunShaped(c, past);
    assert Run(c, hs) == Step(s, op);
    StepOwns(s, op, t, r, id);
    hide Step, Run, Mapped, ThreadsOk, Covered, Streaming, AllShaped, Strikes, Alive, Owns;
    if r < |s.w.objs| {
      OwnLivesUnlessStruck(c, past, t, r, id);
    } else {
      NotStruckYet(c, past, t, r, id);
    }
  }

  lemma {:induction false} NotStruckYet(c: Config, hs: History, t: nat, r: nat, id: string)
    requires r >= |Run(c, hs).w.objs|
    ensures !Struck(c, hs, t, r, id)
  {
    if hs.Then? {
      var s := Run(c, hs.past);
      StepRevivesNone(s, hs.op, r);
      NotStruckYet(c, hs.past, t, r, id);
    }
  }

  /** Main result: a handler's rollback closes the session that the handler created under that ID if
      and only if no other goroutine has closed the ID since it was created; and it closes a
      session of another request if and only if one has, and the ID is in use again. */
  lemma RollbackClosesOwnIff(c: Config, hs: History, t: nat, r: nat)
    requires var s := Run(c, hs);
             && t < |s.threads| && s.threads[t].rolling && s.threads[t].undo != [] && s.threads[t].undo[0].CloseSession?
             && r in Refs(s.threads[t].stage) && RefIs(s.w.objs, r, s.threads[t].undo[0].id)
    ensures var s := Run(c, hs);
            var id, w' := s.threads[t].undo[0].id, Rolled(s.w, s.threads[t]).w;
            && (Alive(s.w, r) && !Alive(w', r) <==> !Struck(c, hs, t, r, id))
            && ((exists q: nat :: q != r && Alive(s.w, q) && !Alive(w', q)) <==>
                  Struck(c, hs, t, r, id) && id in s.w.live)
  {
    var s := Run(c, hs);
    var th := s.threads[t];
    var id, w' := th.undo[0].id, Rolled(s.w, th).w;
    OwnLivesUnlessStruck(c, hs, t, r, id);
    RunKeepsInv(c, hs);
    RolledEnds(s.w, th, r, id);
    hide Run, Rolled, Refs, Struck, ThreadsOk, Covered, Streaming;
    forall q: nat | Alive(s.w, q)
      ensures Alive(w', q) <==> s.w.objs[q].id != id
    {
      RolledEnds(s.w, th, q, s.w.objs[q].id);
    }
    if id in s.w.live && !Alive(s.w, r) {
      assert Alive(s.w, s.w.live[id]) && !Alive(w', s.w.live[id]);
    }
  }

  // ---- Which requests bring it about ----

  /** From a point at which no close of the call is pending, and as long as nobody asks to close a
      side of it, whoever holds the close of a side is the creator of the session that is live
      under it. */
  lemma OnlyOwnCloses(c: Config, hs: History, from: History, call: string, second: bool, t: nat)
    requires NobodyCloses(hs, from, call) && NothingPending(Run(c, from), call) && t < |Run(c, hs).threads|
    requires CloseSession(Side(call, second)) in Run(c, hs).threads[t].undo
    ensures var w, th, id := Run(c, hs).w, Run(c, hs).threads[t], Side(call, second);
            th.call == call && id in w.live && RefOf(th.stage, second) == Some(w.live[id])
  {
    hide Run, Side, RefOf, NothingPending;
    RunKeepsSide(c, hs, from, call, second);
    assert HoldsOwn(Run(c, hs).w, Run(c, hs).threads[t], call, second);
  }

  /** Main result: when somebody else has closed the session that a handler is still going to close,
      then somebody asked to close a side of the call, since any point at which no close of it was
      pending: a DELETE, the garbage collector or a failed call control. */
  lemma StruckByRequest(c: Config, hs: History, from: History, call: string, second: bool, t: nat, r: nat)
    requires NothingPending(Run(c, from), call)
    requires t < |Run(c, hs).threads| && RefIs(Run(c, hs).w.objs, r, Side(call, second))
    requires Owns(Run(c, hs).threads[t], r, Side(call, second)) && Struck(c, hs, t, r, Side(call, second))
    ensures !NobodyCloses(hs, from, call)
  {
    var w, th, id := Run(c, hs).w, Run(c, hs).threads[t], Side(call, second);
    if NobodyCloses(hs, from, call) {
      OnlyOwnCloses(c, hs, from, call, second, t);
      OwnLivesUnlessStruck(c, hs, t, r, id);
      RunKeepsInv(c, hs);
      OwnRef(w, th, call, second, r);
      assert false;
    }
  }

  /** The session of one side that a handler owns is the one that its stage names. */
  lemma OwnRef(w: World, th: Thread, call: string, second: bool, r: nat)
    requires ThreadOk(w.objs, th) && th.call == call && r in Refs(th.stage) && RefIs(w.objs, r, Side(call, second))
    ensures RefOf(th.stage, second) == Some(r)
  {
    SidesDiffer(call);
    hide TCore, TAccess, Planned;
  }
}
