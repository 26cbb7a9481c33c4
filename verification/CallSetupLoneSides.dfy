/** When a side of a call stays alone: exactly when the session that was set up together with it has
    been closed. */
module CallSetupLoneSides {
  import opened CallSetup
  import opened CallSetupPlans
  import opened CallSetupLeaks
  import opened CallSetupPipelines
  import opened CallSetupPairs
  import opened CallSetupRollback

  // ---- A session lives until its ID is closed ----

  /** Since session `q` was created some goroutine has closed its ID. */
  predicate ClosedSince(c: Config, hs: History, q: nat, id: string) {
    match hs
    case Begin => false
    case Then(past, op) => ClosedSince(c, past, q, id) || ClosesNow(Run(c, past), op, q, id)
  }

  /** One step: a session that was there goes on living unless its ID is closed; a new one lives. */
  ghost predicate EndsOnlyByClose(s: State, op: Op, q: nat, id: string) {
    var w' := Step(s, op).w;
    if q < |s.w.objs| then s.w.objs[q].id == id && (Alive(w', q) <==> Alive(s.w, q) && !ClosesNow(s, op, q, id))
    else Alive(w', q)
  }

  lemma StepEnds(s: State, op: Op, q: nat, id: string)
    requires ThreadsOk(s) && Mapped(s.w) && RefIs(Step(s, op).w.objs, q, id)
    ensures EndsOnlyByClose(s, op, q, id)
  {
    hide Advanced, Rolled, Environment, Mapped, ThreadOk;
    if op.Advance? && op.t < |s.threads| {
      assert ThreadOk(s.w.objs, s.threads[op.t]);
      AdvancedOwns(s.w, s.threads[op.t], op.ok);
    } else if op.Roll? && op.t < |s.threads| {
      RolledLeavesRest(s.w, s.threads[op.t]);
      RolledEnds(s.w, s.threads[op.t], q, s.w.objs[q].id);
    } else if !op.Advance? && !op.Roll? && !op.Answer? && !op.Close? {
      EnvironmentGrows(s.w, op);
      EnvironmentEndsNone(s.w, op, q);
    }
  }

  lemma {:induction false} NotClosedYet(c: Config, hs: History, q: nat, id: string)
    requires q >= |Run(c, hs).w.objs|
    ensures !ClosedSince(c, hs, q, id)
  {
    hide Step;
    if hs.Then? {
      StepRevivesNone(Run(c, hs.past), hs.op, q);
      NotClosedYet(c, hs.past, q, id);
    }
  }

  /** Main result: in every interleaving a session is live if and only if nobody has closed its ID
      since it was created. */
  lemma {:induction false} AliveIffNotClosed(c: Config, hs: History, q: nat, id: string)
    requires RefIs(Run(c, hs).w.objs, q, id)
    ensures Alive(Run(c, hs).w, q) <==> !ClosedSince(c, hs, q, id)
  {
    var Then(past, op) := hs;
    var s := Run(c, past);
    RunKeepsInv(c, past);
    StepEnds(s, op, q, id);
    hide Step, Mapped, ThreadsOk, Covered, Streaming;
    if q < |s.w.objs| {
      AliveIffNotClosed(c, past, q, id);
    } else {
      NotClosedYet(c, past, q, id);
    }
  }

  /** An ID is live if and only if it has a session that nobody has closed. */
  lemma IdIsLiveIff(c: Config, hs: History, id: string)
    ensures var w := Run(c, hs).w;
            id in w.live <==> exists q: nat :: RefIs(w.objs, q, id) && !ClosedSince(c, hs, q, id)
  {
    RunKeepsInv(c, hs);
    hide Run, ClosedSince, ThreadsOk, Covered, Streaming;
    var w := Run(c, hs).w;
    if id in w.live {
      AliveIffNotClosed(c, hs, w.live[id], id);
    }
    if q: nat :| RefIs(w.objs, q, id) && !ClosedSince(c, hs, q, id) {
      AliveIffNotClosed(c, hs, q, id);
    }
  }

  // ---- A session is set up once ----

  /** The sessions that the goroutines are setting up are different, and none is committed. */
  ghost predicate Apart(s: State) {
    && (forall i, j :: 0 <= i < j < |s.threads| ==> Refs(s.threads[i].stage) !! Refs(s.threads[j].stage))
    && (forall i :: 0 <= i < |s.threads| ==> Refs(s.threads[i].stage) !! s.w.committed)
  }

  /** A step keeps the sessions its goroutine has, adds a new one, or commits all of them. */
  predicate KeepsApart(w: World, th: Thread, e: Effect) {
    && (forall r :: r in Refs(e.th.stage) ==> r in Refs(th.stage) || r == |w.objs|)
    && (forall i :: 0 <= i < |e.started| ==> Refs(e.started[i].stage) == {})
    && (forall r :: r in e.w.committed ==> r in w.committed || r in Refs(th.stage))
    && (e.w.committed == w.committed || Refs(e.th.stage) == {})
  }

  lemma CreateKeepsApart(w: World, th: Thread)
    requires Creating(th.stage)
    ensures KeepsApart(w, th, CreateStep(w, th))
  {
  }

  lemma PortKeepsApart(w: World, th: Thread, ok: bool)
    requires Porting(th.stage)
    ensures KeepsApart(w, th, PortStep(w, th, ok))
  {
  }

  lemma StartKeepsApart(w: World, th: Thread, ok: bool)
    requires Piping(th.stage)
    ensures KeepsApart(w, th, StartStep(w, th, ok))
  {
  }

  lemma AdvancedKeepsApart(w: World, th: Thread, ok: bool)
    ensures KeepsApart(w, th, Advanced(w, th, ok))
  {
    hide CreateStep, PortStep, StartStep;
    if Creating(th.stage) {
      CreateKeepsApart(w, th);
    } else if Porting(th.stage) {
      PortKeepsApart(w, th, ok);
    } else if Piping(th.stage) {
      StartKeepsApart(w, th, ok);
    }
  }

  lemma RolledKeepsApart(w: World, th: Thread)
    ensures KeepsApart(w, th, Rolled(w, th))
  {
  }

  /** The sessions that a goroutine is setting up exist. */
  lemma RefsExist(objs: seq<Session>, th: Thread)
    requires ThreadOk(objs, th)
    ensures forall r :: r in Refs(th.stage) ==> r < |objs|
  {
    hide Planned, TCore, TAccess;
  }

  lemma TakeKeepsApart(s: State, t: nat, e: Effect)
    requires Apart(s) && ThreadsOk(s) && CommittedKnown(s.w) && t < |s.threads| && KeepsApart(s.w, s.threads[t], e)
    ensures Apart(Take(s, t, e))
  {
    hide Refs, ThreadOk;
    forall i | 0 <= i < |s.threads|
      ensures forall r :: r in Refs(s.threads[i].stage) ==> r < |s.w.objs|
    {
      RefsExist(s.w.objs, s.threads[i]);
    }
    var s' := Take(s, t, e);
    forall i, j | 0 <= i < j < |s'.threads|
      ensures Refs(s'.threads[i].stage) !! Refs(s'.threads[j].stage)
    {
      if j < |s.threads| {
        assert Refs(s.threads[i].stage) !! Refs(s.threads[j].stage);
      }
    }
    forall i | 0 <= i < |s'.threads|
      ensures Refs(s'.threads[i].stage) !! s'.w.committed
    {
      if i < |s.threads| && i != t {
        assert Refs(s.threads[i].stage) !! Refs(s.threads[t].stage);
      }
    }
  }

  lemma StepKeepsApart(s: State, op: Op)
    requires Apart(s) && ThreadsOk(s) && CommittedKnown(s.w)
    ensures Apart(Step(s, op))
  {
    hide Advanced, Rolled, Environment, ThreadsOk, KeepsApart;
    if op.Advance? {
      if op.t < |s.threads| {
        AdvancedKeepsApart(s.w, s.threads[op.t], op.ok);
        TakeKeepsApart(s, op.t, Advanced(s.w, s.threads[op.t], op.ok));
      }
    } else if op.Roll? {
      if op.t < |s.threads| {
        RolledKeepsApart(s.w, s.threads[op.t]);
        TakeKeepsApart(s, op.t, Rolled(s.w, s.threads[op.t]));
      }
    } else if !op.Answer? && !op.Close? {
      EnvironmentCommits(s.w, op);
    }
  }

  lemma {:induction false} RunKeepsApart(c: Config, hs: History)
    ensures Apart(Run(c, hs))
  {
    match hs
    case Begin =>
    case Then(past, op) =>
      hide Step, ThreadsOk, Apart;
      RunKeepsApart(c, past);
      RunKeepsThreadsOk(c, past);
      RunKeepsWatch(c, past);
      StepKeepsApart(Run(c, past), op);
  }

  /** `r` is the session of one side of the call, and `q` that of the other; one handler has set
      them up together. */
  predicate Partners(c: Config, hs: History, r: nat, q: nat, call: string, second: bool) {
    Together(c, hs, Begin, if second then q else r, if second then r else q, call)
  }

  lemma CommitsNewOnes(s: State, op: Op)
    requires Apart(s)
    ensures forall rt, ra, call :: CommitsNow(s, op, rt, ra, call) ==> rt !in s.w.committed && ra !in s.w.committed
  {
  }

  /** No session is set up twice. */
  lemma {:induction false} OnePartner(c: Config, hs: History, r: nat, p: nat, q: nat, call: string, second: bool)
    requires Partners(c, hs, r, p, call, second) && Partners(c, hs, r, q, call, second)
    ensures p == q
  {
    var s := Run(c, hs.past);
    RunKeepsApart(c, hs.past);
    hide Step, Run;
    var byP := Partners(c, hs.past, r, p, call, second);
    var byQ := Partners(c, hs.past, r, q, call, second);
    CommitsNewOnes(s, hs.op);
    if byP && byQ {
      OnePartner(c, hs.past, r, p, q, call, second);
    } else if byP {
      TogetherAreSides(c, hs.past, Begin, if second then p else r, if second then r else p, call);
    } else if byQ {
      TogetherAreSides(c, hs.past, Begin, if second then q else r, if second then r else q, call);
    }
  }

  // ---- Main result ----

  /** Main result, what closes can break: a live side at rest was set up by one handler together with
      exactly one session of the other side, and has that session beside it if and only if nobody
      has closed the other side's ID since that session was created. */
  lemma AloneIffPartnerClosed(c: Config, hs: History, call: string, second: bool) returns (q: nat)
    requires AtRest(Run(c, hs)) && Side(call, second) in Run(c, hs).w.live
    ensures var w, other := Run(c, hs).w, Side(call, !second);
            var r := w.live[Side(call, second)];
            && Partners(c, hs, r, q, call, second)
            && (forall p: nat :: Partners(c, hs, r, p, call, second) ==> p == q)
            && (other in w.live && w.live[other] == q <==> !ClosedSince(c, hs, q, other))
  {
    RunKeepsInv(c, hs);
    hide Run, AtRest, Covered, ThreadsOk, Streaming, TCore, TAccess, ClosedSince;
    var w := Run(c, hs).w;
    var r := w.live[Side(call, second)];
    SessionsAtRest(Run(c, hs), Side(call, second));
    assert Follows(hs, Begin) by { EverythingFollows(hs); }
    NothingCommittedYet(c);
    var rt, ra, creator := CommittedTogether(c, hs, Begin, r);
    TogetherAreSides(c, hs, Begin, rt, ra, creator);
    CommittedSide(w, rt, ra, creator, r, call, second);
    q := if second then rt else ra;
    forall p: nat | Partners(c, hs, r, p, call, second)
      ensures p == q
    {
      OnePartner(c, hs, r, p, q, call, second);
    }
    AliveIffNotClosed(c, hs, q, Side(call, !second));
  }

  lemma {:induction false} EverythingFollows(hs: History)
    ensures Follows(hs, Begin)
  {
    if hs.Then? {
      EverythingFollows(hs.past);
    }
  }

  lemma NothingCommittedYet(c: Config)
    ensures Run(c, Begin).w.committed == {}
  {
  }
}
