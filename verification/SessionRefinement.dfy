/** The session manager's methods, each under its lock, are the steps of the lifecycle machine: every
    theorem over the runs of the machine is one about the objects. */
module SessionRefinement {
  import opened Basics
  import opened SessionTable
  import M = SessionManager
  import L = SessionLifecycle

  ghost predicate SameLife(s: M.Session, o: L.Obj)
    reads s
  {
    s.id == o.id && s.status == o.status && s.cancelled == o.cancelled && s.lastPacketAt == o.lastPacketAt
  }

  /** `objs` are the sessions created so far, in that order. */
  ghost predicate Lives(objs: seq<M.Session>, st: L.State)
    reads objs
  {
    && |objs| == |st.objs|
    && (forall i, j :: 0 <= i < j < |objs| ==> objs[i] != objs[j])
    && (forall i :: 0 <= i < |objs| ==> SameLife(objs[i], st.objs[i]))
  }

  ghost predicate Refs(sessions: map<string, M.Session>, objs: seq<M.Session>, st: L.State) {
    && st.refs.Keys == sessions.Keys
    && forall id :: id in sessions ==> st.refs[id] < |objs| && sessions[id] == objs[st.refs[id]]
  }

  ghost predicate Mirrors(m: M.Manager, objs: seq<M.Session>, st: L.State)
    reads m, m.sessions.Values, objs
  {
    && m.Valid() && L.Inv(st)
    && st.max == m.maxSessions && st.table == m.table && st.created == m.createdTotal && st.closed == m.closedTotal
    && Lives(objs, st) && Refs(m.sessions, objs, st)
  }

  lemma SameSize(sessions: map<string, M.Session>, refs: map<string, nat>)
    requires sessions.Keys == refs.Keys
    ensures |sessions| == |refs|
  {
    assert |sessions| == |sessions.Keys| && |refs| == |refs.Keys|;
  }

  // ---- The machine's steps, field by field ----

  lemma CreateStep(st: L.State, id: string, ks: Keys, now: int)
    ensures var t := L.Step(st, L.Create(id, ks, now));
            if |st.refs| >= st.max || id in st.refs then t == st
            else t == L.State(st.max, Created(st.table, id, ks), st.refs[id := |st.objs|],
                              st.objs + [L.Obj(id, M.CREATED, false, L.Live, now)], st.created + 1, st.closed)
  {
  }

  lemma TouchStep(st: L.State, r: nat, now: int)
    requires r < |st.objs|
    ensures var o := st.objs[r];
            L.Step(st, L.Touch(r, now))
            == st.(objs := st.objs[r := o.(status := M.Touched(o.status), lastPacketAt := now)])
  {
  }

  lemma ReaddressStep(st: L.State, id: string, addr: string)
    ensures L.Step(st, L.Readdress(id, addr))
            == if id in st.table.sessions then st.(table := Readdressed(st.table, id, addr)) else st
  {
  }

  lemma UnmapStep(st: L.State, id: string)
    requires L.Inv(st)
    ensures id in st.refs <==> id in st.table.sessions
    ensures id in st.refs ==> st.refs[id] < |st.objs|
    ensures L.Step(st, L.CloseUnmap(id))
            == if id !in st.refs then st
               else
                 var o := st.objs[st.refs[id]];
                 st.(table := Removed(st.table, id), refs := st.refs - {id},
                     objs := st.objs[st.refs[id] := o.(status := M.CLOSING, phase := L.Unmapped)])
  {
    hide AllSound, L.Balanced;
  }

  lemma FinishSteps(st: L.State, r: nat)
    requires L.Inv(st) && r < |st.objs| && st.objs[r].phase == L.Unmapped
    ensures st.objs[r].status == M.CLOSING && forall id :: id in st.refs ==> st.refs[id] != r
    ensures var o := st.objs[r].(cancelled := true, status := M.CLOSED, phase := L.Counted);
            L.Step(L.Step(L.Step(st, L.CloseCancel(r)), L.CloseMark(r)), L.CloseCount(r))
            == st.(objs := st.objs[r := o], closed := st.closed + 1)
  {
    hide AllSound, L.Balanced;
    var t := L.Step(st, L.CloseCancel(r));
    var u := L.Step(t, L.CloseMark(r));
    assert t.objs == st.objs[r := st.objs[r].(cancelled := true, phase := L.Cancelled)];
    assert u.objs == st.objs[r := st.objs[r].(cancelled := true, status := M.CLOSED, phase := L.Marked)];
  }

  lemma SessionsKnow(sessions: map<string, M.Session>, objs: seq<M.Session>, st: L.State, r: nat)
    requires Refs(sessions, objs, st) && r < |objs| && (forall i, j :: 0 <= i < j < |objs| ==> objs[i] != objs[j])
    requires forall id :: id in st.refs ==> st.refs[id] != r
    ensures objs[r] !in sessions.Values
  {
  }

  // ---- The methods ----

  method Create(m: M.Manager, ghost objs: seq<M.Session>, ghost st: L.State, cfg: M.SessionConfig, now: int)
    returns (s: M.Session?, err: Option<M.Error>, ghost all: seq<M.Session>)
    requires Mirrors(m, objs, st)
    modifies m
    ensures Mirrors(m, all, L.Step(st, L.Create(cfg.id, cfg.keys, now)))
  {
    hide AllSound, SessionTable.Created, L.Inv, L.Step, M.Manager.Valid;
    SameSize(m.sessions, st.refs);
    L.StepKeepsInv(st, L.Create(cfg.id, cfg.keys, now));
    CreateStep(st, cfg.id, cfg.keys, now);
    s, err := m.Create(cfg, now);
    all := if s != null then objs + [s] else objs;
  }

  method Touch(m: M.Manager, ghost objs: seq<M.Session>, ghost st: L.State, s: M.Session, ghost r: nat, now: int)
    requires Mirrors(m, objs, st) && r < |objs| && objs[r] == s
    modifies s`status, s`lastPacketAt
    ensures Mirrors(m, objs, L.Step(st, L.Touch(r, now)))
  {
    hide AllSound, L.Inv, L.Step, M.Manager.Mirrored;
    L.StepKeepsInv(st, L.Touch(r, now));
    TouchStep(st, r, now);
    s.Touch(now);
  }

  method Update(m: M.Manager, ghost objs: seq<M.Session>, ghost st: L.State, id: string, patch: M.SessionPatch)
    returns (s: M.Session?, err: Option<M.Error>)
    requires Mirrors(m, objs, st)
    modifies m.sessions.Values`remoteAddr, m.sessions.Values`callbackURL, m.sessions.Values`mediaResources
    modifies m`addrIndex, m`table
    ensures Mirrors(m, objs, L.Step(st, L.Readdress(id, patch.remoteAddr)))
  {
    hide AllSound, Readdressed, L.Inv, L.Step, M.Manager.Valid;
    L.StepKeepsInv(st, L.Readdress(id, patch.remoteAddr));
    ReaddressStep(st, id, patch.remoteAddr);
    UnmapStep(st, id);
    s, err := m.Update(id, patch);
  }

  method Unmap(m: M.Manager, ghost objs: seq<M.Session>, ghost st: L.State, id: string) returns (s: M.Session?)
    requires Mirrors(m, objs, st)
    modifies m, m.sessions.Values`status
    ensures Mirrors(m, objs, L.Step(st, L.CloseUnmap(id)))
  {
    hide AllSound, Removed, L.Inv, L.Step, M.Manager.Valid;
    L.StepKeepsInv(st, L.CloseUnmap(id));
    UnmapStep(st, id);
    ghost var t := L.Step(st, L.CloseUnmap(id));
    UnmapRefs(m.sessions, objs, st, t, id);
    assert id in m.sessions ==> objs[st.refs[id]] == m.sessions[id];
    hide Refs;
    s := m.Unmap(id);
  }

  lemma UnmapRefs(sessions: map<string, M.Session>, objs: seq<M.Session>, st: L.State, t: L.State, id: string)
    requires Refs(sessions, objs, st) && t.refs == (if id in st.refs then st.refs - {id} else st.refs)
    ensures st.refs.Keys == sessions.Keys && (id in sessions ==> st.refs[id] < |objs|)
    ensures Refs(if id in sessions then sessions - {id} else sessions, objs, t)
  {
  }

  method FinishClose(m: M.Manager, ghost objs: seq<M.Session>, ghost st: L.State, s: M.Session, ghost r: nat)
    requires Mirrors(m, objs, st) && r < |objs| && objs[r] == s && st.objs[r].phase == L.Unmapped
    modifies s`cancelled, s`status, m`closedTotal
    ensures Mirrors(m, objs, L.Step(L.Step(L.Step(st, L.CloseCancel(r)), L.CloseMark(r)), L.CloseCount(r)))
  {
    hide AllSound, L.Inv, L.Step, M.Manager.Valid;
    L.StepKeepsInv(st, L.CloseCancel(r));
    L.StepKeepsInv(L.Step(st, L.CloseCancel(r)), L.CloseMark(r));
    L.StepKeepsInv(L.Step(L.Step(st, L.CloseCancel(r)), L.CloseMark(r)), L.CloseCount(r));
    FinishSteps(st, r);
    SessionsKnow(m.sessions, objs, st, r);
    m.FinishClose(s);
  }
}
