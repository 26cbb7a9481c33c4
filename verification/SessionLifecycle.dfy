/** Sessions under interleaving. Any number of goroutines create, touch, update and close
    sessions; each lock-protected section and each later action of Close is one step, and
    steps of different goroutines may come in any order. */
module SessionLifecycle {
  import opened Basics
  import opened SessionTable
  import M = SessionManager

  /** How far the close of a session has come. */
  datatype Phase = Live | Unmapped | Cancelled | Marked | Counted

  datatype Obj = Obj(id: string, status: M.Status, cancelled: bool, phase: Phase, lastPacketAt: int)

  /** `objs` are all sessions ever created, `refs` maps the live IDs to them. */
  datatype State = State(max: int, table: Table, refs: map<string, nat>, objs: seq<Obj>, created: nat, closed: nat)

  datatype Op =
    | Create(id: string, ks: Keys, now: int)
    | Touch(r: nat, now: int)
    | Readdress(id: string, addr: string)
    | CloseUnmap(id: string)   // Close, under the manager's lock
    | CloseCancel(r: nat)      // Close: cancel the context
    | CloseMark(r: nat)        // Close: status CLOSED
    | CloseCount(r: nat)       // Close: closedTotal + 1

  function Initial(max: int): State {
    State(max, EMPTY, map[], [], 0, 0)
  }

  function SetObj(s: State, r: nat, o: Obj): State
    requires r < |s.objs|
  {
    s.(objs := s.objs[r := o])
  }

  predicate At(s: State, r: nat, p: Phase) {
    r < |s.objs| && s.objs[r].phase == p
  }

  /** One step; a step whose caller would not be there, or that fails, changes nothing. */
  function Step(s: State, op: Op): State {
    match op
    case Create(id, ks, now) =>
      if |s.refs| >= s.max || id in s.refs then s
      else s.(table := Created(s.table, id, ks), refs := s.refs[id := |s.objs|],
              objs := s.objs + [Obj(id, M.CREATED, false, Live, now)], created := s.created + 1)
    case Touch(r, now) =>
      if r < |s.objs| then
        SetObj(s, r, s.objs[r].(status := M.Touched(s.objs[r].status), lastPacketAt := now))
      else s
    case Readdress(id, addr) =>
      if id in s.table.sessions then s.(table := Readdressed(s.table, id, addr)) else s
    case CloseUnmap(id) =>
      if id in s.refs && s.refs[id] < |s.objs| && id in s.table.sessions then
        var r := s.refs[id];
        SetObj(s, r, s.objs[r].(status := M.CLOSING, phase := Unmapped))
          .(table := Removed(s.table, id), refs := s.refs - {id})
      else s
    case CloseCancel(r) =>
      if At(s, r, Unmapped) then SetObj(s, r, s.objs[r].(cancelled := true, phase := Cancelled)) else s
    case CloseMark(r) =>
      if At(s, r, Cancelled) then SetObj(s, r, s.objs[r].(status := M.CLOSED, phase := Marked)) else s
    case CloseCount(r) =>
      if At(s, r, Marked) then SetObj(s, r, s.objs[r].(phase := Counted)).(closed := s.closed + 1) else s
  }

  datatype History = Begin | Then(past: History, op: Op)

  function Run(max: int, hs: History): State {
    match hs
    case Begin => Initial(max)
    case Then(past, op) => Step(Run(max, past), op)
  }

  // ---- The invariant of all runs ----

  /** Status and cancellation follow the phase. */
  predicate Consistent(o: Obj) {
    match o.phase
    case Live => o.status != M.CLOSING && o.status != M.CLOSED && !o.cancelled
    case Unmapped => o.status == M.CLOSING && !o.cancelled
    case Cancelled => o.status == M.CLOSING && o.cancelled
    case Marked => o.status == M.CLOSED && o.cancelled
    case Counted => o.status == M.CLOSED && o.cancelled
  }

  /** How many sessions are in phase `p`. */
  function In(objs: seq<Obj>, p: Phase): nat {
    if objs == [] then 0 else In(objs[..|objs| - 1], p) + if objs[|objs| - 1].phase == p then 1 else 0
  }

  ghost predicate Mapped(s: State) {
    && s.refs.Keys == s.table.sessions.Keys
    && (forall id :: id in s.refs ==>
          s.refs[id] < |s.objs| && s.objs[s.refs[id]].id == id && s.objs[s.refs[id]].phase == Live)
    && (forall r :: 0 <= r < |s.objs| && s.objs[r].phase == Live ==>
          s.objs[r].id in s.refs && s.refs[s.objs[r].id] == r)
  }

  ghost predicate Balanced(s: State) {
    && s.created == |s.objs|
    && |s.refs| == In(s.objs, Live)
    && s.closed == In(s.objs, Counted)
    && (s.max >= 0 ==> |s.refs| <= s.max)
  }

  ghost predicate Inv(s: State) {
    && Mapped(s) && Balanced(s) && AllSound(s.table)
    && forall r :: 0 <= r < |s.objs| ==> Consistent(s.objs[r])
  }

  lemma {:induction false} InUpdate(objs: seq<Obj>, r: nat, o: Obj, p: Phase)
    requires r < |objs|
    ensures In(objs[r := o], p) == In(objs, p) - (if objs[r].phase == p then 1 else 0) + (if o.phase == p then 1 else 0)
    decreases |objs|
  {
    var n := |objs| - 1;
    if r < n {
      assert objs[r := o][..n] == objs[..n][r := o];
      InUpdate(objs[..n], r, o, p);
    } else {
      assert objs[r := o][..n] == objs[..n];
    }
  }

  lemma {:induction false} InTotal(objs: seq<Obj>)
    ensures |objs| == In(objs, Live) + In(objs, Unmapped) + In(objs, Cancelled) + In(objs, Marked) + In(objs, Counted)
  {
    if objs != [] {
      InTotal(objs[..|objs| - 1]);
    }
  }

  lemma CreateKeepsInv(s: State, id: string, ks: Keys, now: int)
    requires Inv(s)
    ensures Inv(Step(s, Create(id, ks, now)))
  {
    hide AllSound, SessionTable.Created, Balanced;
    var t := Step(s, Create(id, ks, now));
    if t != s {
      CreatedSound(s.table, id, ks);
      CreateKeepsMapped(s, id, ks, now);
      CreateKeepsBalance(s, id, ks, now);
    }
  }

  lemma CreateKeepsMapped(s: State, id: string, ks: Keys, now: int)
    requires Mapped(s)
    ensures Mapped(Step(s, Create(id, ks, now)))
  {
    hide SessionTable.Entered;
  }

  lemma CreateKeepsBalance(s: State, id: string, ks: Keys, now: int)
    requires Balanced(s)
    ensures Balanced(Step(s, Create(id, ks, now)))
  {
    hide SessionTable.Created;
    var t := Step(s, Create(id, ks, now));
    if t != s {
      assert t.objs[..|s.objs|] == s.objs;
    }
  }

  lemma CloseUnmapKeepsInv(s: State, id: string)
    requires Inv(s)
    ensures Inv(Step(s, CloseUnmap(id)))
  {
    hide AllSound, SessionTable.Removed, Balanced;
    if id in s.refs {
      CloseUnmapKeepsBalance(s, id);
      CloseUnmapKeepsMapped(s, id);
      RemovedSound(s.table, id);
    }
  }

  lemma CloseUnmapKeepsMapped(s: State, id: string)
    requires Mapped(s) && id in s.refs
    ensures Mapped(Step(s, CloseUnmap(id)))
  {
    hide SessionTable.Erased;
  }

  lemma CloseUnmapKeepsBalance(s: State, id: string)
    requires Mapped(s) && Balanced(s) && id in s.refs
    ensures Balanced(Step(s, CloseUnmap(id)))
  {
    hide SessionTable.Removed, In;
    var r := s.refs[id];
    var o := s.objs[r].(status := M.CLOSING, phase := Unmapped);
    InUpdate(s.objs, r, o, Live);
    InUpdate(s.objs, r, o, Counted);
  }

  /** Replacing a session by one in another phase that is not Live on either side. */
  lemma SetObjKeepsInv(s: State, r: nat, o: Obj)
    requires Inv(s) && r < |s.objs| && Consistent(o) && o.id == s.objs[r].id
    requires o.phase == Live <==> s.objs[r].phase == Live
    requires s.objs[r].phase == Counted ==> o.phase == Counted
    ensures Inv(SetObj(s, r, o).(closed := if o.phase == s.objs[r].phase || o.phase != Counted then s.closed
                                 else s.closed + 1))
  {
    hide AllSound, In, Balanced;
    SetObjKeepsBalance(s, r, o);
  }

  lemma SetObjKeepsBalance(s: State, r: nat, o: Obj)
    requires Balanced(s) && r < |s.objs|
    requires o.phase == Live <==> s.objs[r].phase == Live
    requires s.objs[r].phase == Counted ==> o.phase == Counted
    ensures Balanced(SetObj(s, r, o).(closed := if o.phase == s.objs[r].phase || o.phase != Counted then s.closed
                                      else s.closed + 1))
  {
    hide In;
    InUpdate(s.objs, r, o, Live);
    InUpdate(s.objs, r, o, Counted);
  }

  lemma ReaddressKeepsInv(s: State, id: string, addr: string)
    requires Inv(s)
    ensures Inv(Step(s, Readdress(id, addr)))
  {
    hide AllSound, In, SessionTable.Erased;
    if id in s.table.sessions {
      ReaddressedSound(s.table, id, addr);
    }
  }

  lemma StepKeepsInv(s: State, op: Op)
    requires Inv(s)
    ensures Inv(Step(s, op))
  {
    hide Mapped, Balanced, AllSound;
    match op
    case Create(id, ks, now) => CreateKeepsInv(s, id, ks, now);
    case Touch(r, now) =>
      if r < |s.objs| {
        SetObjKeepsInv(s, r, s.objs[r].(status := M.Touched(s.objs[r].status), lastPacketAt := now));
      }
    case Readdress(id, addr) => ReaddressKeepsInv(s, id, addr);
    case CloseUnmap(id) => CloseUnmapKeepsInv(s, id);
    case CloseCancel(r) =>
      if At(s, r, Unmapped) {
        SetObjKeepsInv(s, r, s.objs[r].(cancelled := true, phase := Cancelled));
      }
    case CloseMark(r) =>
      if At(s, r, Cancelled) {
        SetObjKeepsInv(s, r, s.objs[r].(status := M.CLOSED, phase := Marked));
      }
    case CloseCount(r) =>
      if At(s, r, Marked) {
        SetObjKeepsInv(s, r, s.objs[r].(phase := Counted));
      }
  }

  lemma {:induction false} RunKeepsInv(max: int, hs: History)
    ensures Inv(Run(max, hs))
  {
    match hs
    case Begin =>
    case Then(past, op) =>
      RunKeepsInv(max, past);
      StepKeepsInv(Run(max, past), op);
  }

  /** Main result: in every reachable state each index entry names a live session that holds
      that non-empty key, so no lookup is dangling or wrong. */
  lemma LookupsAreSound(max: int, hs: History)
    ensures AllSound(Run(max, hs).table)
  {
    RunKeepsInv(max, hs);
  }

  /** Main result: CLOSED implies cancelled and unmapped, and a mapped session is neither
      closing nor cancelled. */
  lemma ClosedMeansGone(max: int, hs: History, r: nat)
    requires r < |Run(max, hs).objs|
    ensures var s := Run(max, hs);
            var o := s.objs[r];
            && (o.status == M.CLOSED ==> o.cancelled && !(o.id in s.refs && s.refs[o.id] == r))
            && (o.id in s.refs && s.refs[o.id] == r <==> o.status != M.CLOSING && o.status != M.CLOSED)
  {
    RunKeepsInv(max, hs);
  }

  /** Main result: the totals account for every session ever created, and the live ones
      respect the limit. */
  lemma TotalsAddUp(max: int, hs: History)
    ensures var s := Run(max, hs);
            && s.created == |s.refs| + s.closed + (In(s.objs, Unmapped) + In(s.objs, Cancelled) + In(s.objs, Marked))
            && (max >= 0 ==> |s.refs| <= max)
  {
    RunKeepsInv(max, hs);
    InTotal(Run(max, hs).objs);
    MaxIsFixed(max, hs);
  }

  lemma {:induction false} MaxIsFixed(max: int, hs: History)
    ensures Run(max, hs).max == max
  {
    if hs.Then? {
      MaxIsFixed(max, hs.past);
    }
  }

  // ---- Life cycles ----

  function Rank(p: Phase): nat {
    match p
    case Live => 0
    case Unmapped => 1
    case Cancelled => 2
    case Marked => 3
    case Counted => 4
  }

  /** A step never moves a session back. */
  lemma StepAdvances(s: State, op: Op, r: nat)
    requires Inv(s) && r < |s.objs|
    ensures var t := Step(s, op);
            && r < |t.objs| && t.objs[r].id == s.objs[r].id && Rank(s.objs[r].phase) <= Rank(t.objs[r].phase)
  {
    hide AllSound, Balanced, Created, Removed, Readdressed;
    match op
    case Create(_, _, _) =>
    case Touch(_, _) =>
    case Readdress(_, _) =>
    case CloseUnmap(_) =>
    case CloseCancel(_) =>
    case CloseMark(_) =>
    case CloseCount(_) =>
  }

  /** `hs` happens after `past`. */
  predicate Extends(hs: History, past: History) {
    hs == past || (hs.Then? && Extends(hs.past, past))
  }

  /** Main result: whatever Touch does meanwhile, a session that is CLOSING or CLOSED stays so,
      and CLOSED is final. */
  lemma {:induction false} ClosingIsForever(max: int, past: History, hs: History, r: nat)
    requires Extends(hs, past) && r < |Run(max, past).objs|
    ensures r < |Run(max, hs).objs|
    ensures var before, after := Run(max, past).objs[r], Run(max, hs).objs[r];
            && Rank(before.phase) <= Rank(after.phase)
            && (before.status == M.CLOSING ==> after.status == M.CLOSING || after.status == M.CLOSED)
            && (before.status == M.CLOSED ==> after.status == M.CLOSED)
  {
    hide Step;
    RunKeepsInv(max, hs);
    if hs != past {
      ClosingIsForever(max, past, hs.past, r);
      RunKeepsInv(max, hs.past);
      StepAdvances(Run(max, hs.past), hs.op, r);
    }
    RunKeepsInv(max, past);
  }

  /** The step is a successful Close of session `r`. */
  predicate Closes(s: State, op: Op, r: nat) {
    op.CloseUnmap? && op.id in s.refs && s.refs[op.id] == r
  }

  function Closings(max: int, hs: History, r: nat): nat {
    match hs
    case Begin => 0
    case Then(past, op) => Closings(max, past, r) + if Closes(Run(max, past), op, r) then 1 else 0
  }

  lemma StepCloses(s: State, op: Op, r: nat)
    requires Inv(s) && r < |s.objs|
    ensures Closes(s, op, r) ==> s.objs[r].phase == Live && Step(s, op).objs[r].phase == Unmapped
    ensures !Closes(s, op, r) ==> (s.objs[r].phase == Live <==> Step(s, op).objs[r].phase == Live)
  {
    hide AllSound, Balanced;
  }

  lemma NewSessionUnclosed(s: State, op: Op, r: nat)
    requires Inv(s) && r >= |s.objs|
    ensures !Closes(s, op, r)
    ensures r < |Step(s, op).objs| ==> Step(s, op).objs[r].phase == Live
  {
    hide AllSound, Balanced;
  }

  /** Main result: at most one Close of a session succeeds, and exactly one has when the session
      is no longer live. */
  lemma {:induction false} ExactlyOneCloseSucceeds(max: int, hs: History, r: nat)
    ensures Closings(max, hs, r) <= 1
    ensures r < |Run(max, hs).objs| ==> (Closings(max, hs, r) == 1 <==> Run(max, hs).objs[r].phase != Live)
    ensures r >= |Run(max, hs).objs| ==> Closings(max, hs, r) == 0
  {
    match hs
    case Begin =>
    case Then(past, op) =>
      hide Step, Inv, Closes;
      ExactlyOneCloseSucceeds(max, past, r);
      RunKeepsInv(max, past);
      var s := Run(max, past);
      if r < |s.objs| {
        StepCloses(s, op, r);
        StepAdvances(s, op, r);
      } else {
        NewSessionUnclosed(s, op, r);
      }
  }

  // ---- Completeness of lookups ----

  ghost predicate AlwaysDistinct(max: int, hs: History) {
    AllDistinct(Run(max, hs).table) && (hs.Then? ==> AlwaysDistinct(max, hs.past))
  }

  ghost predicate AlwaysComplete(max: int, hs: History) {
    AllComplete(Run(max, hs).table) && (hs.Then? ==> AlwaysComplete(max, hs.past))
  }

  lemma StepKeepsComplete(s: State, op: Op)
    requires Inv(s) && AllComplete(s.table) && AllDistinct(Step(s, op).table)
    ensures AllComplete(Step(s, op).table)
  {
    hide AllComplete, AllDistinct, AllSound, Balanced;
    match op
    case Create(id, ks, _) =>
      if !(|s.refs| >= s.max || id in s.refs) {
        CreatedComplete(s.table, id, ks);
      }
    case Readdress(id, addr) =>
      if id in s.table.sessions {
        ReaddressedComplete(s.table, id, addr);
      }
    case CloseUnmap(id) =>
      if id in s.refs {
        RemovedComplete(s.table, id);
      }
    case Touch(_, _) =>
    case CloseCancel(_) =>
    case CloseMark(_) =>
    case CloseCount(_) =>
  }

  /** Main result: every live session is found under each of its keys, in all states of a run,
      if and only if no two live sessions ever share a key during the run. */
  lemma {:induction false} CompleteIffDistinct(max: int, hs: History)
    ensures AlwaysComplete(max, hs) <==> AlwaysDistinct(max, hs)
  {
    match hs
    case Begin =>
    case Then(past, op) =>
      hide Step, Inv, AllComplete, AllDistinct;
      CompleteIffDistinct(max, past);
      if AllComplete(Run(max, hs).table) {
        CompleteMeansDistinct(Run(max, hs).table);
      }
      if AlwaysDistinct(max, hs) {
        RunKeepsInv(max, past);
        StepKeepsComplete(Run(max, past), op);
      }
  }

  /** Main result: with keys that never clash, each of the four lookups is a linear scan over
      the live sessions. */
  lemma LookupsAreScans(max: int, hs: History, ssrc: nat, addr: string, peer: string, track: string, id: string)
    requires AlwaysDistinct(max, hs) && ssrc != 0 && addr != "" && peer != "" && track != ""
    ensures var t := Run(max, hs).table;
            && (Find(t.ssrc, t.sessions, ssrc) == Some(id) <==> id in t.sessions && t.sessions[id].ssrc == ssrc)
            && (Find(t.addr, t.sessions, addr) == Some(id) <==> id in t.sessions && t.sessions[id].addr == addr)
            && (Find(t.peer, t.sessions, peer) == Some(id) <==> id in t.sessions && t.sessions[id].peer == peer)
            && (Find(t.track, t.sessions, track) == Some(id) <==> id in t.sessions && t.sessions[id].track == track)
  {
    CompleteIffDistinct(max, hs);
    RunKeepsInv(max, hs);
    var t := Run(max, hs).table;
    FindIsScan(t.ssrc, t.sessions, BySSRC, 0, ssrc, id);
    FindIsScan(t.addr, t.sessions, ByAddr, "", addr, id);
    FindIsScan(t.peer, t.sessions, ByPeer, "", peer, id);
    FindIsScan(t.track, t.sessions, ByTrack, "", track, id);
  }

  /** Two sessions with one SSRC: the second takes the entry over, and when it closes the first
      can no longer be found although it is still live. */
  lemma SharedKeyIsStolen(a: string, b: string)
    requires a != b
    ensures var ks := Keys(7, "", "", "");
            var hs := Then(Then(Then(Begin, Create(a, ks, 0)), Create(b, ks, 0)), CloseUnmap(b));
            var t := Run(2, hs).table;
            a in t.sessions && t.sessions[a].ssrc == 7 && Find(t.ssrc, t.sessions, 7) == None
  {
    var ks := Keys(7, "", "", "");
    var h1 := Then(Begin, Create(a, ks, 0));
    var h2 := Then(h1, Create(b, ks, 0));
    assert |Run(2, h1).refs| == 1;
    assert b in Run(2, h2).refs;
  }
}
