/** Runs of call set-up that show what closes by ID can break. */
module CallSetupExamples {
  import opened CallSetup
  import opened CallSetupLeaks
  import opened CallSetupSuccess

  /** The history, then a handler that sets the call up alone. */
  function Answered(hs: History, t: nat, call: string): History {
    Answering(hs, t, false, call, ALL_WELL)
  }

  lemma RunAnswered(c: Config, hs: History, call: string)
    requires HasRoom(Run(c, hs).w, call) && !Run(c, hs).w.usePorts
    ensures Run(c, Answered(hs, |Run(c, hs).threads|, call)) == SetUp(Run(c, hs), call)
  {
    hide Run, SetUp, HasRoom, Answering;
    SetUpSucceeds(c, hs, call);
  }

  // ---- Closing one side only ----

  /** A gateway with callbacks and without ports of its own. */
  const DEPLOYED := Config(10, 10, false, true, 1, 2)

  /** One call, set up from nothing. */
  function FirstCall(call: string): State {
    SetUp(Initial(DEPLOYED), call)
  }

  predicate ClosedSecond(s: State, call: string) {
    && s.w.live.Keys == {TCore(call)} && s.w.live[TCore(call)] == 0
    && |s.w.objs| == 2 && s.w.objs[0].phase == Live && s.w.objs[1].phase == Cancelled
    && s.w.socks == [] && s.w.streams == [Stream(0, true), Stream(1, false)]
    && |s.threads| == 4 && s.threads[0].undo == [] && s.threads[3].undo == [] && s.threads[2].undo == []
    && s.threads[1].stage == Watching(0, TCore(call)) && !s.threads[1].rolling
  }

  lemma FirstCallIs(call: string)
    ensures var w, t, a := FirstCall(call).w, TCore(call), TAccess(call);
            && t != a && !w.usePorts && w.callbacks && w.maxSessions == 10 && w.maxStreams == 10
            && w.objs == [Session(t, Live), Session(a, Live)]
            && w.live.Keys == {t, a} && w.live[t] == 0 && w.live[a] == 1
            && w.ai.Keys == {t, a} && w.ai[t] == 0 && w.ai[a] == 1 && w.streams == [Stream(0, true), Stream(1, true)]
            && w.pool == {t, a} && w.socks == []
    ensures FirstCall(call).threads
            == [Thread(call, Committed, false, []), Watcher(call, 0, TCore(call)), Watcher(call, 1, TAccess(call))]
  {
    SidesDiffer(call);
    hide TCore, TAccess;
  }

  /** A closer closes a live session. */
  lemma CloserRolls(s: State, t: nat, id: string, rest: seq<Undo>)
    requires t < |s.threads| && s.threads[t] == Thread("", Closer, true, [CloseSession(id)] + rest)
    requires id in s.w.live && s.w.live[id] < |s.w.objs|
    ensures var r := s.w.live[id];
            Step(s, Roll(t)) == State(s.w.(live := s.w.live - {id},
                                           objs := s.w.objs[r := s.w.objs[r].(phase := Unmapped)]),
                                      s.threads[t := Thread("", Closer, true, rest)])
  {
    assert ([CloseSession(id)] + rest)[1..] == rest;
  }

  /** After the close and the end of the stream. */
  predicate ClosingSecond(s: State, call: string) {
    && s.w.live.Keys == {TCore(call)} && s.w.live[TCore(call)] == 0
    && |s.w.objs| == 2 && s.w.objs[0].phase == Live && s.w.objs[1].phase == Cancelled
    && s.w.socks == [] && s.w.streams == [Stream(0, true), Stream(1, false)]
    && |s.threads| == 4 && s.threads[0].undo == [] && s.threads[3].undo == []
    && s.threads[1].stage == Watching(0, TCore(call)) && !s.threads[1].rolling
    && s.threads[2] == Watcher(call, 1, TAccess(call))
  }

  lemma SecondCloses(call: string)
    ensures ClosingSecond(Step(Step(Step(Step(FirstCall(call), Close([TAccess(call)])), Roll(3)), CancelContext(1)),
                               StreamExits(1)), call)
  {
    FirstCallIs(call);
    var t, id := TCore(call), TAccess(call);
    hide TCore, TAccess, FirstCall;
    var s1 := FirstCall(call);
    var s2 := Step(s1, Close([id]));
    assert CloseAll([id]) == [CloseSession(id)] + [];
    CloserRolls(s2, 3, id, []);
    var s3 := Step(s2, Roll(3));
    assert s3.w.objs == [Session(t, Live), Session(id, Unmapped)];
    var s4 := Step(s3, CancelContext(1));
    assert s4.w.objs == [Session(t, Live), Session(id, Cancelled)];
  }

  lemma SecondEnds(s: State, call: string)
    requires ClosingSecond(s, call)
    ensures ClosedSecond(Step(Step(Step(Step(s, Advance(2, true)), Roll(2)), Roll(2)), Roll(2)), call)
  {
    hide TCore, TAccess;
    var id := TAccess(call);
    var w2 := Watcher(call, 1, id).(rolling := true);
    var s1 := Step(s, Advance(2, true));
    assert s1.threads == s.threads[2 := w2];
    var s2 := Step(s1, Roll(2));
    assert s2.threads == s.threads[2 := w2.(undo := [Unsink(id), Unjitter(id)])];
    var s3 := Step(s2, Roll(2));
    assert s3.threads == s.threads[2 := w2.(undo := [Unjitter(id)])];
  }

  /** The call is answered, one side of it closed, and all goroutines run to their ends. */
  function OneSideClosed(call: string): History {
    var closing := Then(Then(Then(Then(Answered(Begin, 0, call), Close([TAccess(call)])), Roll(3)), CancelContext(1)),
                        StreamExits(1));
    Then(Then(Then(Then(closing, Advance(2, true)), Roll(2)), Roll(2)), Roll(2))
  }

  lemma OneSideCloses(call: string)
    ensures ClosedSecond(Run(DEPLOYED, OneSideClosed(call)), call)
  {
    RunFirst(call);
    SecondCloses(call);
    var first := Answered(Begin, 0, call);
    var id := TAccess(call);
    var closing := Then(Then(Then(Then(first, Close([id])), Roll(3)), CancelContext(1)), StreamExits(1));
    assert OneSideClosed(call) == Then(Then(Then(Then(closing, Advance(2, true)), Roll(2)), Roll(2)), Roll(2));
    hide *;
    RunThen4(DEPLOYED, first, Close([id]), Roll(3), CancelContext(1), StreamExits(1));
    SecondEnds(Run(DEPLOYED, closing), call);
    RunThen4(DEPLOYED, closing, Advance(2, true), Roll(2), Roll(2), Roll(2));
  }

  lemma RunFirst(call: string)
    ensures Run(DEPLOYED, Answered(Begin, 0, call)) == FirstCall(call)
  {
    RunAnswered(DEPLOYED, Begin, call);
  }

  /** A close that names one side only, as the garbage collector's may, leaves the other one. */
  lemma CloseMayLeaveOneSide(call: string)
    ensures var s := Run(DEPLOYED, OneSideClosed(call));
            AtRest(s) && TCore(call) in s.w.live && TAccess(call) !in s.w.live
  {
    SidesDiffer(call);
    OneSideCloses(call);
    hide Run, OneSideClosed, TCore, TAccess;
    ClosedSecondRests(Run(DEPLOYED, OneSideClosed(call)), call);
  }

  lemma ClosedSecondRests(s: State, call: string)
    requires ClosedSecond(s, call)
    ensures AtRest(s)
  {
  }

  // ---- An old cleanup takes the entries of a new session ----

  /** The call's sessions are closed and its streams have ended. */
  predicate BothClosed(s: State, call: string) {
    && !s.w.usePorts && s.w.callbacks && s.w.maxSessions == 10 && s.w.maxStreams == 10
    && |s.w.live| == 0 && |s.w.ai| == 0 && s.w.pool == {TCore(call), TAccess(call)} && s.w.socks == []
    && s.w.streams == [Stream(0, false), Stream(1, false)]
    && |s.threads| == 4 && s.threads[0].undo == [] && s.threads[3].undo == []
    && s.threads[1] == Watcher(call, 0, TCore(call)) && s.threads[2] == Watcher(call, 1, TAccess(call))
  }

  /** The sessions are closed, their streams still run. */
  predicate BothUnmapped(s: State, call: string) {
    && s.threads == FirstCall(call).threads + [Thread("", Closer, true, [])]
    && s.w.live.Keys == {} && s.w.objs == [Session(TCore(call), Unmapped), Session(TAccess(call), Unmapped)]
    && s.w == FirstCall(call).w.(live := s.w.live, objs := s.w.objs)
  }

  lemma BothUnmap(call: string)
    ensures BothUnmapped(Step(Step(Step(FirstCall(call), Close([TCore(call), TAccess(call)])), Roll(3)), Roll(3)), call)
  {
    FirstCallIs(call);
    var t, a := TCore(call), TAccess(call);
    hide TCore, TAccess, FirstCall, Watcher;
    var s1 := FirstCall(call);
    var s2 := Step(s1, Close([t, a]));
    assert CloseAll([t, a]) == [CloseSession(t)] + [CloseSession(a)] && [CloseSession(a)] == [CloseSession(a)] + [];
    CloserRolls(s2, 3, t, [CloseSession(a)]);
    var s3 := Step(s2, Roll(3));
    assert s3.w.live.Keys == {a} && s3.w.objs == [Session(t, Unmapped), Session(a, Live)];
    CloserRolls(s3, 3, a, []);
  }

  lemma StreamsExit(s: State, call: string)
    requires BothUnmapped(s, call)
    ensures var s' := Step(Step(s, StreamExits(0)), StreamExits(1)); BothClosed(s', call) && s'.w.objs == s.w.objs
  {
    FirstCallIs(call);
    var t, a := TCore(call), TAccess(call);
    hide TCore, TAccess, FirstCall, Watcher;
    var s5 := Step(s, StreamExits(0));
    assert s5.w.ai.Keys == {a} && s5.w.ai[a] == 1;
    var s6 := Step(s5, StreamExits(1));
    assert s6.w.ai.Keys == {};
    assert s6.threads[1] == s.threads[1] && s6.threads[2] == s.threads[2];
  }

  lemma BothClose(call: string)
    ensures var s := Step(Step(Step(Step(FirstCall(call), Close([TCore(call), TAccess(call)])), Roll(3)), Roll(3)),
                          StreamExits(0));
            var s' := Step(s, StreamExits(1));
            BothClosed(s', call) && s'.w.objs == [Session(TCore(call), Unmapped), Session(TAccess(call), Unmapped)]
  {
    BothUnmap(call);
    hide Step, FirstCall;
    StreamsExit(Step(Step(Step(FirstCall(call), Close([TCore(call), TAccess(call)])), Roll(3)), Roll(3)), call);
  }

  /** Both cleanup goroutines have removed their pipelines, and nothing else yet. */
  predicate HalfCleaned(s: State, call: string) {
    && !s.w.usePorts && s.w.callbacks && s.w.maxSessions == 10 && s.w.maxStreams == 10
    && |s.w.live| == 0 && |s.w.ai| == 0 && s.w.pool == {} && s.w.socks == []
    && s.w.streams == [Stream(0, false), Stream(1, false)]
    && s.w.objs == [Session(TCore(call), Cancelled), Session(TAccess(call), Cancelled)]
    && |s.threads| == 4 && s.threads[0].undo == [] && s.threads[3].undo == []
    && s.threads[1] == Watcher(call, 0, TCore(call)).(rolling := true,
                                                      undo := [Unsink(TCore(call)), Unjitter(TCore(call))])
    && s.threads[2] == Watcher(call, 1, TAccess(call)).(rolling := true,
                                                        undo := [Unsink(TAccess(call)), Unjitter(TAccess(call))])
  }

  lemma CleanupsBegin(s: State, call: string)
    requires BothClosed(s, call) && s.w.objs == [Session(TCore(call), Unmapped), Session(TAccess(call), Unmapped)]
    ensures var s' := Step(Step(Step(Step(s, CancelContext(0)), CancelContext(1)), Advance(1, true)), Advance(2, true));
            HalfCleaned(Step(Step(s', Roll(1)), Roll(2)), call)
  {
    SidesDiffer(call);
    var t, a := TCore(call), TAccess(call);
    hide TCore, TAccess;
    var s2 := Step(Step(s, CancelContext(0)), CancelContext(1));
    assert s2.w.objs == [Session(t, Cancelled), Session(a, Cancelled)];
    var s4 := Step(Step(s2, Advance(1, true)), Advance(2, true));
    assert s4.w == s2.w && s4.threads
           == s.threads[1 := s.threads[1].(rolling := true)][2 := s.threads[2].(rolling := true)];
    var s5 := Step(s4, Roll(1));
    assert s5.w.pool == {a};
  }

  /** The cleanup goroutines of the closed sessions finish after the call has been set up again. */
  lemma OldCleanupsFinish(s: State, call: string)
    requires HalfCleaned(s, call)
    ensures HasRoom(s.w, call)
    ensures var s' := Step(Step(Step(Step(SetUp(s, call), Roll(1)), Roll(1)), Roll(2)), Roll(2));
            && AtRest(s') && s'.w.callbacks
            && TCore(call) in s'.w.live && s'.w.live[TCore(call)] in s'.w.committed
            && TCore(call) in s'.w.pool && TCore(call) !in s'.w.sinks && TCore(call) !in s'.w.jitter
  {
    SidesDiffer(call);
    assert s.w.live.Keys == {} && s.w.ai.Keys == {};
    hide TCore, TAccess;
    RollsTwice(SetUp(s, call), 1, TCore(call));
    var s2 := Step(Step(SetUp(s, call), Roll(1)), Roll(1));
    RollsTwice(s2, 2, TAccess(call));
    var s4 := Step(Step(s2, Roll(2)), Roll(2));
    hide Step;
    NewSessionsRest(s, s4, call);
  }

  /** The two last actions of a cleanup. */
  lemma RollsTwice(s: State, t: nat, id: string)
    requires t < |s.threads| && s.threads[t].rolling && s.threads[t].undo == [Unsink(id), Unjitter(id)]
    ensures Step(Step(s, Roll(t)), Roll(t)) == State(s.w.(sinks := s.w.sinks - {id}, jitter := s.w.jitter - {id}),
                                                    s.threads[t := s.threads[t].(undo := [])])
  {
    var s1 := Step(s, Roll(t));
    assert [Unsink(id), Unjitter(id)][1..] == [Unjitter(id)];
    assert s1.threads == s.threads[t := s.threads[t].(undo := [Unjitter(id)])];
    assert [Unjitter(id)][1..] == [];
  }

  lemma NewSessionsRest(s: State, s4: State, call: string)
    requires HalfCleaned(s, call) && s4.w.objs == SetUp(s, call).w.objs && s4.w.socks == []
             && s4.w.streams == SetUp(s, call).w.streams
    requires s4.threads == SetUp(s, call).threads[1 := s.threads[1].(undo := [])][2 := s.threads[2].(undo := [])]
    ensures AtRest(s4)
  {
    hide TCore, TAccess;
    assert s4.w.objs == s.w.objs + [Session(TCore(call), Live), Session(TAccess(call), Live)];
    assert s4.w.streams == [Stream(0, false), Stream(1, false), Stream(2, true), Stream(3, true)];
    assert s4.threads == [s.threads[0], s.threads[1].(undo := []), s.threads[2].(undo := []), s.threads[3],
                          Thread(call, Committed, false, []), Watcher(call, 2, TCore(call)),
                          Watcher(call, 3, TAccess(call))];
    hide SetUp, HalfCleaned;
    WatchersRest(s4, call);
  }

  lemma WatchersRest(s: State, call: string)
    requires |s.w.objs| == 4 && (forall r :: 0 <= r < 4 ==> s.w.objs[r].phase == if r < 2 then Cancelled else Live)
    requires s.w.streams == [Stream(0, false), Stream(1, false), Stream(2, true), Stream(3, true)] && s.w.socks == []
    requires |s.threads| == 7 && forall i :: 0 <= i < 5 ==> s.threads[i].undo == []
    requires s.threads[5] == Watcher(call, 2, TCore(call)) && s.threads[6] == Watcher(call, 3, TAccess(call))
    ensures AtRest(s)
  {
  }

  /** The call is set up and closed; both cleanups have removed the pipelines when it is set up
      again; then they finish. */
  function CleanedTooLate(call: string): History {
    var closing := Then(Then(Then(Then(Then(Answered(Begin, 0, call), Close([TCore(call), TAccess(call)])), Roll(3)),
                                  Roll(3)),
                                  StreamExits(0)), StreamExits(1));
    var half := Then(Then(Then(Then(Then(Then(closing, CancelContext(0)), CancelContext(1)), Advance(1, true)),
                               Advance(2, true)),
                          Roll(1)), Roll(2));
    Then(Then(Then(Then(Answered(half, 4, call), Roll(1)), Roll(1)), Roll(2)), Roll(2))
  }

  /** A live session whose set-up succeeded can be without sink and jitter buffer for good. */
  lemma OldCleanupTakesNewEntries(call: string)
    ensures var s := Run(DEPLOYED, CleanedTooLate(call));
            && AtRest(s) && s.w.callbacks
            && TCore(call) in s.w.live && s.w.live[TCore(call)] in s.w.committed
            && TCore(call) in s.w.pool && TCore(call) !in s.w.sinks && TCore(call) !in s.w.jitter
  {
    var first := Answered(Begin, 0, call);
    var ids := [TCore(call), TAccess(call)];
    var exit := Then(Then(Then(Then(first, Close(ids)), Roll(3)), Roll(3)), StreamExits(0));
    var closing := Then(exit, StreamExits(1));
    var begun := Then(Then(Then(Then(closing, CancelContext(0)), CancelContext(1)), Advance(1, true)),
                      Advance(2, true));
    var half := Then(Then(begun, Roll(1)), Roll(2));
    var again := Answered(half, 4, call);
    assert CleanedTooLate(call) == Then(Then(Then(Then(again, Roll(1)), Roll(1)), Roll(2)), Roll(2));
    RunFirst(call);
    BothClose(call);
    hide *;
    RunThen4(DEPLOYED, first, Close(ids), Roll(3), Roll(3), StreamExits(0));
    RunThen(DEPLOYED, exit, StreamExits(1));
    CleanupsBegin(Run(DEPLOYED, closing), call);
    RunThen4(DEPLOYED, closing, CancelContext(0), CancelContext(1), Advance(1, true), Advance(2, true));
    RunThen(DEPLOYED, begun, Roll(1));
    RunThen(DEPLOYED, Then(begun, Roll(1)), Roll(2));
    OldCleanupsFinish(Run(DEPLOYED, half), call);
    FourThreads(Run(DEPLOYED, half), call);
    RunAnswered(DEPLOYED, half, call);
    RunThen4(DEPLOYED, again, Roll(1), Roll(1), Roll(2), Roll(2));
  }

  lemma FourThreads(s: State, call: string)
    requires HalfCleaned(s, call)
    ensures |s.threads| == 4
  {
  }
}
