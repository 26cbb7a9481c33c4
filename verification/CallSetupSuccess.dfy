/** A handler that nobody disturbs: it sets the call up exactly if there is room for it and every
    bind, codec and dial succeeds; otherwise it leaves the live sessions as they were. */
module CallSetupSuccess {
  import opened PortAllocator
  import opened CallSetup
  import opened CallSetupLeaks
  import opened CallSetupPairs
  import A = AnswerHandler

  // ---- What a set-up adds ----

  function Watcher(call: string, r: nat, id: string): Thread {
    Thread(call, Watching(r, id), false, [Unpool(id), Unsink(id), Unjitter(id)])
  }

  /** The world once both sessions have been created. */
  function Created(w: World, call: string): World {
    w.(objs := w.objs + [Session(TCore(call), Live), Session(TAccess(call), Live)],
       live := w.live[TCore(call) := |w.objs|][TAccess(call) := |w.objs| + 1])
  }

  /** The world once both sessions have their listeners, if it has ports: the two last free ones. */
  function Served(w: World, rt: nat, ra: nat): World {
    var n := |w.free|;
    if w.usePorts && n >= 2 then
      w.(free := w.free[..n - 2], socks := w.socks + [Sock(rt, w.free[n - 1], true), Sock(ra, w.free[n - 2], true)])
    else w
  }

  /** The world once the pipeline of one side has been started. */
  function Started(w: World, r: nat, id: string): World {
    w.(sinks := if w.callbacks then w.sinks + {id} else w.sinks, pool := w.pool + {id}, jitter := w.jitter + {id},
       ai := w.ai[id := |w.streams|], streams := w.streams + [Stream(r, true)])
  }

  /** Everything that a successful set-up adds. */
  function SetUp(s: State, call: string): State {
    var n := |s.w.objs|;
    var first := Started(Served(Created(s.w, call), n, n + 1), n, TCore(call));
    State(Started(first, n + 1, TAccess(call)).(committed := s.w.committed + {n, n + 1}),
          s.threads + [Thread(call, Committed, false, []), Watcher(call, n, TCore(call)),
                       Watcher(call, n + 1, TAccess(call))])
  }

  predicate HasRoom(w: World, call: string) {
    A.RoomFor(call, w.maxSessions, w.live.Keys, w.maxStreams, w.ai.Keys, w.pool, w.usePorts, |w.free|)
  }

  // ---- Steps of one goroutine ----

  /** Four steps; the flags say which of them find what they ask for. */
  function Go4(s: State, t: nat, a: bool, b: bool, c: bool, d: bool): State {
    Step(Step(Step(Step(s, Advance(t, a)), Advance(t, b)), Advance(t, c)), Advance(t, d))
  }

  function Roll4(s: State, t: nat): State {
    Step(Step(Step(Step(s, Roll(t)), Roll(t)), Roll(t)), Roll(t))
  }

  /** The IDs that a plan closes. */
  function Closed(us: seq<Undo>): set<string> {
    if us == [] then {} else (if us[0].CloseSession? then {us[0].id} else {}) + Closed(us[1..])
  }

  /** The goroutine has failed, and undoing its plan leaves the sessions `live`. */
  predicate Failed(s: State, t: nat, live: map<string, nat>) {
    && t < |s.threads| && s.threads[t].rolling && |s.threads[t].undo| <= 4
    && s.w.live - Closed(s.threads[t].undo) == live
    && forall id :: id in s.w.live && id in Closed(s.threads[t].undo) ==> s.w.live[id] < |s.w.objs|
  }

  lemma FailedStays(s: State, t: nat, ok: bool)
    requires t < |s.threads| && s.threads[t].rolling
    ensures Step(s, Advance(t, ok)) == s
  {
    assert s.threads[t := s.threads[t]] + [] == s.threads;
  }

  lemma FailedRolls(s: State, t: nat, live: map<string, nat>)
    requires Failed(s, t, live)
    ensures var s' := Step(s, Roll(t));
            && Failed(s', t, live)
            && |s'.threads[t].undo| == if |s.threads[t].undo| > 0 then |s.threads[t].undo| - 1 else 0
  {
    var us := s.threads[t].undo;
    if us != [] {
      var s' := Step(s, Roll(t));
      assert s'.threads[t].undo == us[1..];
      assert s'.w.live == if us[0].CloseSession? then s.w.live - {us[0].id} else s.w.live;
    }
  }

  lemma FailedRollsBack(s: State, t: nat, live: map<string, nat>)
    requires Failed(s, t, live)
    ensures var s' := Roll4(s, t);
            t < |s'.threads| && s'.threads[t].rolling && s'.threads[t].undo == [] && s'.w.live == live
  {
    hide Step;
    FailedRolls(s, t, live);
    var s1 := Step(s, Roll(t));
    FailedRolls(s1, t, live);
    var s2 := Step(s1, Roll(t));
    FailedRolls(s2, t, live);
    var s3 := Step(s2, Roll(t));
    FailedRolls(s3, t, live);
  }

  lemma {:induction false} ClosedByCloses(others: seq<Undo>, call: string)
    requires forall u :: u in others ==> !u.CloseSession?
    ensures Closed(others + Closes(call)) == {TCore(call), TAccess(call)}
  {
    hide TCore, TAccess;
    var c := Closes(call);
    if others == [] {
      assert others + c == c && c[1..] == [CloseSession(TAccess(call))] && c[1..][1..] == [];
      assert Closed(c[1..]) == {TAccess(call)} + Closed([]);
    } else {
      assert (others + c)[1..] == others[1..] + c;
      ClosedByCloses(others[1..], call);
    }
  }

  /** Both sides of the call are live, and closing them leaves `live`. */
  predicate Holding(w: World, call: string, live: map<string, nat>) {
    && TCore(call) in w.live && TAccess(call) in w.live
    && w.live[TCore(call)] < |w.objs| && w.live[TAccess(call)] < |w.objs|
    && w.live - {TCore(call), TAccess(call)} == live
  }

  // ---- One side ----

  predicate SideHasRoom(w: World, id: string) {
    id !in w.pool && id !in w.ai && |w.ai| < w.maxStreams
  }

  function SideSetUp(s: State, t: nat, call: string, rt: nat, ra: nat, second: bool): State
    requires t < |s.threads|
  {
    var id := Side(call, second);
    var r := if second then ra else rt;
    State(if second then Started(s.w, r, id).(committed := s.w.committed + {rt, ra}) else Started(s.w, r, id),
          s.threads[t := if second then Thread(call, Committed, false, [])
                         else Thread(call, AddSink(rt, ra, true), false, Closes(call))] + [Watcher(call, r, id)])
  }

  /** A failing exit closes both sides, whatever else it gives back. */
  lemma FailsClosing(s: State, t: nat, call: string, live: map<string, nat>, others: seq<Undo>)
    requires t < |s.threads| && s.threads[t].rolling && s.threads[t].undo == others + Closes(call)
    requires |others| <= 2 && forall u :: u in others ==> !u.CloseSession?
    requires Holding(s.w, call, live)
    ensures Failed(s, t, live)
  {
    hide TCore, TAccess, Closed;
    ClosedByCloses(others, call);
  }

  /** Sink and pipeline. */
  lemma SideRegisters(s: State, t: nat, call: string, rt: nat, ra: nat, second: bool, codec: bool,
                      live: map<string, nat>)
    requires t < |s.threads| && s.threads[t] == Thread(call, AddSink(rt, ra, second), false, Closes(call))
    requires Holding(s.w, call, live)
    ensures var id := Side(call, second);
            var s2 := Step(Step(s, Advance(t, true)), Advance(t, codec));
            if codec && id !in s.w.pool then
              s2 == State(s.w.(sinks := if s.w.callbacks then s.w.sinks + {id} else s.w.sinks, pool := s.w.pool + {id}),
                          s.threads[t := Thread(call, OpenStream(rt, ra, second), false,
                                                [Unpool(id), Unsink(id)] + Closes(call))])
            else Failed(s2, t, live)
  {
    hide TCore, TAccess, Closes, Failed, Holding;
    var id := Side(call, second);
    var s1 := Step(s, Advance(t, true));
    assert s1.threads == s.threads[t := Thread(call, AddPipeline(rt, ra, second), false, [Unsink(id)] + Closes(call))];
    var s2 := Step(s1, Advance(t, codec));
    if codec && id !in s.w.pool {
      assert s2.threads == s.threads[t := Thread(call, OpenStream(rt, ra, second), false,
                                                 [Unpool(id), Unsink(id)] + Closes(call))];
    } else {
      HoldingStays(s.w, s2.w, call, live);
      FailsClosing(s2, t, call, live, [Unsink(id)]);
    }
  }

  lemma HoldingStays(w: World, w': World, call: string, live: map<string, nat>)
    requires Holding(w, call, live) && w'.live == w.live && |w'.objs| >= |w.objs|
    ensures Holding(w', call, live)
  {
  }

  /** AI stream and pumps. */
  lemma SideStreams(s: State, t: nat, call: string, rt: nat, ra: nat, second: bool, dial: bool,
                    live: map<string, nat>)
    requires var id := Side(call, second);
             && t < |s.threads| && s.threads[t] == Thread(call, OpenStream(rt, ra, second), false,
                                                          [Unpool(id), Unsink(id)] + Closes(call))
    requires Holding(s.w, call, live)
    ensures var id := Side(call, second);
            var r := if second then ra else rt;
            var s2 := Step(Step(s, Advance(t, dial)), Advance(t, true));
            if dial && id !in s.w.ai && |s.w.ai| < s.w.maxStreams then
              var w := s.w.(ai := s.w.ai[id := |s.w.streams|], streams := s.w.streams + [Stream(r, true)],
                            jitter := s.w.jitter + {id});
              s2 == State(if second then w.(committed := s.w.committed + {rt, ra}) else w,
                          s.threads[t := if second then Thread(call, Committed, false, [])
                                         else Thread(call, AddSink(rt, ra, true), false, Closes(call))]
                          + [Watcher(call, r, id)])
            else Failed(s2, t, live)
  {
    hide TCore, TAccess, Closes, Failed, Holding;
    var id := Side(call, second);
    var s1 := Step(s, Advance(t, dial));
    if dial && id !in s.w.ai && |s.w.ai| < s.w.maxStreams {
      assert s1.threads == s.threads[t := Thread(call, StartPumps(rt, ra, second), false,
                                                 [Unpool(id), Unsink(id)] + Closes(call))];
    } else {
      HoldingStays(s.w, s1.w, call, live);
      FailsClosing(s1, t, call, live, [Unpool(id), Unsink(id)]);
      FailedStays(s1, t, true);
    }
  }

  /** The steps of one side: sink, pipeline (needs the codec), AI stream (needs the dial), pumps. */
  lemma SideStarts(s: State, t: nat, call: string, rt: nat, ra: nat, second: bool, codec: bool, dial: bool,
                   live: map<string, nat>)
    requires t < |s.threads| && s.threads[t] == Thread(call, AddSink(rt, ra, second), false, Closes(call))
    requires Holding(s.w, call, live)
    ensures var s' := Go4(s, t, true, codec, dial, true);
            if SideHasRoom(s.w, Side(call, second)) && codec && dial
            then s' == SideSetUp(s, t, call, rt, ra, second) else Failed(s', t, live)
  {
    hide Step, Side, Closes, Failed, Holding, Watcher;
    var id := Side(call, second);
    var s2 := Step(Step(s, Advance(t, true)), Advance(t, codec));
    SideRegisters(s, t, call, rt, ra, second, codec, live);
    if codec && id !in s.w.pool {
      HoldingStays(s.w, s2.w, call, live);
      SideStreams(s2, t, call, rt, ra, second, dial, live);
      assert s.threads[t := s2.threads[t]][t := if second then Thread(call, Committed, false, [])
                                                else Thread(call, AddSink(rt, ra, true), false, Closes(call))]
          == s.threads[t := if second then Thread(call, Committed, false, [])
                            else Thread(call, AddSink(rt, ra, true), false, Closes(call))];
    } else {
      FailedIsRolling(s2, t, live);
      FailedStays(s2, t, dial);
      FailedStays(s2, t, true);
    }
  }

  lemma FailedIsRolling(s: State, t: nat, live: map<string, nat>)
    requires Failed(s, t, live)
    ensures t < |s.threads| && s.threads[t].rolling
  {
  }

  // ---- Sessions and ports ----

  /** The call's IDs are free and there is room for two sessions. */
  predicate SessionsHaveRoom(w: World, call: string) {
    |w.live| + 1 < w.maxSessions && TCore(call) !in w.live && TAccess(call) !in w.live
  }

  /** The event arrives and its handler creates the sessions. */
  function Begun(s: State, call: string): State {
    var t := |s.threads|;
    Step(Step(Step(s, Answer(call)), Advance(t, true)), Advance(t, true))
  }

  /** The handler once it has created the sessions. */
  function Creator(w: World, call: string): Thread {
    var n := |w.objs|;
    Thread(call, if w.usePorts then AcquireFirst(n, n + 1) else AddSink(n, n + 1, false), false, Closes(call))
  }

  lemma BothAreCreated(s: State, call: string)
    ensures if SessionsHaveRoom(s.w, call)
            then Begun(s, call) == State(Created(s.w, call), s.threads + [Creator(s.w, call)])
            else Failed(Begun(s, call), |s.threads|, s.w.live)
  {
    SidesDiffer(call);
    hide TCore, TAccess, Failed, Creator, Created, Step;
    var t := |s.threads|;
    var s2 := Step(Step(s, Answer(call)), Advance(t, true));
    FirstIsCreated(s, call);
    if CanCreate(s.w, TCore(call)) {
      SecondIsCreated(s, s2, call);
    } else {
      FailedIsRolling(s2, t, s.w.live);
      FailedStays(s2, t, true);
    }
  }

  lemma FirstIsCreated(s: State, call: string)
    ensures var t, id := |s.threads|, TCore(call);
            var s2 := Step(Step(s, Answer(call)), Advance(t, true));
            if CanCreate(s.w, id)
            then s2 == State(NewSession(s.w, id),
                             s.threads + [Thread(call, CreateTAccess(|s.w.objs|), false, [CloseSession(id)])])
            else Failed(s2, t, s.w.live)
  {
    hide TCore, TAccess;
    var t, n := |s.threads|, |s.w.objs|;
    var s1 := Step(s, Answer(call));
    assert s1.threads[t] == Thread(call, CreateTCore, false, []);
    var s2 := Step(s1, Advance(t, true));
    if CanCreate(s.w, TCore(call)) {
      assert s2.threads == s.threads + [Thread(call, CreateTAccess(n), false, [CloseSession(TCore(call))])];
    } else {
      assert s2.threads[t] == Thread(call, CreateTCore, true, []);
      assert s.w.live - {} == s.w.live;
    }
  }

  lemma SecondIsCreated(s: State, s2: State, call: string)
    requires TCore(call) != TAccess(call) && CanCreate(s.w, TCore(call))
    requires s2 == State(NewSession(s.w, TCore(call)),
                         s.threads + [Thread(call, CreateTAccess(|s.w.objs|), false, [CloseSession(TCore(call))])])
    ensures var s3 := Step(s2, Advance(|s.threads|, true));
            if CanCreate(s2.w, TAccess(call)) then s3 == State(Created(s.w, call), s.threads + [Creator(s.w, call)])
            else Failed(s3, |s.threads|, s.w.live)
    ensures CanCreate(s2.w, TAccess(call)) <==> SessionsHaveRoom(s.w, call)
  {
    hide TCore, TAccess, Failed;
    var id := TCore(call);
    if CanCreate(s2.w, TAccess(call)) {
      assert s.w.objs + [Session(id, Live)] + [Session(TAccess(call), Live)]
          == s.w.objs + [Session(id, Live), Session(TAccess(call), Live)];
    } else {
      SecondFails(Step(s2, Advance(|s.threads|, true)), |s.threads|, id, s.w.live);
    }
  }

  lemma SecondFails(s3: State, t: nat, id: string, live: map<string, nat>)
    requires t < |s3.threads| && s3.threads[t].rolling && s3.threads[t].undo == [CloseSession(id)]
    requires id !in live && id in s3.w.live && s3.w.live[id] < |s3.w.objs| && s3.w.live == live[id := s3.w.live[id]]
    ensures Failed(s3, t, live)
  {
    assert [CloseSession(id)][1..] == [];
    assert Closed([CloseSession(id)]) == {id} + Closed([]);
    assert s3.w.live - {id} == live;
  }

  lemma CreatedHolds(w: World, call: string)
    requires SessionsHaveRoom(w, call)
    ensures Holding(Created(w, call), call, w.live)
  {
    SidesDiffer(call);
    hide TCore, TAccess;
    assert Created(w, call).live - {TCore(call), TAccess(call)} == w.live;
  }

  lemma PortsAreAcquired(s: State, t: nat, call: string, rt: nat, ra: nat, live: map<string, nat>)
    requires t < |s.threads| && s.threads[t] == Thread(call, AcquireFirst(rt, ra), false, Closes(call))
    requires Holding(s.w, call, live)
    ensures var n := |s.w.free|;
            var s2 := Step(Step(s, Advance(t, true)), Advance(t, true));
            if n >= 2 then
              var p1, p2 := s.w.free[n - 1], s.w.free[n - 2];
              s2 == State(s.w.(free := s.w.free[..n - 2]),
                          s.threads[t := Thread(call, ListenFirst(rt, ra, p1, p2), false,
                                                [FreePort(p1), FreePort(p2)] + Closes(call))])
            else Failed(s2, t, live)
  {
    hide TCore, TAccess, Closes, Failed, Holding;
    var n := |s.w.free|;
    var s1 := Step(s, Advance(t, true));
    if n == 0 {
      HoldingStays(s.w, s1.w, call, live);
      FailsClosing(s1, t, call, live, []);
      FailedStays(s1, t, true);
    } else {
      var p1 := s.w.free[n - 1];
      assert s1.threads == s.threads[t := Thread(call, AcquireSecond(rt, ra, p1), false,
                                                 [FreePort(p1)] + Closes(call))];
      var s2 := Step(s1, Advance(t, true));
      if n == 1 {
        HoldingStays(s.w, s2.w, call, live);
        FailsClosing(s2, t, call, live, [FreePort(p1)]);
      } else {
        assert s.w.free[..n - 1][..n - 2] == s.w.free[..n - 2];
        assert s2.threads == s.threads[t := Thread(call, ListenFirst(rt, ra, p1, s.w.free[n - 2]), false,
                                                   [FreePort(p1), FreePort(s.w.free[n - 2])] + Closes(call))];
      }
    }
  }

  lemma BothListen(s: State, t: nat, call: string, rt: nat, ra: nat, p1: int, p2: int, bind1: bool, bind2: bool,
                   live: map<string, nat>)
    requires t < |s.threads| && s.threads[t] == Thread(call, ListenFirst(rt, ra, p1, p2), false,
                                                       [FreePort(p1), FreePort(p2)] + Closes(call))
    requires Holding(s.w, call, live)
    ensures var s2 := Step(Step(s, Advance(t, bind1)), Advance(t, bind2));
            if bind1 && bind2 then
              s2 == State(s.w.(socks := s.w.socks + [Sock(rt, p1, true), Sock(ra, p2, true)]),
                          s.threads[t := Thread(call, AddSink(rt, ra, false), false, Closes(call))])
            else Failed(s2, t, live)
  {
    hide TCore, TAccess, Closes, Failed, Holding;
    var s1 := Step(s, Advance(t, bind1));
    if !bind1 {
      HoldingStays(s.w, s1.w, call, live);
      FailsClosing(s1, t, call, live, [FreePort(p1), FreePort(p2)]);
      FailedStays(s1, t, bind2);
    } else {
      assert s1.threads == s.threads[t := Thread(call, ListenSecond(rt, ra, p2), false, [FreePort(p2)] + Closes(call))];
      var s2 := Step(s1, Advance(t, bind2));
      if bind2 {
        assert s2.w.socks == s.w.socks + [Sock(rt, p1, true), Sock(ra, p2, true)];
      } else {
        HoldingStays(s.w, s2.w, call, live);
        FailsClosing(s2, t, call, live, [FreePort(p2)]);
      }
    }
  }

  /** Two ports, each handed to a listener. */
  lemma PortsAreServed(s: State, t: nat, call: string, rt: nat, ra: nat, bind1: bool, bind2: bool,
                       live: map<string, nat>)
    requires t < |s.threads| && s.threads[t] == Thread(call, AcquireFirst(rt, ra), false, Closes(call))
    requires Holding(s.w, call, live) && s.w.usePorts
    ensures var s' := Go4(s, t, true, true, bind1, bind2);
            if |s.w.free| >= 2 && bind1 && bind2
            then s' == State(Served(s.w, rt, ra),
                             s.threads[t := Thread(call, AddSink(rt, ra, false), false, Closes(call))])
            else Failed(s', t, live)
  {
    hide Step, Closes, Failed, Holding;
    var n := |s.w.free|;
    var s2 := Step(Step(s, Advance(t, true)), Advance(t, true));
    PortsAreAcquired(s, t, call, rt, ra, live);
    if n >= 2 {
      HoldingStays(s.w, s2.w, call, live);
      BothListen(s2, t, call, rt, ra, s.w.free[n - 1], s.w.free[n - 2], bind1, bind2, live);
      assert s.threads[t := s2.threads[t]][t := Thread(call, AddSink(rt, ra, false), false, Closes(call))]
          == s.threads[t := Thread(call, AddSink(rt, ra, false), false, Closes(call))];
    } else {
      FailedIsRolling(s2, t, live);
      FailedStays(s2, t, bind1);
      FailedStays(s2, t, bind2);
    }
  }

  // ---- The whole handler ----

  lemma FailedGoesNowhere(s: State, t: nat, live: map<string, nat>, a: bool, b: bool, c: bool, d: bool)
    requires Failed(s, t, live)
    ensures Go4(s, t, a, b, c, d) == s
  {
    hide Step;
    FailedIsRolling(s, t, live);
    FailedStays(s, t, a);
    FailedStays(s, t, b);
    FailedStays(s, t, c);
    FailedStays(s, t, d);
  }

  /** The handler has its sessions, and its listeners if the gateway has ports. */
  function Prepared(s: State, call: string, env: A.Environment): State {
    var begun := Begun(s, call);
    if s.w.usePorts then Go4(begun, |s.threads|, true, true, env.bind1, env.bind2) else begun
  }

  /** Both sides have been started, or the handler has failed. */
  function Driven(s: State, call: string, env: A.Environment): State {
    var t := |s.threads|;
    Go4(Go4(Prepared(s, call, env), t, true, env.codec1, env.dial1, true), t, true, env.codec2, env.dial2, true)
  }

  /** The event arrives; its handler runs to its end and undoes what it has to. */
  function Undisturbed(s: State, call: string, env: A.Environment): State {
    Roll4(Driven(s, call, env), |s.threads|)
  }

  /** Sessions and ports are there. */
  predicate CanPrepare(w: World, call: string, env: A.Environment) {
    SessionsHaveRoom(w, call) && (w.usePorts ==> |w.free| >= 2 && env.bind1 && env.bind2)
  }

  function Ready(s: State, call: string): State {
    var n := |s.w.objs|;
    State(Served(Created(s.w, call), n, n + 1),
          s.threads + [Thread(call, AddSink(n, n + 1, false), false, Closes(call))])
  }

  lemma PreparedIs(s: State, call: string, env: A.Environment)
    ensures if CanPrepare(s.w, call, env) then Prepared(s, call, env) == Ready(s, call)
            else Failed(Prepared(s, call, env), |s.threads|, s.w.live)
  {
    hide Step, Failed, Go4, Begun, Holding, Closes, Served, TCore, TAccess;
    var t, n := |s.threads|, |s.w.objs|;
    BothAreCreated(s, call);
    var begun := Begun(s, call);
    if !SessionsHaveRoom(s.w, call) {
      FailedGoesNowhere(begun, t, s.w.live, true, true, env.bind1, env.bind2);
    } else if s.w.usePorts {
      CreatedHolds(s.w, call);
      PortsAreServed(begun, t, call, n, n + 1, env.bind1, env.bind2, s.w.live);
    } else {
      NothingServed(Created(s.w, call), n, n + 1);
    }
  }

  lemma NothingServed(w: World, rt: nat, ra: nat)
    requires !w.usePorts
    ensures Served(w, rt, ra) == w
  {
  }

  lemma ServedHolds(w: World, rt: nat, ra: nat, call: string, live: map<string, nat>)
    requires Holding(w, call, live)
    ensures Holding(Served(w, rt, ra), call, live)
  {
  }

  lemma StartedHolds(w: World, r: nat, id: string, call: string, live: map<string, nat>)
    requires Holding(w, call, live)
    ensures Holding(Started(w, r, id), call, live)
  {
  }

  /** One side of the call is set up. */
  function HalfSetUp(s: State, call: string): State {
    var n := |s.w.objs|;
    State(Started(Served(Created(s.w, call), n, n + 1), n, TCore(call)),
          s.threads + [Thread(call, AddSink(n, n + 1, true), false, Closes(call)), Watcher(call, n, TCore(call))])
  }

  lemma FirstSideStarts(s: State, call: string, env: A.Environment)
    requires SessionsHaveRoom(s.w, call)
    ensures var s' := Go4(Ready(s, call), |s.threads|, true, env.codec1, env.dial1, true);
            if SideHasRoom(s.w, TCore(call)) && env.codec1 && env.dial1 then s' == HalfSetUp(s, call)
            else Failed(s', |s.threads|, s.w.live)
  {
    hide TCore, TAccess, Closes, Go4, Started, Watcher, Failed, Holding;
    var t, n := |s.threads|, |s.w.objs|;
    CreatedHolds(s.w, call);
    ServedHolds(Created(s.w, call), n, n + 1, call, s.w.live);
    SideStarts(Ready(s, call), t, call, n, n + 1, false, env.codec1, env.dial1, s.w.live);
    if SideHasRoom(s.w, TCore(call)) && env.codec1 && env.dial1 {
      assert Go4(Ready(s, call), t, true, env.codec1, env.dial1, true).threads == HalfSetUp(s, call).threads;
    }
  }

  lemma SecondSideStarts(s: State, call: string, env: A.Environment)
    requires SessionsHaveRoom(s.w, call) && SideHasRoom(s.w, TCore(call))
    ensures var s' := Go4(HalfSetUp(s, call), |s.threads|, true, env.codec2, env.dial2, true);
            if TAccess(call) !in s.w.pool && TAccess(call) !in s.w.ai && |s.w.ai| + 1 < s.w.maxStreams
               && env.codec2 && env.dial2
            then s' == SetUp(s, call) else Failed(s', |s.threads|, s.w.live)
  {
    hide TCore, TAccess, Closes, Go4, Watcher, Failed, Holding, Served, SideSetUp, SetUp, Started;
    var t, n := |s.threads|, |s.w.objs|;
    var w := Served(Created(s.w, call), n, n + 1);
    CreatedHolds(s.w, call);
    ServedHolds(Created(s.w, call), n, n + 1, call, s.w.live);
    StartedHolds(w, n, TCore(call), call, s.w.live);
    SideStarts(HalfSetUp(s, call), t, call, n, n + 1, true, env.codec2, env.dial2, s.w.live);
    SecondSideIs(s, call);
  }

  lemma SecondSideIs(s: State, call: string)
    requires SideHasRoom(s.w, TCore(call))
    ensures SideSetUp(HalfSetUp(s, call), |s.threads|, call, |s.w.objs|, |s.w.objs| + 1, true) == SetUp(s, call)
    ensures SideHasRoom(HalfSetUp(s, call).w, TAccess(call))
            <==> TAccess(call) !in s.w.pool && TAccess(call) !in s.w.ai && |s.w.ai| + 1 < s.w.maxStreams
  {
    SidesDiffer(call);
    hide TCore, TAccess, Closes, Watcher, Served;
    var t, n := |s.threads|, |s.w.objs|;
    ServedKeepsRest(Created(s.w, call), n, n + 1);
    assert |HalfSetUp(s, call).w.ai| == |s.w.ai| + 1;
    assert (s.threads + [Thread(call, AddSink(n, n + 1, true), false, Closes(call)), Watcher(call, n, TCore(call))])
           [t := Thread(call, Committed, false, [])]
        == s.threads + [Thread(call, Committed, false, []), Watcher(call, n, TCore(call))];
    assert SideSetUp(HalfSetUp(s, call), t, call, n, n + 1, true).threads == SetUp(s, call).threads;
  }

  lemma ServedKeepsRest(w: World, rt: nat, ra: nat)
    ensures Served(w, rt, ra) == w.(free := Served(w, rt, ra).free, socks := Served(w, rt, ra).socks)
  {
  }

  /** Main result: a handler that nobody disturbs sets the call up exactly under the conditions
      under which AnswerHandler's HandleAnswer answers; otherwise the live sessions are as before. */
  lemma UndisturbedAnswers(s: State, call: string, env: A.Environment)
    ensures if HasRoom(s.w, call) && A.AllGoesWell(env, s.w.usePorts) then Undisturbed(s, call, env) == SetUp(s, call)
            else
              var s', t := Undisturbed(s, call, env), |s.threads|;
              t < |s'.threads| && s'.threads[t].rolling && s'.threads[t].undo == [] && s'.w.live == s.w.live
  {
    hide SetUp, Failed, HasRoom, CanPrepare, Roll4, Driven, TCore, TAccess;
    DrivenIs(s, call, env);
    RoomIsRoom(s.w, call, env);
    if DriveSucceeds(s.w, call, env) {
      SetUpStays(s, call);
    } else {
      FailedRollsBack(Driven(s, call, env), |s.threads|, s.w.live);
    }
  }

  predicate DriveSucceeds(w: World, call: string, env: A.Environment) {
    && CanPrepare(w, call, env)
    && SideHasRoom(w, TCore(call)) && env.codec1 && env.dial1
    && TAccess(call) !in w.pool && TAccess(call) !in w.ai && |w.ai| + 1 < w.maxStreams && env.codec2 && env.dial2
  }

  lemma RoomIsRoom(w: World, call: string, env: A.Environment)
    ensures DriveSucceeds(w, call, env) <==> HasRoom(w, call) && A.AllGoesWell(env, w.usePorts)
  {
    hide TCore, TAccess;
  }

  lemma DrivenIs(s: State, call: string, env: A.Environment)
    ensures if DriveSucceeds(s.w, call, env) then Driven(s, call, env) == SetUp(s, call)
            else Failed(Driven(s, call, env), |s.threads|, s.w.live)
  {
    hide SetUp, Failed, Go4, Prepared, Ready, HalfSetUp, TCore, TAccess;
    var t := |s.threads|;
    PreparedIs(s, call, env);
    if CanPrepare(s.w, call, env) {
      FirstSideStarts(s, call, env);
      if SideHasRoom(s.w, TCore(call)) && env.codec1 && env.dial1 {
        SecondSideStarts(s, call, env);
      } else {
        FailedGoesNowhere(Go4(Ready(s, call), t, true, env.codec1, env.dial1, true), t, s.w.live,
                          true, env.codec2, env.dial2, true);
      }
    } else {
      FailedGoesNowhere(Prepared(s, call, env), t, s.w.live, true, env.codec1, env.dial1, true);
      FailedGoesNowhere(Prepared(s, call, env), t, s.w.live, true, env.codec2, env.dial2, true);
    }
  }

  /** A handler that has succeeded has nothing to undo. */
  lemma SetUpStays(s: State, call: string)
    ensures Roll4(SetUp(s, call), |s.threads|) == SetUp(s, call)
  {
    hide TCore, TAccess, Watcher, Started, Served, Created;
    var s', t := SetUp(s, call), |s.threads|;
    assert s'.threads[t := s'.threads[t]] + [] == s'.threads;
  }

  // ---- In runs ----

  function Times4(hs: History, t: nat, a: bool, b: bool, c: bool, d: bool): History {
    Then(Then(Then(Then(hs, Advance(t, a)), Advance(t, b)), Advance(t, c)), Advance(t, d))
  }

  /** The history that is then continued by one handler, the `t`-th goroutine, alone. */
  function Answering(hs: History, t: nat, ports: bool, call: string, env: A.Environment): History {
    var begun := Then(Then(Then(hs, Answer(call)), Advance(t, true)), Advance(t, true));
    var prepared := if ports then Times4(begun, t, true, true, env.bind1, env.bind2) else begun;
    var first := Times4(prepared, t, true, env.codec1, env.dial1, true);
    var driven := Times4(first, t, true, env.codec2, env.dial2, true);
    Then(Then(Then(Then(driven, Roll(t)), Roll(t)), Roll(t)), Roll(t))
  }

  lemma RunThen(c: Config, hs: History, op: Op)
    ensures Run(c, Then(hs, op)) == Step(Run(c, hs), op)
  {
  }

  lemma RunThen4(c: Config, hs: History, op1: Op, op2: Op, op3: Op, op4: Op)
    ensures Run(c, Then(Then(Then(Then(hs, op1), op2), op3), op4))
            == Step(Step(Step(Step(Run(c, hs), op1), op2), op3), op4)
  {
    hide *;
    RunThen(c, hs, op1);
    RunThen(c, Then(hs, op1), op2);
    RunThen(c, Then(Then(hs, op1), op2), op3);
    RunThen(c, Then(Then(Then(hs, op1), op2), op3), op4);
  }

  lemma RunTimes4(c: Config, hs: History, t: nat, x: bool, y: bool, z: bool, u: bool)
    ensures Run(c, Times4(hs, t, x, y, z, u)) == Go4(Run(c, hs), t, x, y, z, u)
  {
    RunThen4(c, hs, Advance(t, x), Advance(t, y), Advance(t, z), Advance(t, u));
    hide Step, Run;
  }

  lemma RunAnswering(c: Config, hs: History, ports: bool, call: string, env: A.Environment)
    requires ports == Run(c, hs).w.usePorts
    ensures Run(c, Answering(hs, |Run(c, hs).threads|, ports, call, env)) == Undisturbed(Run(c, hs), call, env)
  {
    hide Run, Step, Times4, Go4;
    var t := |Run(c, hs).threads|;
    var h1 := Then(hs, Answer(call));
    var h2 := Then(h1, Advance(t, true));
    var begun := Then(h2, Advance(t, true));
    RunThen(c, hs, Answer(call));
    RunThen(c, h1, Advance(t, true));
    RunThen(c, h2, Advance(t, true));
    RunTimes4(c, begun, t, true, true, env.bind1, env.bind2);
    var prepared := if ports then Times4(begun, t, true, true, env.bind1, env.bind2) else begun;
    RunTimes4(c, prepared, t, true, env.codec1, env.dial1, true);
    var first := Times4(prepared, t, true, env.codec1, env.dial1, true);
    RunTimes4(c, first, t, true, env.codec2, env.dial2, true);
    RunThen4(c, Times4(first, t, true, env.codec2, env.dial2, true), Roll(t), Roll(t), Roll(t), Roll(t));
  }

  /** Every bind, codec and dial succeeds. */
  const ALL_WELL := A.Environment(true, true, true, true, true, true)

  /** In a run: from every state with room for the call its handler sets it up, with or without
      ports. */
  lemma SetUpSucceeds(c: Config, hs: History, call: string)
    requires HasRoom(Run(c, hs).w, call)
    ensures var s := Run(c, hs);
            Run(c, Answering(hs, |s.threads|, s.w.usePorts, call, ALL_WELL)) == SetUp(s, call)
  {
    hide Run, SetUp, HasRoom, Undisturbed, Answering;
    RunAnswering(c, hs, Run(c, hs).w.usePorts, call, ALL_WELL);
    UndisturbedAnswers(Run(c, hs), call, ALL_WELL);
  }

  /** What a set-up adds: both sides to every registry ... */
  lemma SetUpAdds(s: State, call: string)
    requires HasRoom(s.w, call)
    ensures var w, w', both := s.w, SetUp(s, call).w, {TCore(call), TAccess(call)};
            && both !! w.live.Keys && w'.live.Keys == w.live.Keys + both && w'.pool == w.pool + both
            && w'.ai.Keys == w.ai.Keys + both && w'.jitter == w.jitter + both
            && w'.sinks == (if w.callbacks then w.sinks + both else w.sinks)
            && w'.committed == w.committed + {w'.live[TCore(call)], w'.live[TAccess(call)]}
  {
    hide TCore, TAccess, SetUp;
    SetUpCreates(s, call);
    SetUpRegisters(s, call);
  }

  lemma SetUpCreates(s: State, call: string)
    ensures var w, w', both := s.w, SetUp(s, call).w, {TCore(call), TAccess(call)};
            && w'.live.Keys == w.live.Keys + both
            && w'.committed == w.committed + {w'.live[TCore(call)], w'.live[TAccess(call)]}
  {
    SidesDiffer(call);
    hide TCore, TAccess, Served, Started;
    var n := |s.w.objs|;
    var first := Served(Created(s.w, call), n, n + 1);
    ServedKeepsRest(Created(s.w, call), n, n + 1);
    StartedAdds(first, n, TCore(call));
    StartedAdds(Started(first, n, TCore(call)), n + 1, TAccess(call));
  }

  lemma SetUpRegisters(s: State, call: string)
    ensures var w, w', both := s.w, SetUp(s, call).w, {TCore(call), TAccess(call)};
            && w'.pool == w.pool + both && w'.ai.Keys == w.ai.Keys + both && w'.jitter == w.jitter + both
            && w'.sinks == (if w.callbacks then w.sinks + both else w.sinks)
  {
    hide TCore, TAccess, Served, Started;
    var w, n, t, a := s.w, |s.w.objs|, TCore(call), TAccess(call);
    var first := Served(Created(w, call), n, n + 1);
    ServedKeepsRest(Created(w, call), n, n + 1);
    StartedAdds(first, n, t);
    StartedAdds(Started(first, n, t), n + 1, a);
    A.AddAndTake(w.pool, t, a);
    A.AddAndTake(w.ai.Keys, t, a);
    A.AddAndTake(w.jitter, t, a);
    A.AddAndTake(w.sinks, t, a);
  }

  lemma StartedAdds(w: World, r: nat, id: string)
    ensures var w' := Started(w, r, id);
            && w'.pool == w.pool + {id} && w'.ai.Keys == w.ai.Keys + {id} && w'.jitter == w.jitter + {id}
            && w'.sinks == (if w.callbacks then w.sinks + {id} else w.sinks)
            && w'.live == w.live && w'.committed == w.committed && w'.callbacks == w.callbacks
            && w'.socks == w.socks && w'.free == w.free
  {
  }

  /** ... and two listeners on the ports that were to be handed out next, if there are ports. */
  lemma SetUpTakesPorts(s: State, call: string)
    requires HasRoom(s.w, call)
    ensures var w, w' := s.w, SetUp(s, call).w;
            if w.usePorts then
              var k := w'.socks[|w.socks|..];
              && w.socks <= w'.socks && |k| == 2 && w.free == w'.free + [k[1].port, k[0].port]
              && k[0] == Sock(w'.live[TCore(call)], k[0].port, true)
              && k[1] == Sock(w'.live[TAccess(call)], k[1].port, true)
            else w'.socks == w.socks && w'.free == w.free
  {
    SidesDiffer(call);
    hide TCore, TAccess, SetUp, Created;
    SetUpKeepsPorts(s, call);
    CreatedKeepsPorts(s.w, call);
    if s.w.usePorts {
      TwoMoreSocks(s.w, |s.w.objs|, |s.w.objs| + 1);
    }
  }

  lemma CreatedKeepsPorts(w: World, call: string)
    ensures var w' := Created(w, call); w'.free == w.free && w'.socks == w.socks && w'.usePorts == w.usePorts
  {
  }

  lemma TwoMoreSocks(w: World, rt: nat, ra: nat)
    requires |w.free| >= 2
    ensures var n := |w.free|;
            var k := [Sock(rt, w.free[n - 1], true), Sock(ra, w.free[n - 2], true)];
            (w.socks + k)[|w.socks|..] == k && w.free == w.free[..n - 2] + [w.free[n - 2], w.free[n - 1]]
  {
  }

  lemma SetUpKeepsPorts(s: State, call: string)
    requires TCore(call) != TAccess(call)
    ensures var w, w' := Served(Created(s.w, call), |s.w.objs|, |s.w.objs| + 1), SetUp(s, call).w;
            && w'.free == w.free && w'.socks == w.socks
            && w'.live[TCore(call)] == |s.w.objs| && w'.live[TAccess(call)] == |s.w.objs| + 1
  {
    hide TCore, TAccess, Started, Served;
    var n := |s.w.objs|;
    var first := Served(Created(s.w, call), n, n + 1);
    ServedKeepsRest(Created(s.w, call), n, n + 1);
    StartedAdds(first, n, TCore(call));
    StartedAdds(Started(first, n, TCore(call)), n + 1, TAccess(call));
  }

  /** A gateway with at least two ports serves its first call: both sides are committed, each has
      a listener on a port of its own, and the run is at rest. */
  lemma FirstCallIsServed(c: Config, call: string)
    requires c.usePorts && c.lo < c.hi && c.maxSessions >= 2 && c.maxStreams >= 2
    ensures var s := Run(c, Answering(Begin, 0, true, call, ALL_WELL));
            && AtRest(s) && s.w.live.Keys == {TCore(call), TAccess(call)} && s.w.committed == {0, 1}
            && s.w.socks == [Sock(0, c.hi, true), Sock(1, c.hi - 1, true)] && s.w.free == PortRange(c.lo, c.hi - 2)
  {
    FirstHasRoom(c, call);
    SetUpSucceeds(c, Begin, call);
    FirstRests(c, call);
    hide Run, Answering, TCore, TAccess, SetUp, AtRest;
  }

  lemma FirstHasRoom(c: Config, call: string)
    requires c.usePorts && c.lo < c.hi && c.maxSessions >= 2 && c.maxStreams >= 2
    ensures Run(c, Begin) == Initial(c) && HasRoom(Initial(c).w, call)
  {
    hide TCore, TAccess;
    LastTwoPorts(c);
    assert Initial(c).w.live.Keys == {} && Initial(c).w.ai.Keys == {};
  }

  lemma LastTwoPorts(c: Config)
    requires c.lo < c.hi
    ensures PortRange(c.lo, c.hi) == PortRange(c.lo, c.hi - 2) + [c.hi - 1, c.hi]
  {
    assert PortRange(c.lo, c.hi) == PortRange(c.lo, c.hi - 1) + [c.hi];
    assert PortRange(c.lo, c.hi - 1) == PortRange(c.lo, c.hi - 2) + [c.hi - 1];
  }

  lemma FirstRests(c: Config, call: string)
    requires c.usePorts && c.lo < c.hi
    ensures var s := SetUp(Initial(c), call);
            && AtRest(s) && s.w.live.Keys == {TCore(call), TAccess(call)} && s.w.committed == {0, 1}
            && s.w.socks == [Sock(0, c.hi, true), Sock(1, c.hi - 1, true)] && s.w.free == PortRange(c.lo, c.hi - 2)
  {
    SidesDiffer(call);
    hide TCore, TAccess, PortRange;
    LastTwoPorts(c);
    var s := SetUp(Initial(c), call);
    assert s.w.objs == [Session(TCore(call), Live), Session(TAccess(call), Live)];
    assert s.w.streams == [Stream(0, true), Stream(1, true)];
    assert s.threads == [Thread(call, Committed, false, []), Watcher(call, 0, TCore(call)),
                         Watcher(call, 1, TAccess(call))];
  }
}
