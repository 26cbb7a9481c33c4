/** Every run of call set-up can come to rest: without new requests the goroutines that are
    there always have a way to their ends. */
module CallSetupRest {
  import opened Basics
  import opened CallSetup
  import opened CallSetupPlans
  import opened CallSetupLeaks

  // ---- How much is left to do ----

  /** An upper bound on the steps left to a handler at this stage, and to what it starts. */
  function Ahead(stage: Stage): nat {
    match stage
    case CreateTCore => 150
    case CreateTAccess(_) => 140
    case AcquireFirst(_, _) => 130
    case AcquireSecond(_, _, _) => 120
    case ListenFirst(_, _, _, _) => 110
    case ListenSecond(_, _, _) => 100
    case AddSink(_, _, second) => if second then 50 else 90
    case AddPipeline(_, _, second) => if second then 40 else 80
    case OpenStream(_, _, second) => if second then 30 else 70
    case StartPumps(_, _, second) => if second then 20 else 60
    case Committed => 0
    case Watching(_, _) => 4
    case Closer => 0
  }

  function Work(th: Thread): nat {
    if th.rolling then |th.undo| else Ahead(th.stage)
  }

  function WorkOf(threads: seq<Thread>): nat {
    if threads == [] then 0 else WorkOf(threads[..|threads| - 1]) + Work(threads[|threads| - 1])
  }

  function SessionWork(o: Session): nat {
    match o.phase
    case Live => 2
    case Unmapped => 1
    case Cancelled => 0
  }

  function SessionsWork(objs: seq<Session>): nat {
    if objs == [] then 0 else SessionsWork(objs[..|objs| - 1]) + SessionWork(objs[|objs| - 1])
  }

  function OpenSocks(socks: seq<Sock>): nat {
    if socks == [] then 0 else OpenSocks(socks[..|socks| - 1]) + One(socks[|socks| - 1].open)
  }

  function RunningStreams(streams: seq<Stream>): nat {
    if streams == [] then 0 else RunningStreams(streams[..|streams| - 1]) + One(streams[|streams| - 1].running)
  }

  function WorldWork(w: World): nat {
    SessionsWork(w.objs) + OpenSocks(w.socks) + RunningStreams(w.streams)
  }

  function Left(s: State): nat {
    WorldWork(s.w) + WorkOf(s.threads)
  }

  // ---- Sums ----

  lemma {:induction false} WorkUpdate(threads: seq<Thread>, t: nat, th: Thread)
    requires t < |threads|
    ensures WorkOf(threads[t := th]) + Work(threads[t]) == WorkOf(threads) + Work(th)
    decreases |threads|
  {
    var n := |threads| - 1;
    if t < n {
      assert threads[t := th][..n] == threads[..n][t := th];
      WorkUpdate(threads[..n], t, th);
    } else {
      assert threads[t := th][..n] == threads[..n];
    }
  }

  lemma WorkAppend(threads: seq<Thread>, th: Thread)
    ensures WorkOf(threads + [th]) == WorkOf(threads) + Work(th)
  {
    assert (threads + [th])[..|threads|] == threads;
  }

  lemma {:induction false} SessionsUpdate(objs: seq<Session>, r: nat, o: Session)
    requires r < |objs|
    ensures SessionsWork(objs[r := o]) + SessionWork(objs[r]) == SessionsWork(objs) + SessionWork(o)
    decreases |objs|
  {
    var n := |objs| - 1;
    if r < n {
      assert objs[r := o][..n] == objs[..n][r := o];
      SessionsUpdate(objs[..n], r, o);
    } else {
      assert objs[r := o][..n] == objs[..n];
    }
  }

  lemma SessionsAppend(objs: seq<Session>, o: Session)
    ensures SessionsWork(objs + [o]) == SessionsWork(objs) + SessionWork(o)
  {
    assert (objs + [o])[..|objs|] == objs;
  }

  lemma {:induction false} SocksUpdate(socks: seq<Sock>, i: nat, k: Sock)
    requires i < |socks|
    ensures OpenSocks(socks[i := k]) + One(socks[i].open) == OpenSocks(socks) + One(k.open)
    decreases |socks|
  {
    var n := |socks| - 1;
    if i < n {
      assert socks[i := k][..n] == socks[..n][i := k];
      SocksUpdate(socks[..n], i, k);
    } else {
      assert socks[i := k][..n] == socks[..n];
    }
  }

  lemma SocksAppend(socks: seq<Sock>, k: Sock)
    ensures OpenSocks(socks + [k]) == OpenSocks(socks) + One(k.open)
  {
    assert (socks + [k])[..|socks|] == socks;
  }

  lemma {:induction false} StreamsUpdate(streams: seq<Stream>, i: nat, k: Stream)
    requires i < |streams|
    ensures RunningStreams(streams[i := k]) + One(streams[i].running) == RunningStreams(streams) + One(k.running)
    decreases |streams|
  {
    var n := |streams| - 1;
    if i < n {
      assert streams[i := k][..n] == streams[..n][i := k];
      StreamsUpdate(streams[..n], i, k);
    } else {
      assert streams[i := k][..n] == streams[..n];
    }
  }

  lemma StreamsAppend(streams: seq<Stream>, k: Stream)
    ensures RunningStreams(streams + [k]) == RunningStreams(streams) + One(k.running)
  {
    assert (streams + [k])[..|streams|] == streams;
  }

  // ---- Steps that make progress ----

  lemma TakeProgress(s: State, t: nat, e: Effect)
    requires t < |s.threads| && |e.started| <= 1
    requires WorldWork(e.w) + Work(e.th) + (if |e.started| == 1 then Work(e.started[0]) else 0)
             < WorldWork(s.w) + Work(s.threads[t])
    ensures Left(Take(s, t, e)) < Left(s)
  {
    WorkUpdate(s.threads, t, e.th);
    var updated := s.threads[t := e.th];
    if |e.started| == 1 {
      WorkAppend(updated, e.started[0]);
      assert e.started == [e.started[0]];
    } else {
      assert updated + e.started == updated;
    }
  }

  /** What one step adds to the world is less than what the goroutine gets done. */
  predicate Progresses(w: World, th: Thread, e: Effect) {
    |e.started| <= 1 && WorldWork(e.w) + Work(e.th) + (if |e.started| == 1 then Work(e.started[0]) else 0)
      < WorldWork(w) + Work(th)
  }

  lemma CreateProgresses(w: World, th: Thread)
    requires ThreadOk(w.objs, th) && !th.rolling && Creating(th.stage)
    ensures Progresses(w, th, CreateStep(w, th))
  {
    hide OpenSocks, RunningStreams, SessionsWork, Closes;
    var id := if th.stage.CreateTCore? then TCore(th.call) else TAccess(th.call);
    SessionsAppend(w.objs, Session(id, Live));
  }

  lemma PlansAreShort(th: Thread)
    ensures |Planned(th)| <= 4
  {
  }

  lemma PortProgresses(w: World, th: Thread, ok: bool)
    requires ThreadOk(w.objs, th) && !th.rolling && Porting(th.stage)
    ensures Progresses(w, th, PortStep(w, th, ok))
  {
    PlansAreShort(th);
    hide OpenSocks, RunningStreams, SessionsWork, Closes, Planned, RefsOk;
    match th.stage
    case ListenFirst(rt, ra, p1, p2) => SocksAppend(w.socks, Sock(rt, p1, true));
    case ListenSecond(rt, ra, p2) => SocksAppend(w.socks, Sock(ra, p2, true));
    case _ =>
  }

  lemma PumpsProgress(w: World, th: Thread, ok: bool)
    requires !th.rolling && th.stage.StartPumps?
    ensures Progresses(w, th, StartStep(w, th, ok))
  {
    hide OpenSocks, RunningStreams, SessionsWork, Closes, Starting;
  }

  lemma OpenProgresses(w: World, th: Thread, ok: bool)
    requires |th.undo| <= 4 && !th.rolling && th.stage.OpenStream?
    ensures Progresses(w, th, StartStep(w, th, ok))
  {
    hide OpenSocks, RunningStreams, SessionsWork, Closes, Starting;
    StreamsAppend(w.streams, Stream(if th.stage.second then th.stage.ra else th.stage.rt, true));
  }

  lemma AddProgresses(w: World, th: Thread, ok: bool)
    requires |th.undo| <= 4 && !th.rolling && (th.stage.AddSink? || th.stage.AddPipeline?)
    ensures Progresses(w, th, StartStep(w, th, ok))
  {
    hide OpenSocks, RunningStreams, SessionsWork, Closes, Starting;
  }

  lemma StartProgresses(w: World, th: Thread, ok: bool)
    requires ThreadOk(w.objs, th) && !th.rolling && Piping(th.stage)
    ensures Progresses(w, th, StartStep(w, th, ok))
  {
    PlansAreShort(th);
    hide Planned, RefsOk, StartStep, Progresses;
    if th.stage.StartPumps? {
      PumpsProgress(w, th, ok);
    } else if th.stage.OpenStream? {
      OpenProgresses(w, th, ok);
    } else {
      AddProgresses(w, th, ok);
    }
  }

  lemma HandlerProgresses(w: World, th: Thread, ok: bool)
    requires ThreadOk(w.objs, th) && !th.rolling && (Creating(th.stage) || Porting(th.stage) || Piping(th.stage))
    ensures Progresses(w, th, Advanced(w, th, ok))
  {
    hide CreateStep, PortStep, StartStep, Progresses, ThreadOk;
    if Creating(th.stage) {
      CreateProgresses(w, th);
    } else if Porting(th.stage) {
      PortProgresses(w, th, ok);
    } else {
      StartProgresses(w, th, ok);
    }
  }

  lemma WatcherProgresses(w: World, th: Thread)
    requires ThreadOk(w.objs, th) && !th.rolling && th.stage.Watching? && w.objs[th.stage.ref].phase == Cancelled
    ensures Progresses(w, th, Advanced(w, th, true))
  {
  }

  lemma RollProgresses(w: World, th: Thread)
    requires Mapped(w) && th.rolling && th.undo != []
    ensures Progresses(w, th, Rolled(w, th))
  {
    var u := th.undo[0];
    if u.CloseSession? && u.id in w.live {
      SessionsUpdate(w.objs, w.live[u.id], w.objs[w.live[u.id]].(phase := Unmapped));
    }
  }

  /** Neither a request nor a close, but a step of what is already there. */
  predicate Internal(op: Op) {
    !op.Answer? && !op.Close?
  }

  lemma ThreadMoves(s: State, t: nat) returns (op: Op)
    requires ThreadsOk(s) && Mapped(s.w) && t < |s.threads| && !ThreadAtRest(s.w, s.threads[t])
    ensures Internal(op) && Left(Step(s, op)) < Left(s)
    ensures op == Roll(t) || op == Advance(t, true)
            || (s.threads[t].stage.Watching? && op == CancelContext(s.threads[t].stage.ref))
  {
    var th := s.threads[t];
    assert ThreadOk(s.w.objs, th);
    if th.rolling {
      op := Roll(t);
      RollProgresses(s.w, th);
      hide WorldWork, Work, ThreadOk;
      TakeProgress(s, t, Rolled(s.w, th));
    } else if !th.stage.Watching? {
      op := Advance(t, true);
      assert Creating(th.stage) || Porting(th.stage) || Piping(th.stage);
      HandlerProgresses(s.w, th, true);
      hide WorldWork, Work, ThreadOk, Advanced;
      TakeProgress(s, t, Advanced(s.w, th, true));
    } else if s.w.objs[th.stage.ref].phase == Cancelled {
      op := Advance(t, true);
      WatcherProgresses(s.w, th);
      hide WorldWork, Work, ThreadOk, Advanced;
      TakeProgress(s, t, Advanced(s.w, th, true));
    } else {
      op := CancelMoves(s, th.stage.ref);
    }
  }

  lemma CancelMoves(s: State, r: nat) returns (op: Op)
    requires r < |s.w.objs| && s.w.objs[r].phase == Unmapped
    ensures op == CancelContext(r) && Internal(op) && Left(Step(s, op)) < Left(s)
  {
    op := CancelContext(r);
    SessionsUpdate(s.w.objs, r, s.w.objs[r].(phase := Cancelled));
  }

  /** Whatever is not at rest can move, and then less is left to do. */
  lemma SomethingMoves(s: State) returns (op: Op)
    requires Inv(s) && !AtRest(s)
    ensures Internal(op) && Left(Step(s, op)) < Left(s)
  {
    hide Covered, Streaming, ThreadAtRest, Left, Step, ThreadOk;
    if t: nat :| t < |s.threads| && !ThreadAtRest(s.w, s.threads[t]) {
      op := ThreadMoves(s, t);
    } else if r: nat :| r < |s.w.objs| && s.w.objs[r].phase == Unmapped {
      op := CancelMoves(s, r);
    } else if i: nat :| i < |s.w.socks| && s.w.socks[i].open && !Alive(s.w, s.w.socks[i].ref) {
      op := SockMoves(s, i);
    } else {
      var k: nat :| k < |s.w.streams| && s.w.streams[k].running && !Alive(s.w, s.w.streams[k].ref);
      op := StreamMoves(s, k);
    }
  }

  lemma SockMoves(s: State, i: nat) returns (op: Op)
    requires i < |s.w.socks| && s.w.socks[i].open
    ensures op == SockExits(i) && Internal(op) && Left(Step(s, op)) < Left(s)
  {
    op := SockExits(i);
    SocksUpdate(s.w.socks, i, s.w.socks[i].(open := false));
  }

  lemma StreamMoves(s: State, k: nat) returns (op: Op)
    requires k < |s.w.streams| && s.w.streams[k].running
    ensures op == StreamExits(k) && Internal(op) && Left(Step(s, op)) < Left(s)
  {
    op := StreamExits(k);
    StreamsUpdate(s.w.streams, k, s.w.streams[k].(running := false));
  }

  // ---- Every step makes progress ----

  /** Nothing happens, or less is left to do. */
  predicate Advances(s: State, s': State) {
    s' == s || Left(s') < Left(s)
  }

  lemma HandlerAdvances(s: State, t: nat, ok: bool)
    requires ThreadsOk(s) && t < |s.threads|
    ensures Advances(s, Take(s, t, Advanced(s.w, s.threads[t], ok)))
  {
    var th := s.threads[t];
    var e := Advanced(s.w, th, ok);
    assert ThreadOk(s.w.objs, th);
    hide WorldWork, Work, ThreadOk, ThreadsOk, Left;
    if !th.rolling && (Creating(th.stage) || Porting(th.stage) || Piping(th.stage)) {
      HandlerProgresses(s.w, th, ok);
      hide Advanced;
      TakeProgress(s, t, e);
    } else {
      hide Advanced;
      OthersAdvance(s, t, ok);
    }
  }

  lemma OthersAdvance(s: State, t: nat, ok: bool)
    requires ThreadsOk(s) && t < |s.threads|
    requires var th := s.threads[t]; th.rolling || !(Creating(th.stage) || Porting(th.stage) || Piping(th.stage))
    ensures Advances(s, Take(s, t, Advanced(s.w, s.threads[t], ok)))
  {
    var th := s.threads[t];
    var e := Advanced(s.w, th, ok);
    assert ThreadOk(s.w.objs, th);
    if e == Stay(s.w, th) {
      assert s.threads[t := th] + [] == s.threads;
    } else {
      WatcherProgresses(s.w, th);
      assert e == Advanced(s.w, th, true);
      hide WorldWork, Work, ThreadOk, Advanced;
      TakeProgress(s, t, e);
    }
  }

  lemma RollAdvances(s: State, t: nat)
    requires Mapped(s.w) && t < |s.threads|
    ensures Advances(s, Take(s, t, Rolled(s.w, s.threads[t])))
  {
    var th := s.threads[t];
    if th.rolling && th.undo != [] {
      RollProgresses(s.w, th);
      hide WorldWork, Work, Rolled;
      TakeProgress(s, t, Rolled(s.w, th));
    } else {
      assert s.threads[t := th] + [] == s.threads;
    }
  }

  lemma EnvironmentAdvances(s: State, op: Op)
    requires WorldOk(s.w) && (op.CancelContext? || op.SockExits? || op.StreamExits?)
    ensures Advances(s, s.(w := Environment(s.w, op)))
  {
    hide Mapped, SessionsWork, OpenSocks, RunningStreams, WorkOf;
    match op
    case CancelContext(r) =>
      if r < |s.w.objs| {
        SessionsUpdate(s.w.objs, r, s.w.objs[r].(phase := Cancelled));
      }
    case SockExits(i) =>
      if i < |s.w.socks| {
        SocksUpdate(s.w.socks, i, s.w.socks[i].(open := false));
      }
    case StreamExits(k) =>
      if k < |s.w.streams| {
        StreamsUpdate(s.w.streams, k, s.w.streams[k].(running := false));
        StreamIsGone(s.w, k);
      }
    case _ =>
  }

  /** The exit of a stream that has ended already changes nothing. */
  lemma StreamIsGone(w: World, k: nat)
    requires Streaming(w) && k < |w.streams|
    ensures !w.streams[k].running ==> Environment(w, StreamExits(k)) == w
  {
    if !w.streams[k].running {
      assert w.streams[k := w.streams[k].(running := false)] == w.streams;
      assert (map id | id in w.ai && w.ai[id] != k :: w.ai[id]) == w.ai;
    }
  }

  /** Each step of what is already there changes nothing or lowers what is left to do. */
  lemma StepAdvances(c: Config, hs: History, op: Op)
    requires Internal(op)
    ensures Advances(Run(c, hs), Step(Run(c, hs), op))
  {
    hide Run, Advances, Advanced, Rolled, Environment, ThreadsOk, Covered, Mapped, Streaming;
    var s := Run(c, hs);
    RunKeepsInv(c, hs);
    StaysAdvances(s);
    if op.Advance? {
      if op.t < |s.threads| {
        HandlerAdvances(s, op.t, op.ok);
      }
    } else if op.Roll? {
      if op.t < |s.threads| {
        RollAdvances(s, op.t);
      }
    } else {
      EnvironmentAdvances(s, op);
    }
  }

  lemma StaysAdvances(s: State)
    ensures Advances(s, s)
  {
  }

  /** `hs` goes on from `past` with steps of what is already there. */
  predicate GoesOn(hs: History, past: History) {
    hs == past || (hs.Then? && Internal(hs.op) && GoesOn(hs.past, past))
  }

  /** How many steps from `past` to `hs` changed anything. */
  function Effective(c: Config, hs: History, past: History): nat
    requires GoesOn(hs, past)
  {
    if hs == past then 0
    else Effective(c, hs.past, past) + One(Step(Run(c, hs.past), hs.op) != Run(c, hs.past))
  }

  /** Main result: however a run goes on without new requests, the steps that change anything are
      at most as many as was left to do. */
  lemma {:induction false} ContinuationsAreBounded(c: Config, hs: History, past: History)
    requires GoesOn(hs, past)
    ensures Effective(c, hs, past) + Left(Run(c, hs)) <= Left(Run(c, past))
  {
    hide Left, Step;
    if hs != past {
      ContinuationsAreBounded(c, hs.past, past);
      StepAdvances(c, hs.past, hs.op);
    }
  }

  // ---- Main result ----

  lemma {:induction false} GoesOnFurther(hs: History, mid: History, past: History)
    requires GoesOn(hs, mid) && GoesOn(mid, past)
    ensures GoesOn(hs, past)
  {
    if hs != mid {
      GoesOnFurther(hs.past, mid, past);
    }
  }

  /** Main result: every run can be continued, without new requests, to one at rest. */
  lemma {:induction false} CanComeToRest(c: Config, hs: History) returns (end: History)
    ensures GoesOn(end, hs) && AtRest(Run(c, end))
    decreases Left(Run(c, hs))
  {
    if AtRest(Run(c, hs)) {
      return hs;
    }
    RunKeepsInv(c, hs);
    hide AtRest, Inv, Left, Step;
    var op := SomethingMoves(Run(c, hs));
    var next := Then(hs, op);
    assert GoesOn(next, hs);
    end := CanComeToRest(c, next);
    GoesOnFurther(end, next, hs);
  }
}
