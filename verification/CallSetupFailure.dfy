/** A set-up that fails leaves no trace: once its handler has undone its plan and the goroutines that
    it started have run, everything is as it was before the request. */
module CallSetupFailure {
  import opened PortAllocator
  import opened CallSetup
  import opened CallSetupPlans
  import opened CallSetupSafety
  import opened CallSetupLeaks
  import opened CallSetupPipelines
  import opened CallSetupPairs
  import opened CallSetupRest
  import opened CallSetupSuccess

  // ---- Only what is new moves ----

  /** A step of a goroutine, session, listener or stream that was not there in `s`. */
  predicate Aside(s: State, op: Op) {
    match op
    case Answer(_) => false
    case Close(_) => false
    case Advance(t, _) => t >= |s.threads|
    case Roll(t) => t >= |s.threads|
    case CancelContext(r) => r >= |s.w.objs|
    case SockExits(i) => i >= |s.w.socks|
    case StreamExits(k) => k >= |s.w.streams|
  }

  /** After `from` the call is answered, and then nothing moves that was there before. */
  predicate Alone(c: Config, hs: History, from: History, call: string) {
    hs == Then(from, Answer(call)) || (hs.Then? && Alone(c, hs.past, from, call) && Aside(Run(c, from), hs.op))
  }

  /** The goroutine has nothing to do with the sessions that were live in `s`. */
  ghost predicate Foreign(s: State, th: Thread) {
    && (forall r :: r in Refs(th.stage) ==> r >= |s.w.objs|)
    && (forall u :: u in th.undo ==> u.FreePort? || u.id !in s.w.live)
  }

  /** The handler of the call creates only what was not live. */
  predicate Handles(s: State, th: Thread, call: string) {
    && th.call == call && !th.stage.Watching? && !th.stage.Closer? && (th.stage.Committed? ==> !th.rolling)
    && (!th.stage.CreateTCore? && !th.stage.Committed? ==> TCore(call) !in s.w.live)
    && (Porting(th.stage) || Piping(th.stage) ==> TAccess(call) !in s.w.live)
  }

  ghost predicate NewThreads(s: State, u: State, call: string) {
    && |s.threads| < |u.threads| && s.threads <= u.threads
    && Handles(s, u.threads[|s.threads|], call)
    && (forall i :: |s.threads| <= i < |u.threads| ==> Foreign(s, u.threads[i]))
    && (forall i :: |s.threads| < i < |u.threads| ==>
          u.threads[i].stage.Watching? && u.threads[i].stage.ref >= |s.w.objs|)
  }

  /** The world still has everything that `v` had, unchanged. */
  ghost predicate Beside(v: World, w: World) {
    KeepsSessions(v, w) && KeepsRegistries(v, w) && KeepsSocks(v, w) && KeepsStreams(v, w)
  }

  ghost predicate KeepsSessions(v: World, w: World) {
    && v.objs <= w.objs
    && (forall id :: id in v.live ==> id in w.live && w.live[id] == v.live[id])
    && (forall id :: id in w.live && id !in v.live ==> w.live[id] >= |v.objs|)
  }

  ghost predicate KeepsRegistries(v: World, w: World) {
    forall id :: id in v.live ==>
      && (id in w.pool <==> id in v.pool) && (id in w.sinks <==> id in v.sinks)
      && (id in w.jitter <==> id in v.jitter)
      && (id in w.ai <==> id in v.ai) && (id in v.ai ==> w.ai[id] == v.ai[id])
  }

  ghost predicate KeepsSocks(v: World, w: World) {
    v.socks <= w.socks && forall i :: |v.socks| <= i < |w.socks| ==> w.socks[i].ref >= |v.objs|
  }

  ghost predicate KeepsStreams(v: World, w: World) {
    v.streams <= w.streams && forall k :: |v.streams| <= k < |w.streams| ==> w.streams[k].ref >= |v.objs|
  }

  ghost predicate Apart(s: State, u: State, call: string) {
    && NewThreads(s, u, call) && Beside(s.w, u.w)
    && (!u.threads[|s.threads|].stage.Committed? ==> u.w.committed == s.w.committed)
  }

  // ---- Steps of the handler ----

  /** What a step of the handler keeps. */
  ghost predicate StaysApart(s: State, w: World, th: Thread, e: Effect, call: string) {
    && Beside(s.w, e.w) && Handles(s, e.th, call) && Foreign(s, e.th)
    && (forall i :: 0 <= i < |e.started| ==>
          Foreign(s, e.started[i]) && e.started[i].stage.Watching? && e.started[i].stage.ref >= |s.w.objs|)
    && (!e.th.stage.Committed? ==> e.w.committed == w.committed && !th.stage.Committed?)
  }

  lemma CreateStaysBeside(s: State, w: World, th: Thread)
    requires Beside(s.w, w) && Creating(th.stage)
    ensures Beside(s.w, CreateStep(w, th).w) && CreateStep(w, th).w.committed == w.committed
  {
    hide TCore, TAccess, KeepsRegistries, KeepsSocks, KeepsStreams;
    CreateKeepsPorts(w, th);
    SameRegistries(s.w, w, CreateStep(w, th).w);
    SamePorts(s.w, w, CreateStep(w, th).w);
  }

  lemma CreateKeepsPorts(w: World, th: Thread)
    requires Creating(th.stage)
    ensures var w' := CreateStep(w, th).w;
            && w'.pool == w.pool && w'.sinks == w.sinks && w'.jitter == w.jitter && w'.ai == w.ai
            && w'.socks == w.socks && w'.streams == w.streams
  {
  }

  lemma SameRegistries(v: World, w: World, w': World)
    requires KeepsRegistries(v, w)
    requires w'.pool == w.pool && w'.sinks == w.sinks && w'.jitter == w.jitter && w'.ai == w.ai
    ensures KeepsRegistries(v, w')
  {
  }

  lemma SamePorts(v: World, w: World, w': World)
    requires KeepsSocks(v, w) && KeepsStreams(v, w) && w'.socks == w.socks && w'.streams == w.streams
    ensures KeepsSocks(v, w') && KeepsStreams(v, w')
  {
  }

  lemma SameSessions(v: World, w: World, w': World)
    requires KeepsSessions(v, w) && w'.objs == w.objs && w'.live == w.live
    ensures KeepsSessions(v, w')
  {
  }

  lemma CreateStaysForeign(s: State, w: World, th: Thread, call: string)
    requires |s.w.objs| <= |w.objs| && s.w.live.Keys <= w.live.Keys
    requires Handles(s, th, call) && Foreign(s, th) && Creating(th.stage) && !th.rolling
    ensures var e := CreateStep(w, th);
            Handles(s, e.th, call) && Foreign(s, e.th) && e.started == [] && !e.th.stage.Committed?
  {
    hide TCore, TAccess;
  }

  lemma PortStaysBeside(s: State, w: World, th: Thread, ok: bool)
    requires Beside(s.w, w) && Porting(th.stage) && forall r :: r in Refs(th.stage) ==> r >= |s.w.objs|
    ensures Beside(s.w, PortStep(w, th, ok).w) && PortStep(w, th, ok).w.committed == w.committed
  {
    hide KeepsRegistries, KeepsSessions, KeepsStreams, Closes;
    assert th.stage.rt in Refs(th.stage) && th.stage.ra in Refs(th.stage);
    var w' := PortStep(w, th, ok).w;
    SameSessions(s.w, w, w');
    SameRegistries(s.w, w, w');
    SameStreams(s.w, w, w');
  }

  lemma SameStreams(v: World, w: World, w': World)
    requires KeepsStreams(v, w) && w'.streams == w.streams
    ensures KeepsStreams(v, w')
  {
  }

  lemma PortStaysForeign(s: State, w: World, th: Thread, ok: bool, call: string)
    requires Handles(s, th, call) && Foreign(s, th) && Porting(th.stage) && !th.rolling
    ensures var e := PortStep(w, th, ok);
            Handles(s, e.th, call) && Foreign(s, e.th) && e.started == [] && !e.th.stage.Committed?
  {
    hide TCore, TAccess;
  }

  lemma StartStaysBeside(s: State, w: World, th: Thread, ok: bool)
    requires Beside(s.w, w) && Piping(th.stage) && Starting(th) !in s.w.live
    requires forall r :: r in Refs(th.stage) ==> r >= |s.w.objs|
    ensures Beside(s.w, StartStep(w, th, ok).w)
  {
    hide KeepsRegistries, KeepsSessions, KeepsSocks, KeepsStreams, StartStep, Closes, Starting;
    var w' := StartStep(w, th, ok).w;
    StartKeepsPorts(w, th, ok);
    SameSessions(s.w, w, w');
    StartRegisters(s, w, th, ok);
    StartStreams(s, w, th, ok);
    SameSocks(s.w, w, w');
  }

  lemma SameSocks(v: World, w: World, w': World)
    requires KeepsSocks(v, w) && w'.socks == w.socks
    ensures KeepsSocks(v, w')
  {
  }

  lemma StartKeepsPorts(w: World, th: Thread, ok: bool)
    requires Piping(th.stage)
    ensures var w' := StartStep(w, th, ok).w; w'.objs == w.objs && w'.live == w.live && w'.socks == w.socks
  {
  }

  lemma StartRegisters(s: State, w: World, th: Thread, ok: bool)
    requires KeepsRegistries(s.w, w) && Piping(th.stage) && Starting(th) !in s.w.live
    ensures KeepsRegistries(s.w, StartStep(w, th, ok).w)
  {
    hide Starting, Closes;
  }

  lemma StartStreams(s: State, w: World, th: Thread, ok: bool)
    requires KeepsStreams(s.w, w) && Piping(th.stage) && forall r :: r in Refs(th.stage) ==> r >= |s.w.objs|
    ensures KeepsStreams(s.w, StartStep(w, th, ok).w)
  {
    hide Starting, Closes;
    assert th.stage.rt in Refs(th.stage) && th.stage.ra in Refs(th.stage);
  }

  lemma StartStaysForeign(s: State, w: World, th: Thread, ok: bool, call: string)
    requires Handles(s, th, call) && Foreign(s, th) && Piping(th.stage) && !th.rolling
    ensures var e := StartStep(w, th, ok);
            && Starting(th) !in s.w.live && Handles(s, e.th, call) && Foreign(s, e.th)
            && (forall i :: 0 <= i < |e.started| ==>
                  Foreign(s, e.started[i]) && e.started[i].stage.Watching? && e.started[i].stage.ref >= |s.w.objs|)
            && (!e.th.stage.Committed? ==> e.w.committed == w.committed)
  {
    hide TCore, TAccess, StartStep;
    if th.stage.StartPumps? {
      PumpsStayForeign(s, w, th, ok, call);
    } else {
      EarlierStaysForeign(s, w, th, ok, call);
    }
  }

  lemma PumpsStayForeign(s: State, w: World, th: Thread, ok: bool, call: string)
    requires Handles(s, th, call) && Foreign(s, th) && th.stage.StartPumps? && !th.rolling
    ensures var e := StartStep(w, th, ok);
            && Handles(s, e.th, call) && Foreign(s, e.th)
            && (forall i :: 0 <= i < |e.started| ==>
                  Foreign(s, e.started[i]) && e.started[i].stage.Watching? && e.started[i].stage.ref >= |s.w.objs|)
            && (!e.th.stage.Committed? ==> e.w.committed == w.committed)
  {
    hide TCore, TAccess;
  }

  lemma EarlierStaysForeign(s: State, w: World, th: Thread, ok: bool, call: string)
    requires Handles(s, th, call) && Foreign(s, th) && Piping(th.stage) && !th.stage.StartPumps? && !th.rolling
    ensures var e := StartStep(w, th, ok);
            Handles(s, e.th, call) && Foreign(s, e.th) && e.started == [] && e.w.committed == w.committed
  {
    hide TCore, TAccess;
  }

  lemma HandlerStaysApart(s: State, w: World, th: Thread, ok: bool, call: string)
    requires Beside(s.w, w) && Handles(s, th, call) && Foreign(s, th)
    ensures StaysApart(s, w, th, Advanced(w, th, ok), call) || Advanced(w, th, ok) == Stay(w, th)
  {
    hide CreateStep, PortStep, StartStep, TCore, TAccess;
    if !th.rolling && Creating(th.stage) {
      CreateStaysForeign(s, w, th, call);
      CreateStaysBeside(s, w, th);
    } else if !th.rolling && Porting(th.stage) {
      PortStaysForeign(s, w, th, ok, call);
      PortStaysBeside(s, w, th, ok);
    } else if !th.rolling && Piping(th.stage) {
      StartStaysForeign(s, w, th, ok, call);
      StartStaysBeside(s, w, th, ok);
    }
  }

  // ---- The other steps ----

  /** Undoing what concerns no session of before. */
  lemma UndoneStaysBeside(s: State, w: World, u: Undo)
    requires Beside(s.w, w) && (u.FreePort? || u.id !in s.w.live)
    ensures Beside(s.w, Undone(w, u)) && Undone(w, u).committed == w.committed
  {
    hide KeepsSocks, KeepsStreams;
    SamePorts(s.w, w, Undone(w, u));
  }

  lemma RolledStaysBeside(s: State, w: World, th: Thread)
    requires Beside(s.w, w) && Foreign(s, th)
    ensures var e := Rolled(w, th); Beside(s.w, e.w) && Foreign(s, e.th) && e.w.committed == w.committed
  {
    hide Beside, Undone;
    if th.rolling && th.undo != [] {
      UndoneStaysBeside(s, w, th.undo[0]);
    }
  }

  lemma WatcherStaysBeside(s: State, w: World, th: Thread, ok: bool)
    requires Foreign(s, th) && th.stage.Watching?
    ensures var e := Advanced(w, th, ok);
            e.w == w && e.started == [] && e.th.stage == th.stage && Foreign(s, e.th)
  {
  }

  lemma CancelStaysBeside(v: World, w: World, r: nat)
    requires Beside(v, w) && r >= |v.objs|
    ensures Beside(v, Environment(w, CancelContext(r)))
  {
    hide KeepsSocks, KeepsStreams, KeepsRegistries;
    var w' := Environment(w, CancelContext(r));
    SamePorts(v, w, w');
    SameRegistries(v, w, w');
  }

  lemma SockStaysBeside(v: World, w: World, i: nat)
    requires Beside(v, w) && i >= |v.socks|
    ensures Beside(v, Environment(w, SockExits(i)))
  {
    hide KeepsSessions, KeepsStreams, KeepsRegistries;
    var w' := Environment(w, SockExits(i));
    SameSessions(v, w, w');
    SameRegistries(v, w, w');
    SameStreams(v, w, w');
  }

  lemma StreamStaysBeside(v: World, w: World, k: nat)
    requires Beside(v, w) && Streaming(v) && k >= |v.streams|
    ensures Beside(v, Environment(w, StreamExits(k)))
  {
    hide KeepsSessions, KeepsSocks;
    var w' := Environment(w, StreamExits(k));
    SameSessions(v, w, w');
    SameSocks(v, w, w');
  }

  lemma EnvironmentStaysBeside(s: State, w: World, op: Op)
    requires Beside(s.w, w) && Streaming(s.w) && Aside(s, op) && (op.CancelContext? || op.SockExits? || op.StreamExits?)
    ensures Beside(s.w, Environment(w, op)) && Environment(w, op).committed == w.committed
  {
    hide Environment, Beside, Streaming;
    EnvironmentCommits(w, op);
    match op
    case CancelContext(r) => CancelStaysBeside(s.w, w, r);
    case SockExits(i) => SockStaysBeside(s.w, w, i);
    case StreamExits(k) => StreamStaysBeside(s.w, w, k);
    case _ =>
  }

  // ---- Whole steps ----

  lemma TakeStaysApart(s: State, u: State, t: nat, e: Effect, call: string)
    requires Apart(s, u, call) && |s.threads| <= t < |u.threads| && Beside(s.w, e.w) && Foreign(s, e.th)
    requires forall i :: 0 <= i < |e.started| ==>
               Foreign(s, e.started[i]) && e.started[i].stage.Watching? && e.started[i].stage.ref >= |s.w.objs|
    requires if t == |s.threads| then
               Handles(s, e.th, call) && (!e.th.stage.Committed? ==> e.w.committed == s.w.committed)
             else
               e.th.stage == u.threads[t].stage && e.w.committed == u.w.committed
    ensures Apart(s, Take(u, t, e), call)
  {
    hide Beside, Foreign, Handles;
    var u' := Take(u, t, e);
    forall i | |s.threads| <= i < |u'.threads|
      ensures Foreign(s, u'.threads[i])
      ensures i > |s.threads| ==> u'.threads[i].stage.Watching? && u'.threads[i].stage.ref >= |s.w.objs|
    {
      if i >= |u.threads| {
        assert u'.threads[i] == e.started[i - |u.threads|];
      }
    }
  }

  lemma AdvanceStaysApart(s: State, u: State, t: nat, ok: bool, call: string)
    requires Apart(s, u, call) && |s.threads| <= t < |u.threads|
    ensures Apart(s, Take(u, t, Advanced(u.w, u.threads[t], ok)), call)
  {
    hide Advanced, Beside, Foreign, Handles;
    var th := u.threads[t];
    if t == |s.threads| {
      HandlerStaysApart(s, u.w, th, ok, call);
      if Advanced(u.w, th, ok) == Stay(u.w, th) {
        assert u.threads[t := th] + [] == u.threads;
      } else {
        TakeStaysApart(s, u, t, Advanced(u.w, th, ok), call);
      }
    } else {
      WatcherStaysBeside(s, u.w, th, ok);
      TakeStaysApart(s, u, t, Advanced(u.w, th, ok), call);
    }
  }

  lemma RollStaysApart(s: State, u: State, t: nat, call: string)
    requires Apart(s, u, call) && |s.threads| <= t < |u.threads|
    ensures Apart(s, Take(u, t, Rolled(u.w, u.threads[t])), call)
  {
    hide Rolled, Beside, Foreign;
    var th := u.threads[t];
    RolledStaysBeside(s, u.w, th);
    RolledKeepsStage(u.w, th);
    TakeStaysApart(s, u, t, Rolled(u.w, th), call);
  }

  lemma StepStaysApart(s: State, u: State, op: Op, call: string)
    requires Apart(s, u, call) && Aside(s, op) && Streaming(s.w)
    ensures Apart(s, Step(u, op), call)
  {
    hide Advanced, Rolled, Environment, Take, Beside, NewThreads, Streaming;
    if op.Advance? {
      if op.t < |u.threads| {
        AdvanceStaysApart(s, u, op.t, op.ok, call);
      }
    } else if op.Roll? {
      if op.t < |u.threads| {
        RollStaysApart(s, u, op.t, call);
      }
    } else {
      EnvironmentStaysBeside(s, u.w, op);
      NewThreadsStay(s, u, u.(w := Environment(u.w, op)), call);
    }
  }

  lemma NewThreadsStay(s: State, u: State, u': State, call: string)
    requires NewThreads(s, u, call) && u'.threads == u.threads
    ensures NewThreads(s, u', call)
  {
  }

  lemma AnswerIsApart(s: State, call: string)
    ensures Apart(s, Step(s, Answer(call)), call)
  {
    assert Step(s, Answer(call)).threads[|s.threads|] == Thread(call, CreateTCore, false, []);
  }

  lemma {:induction false} RunStaysApart(c: Config, hs: History, from: History, call: string)
    requires Alone(c, hs, from, call)
    ensures Apart(Run(c, from), Run(c, hs), call)
  {
    hide Step, Apart, Aside;
    if hs == Then(from, Answer(call)) {
      AnswerIsApart(Run(c, from), call);
    } else {
      RunStaysApart(c, hs.past, from, call);
      RunKeepsInv(c, from);
      StepStaysApart(Run(c, from), Run(c, hs.past), hs.op, call);
    }
  }

  // ---- Main result ----

  /** The handler of the call has failed. */
  predicate HandlerFailed(c: Config, hs: History, from: History) {
    var t := |Run(c, from).threads|;
    t < |Run(c, hs).threads| && Run(c, hs).threads[t].rolling
  }

  /** Main result: from any point of a run that is at rest, when the call is answered, its handler
      fails, and what it started has come to its end, in whatever order: sessions, pipelines,
      sinks, jitter buffers, AI streams and free ports are as they were. */
  lemma FailureLeavesNoTrace(c: Config, hs: History, from: History, call: string, p: int)
    requires AtRest(Run(c, from)) && Alone(c, hs, from, call) && AtRest(Run(c, hs)) && HandlerFailed(c, hs, from)
    ensures var v, w := Run(c, from).w, Run(c, hs).w;
            && w.live == v.live && w.pool == v.pool && w.sinks == v.sinks && w.jitter == v.jitter && w.ai == v.ai
            && Count(w.free, p) == Count(v.free, p)
  {
    hide Run, AtRest, Alone, ThreadsOk, Covered, Streaming, Foreign, KeepsSocks, KeepsStreams;
    var s, u := Run(c, from), Run(c, hs);
    RunStaysApart(c, hs, from, call);
    RunKeepsInv(c, hs);
    RunKeepsInv(c, from);
    RunKeepsWatch(c, from);
    NothingNewIsLive(s, u, call);
    NothingLeaks(c, hs, p);
    NothingLeaks(c, from, p);
    PipelinesAreTheLiveSessions(c, hs);
    PipelinesAreTheLiveSessions(c, from);
    SameListeners(s, u, p);
    SameEntries(s.w, u.w);
  }

  /** The handler has committed nothing, and nothing else could: no new session is live. */
  lemma NothingNewIsLive(s: State, u: State, call: string)
    requires Apart(s, u, call) && Inv(u) && AtRest(u) && CommittedKnown(s.w) && u.threads[|s.threads|].rolling
    ensures u.w.live == s.w.live
  {
    hide Inv, AtRest, KeepsRegistries, KeepsSocks, KeepsStreams, Foreign, TCore, TAccess;
    forall id | id in u.w.live
      ensures id in s.w.live
    {
      SessionsAtRest(u, id);
    }
    assert u.w.live.Keys == s.w.live.Keys;
  }

  lemma SameEntries(v: World, w: World)
    requires KeepsRegistries(v, w) && w.live == v.live
    requires v.sinks <= v.live.Keys && v.jitter <= v.live.Keys && v.ai.Keys <= v.live.Keys
    requires w.sinks <= w.live.Keys && w.jitter <= w.live.Keys && w.ai.Keys <= w.live.Keys
    ensures w.sinks == v.sinks && w.jitter == v.jitter && w.ai == v.ai
  {
    assert w.ai.Keys == v.ai.Keys;
  }

  /** The new listeners are closed. */
  lemma SameListeners(s: State, u: State, p: int)
    requires Beside(s.w, u.w) && Mapped(s.w) && Mapped(u.w) && AtRest(u) && u.w.live == s.w.live
    ensures Listening(u.w.socks, p) == Listening(s.w.socks, p)
  {
    hide KeepsRegistries, KeepsStreams, Listening;
    var n := |s.w.socks|;
    forall i | n <= i < |u.w.socks|
      ensures !u.w.socks[i].open
    {
      assert u.w.socks[i].open ==> Alive(u.w, u.w.socks[i].ref);
    }
    ClosedSocksListenNowhere(u.w.socks, n, p);
    assert u.w.socks[..n] == s.w.socks;
  }

  lemma {:induction false} ClosedSocksListenNowhere(socks: seq<Sock>, n: nat, p: int)
    requires n <= |socks| && forall i :: n <= i < |socks| ==> !socks[i].open
    ensures Listening(socks, p) == Listening(socks[..n], p)
  {
    if |socks| > n {
      ClosedSocksListenNowhere(socks[..|socks| - 1], n, p);
      assert socks[..|socks| - 1][..n] == socks[..n];
    } else {
      assert socks[..n] == socks;
    }
  }

  // ---- The handler's goroutines come to rest by themselves ----

  /** What was at rest still is. */
  lemma OldStaysAtRest(s: State, u: State, call: string)
    requires Apart(s, u, call) && AtRest(s)
    ensures forall i :: 0 <= i < |s.threads| ==> ThreadAtRest(u.w, u.threads[i])
    ensures forall r :: 0 <= r < |s.w.objs| ==> u.w.objs[r].phase != Unmapped
    ensures forall i :: 0 <= i < |s.w.socks| && u.w.socks[i].open ==> Alive(u.w, u.w.socks[i].ref)
    ensures forall k :: 0 <= k < |s.w.streams| && u.w.streams[k].running ==> Alive(u.w, u.w.streams[k].ref)
  {
    hide Foreign, KeepsRegistries, TCore, TAccess;
    assert forall r: nat :: Alive(s.w, r) ==> Alive(u.w, r);
  }

  /** Whatever is not at rest is new, and can move. */
  lemma SomethingNewMoves(s: State, u: State, call: string) returns (op: Op)
    requires Apart(s, u, call) && AtRest(s) && Inv(u) && !AtRest(u)
    ensures Aside(s, op) && Left(Step(u, op)) < Left(u)
  {
    hide Covered, Streaming, ThreadAtRest, Left, Step, ThreadOk, Foreign, KeepsRegistries, Beside;
    OldStaysAtRest(s, u, call);
    if t: nat :| t < |u.threads| && !ThreadAtRest(u.w, u.threads[t]) {
      op := ThreadMoves(u, t);
    } else if r: nat :| r < |u.w.objs| && u.w.objs[r].phase == Unmapped {
      op := CancelMoves(u, r);
    } else if i: nat :| i < |u.w.socks| && u.w.socks[i].open && !Alive(u.w, u.w.socks[i].ref) {
      op := SockMoves(u, i);
    } else {
      var k: nat :| k < |u.w.streams| && u.w.streams[k].running && !Alive(u.w, u.w.streams[k].ref);
      op := StreamMoves(u, k);
    }
  }

  /** A goroutine that undoes its plan never stops doing so. */
  lemma RollingStays(u: State, op: Op, t: nat)
    requires t < |u.threads| && u.threads[t].rolling
    ensures t < |Step(u, op).threads| && Step(u, op).threads[t].rolling
  {
    hide Environment;
  }

  lemma {:induction false} ComesToRest(c: Config, hs: History, from: History, call: string) returns (end: History)
    requires AtRest(Run(c, from)) && Alone(c, hs, from, call) && HandlerFailed(c, hs, from)
    ensures Alone(c, end, from, call) && AtRest(Run(c, end)) && HandlerFailed(c, end, from)
    decreases Left(Run(c, hs))
  {
    if AtRest(Run(c, hs)) {
      return hs;
    }
    RunKeepsInv(c, hs);
    RunStaysApart(c, hs, from, call);
    hide AtRest, Inv, Left, Step, Apart, Aside;
    var op := SomethingNewMoves(Run(c, from), Run(c, hs), call);
    RollingStays(Run(c, hs), op, |Run(c, from).threads|);
    end := ComesToRest(c, Then(hs, op), from, call);
  }

  /** So the run of the last result exists: from any point at rest at which there is no room for the
      call, or something will go wrong, the handler fails and everything comes to rest. */
  lemma FailureComesToRest(c: Config, from: History, call: string, env: A.Environment) returns (end: History)
    requires AtRest(Run(c, from))
    requires var w := Run(c, from).w; !(HasRoom(w, call) && A.AllGoesWell(env, w.usePorts))
    ensures Alone(c, end, from, call) && AtRest(Run(c, end)) && HandlerFailed(c, end, from)
  {
    var s := Run(c, from);
    var hs := Answering(from, |s.threads|, s.w.usePorts, call, env);
    AnsweringIsAlone(c, from, call, env);
    hide Run, AtRest, Undisturbed, HasRoom, Answering, Alone;
    RunAnswering(c, from, s.w.usePorts, call, env);
    UndisturbedAnswers(s, call, env);
    end := ComesToRest(c, hs, from, call);
  }

  lemma AnsweringIsAlone(c: Config, from: History, call: string, env: A.Environment)
    ensures var s := Run(c, from);
            Alone(c, Answering(from, |s.threads|, s.w.usePorts, call, env), from, call)
  {
    hide Run;
    var t, ports := |Run(c, from).threads|, Run(c, from).w.usePorts;
    var arrived := Then(from, Answer(call));
    var begun := Then(Then(arrived, Advance(t, true)), Advance(t, true));
    assert Alone(c, arrived, from, call) && Alone(c, Then(arrived, Advance(t, true)), from, call);
    assert Alone(c, begun, from, call);
    Times4IsAlone(c, begun, from, call, t, true, true, env.bind1, env.bind2);
    var prepared := if ports then Times4(begun, t, true, true, env.bind1, env.bind2) else begun;
    Times4IsAlone(c, prepared, from, call, t, true, env.codec1, env.dial1, true);
    var first := Times4(prepared, t, true, env.codec1, env.dial1, true);
    Times4IsAlone(c, first, from, call, t, true, env.codec2, env.dial2, true);
    var driven := Times4(first, t, true, env.codec2, env.dial2, true);
    hide Times4;
    assert Alone(c, Then(Then(driven, Roll(t)), Roll(t)), from, call);
  }

  lemma Times4IsAlone(c: Config, hs: History, from: History, call: string, t: nat,
                      x: bool, y: bool, z: bool, u: bool)
    requires Alone(c, hs, from, call) && t >= |Run(c, from).threads|
    ensures Alone(c, Times4(hs, t, x, y, z, u), from, call)
  {
    hide Run;
    var h1 := Then(hs, Advance(t, x));
    var h2 := Then(h1, Advance(t, y));
    var h3 := Then(h2, Advance(t, z));
    assert Alone(c, h1, from, call) && Alone(c, h2, from, call) && Alone(c, h3, from, call);
  }
}
