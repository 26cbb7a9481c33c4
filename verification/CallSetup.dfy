/** Call set-up as a protocol between any number of handlers, listeners, cleanup goroutines,
    AI streams and closers, interleaved in any way. Each lock-protected section is one step. */
module CallSetup {
  import opened PortAllocator

  datatype Phase = Live | Unmapped | Cancelled

  datatype Session = Session(id: string, phase: Phase)

  /** A listener goroutine that owns `port` until it exits. */
  datatype Sock = Sock(ref: nat, port: int, open: bool)

  datatype Stream = Stream(ref: nat, running: bool)

  /** What a goroutine still has to undo. */
  datatype Undo =
    | FreePort(port: int)
    | CloseSession(id: string)
    | Unpool(id: string)
    | Unsink(id: string)
    | Unjitter(id: string)

  /** Where a goroutine stands. The handler of an ANSWER event goes from CreateTCore to
      Committed; a cleanup goroutine watches its session's context. */
  datatype Stage =
    | CreateTCore | CreateTAccess(rt: nat)
    | AcquireFirst(rt: nat, ra: nat) | AcquireSecond(rt: nat, ra: nat, p1: int)
    | ListenFirst(rt: nat, ra: nat, p1: int, p2: int) | ListenSecond(rt: nat, ra: nat, p2: int)
    | AddSink(rt: nat, ra: nat, second: bool) | AddPipeline(rt: nat, ra: nat, second: bool)
    | OpenStream(rt: nat, ra: nat, second: bool) | StartPumps(rt: nat, ra: nat, second: bool)
    | Committed | Watching(ref: nat, id: string) | Closer

  /** `rolling` goroutines execute `undo` from the front; the others hold it as the plan for
      their next failing exit. */
  datatype Thread = Thread(call: string, stage: Stage, rolling: bool, undo: seq<Undo>)

  /** Everything shared: sessions, ports, registries, AI streams. */
  datatype World = World(
    maxSessions: int, maxStreams: int, usePorts: bool, callbacks: bool,
    objs: seq<Session>, live: map<string, nat>,
    free: seq<int>, socks: seq<Sock>,
    pool: set<string>, sinks: set<string>, jitter: set<string>,
    ai: map<string, nat>, streams: seq<Stream>, committed: set<nat>)

  datatype State = State(w: World, threads: seq<Thread>)

  function TCore(call: string): string { call + "-tcore" }
  function TAccess(call: string): string { call + "-taccess" }

  lemma SidesDiffer(call: string)
    ensures TCore(call) != TAccess(call)
  {
    assert |TCore(call)| != |TAccess(call)|;
  }

  // ---- What one step of a goroutine does ----

  predicate CanCreate(w: World, id: string) {
    |w.live| < w.maxSessions && id !in w.live
  }

  function NewSession(w: World, id: string): World {
    w.(objs := w.objs + [Session(id, Live)], live := w.live[id := |w.objs|])
  }

  /** The call's session whose pipeline is being started. */
  function Starting(th: Thread): string {
    if th.stage.AddSink? || th.stage.AddPipeline? || th.stage.OpenStream? || th.stage.StartPumps? then
      if th.stage.second then TAccess(th.call) else TCore(th.call)
    else ""
  }

  function Closes(call: string): seq<Undo> {
    [CloseSession(TCore(call)), CloseSession(TAccess(call))]
  }

  /** The effect of a step: the world, the goroutine itself, and the goroutines it starts. */
  datatype Effect = Effect(w: World, th: Thread, started: seq<Thread>)

  function Go(w: World, th: Thread, stage: Stage, undo: seq<Undo>): Effect {
    Effect(w, th.(stage := stage, undo := undo), [])
  }

  /** A failing exit: the goroutine starts to undo. */
  function Fail(w: World, th: Thread): Effect {
    Effect(w, th.(rolling := true), [])
  }

  function Stay(w: World, th: Thread): Effect {
    Effect(w, th, [])
  }

  /** Creating the two sessions. */
  function CreateStep(w: World, th: Thread): Effect
    requires th.stage.CreateTCore? || th.stage.CreateTAccess?
  {
    var n := |w.objs|;
    if th.stage.CreateTCore? then
      var id := TCore(th.call);
      if CanCreate(w, id) then Go(NewSession(w, id), th, CreateTAccess(n), [CloseSession(id)]) else Fail(w, th)
    else
      var id := TAccess(th.call);
      var rt := th.stage.rt;
      if !CanCreate(w, id) then Fail(w, th)
      else Go(NewSession(w, id), th, if w.usePorts then AcquireFirst(rt, n) else AddSink(rt, n, false), Closes(th.call))
  }

  /** Acquiring the two ports and handing each to a listener; `ok`: the bind succeeds. */
  function PortStep(w: World, th: Thread, ok: bool): Effect
    requires th.stage.AcquireFirst? || th.stage.AcquireSecond? || th.stage.ListenFirst? || th.stage.ListenSecond?
  {
    var n := |w.free|;
    match th.stage
    case AcquireFirst(rt, ra) =>
      if n == 0 then Fail(w, th)
      else Go(w.(free := w.free[..n - 1]), th, AcquireSecond(rt, ra, w.free[n - 1]),
              [FreePort(w.free[n - 1])] + Closes(th.call))
    case AcquireSecond(rt, ra, p1) =>
      if n == 0 then Fail(w, th)
      else Go(w.(free := w.free[..n - 1]), th, ListenFirst(rt, ra, p1, w.free[n - 1]),
              [FreePort(p1), FreePort(w.free[n - 1])] + Closes(th.call))
    case ListenFirst(rt, ra, p1, p2) =>
      if !ok then Fail(w, th)
      else Go(w.(socks := w.socks + [Sock(rt, p1, true)]), th, ListenSecond(rt, ra, p2),
              [FreePort(p2)] + Closes(th.call))
    case ListenSecond(rt, ra, p2) =>
      if !ok then Fail(w, th)
      else Go(w.(socks := w.socks + [Sock(ra, p2, true)]), th, AddSink(rt, ra, false), Closes(th.call))
  }

  /** Starting one session's pipeline; `ok`: the codec exists, the dial succeeds. */
  function StartStep(w: World, th: Thread, ok: bool): Effect
    requires th.stage.AddSink? || th.stage.AddPipeline? || th.stage.OpenStream? || th.stage.StartPumps?
  {
    var id := Starting(th);
    var second := th.stage.second;
    var rt, ra := th.stage.rt, th.stage.ra;
    var ref := if second then ra else rt;
    match th.stage
    case AddSink(_, _, _) =>
      Go(w.(sinks := if w.callbacks then w.sinks + {id} else w.sinks), th,
         AddPipeline(rt, ra, second), [Unsink(id)] + Closes(th.call))
    case AddPipeline(_, _, _) =>
      if !ok || id in w.pool then Fail(w, th)
      else Go(w.(pool := w.pool + {id}), th, OpenStream(rt, ra, second), [Unpool(id), Unsink(id)] + Closes(th.call))
    case OpenStream(_, _, _) =>
      if !ok || |w.ai| >= w.maxStreams || id in w.ai then Fail(w, th)
      else Go(w.(ai := w.ai[id := |w.streams|], streams := w.streams + [Stream(ref, true)]), th,
              StartPumps(rt, ra, second), th.undo)
    case StartPumps(_, _, _) =>
      var cleanup := Thread(th.call, Watching(ref, id), false, [Unpool(id), Unsink(id), Unjitter(id)]);
      var pumped := w.(jitter := w.jitter + {id});
      if second then
        Effect(pumped.(committed := w.committed + {rt, ra}), th.(stage := Committed, undo := []), [cleanup])
      else Effect(pumped, th.(stage := AddSink(rt, ra, true), undo := Closes(th.call)), [cleanup])
  }

  /** One step of a goroutine that is not undoing. */
  function Advanced(w: World, th: Thread, ok: bool): Effect {
    if th.rolling || th.stage.Committed? || th.stage.Closer? then Stay(w, th)
    else if th.stage.CreateTCore? || th.stage.CreateTAccess? then CreateStep(w, th)
    else if th.stage.Watching? then
      if th.stage.ref < |w.objs| && w.objs[th.stage.ref].phase == Cancelled then Fail(w, th) else Stay(w, th)
    else if th.stage.AcquireFirst? || th.stage.AcquireSecond? || th.stage.ListenFirst? || th.stage.ListenSecond? then
      PortStep(w, th, ok)
    else StartStep(w, th, ok)
  }

  /** Executing one undo action. */
  function Undone(w: World, u: Undo): World {
    match u
    case FreePort(p) => w.(free := w.free + [p])
    case CloseSession(id) =>
      if id in w.live && w.live[id] < |w.objs| then
        w.(live := w.live - {id}, objs := w.objs[w.live[id] := w.objs[w.live[id]].(phase := Unmapped)])
      else w
    case Unpool(id) => w.(pool := w.pool - {id})
    case Unsink(id) => w.(sinks := w.sinks - {id})
    case Unjitter(id) => w.(jitter := w.jitter - {id})
  }

  function Rolled(w: World, th: Thread): Effect {
    if th.rolling && th.undo != [] then Effect(Undone(w, th.undo[0]), th.(undo := th.undo[1..]), []) else Stay(w, th)
  }

  datatype Op =
    | Answer(call: string)          // an ANSWER event arrives
    | Close(ids: seq<string>)       // DELETE, gc, or a failed call-control: close these sessions
    | Advance(t: nat, ok: bool)     // a goroutine takes its next step
    | Roll(t: nat)                  // a goroutine undoes one thing
    | CancelContext(r: nat)         // the second half of a session's Close
    | SockExits(i: nat)             // a listener goroutine exits, for whatever reason
    | StreamExits(k: nat)           // an AI stream goroutine exits and cleans up

  function CloseAll(ids: seq<string>): seq<Undo> {
    seq(|ids|, i requires 0 <= i < |ids| => CloseSession(ids[i]))
  }

  /** What the other goroutines do to the world. */
  function Environment(w: World, op: Op): World {
    match op
    case CancelContext(r) =>
      if r < |w.objs| && w.objs[r].phase == Unmapped then w.(objs := w.objs[r := w.objs[r].(phase := Cancelled)]) else w
    case SockExits(i) =>
      if i < |w.socks| && w.socks[i].open then
        w.(socks := w.socks[i := w.socks[i].(open := false)], free := w.free + [w.socks[i].port])
      else w
    case StreamExits(k) =>
      if k < |w.streams| then
        w.(streams := w.streams[k := w.streams[k].(running := false)],
           ai := map id | id in w.ai && w.ai[id] != k :: w.ai[id])
      else w
    case Answer(_) => w
    case Close(_) => w
    case Advance(_, _) => w
    case Roll(_) => w
  }

  function Take(s: State, t: nat, e: Effect): State
    requires t < |s.threads|
  {
    State(e.w, s.threads[t := e.th] + e.started)
  }

  function Step(s: State, op: Op): State {
    if op.Answer? then s.(threads := s.threads + [Thread(op.call, CreateTCore, false, [])])
    else if op.Close? then s.(threads := s.threads + [Thread("", Closer, true, CloseAll(op.ids))])
    else if op.Advance? then
      if op.t < |s.threads| then Take(s, op.t, Advanced(s.w, s.threads[op.t], op.ok)) else s
    else if op.Roll? then
      if op.t < |s.threads| then Take(s, op.t, Rolled(s.w, s.threads[op.t])) else s
    else s.(w := Environment(s.w, op))
  }

  datatype Config = Config(maxSessions: int, maxStreams: int, usePorts: bool, callbacks: bool, lo: int, hi: int)

  function Initial(c: Config): State {
    State(World(c.maxSessions, c.maxStreams, c.usePorts, c.callbacks, [], map[], PortRange(c.lo, c.hi), [], {}, {}, {},
                map[], [], {}), [])
  }

  datatype History = Begin | Then(past: History, op: Op)

  function Run(c: Config, hs: History): State {
    match hs
    case Begin => Initial(c)
    case Then(past, op) => Step(Run(c, past), op)
  }
}
