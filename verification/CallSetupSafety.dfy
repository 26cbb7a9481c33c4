/** Port ownership over every interleaving of call set-up. */
module CallSetupSafety {
  import opened Basics
  import opened PortAllocator
  import opened CallSetup
  import opened CallSetupPlans

  // ---- Port ownership ----

  function Listening(socks: seq<Sock>, p: int): nat {
    if socks == [] then 0
    else Listening(socks[..|socks| - 1], p) + One(socks[|socks| - 1].open && socks[|socks| - 1].port == p)
  }

  function InWorld(w: World, p: int): nat {
    Count(w.free, p) + Listening(w.socks, p)
  }

  /** Every place where port `p` may be: the free list, a listener, a goroutine's hands. */
  function Owners(s: State, p: int): nat {
    InWorld(s.w, p) + Holders(s.threads, FreePort(p))
  }

  lemma ListeningAppend(socks: seq<Sock>, k: Sock, p: int)
    ensures Listening(socks + [k], p) == Listening(socks, p) + One(k.open && k.port == p)
  {
    assert (socks + [k])[..|socks|] == socks;
  }

  lemma {:induction false} ListeningClose(socks: seq<Sock>, i: nat, p: int)
    requires i < |socks| && socks[i].open
    ensures Listening(socks[i := socks[i].(open := false)], p) + One(socks[i].port == p) == Listening(socks, p)
    decreases |socks|
  {
    var n := |socks| - 1;
    var k := socks[i].(open := false);
    if i < n {
      assert socks[i := k][..n] == socks[..n][i := k];
      ListeningClose(socks[..n], i, p);
    } else {
      assert socks[i := k][..n] == socks[..n];
    }
  }

  // ---- One owner per port ----

  lemma PlannedPorts(th: Thread, p: int)
    ensures Occurs(Planned(th), FreePort(p))
         == (if th.stage.AcquireSecond? then One(th.stage.p1 == p)
             else if th.stage.ListenFirst? then One(th.stage.p1 == p) + One(th.stage.p2 == p)
             else if th.stage.ListenSecond? then One(th.stage.p2 == p) else 0)
  {
    hide Closes;
    ClosesFreeNone(th.call, p);
    match th.stage
    case AcquireSecond(_, _, p1) => OccursConcat([FreePort(p1)], Closes(th.call), FreePort(p));
    case ListenFirst(_, _, p1, p2) =>
      OccursConcat([FreePort(p1), FreePort(p2)], Closes(th.call), FreePort(p));
      assert [FreePort(p1), FreePort(p2)][1..] == [FreePort(p2)];
    case ListenSecond(_, _, p2) => OccursConcat([FreePort(p2)], Closes(th.call), FreePort(p));
    case _ => PlanFreesNone(th, p);
  }

  lemma ClosesFreeNone(call: string, p: int)
    ensures Occurs(Closes(call), FreePort(p)) == 0
  {
    OccursNot(Closes(call), FreePort(p));
  }

  /** At the other stages no port is held. */
  lemma PlanFreesNone(th: Thread, p: int)
    requires !th.stage.AcquireSecond? && !th.stage.ListenFirst? && !th.stage.ListenSecond?
    ensures Occurs(Planned(th), FreePort(p)) == 0
  {
    OccursNot(Planned(th), FreePort(p));
  }

  /** The effect moves ports between the world and the goroutine's hands, but keeps them. */
  predicate KeepsPorts(w: World, th: Thread, e: Effect, p: int) {
    InWorld(e.w, p) + Occurs(e.th.undo, FreePort(p)) + Holders(e.started, FreePort(p))
      == InWorld(w, p) + Occurs(th.undo, FreePort(p))
  }

  lemma EmptyHands(p: int)
    ensures Holders([], FreePort(p)) == 0 && Occurs([], FreePort(p)) == 0
  {
  }

  lemma AcquireKeepsPorts(w: World, th: Thread, ok: bool, p: int)
    requires ThreadOk(w.objs, th) && !th.rolling && (th.stage.AcquireFirst? || th.stage.AcquireSecond?)
    ensures KeepsPorts(w, th, PortStep(w, th, ok), p)
  {
    hide Planned, RefsOk, Count, Listening, Occurs, Holders, Closes;
    var e := PortStep(w, th, ok);
    PortStepOk(w, th, ok);
    EmptyHands(p);
    PlannedPorts(th, p);
    if !e.th.rolling {
      PlannedPorts(e.th, p);
      var n := |w.free| - 1;
      CountAppend(w.free[..n], w.free[n], p);
      assert w.free == w.free[..n] + [w.free[n]];
    }
  }

  lemma ListenKeepsPorts(w: World, th: Thread, ok: bool, p: int)
    requires ThreadOk(w.objs, th) && !th.rolling && (th.stage.ListenFirst? || th.stage.ListenSecond?)
    ensures KeepsPorts(w, th, PortStep(w, th, ok), p)
  {
    hide Planned, RefsOk, Count, Listening, Occurs, Holders, Closes;
    var e := PortStep(w, th, ok);
    PortStepOk(w, th, ok);
    EmptyHands(p);
    PlannedPorts(th, p);
    if !e.th.rolling {
      PlannedPorts(e.th, p);
      ListeningAppend(w.socks, e.w.socks[|w.socks|], p);
    }
  }

  lemma OtherStepKeepsPorts(w: World, th: Thread, ok: bool, p: int)
    requires ThreadOk(w.objs, th) && (Creating(th.stage) || Piping(th.stage)) && !th.rolling
    ensures KeepsPorts(w, th, if Creating(th.stage) then CreateStep(w, th) else StartStep(w, th, ok), p)
  {
    hide Planned, RefsOk, Count, Listening, Occurs, Holders, Closes;
    var e := if Creating(th.stage) then CreateStep(w, th) else StartStep(w, th, ok);
    EmptyHands(p);
    if Creating(th.stage) {
      CreateStepOk(w, th);
    } else {
      StartStepOk(w, th, ok);
    }
    PlannedPorts(th, p);
    if !e.th.rolling {
      PlannedPorts(e.th, p);
    }
    if e.started != [] {
      PlannedPorts(e.started[0], p);
      HoldersAppend([], e.started[0], FreePort(p));
      assert [] + [e.started[0]] == e.started;
    }
  }

  lemma AdvancedKeepsPorts(w: World, th: Thread, ok: bool, p: int)
    requires ThreadOk(w.objs, th)
    ensures KeepsPorts(w, th, Advanced(w, th, ok), p)
  {
    hide CreateStep, PortStep, StartStep, Planned, RefsOk;
    if !th.rolling {
      if Porting(th.stage) {
        if th.stage.AcquireFirst? || th.stage.AcquireSecond? {
          AcquireKeepsPorts(w, th, ok, p);
        } else {
          ListenKeepsPorts(w, th, ok, p);
        }
      } else if Creating(th.stage) || Piping(th.stage) {
        OtherStepKeepsPorts(w, th, ok, p);
      }
    }
  }

  lemma RolledKeepsPorts(w: World, th: Thread, p: int)
    ensures KeepsPorts(w, th, Rolled(w, th), p)
  {
    if th.rolling && th.undo != [] && th.undo[0].FreePort? {
      CountAppend(w.free, th.undo[0].port, p);
    }
  }

  lemma EnvironmentKeepsPorts(w: World, op: Op, p: int)
    ensures InWorld(Environment(w, op), p) == InWorld(w, p)
  {
    if op.SockExits? && op.i < |w.socks| && w.socks[op.i].open {
      ListeningClose(w.socks, op.i, p);
      CountAppend(w.free, w.socks[op.i].port, p);
    }
  }

  lemma TakeKeepsPorts(s: State, t: nat, e: Effect, p: int)
    requires t < |s.threads| && KeepsPorts(s.w, s.threads[t], e, p) && |e.started| <= 1
    ensures Owners(Take(s, t, e), p) == Owners(s, p)
  {
    hide InWorld, Occurs;
    HoldersUpdate(s.threads, t, e.th, FreePort(p));
    var updated := s.threads[t := e.th];
    if |e.started| == 1 {
      HoldersAppend(updated, e.started[0], FreePort(p));
      HoldersAppend([], e.started[0], FreePort(p));
      assert e.started == [e.started[0]] && [] + [e.started[0]] == e.started;
    } else {
      assert updated + e.started == updated;
    }
  }

  lemma StepKeepsPorts(s: State, op: Op, p: int)
    requires ThreadsOk(s)
    ensures Owners(Step(s, op), p) == Owners(s, p)
  {
    hide Advanced, Rolled, Environment, Take, InWorld, ThreadOk;
    if op.Answer? {
      HoldersAppend(s.threads, Thread(op.call, CreateTCore, false, []), FreePort(p));
    } else if op.Close? {
      HoldersAppend(s.threads, Thread("", Closer, true, CloseAll(op.ids)), FreePort(p));
      OccursNot(CloseAll(op.ids), FreePort(p));
    } else if op.Advance? {
      if op.t < |s.threads| {
        AdvancedOk(s.w, s.threads[op.t], op.ok);
        AdvancedKeepsPorts(s.w, s.threads[op.t], op.ok, p);
        TakeKeepsPorts(s, op.t, Advanced(s.w, s.threads[op.t], op.ok), p);
      }
    } else if op.Roll? {
      if op.t < |s.threads| {
        RolledOk(s.w, s.threads[op.t]);
        RolledKeepsPorts(s.w, s.threads[op.t], p);
        TakeKeepsPorts(s, op.t, Rolled(s.w, s.threads[op.t]), p);
      }
    } else {
      EnvironmentKeepsPorts(s.w, op, p);
    }
  }

  /** Main result: in every interleaving every port of the range is, exactly once, in the free
      list, in one goroutine's hands or with one live listener, and no other port is anywhere. */
  lemma {:induction false} PortsHaveOneOwner(c: Config, hs: History, p: int)
    ensures Owners(Run(c, hs), p) == One(c.lo <= p <= c.hi)
  {
    match hs
    case Begin => RangeHoldsEachPortOnce(c.lo, c.hi, p);
    case Then(past, op) =>
      hide Step, Owners, ThreadsOk;
      PortsHaveOneOwner(c, past, p);
      RunKeepsThreadsOk(c, past);
      StepKeepsPorts(Run(c, past), op, p);
  }

  lemma {:induction false} OpenSockCounts(socks: seq<Sock>, i: nat)
    requires i < |socks| && socks[i].open
    ensures Listening(socks, socks[i].port) >= 1
    decreases |socks|
  {
    if i < |socks| - 1 {
      OpenSockCounts(socks[..|socks| - 1], i);
    }
  }

  lemma {:induction false} TwoOpenSocksCount(socks: seq<Sock>, i: nat, j: nat)
    requires i < j < |socks| && socks[i].open && socks[j].open && socks[i].port == socks[j].port
    ensures Listening(socks, socks[i].port) >= 2
    decreases |socks|
  {
    var n := |socks| - 1;
    if j < n {
      TwoOpenSocksCount(socks[..n], i, j);
    } else {
      OpenSockCounts(socks[..n], i);
    }
  }

  /** No port is handed out twice: two live listeners never share one, and a port with a
      listener is neither free nor in anyone's hands. */
  lemma NoPortTwice(c: Config, hs: History, i: nat, j: nat)
    requires var k := Run(c, hs).w.socks; i < |k| && j < |k| && i != j && k[i].open && k[j].open
    ensures var k := Run(c, hs).w.socks;
            k[i].port != k[j].port && Count(Run(c, hs).w.free, k[i].port) == 0
              && Holders(Run(c, hs).threads, FreePort(k[i].port)) == 0
  {
    var k := Run(c, hs).w.socks;
    PortsHaveOneOwner(c, hs, k[i].port);
    OpenSockCounts(k, i);
    if k[i].port == k[j].port {
      TwoOpenSocksCount(k, if i < j then i else j, if i < j then j else i);
    }
  }
}
