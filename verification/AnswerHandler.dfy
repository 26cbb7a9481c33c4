/** The ANSWER handler as one call after another executes it: two sessions, two ports, two
    pipelines, with its failing exits. A session's close here includes the run of the
    goroutines that it cancels. */
module AnswerHandler {
  import opened Basics
  import opened PortAllocator
  import CallSetup

  datatype CreateError = NoError | MaxSessions | DuplicateID

  /** The HTTP answers; Acknowledged is the 200 for a service without a session. */
  datatype Status = Acknowledged | AtCapacity | Conflict | Unavailable | ListenFailed | PipelineFailed | Answered

  /** What the environment decides: binds, codecs and dials of the two sides. */
  datatype Environment = Environment(bind1: bool, bind2: bool, codec1: bool, dial1: bool, codec2: bool, dial2: bool)

  /** The IDs of the call are free, and there is room for two sessions, ports and streams. */
  predicate RoomFor(call: string, maxSessions: int, sessions: set<string>, maxStreams: int, streams: set<string>,
                    pool: set<string>, usePorts: bool, free: nat)
  {
    && |sessions| + 1 < maxSessions && |streams| + 1 < maxStreams && (usePorts ==> free >= 2)
    && {CallSetup.TCore(call), CallSetup.TAccess(call)} !! sessions + streams + pool
  }

  /** Every bind, codec and dial that the handler asks for succeeds. */
  predicate AllGoesWell(env: Environment, usePorts: bool) {
    (usePorts ==> env.bind1 && env.bind2) && env.codec1 && env.dial1 && env.codec2 && env.dial2
  }

  /** The port of the session's listener, if it has one. */
  function Held(listeners: map<string, int>, id: string): multiset<int> {
    if id in listeners then multiset{listeners[id]} else multiset{}
  }

  /** Two ports taken off the free list and put back in the other order. */
  lemma TakenAndReturned(was: seq<int>, now: seq<int>, p1: int, p2: int)
    requires was == now + [p2, p1]
    ensures multiset(was) == multiset(now) + multiset{p1} + multiset{p2}
    ensures multiset(now + [p1] + [p2]) == multiset(was)
  {
    assert multiset([p2, p1]) == multiset{p1} + multiset{p2};
    assert now + [p1] + [p2] == now + [p1, p2];
  }

  lemma AddAndTake(s: set<string>, t: string, a: string)
    ensures s + {t} - {t, a} == s - {t, a} && s + {t} + {a} == s + {t, a}
  {
  }

  /** Closing both sides undoes what was registered for the first. */
  lemma UndoesFirst(s: set<string>, t: string, a: string)
    requires t !in s && a !in s
    ensures s + {t} - {t, a} == s && s - {t, a} == s && s + {t} + {a} == s + {t, a}
  {
  }

  /** Closing both sides undoes what was registered for both. */
  lemma GivesBack(s: set<string>, t: string, a: string)
    requires t !in s && a !in s
    ensures s + {t, a} - {t, a} == s && s - {t, a} == s
  {
  }

  lemma UndoesFirstListener(m: map<string, int>, t: string, a: string, p: int)
    requires t !in m && a !in m && t != a
    ensures m[t := p] - {t, a} == m && m - {t, a} == m
    ensures Held(m[t := p], t) == multiset{p} && Held(m[t := p], a) == multiset{}
    ensures Held(m, t) == multiset{} && Held(m, a) == multiset{}
  {
  }

  lemma NothingListens(m: map<string, int>, t: string, a: string)
    requires t !in m && a !in m
    ensures m - {t, a} == m && Held(m, t) == multiset{} && Held(m, a) == multiset{}
  {
  }

  lemma GivesBackListeners(was: map<string, int>, now: map<string, int>, t: string, a: string)
    requires t !in was && a !in was && t != a
    requires now == was || (t in now && a in now && now == was[t := now[t]][a := now[a]])
    ensures now - {t, a} == was
    ensures Held(now, t) == (if t in now then multiset{now[t]} else multiset{})
    ensures Held(now, a) == (if a in now then multiset{now[a]} else multiset{})
  {
  }

  /** Taking out both sides is the inverse of adding them, to each registry. */
  lemma AddedGoBack(pool: set<string>, sinks: set<string>, streams: set<string>, jitter: set<string>, t: string,
                    a: string)
    requires {t, a} !! pool + sinks + streams + jitter
    ensures pool + {t, a} - {t, a} == pool && sinks + {t, a} - {t, a} == sinks && sinks - {t, a} == sinks
    ensures streams + {t, a} - {t, a} == streams && jitter + {t, a} - {t, a} == jitter
  {
  }

  /** ... and to the listeners, whose ports go back to the free list. */
  lemma AddedListenersGoBack(was: map<string, int>, now: map<string, int>, wasFree: seq<int>, free: seq<int>,
                             usePorts: bool, t: string, a: string)
    requires t !in was && a !in was && t != a
    requires if usePorts then t in now && a in now && now == was[t := now[t]][a := now[a]]
             && wasFree == free + [now[a], now[t]]
             else now == was && wasFree == free
    ensures now - {t, a} == was
    ensures multiset(free) + Held(now, t) + Held(now, a) == multiset(wasFree)
  {
    GivesBackListeners(was, now, t, a);
    if usePorts {
      TakenAndReturned(wasFree, free, now[t], now[a]);
    }
  }

  class Gateway {
    const maxSessions: int
    const maxStreams: int
    const usePorts: bool
    const callbacks: bool
    const ports: Allocator
    var sessions: set<string>
    var pool: set<string>
    var sinks: set<string>
    var streams: set<string>
    var jitter: set<string>
    var listeners: map<string, int>

    /** Nothing is registered for a session that is not live. */
    ghost predicate Settled()
      reads this
    {
      pool <= sessions && sinks <= sessions && streams <= sessions && jitter <= sessions && listeners.Keys <= sessions
    }

    /** The session is not registered anywhere. */
    ghost predicate Unregistered(id: string)
      reads this
    {
      id !in pool && id !in sinks && id !in streams && id !in jitter
    }

    /** The IDs of the call are free, and there is room for two sessions, ports and streams. */
    predicate HasRoom(call: string)
      reads this, ports
    {
      RoomFor(call, maxSessions, sessions, maxStreams, streams, pool, usePorts, |ports.free|)
    }

    /** There is room for both sessions of the call, and neither of them exists. */
    predicate BothCreatable(call: string)
      reads this`sessions
    {
      |sessions| + 1 < maxSessions && {CallSetup.TCore(call), CallSetup.TAccess(call)} !! sessions
    }

    /** The session limit is not in the way of the first of the two sessions that exists. */
    predicate Conflicts(call: string)
      reads this`sessions
    {
      || (CallSetup.TCore(call) in sessions && |sessions| < maxSessions)
      || (CallSetup.TCore(call) !in sessions && CallSetup.TAccess(call) in sessions && |sessions| + 1 < maxSessions)
    }

    /** The session limit is reached before an existing session is found. */
    predicate NoSessionFree(call: string)
      reads this`sessions
    {
      |sessions| >= maxSessions || (CallSetup.TCore(call) !in sessions && |sessions| + 1 >= maxSessions)
    }

    constructor (maxSessions: int, maxStreams: int, usePorts: bool, callbacks: bool, ports: Allocator)
      ensures Settled() && sessions == {} && this.ports == ports && this.usePorts == usePorts
    {
      this.maxSessions, this.maxStreams, this.usePorts, this.callbacks := maxSessions, maxStreams, usePorts, callbacks;
      this.ports := ports;
      sessions, pool, sinks, streams, jitter, listeners := {}, {}, {}, {}, {}, map[];
    }

    method CreateSession(id: string) returns (err: CreateError)
      modifies this`sessions
      ensures err == if |old(sessions)| >= maxSessions then MaxSessions
                     else if id in old(sessions) then DuplicateID else NoError
      ensures sessions == if err.NoError? then old(sessions) + {id} else old(sessions)
    {
      if |sessions| >= maxSessions {
        return MaxSessions;
      }
      if id in sessions {
        return DuplicateID;
      }
      sessions := sessions + {id};
      err := NoError;
    }

    /** Close, followed by the listener, the cleanup goroutine and the AI stream of the session. */
    method CloseSession(id: string)
      modifies this, ports
      ensures sessions == old(sessions) - {id} && pool == old(pool) - {id} && sinks == old(sinks) - {id}
      ensures streams == old(streams) - {id} && jitter == old(jitter) - {id} && listeners == old(listeners) - {id}
      ensures multiset(ports.free) == multiset(old(ports.free)) + Held(old(listeners), id)
    {
      sessions := sessions - {id};
      if id in listeners {
        ports.Release(listeners[id]);
      }
      listeners := listeners - {id};
      pool, sinks, streams, jitter := pool - {id}, sinks - {id}, streams - {id}, jitter - {id};
    }

    /** On a failed bind nothing has happened and the caller keeps the port. */
    method StartListener(id: string, port: int, bind: bool) returns (ok: bool)
      modifies this`listeners
      ensures ok == bind && listeners == if bind then old(listeners)[id := port] else old(listeners)
    {
      if !bind {
        return false;
      }
      listeners := listeners[id := port];
      return true;
    }

    /** Coordinator.Start: sink, pipeline, AI stream, pumps. A failure undoes what it did, but
        drops every sink of the session. A pipeline or stream that is still there for the ID is a
        failure, and stays. */
    method Start(id: string, codec: bool, dial: bool) returns (ok: bool)
      modifies this`pool, this`sinks, this`streams, this`jitter
      ensures ok <==> codec && id !in old(pool) && |old(streams)| < maxStreams && id !in old(streams) && dial
      ensures !ok ==>
                && pool == old(pool) && sinks == old(sinks) - {id}
                && streams == old(streams) && jitter == old(jitter)
      ensures ok ==> pool == old(pool) + {id} && streams == old(streams) + {id} && jitter == old(jitter) + {id}
                     && sinks == if callbacks then old(sinks) + {id} else old(sinks)
    {
      if callbacks {
        sinks := sinks + {id};
      }
      if !codec || id in pool {
        sinks := sinks - {id};
        return false;
      }
      pool := pool + {id};
      if |streams| >= maxStreams || id in streams || !dial {
        pool := pool - {id};
        sinks := sinks - {id};
        return false;
      }
      streams := streams + {id};
      jitter := jitter + {id};
      return true;
    }

    /** The two closes that end every later failing exit. */
    method CloseCall(tcoreID: string, taccessID: string)
      requires tcoreID != taccessID
      modifies this, ports
      ensures var both := {tcoreID, taccessID};
              && sessions == old(sessions) - both && pool == old(pool) - both && sinks == old(sinks) - both
              && streams == old(streams) - both && jitter == old(jitter) - both && listeners == old(listeners) - both
      ensures multiset(ports.free)
              == multiset(old(ports.free)) + Held(old(listeners), tcoreID) + Held(old(listeners), taccessID)
    {
      CloseSession(tcoreID);
      CloseSession(taccessID);
    }

    /** Nothing but the free list's order differs from the state at entry. */
    twostate predicate Restored()
      reads this, ports
    {
      && sessions == old(sessions) && pool == old(pool) && sinks == old(sinks) && streams == old(streams)
      && jitter == old(jitter) && listeners == old(listeners) && multiset(ports.free) == multiset(old(ports.free))
    }

    /** The state at entry plus both sides of the call; the two ports came off the free list. */
    twostate predicate Added(tcoreID: string, taccessID: string)
      reads this, ports
    {
      var both := {tcoreID, taccessID};
      && both !! old(sessions + pool + sinks + streams + jitter + listeners.Keys)
      && sessions == old(sessions) + both
      && pool == old(pool) + both && streams == old(streams) + both && jitter == old(jitter) + both
      && sinks == (if callbacks then old(sinks) + both else old(sinks))
      && TookPorts(tcoreID, taccessID)
    }

    twostate predicate TookPorts(tcoreID: string, taccessID: string)
      reads this, ports
    {
      if usePorts then
        && tcoreID in listeners && taccessID in listeners
        && listeners == old(listeners)[tcoreID := listeners[tcoreID]][taccessID := listeners[taccessID]]
        && old(ports.free) == ports.free + [listeners[taccessID], listeners[tcoreID]]
      else
        listeners == old(listeners) && ports.free == old(ports.free)
    }

    /** Both sessions, or an error and neither. */
    method CreateBoth(tcoreID: string, taccessID: string) returns (status: Status)
      requires tcoreID != taccessID && Settled()
      modifies this, ports
      ensures pool == old(pool) && sinks == old(sinks) && streams == old(streams) && jitter == old(jitter)
      ensures listeners == old(listeners) && multiset(ports.free) == multiset(old(ports.free))
      ensures status.Answered? ==> ports.free == old(ports.free) && {tcoreID, taccessID} !! old(sessions)
      ensures sessions == if status.Answered? then old(sessions) + {tcoreID, taccessID} else old(sessions)
      ensures status == if |old(sessions)| >= maxSessions then Unavailable
                        else if tcoreID in old(sessions) then Conflict
                        else if |old(sessions)| + 1 >= maxSessions then Unavailable
                        else if taccessID in old(sessions) then Conflict
                        else Answered
    {
      var err := CreateSession(tcoreID);
      if !err.NoError? {
        return if err.DuplicateID? then Conflict else Unavailable;
      }
      err := CreateSession(taccessID);
      if !err.NoError? {
        CloseSession(tcoreID);
        return if err.DuplicateID? then Conflict else Unavailable;
      }
      return Answered;
    }

    /** Two ports, each handed to a listener, or everything closed again. */
    method SetUpPorts(tcoreID: string, taccessID: string, bind1: bool, bind2: bool) returns (status: Status)
      requires usePorts && tcoreID != taccessID
      requires Unregistered(tcoreID) && Unregistered(taccessID) && tcoreID !in listeners && taccessID !in listeners
      modifies this, ports
      ensures status == if |old(ports.free)| < 2 then Unavailable else if bind1 && bind2 then Answered else ListenFailed
      ensures pool == old(pool) && sinks == old(sinks) && streams == old(streams) && jitter == old(jitter)
      ensures status.Answered? ==> sessions == old(sessions) && TookPorts(tcoreID, taccessID)
      ensures !status.Answered? ==>
                && sessions == old(sessions) - {tcoreID, taccessID} && listeners == old(listeners)
                && multiset(ports.free) == multiset(old(ports.free))
    {
      hide Held;
      NothingTaken(tcoreID, taccessID);
      NothingListens(listeners, tcoreID, taccessID);
      var acquired := AcquireTwo();
      if acquired.None? {
        CloseCall(tcoreID, taccessID);
        return Unavailable;
      }
      var (p1, p2) := acquired.value;
      TakenAndReturned(old(ports.free), ports.free, p1, p2);
      status := Listen(tcoreID, taccessID, p1, p2, bind1, bind2);
    }

    /** Two ports, or none. */
    method AcquireTwo() returns (acquired: Option<(int, int)>)
      modifies ports
      ensures acquired.None? <==> |old(ports.free)| < 2
      ensures acquired.None? ==> ports.free == old(ports.free)
      ensures acquired.Some? ==> old(ports.free) == ports.free + [acquired.value.1, acquired.value.0]
    {
      var p1 := ports.Acquire();
      if p1.None? {
        return None;
      }
      var p2 := ports.Acquire();
      if p2.None? {
        ports.Release(p1.value);
        return None;
      }
      return Some((p1.value, p2.value));
    }

    /** Hands the two acquired ports over; a failed bind returns both to the free list. */
    method Listen(tcoreID: string, taccessID: string, p1: int, p2: int, bind1: bool, bind2: bool)
      returns (status: Status)
      requires tcoreID != taccessID
      requires Unregistered(tcoreID) && Unregistered(taccessID) && tcoreID !in listeners && taccessID !in listeners
      modifies this, ports
      ensures status == if bind1 && bind2 then Answered else ListenFailed
      ensures pool == old(pool) && sinks == old(sinks) && streams == old(streams) && jitter == old(jitter)
      ensures status.Answered? ==>
                && sessions == old(sessions) && listeners == old(listeners)[tcoreID := p1][taccessID := p2]
                && ports.free == old(ports.free)
      ensures !status.Answered? ==>
                && sessions == old(sessions) - {tcoreID, taccessID} && listeners == old(listeners)
                && multiset(ports.free) == multiset(old(ports.free)) + multiset{p1} + multiset{p2}
    {
      hide Held;
      UndoesFirst(pool, tcoreID, taccessID);
      UndoesFirst(sinks, tcoreID, taccessID);
      UndoesFirst(streams, tcoreID, taccessID);
      UndoesFirst(jitter, tcoreID, taccessID);
      UndoesFirstListener(listeners, tcoreID, taccessID, p1);
      var ok := StartListener(tcoreID, p1, bind1);
      if !ok {
        ports.Release(p1);
        ports.Release(p2);
        CloseCall(tcoreID, taccessID);
        return ListenFailed;
      }
      ok := StartListener(taccessID, p2, bind2);
      if !ok {
        ports.Release(p2);
        CloseCall(tcoreID, taccessID);
        return ListenFailed;
      }
      return Answered;
    }

    /** One side's pipeline; when it fails both sides are closed. */
    method StartOrClose(id: string, tcoreID: string, taccessID: string, codec: bool, dial: bool) returns (ok: bool)
      requires tcoreID != taccessID && (id == tcoreID || id == taccessID)
      modifies this, ports
      ensures ok <==> codec && id !in old(pool) && |old(streams)| < maxStreams && id !in old(streams) && dial
      ensures ok ==> sessions == old(sessions) && listeners == old(listeners) && ports.free == old(ports.free)
      ensures ok ==> pool == old(pool) + {id} && streams == old(streams) + {id} && jitter == old(jitter) + {id}
                     && sinks == (if callbacks then old(sinks) + {id} else old(sinks))
      ensures !ok ==> var both := {tcoreID, taccessID};
                     && sessions == old(sessions) - both && listeners == old(listeners) - both
                     && pool == old(pool) - both && streams == old(streams) - both
                     && jitter == old(jitter) - both && sinks == old(sinks) - both
      ensures !ok ==> multiset(ports.free) ==
                      multiset(old(ports.free)) + Held(old(listeners), tcoreID) + Held(old(listeners), taccessID)
    {
      hide Held;
      ok := Start(id, codec, dial);
      if !ok {
        CloseCall(tcoreID, taccessID);
      }
    }

    /** Both pipelines, or everything closed again. */
    method StartBoth(tcoreID: string, taccessID: string, env: Environment) returns (status: Status)
      requires tcoreID != taccessID
      modifies this, ports
      ensures status == if env.codec1 && env.dial1 && env.codec2 && env.dial2 && |old(streams)| + 1 < maxStreams
                           && {tcoreID, taccessID} !! old(pool) && {tcoreID, taccessID} !! old(streams)
                        then Answered else PipelineFailed
      ensures status.Answered? ==> var both := {tcoreID, taccessID};
                && sessions == old(sessions) && listeners == old(listeners) && ports.free == old(ports.free)
                && pool == old(pool) + both && streams == old(streams) + both && jitter == old(jitter) + both
                && sinks == (if callbacks then old(sinks) + both else old(sinks))
      ensures !status.Answered? ==> var both := {tcoreID, taccessID};
                && sessions == old(sessions) - both && listeners == old(listeners) - both
                && pool == old(pool) - both && streams == old(streams) - both
                && jitter == old(jitter) - both && sinks == old(sinks) - both
                && multiset(ports.free) == multiset(old(ports.free)) + Held(old(listeners), tcoreID)
                   + Held(old(listeners), taccessID)
    {
      hide Held;
      AddAndTake(pool, tcoreID, taccessID);
      AddAndTake(sinks, tcoreID, taccessID);
      AddAndTake(streams, tcoreID, taccessID);
      AddAndTake(jitter, tcoreID, taccessID);
      var ok := StartOrClose(tcoreID, tcoreID, taccessID, env.codec1, env.dial1);
      if ok {
        assert |streams| == |old(streams)| + 1;
        ok := StartOrClose(taccessID, tcoreID, taccessID, env.codec2, env.dial2);
      }
      return if ok then Answered else PipelineFailed;
    }

    /** Main result, all or nothing: every failing exit leaves sessions, pipelines, sinks, AI
        streams, jitter buffers, listeners and free ports as they were, in particular a session
        whose ID caused the conflict; success adds both sides of the call and takes two ports. */
    method HandleAnswer(call: string, supported: bool, admitted: bool, env: Environment) returns (status: Status)
      requires Settled()
      modifies this, ports
      ensures Settled()
      ensures status.Answered? ==> Added(CallSetup.TCore(call), CallSetup.TAccess(call))
      ensures !status.Answered? ==> Restored()
      ensures status.Answered? <==>
                supported && admitted && old(HasRoom(call)) && AllGoesWell(env, usePorts)
      ensures status.Acknowledged? <==> !supported
      ensures status.AtCapacity? <==> supported && !admitted
      ensures status.Conflict? <==> supported && admitted && old(Conflicts(call))
      ensures status.Unavailable? <==>
                supported && admitted
                && old(NoSessionFree(call) || (BothCreatable(call) && usePorts && |ports.free| < 2))
      ensures status.ListenFailed? <==>
                supported && admitted && usePorts && old(BothCreatable(call) && |ports.free| >= 2)
                && !(env.bind1 && env.bind2)
      ensures status.PipelineFailed? <==>
                supported && admitted && old(BothCreatable(call))
                && (usePorts ==> |old(ports.free)| >= 2 && env.bind1 && env.bind2)
                && !(env.codec1 && env.dial1 && env.codec2 && env.dial2 && |old(streams)| + 1 < maxStreams)
    {
      if !supported {
        return Acknowledged;
      }
      if !admitted {
        return AtCapacity;
      }
      var tcoreID, taccessID := CallSetup.TCore(call), CallSetup.TAccess(call);
      CallSetup.SidesDiffer(call);
      status := CreateBoth(tcoreID, taccessID);
      if !status.Answered? {
        return;
      }
      GivesBack(old(sessions), tcoreID, taccessID);
      status := ServeBoth(tcoreID, taccessID, env);
    }

    /** Ports and pipelines of two new sessions, or everything closed again. */
    method ServeBoth(tcoreID: string, taccessID: string, env: Environment) returns (status: Status)
      requires tcoreID != taccessID
      requires Unregistered(tcoreID) && Unregistered(taccessID) && tcoreID !in listeners && taccessID !in listeners
      modifies this, ports
      ensures status.Answered? <==>
                (usePorts ==> |old(ports.free)| >= 2) && |old(streams)| + 1 < maxStreams && AllGoesWell(env, usePorts)
      ensures status.Unavailable? <==> usePorts && |old(ports.free)| < 2
      ensures status.ListenFailed? <==> usePorts && |old(ports.free)| >= 2 && !(env.bind1 && env.bind2)
      ensures status.PipelineFailed? <==>
                && (usePorts ==> |old(ports.free)| >= 2 && env.bind1 && env.bind2)
                && !(env.codec1 && env.dial1 && env.codec2 && env.dial2 && |old(streams)| + 1 < maxStreams)
      ensures status.Answered? ==>
                var both := {tcoreID, taccessID};
                && sessions == old(sessions) && TookPorts(tcoreID, taccessID)
                && pool == old(pool) + both && streams == old(streams) + both && jitter == old(jitter) + both
                && sinks == (if callbacks then old(sinks) + both else old(sinks))
      ensures !status.Answered? ==>
                && sessions == old(sessions) - {tcoreID, taccessID} && listeners == old(listeners)
                && pool == old(pool) && sinks == old(sinks) && streams == old(streams) && jitter == old(jitter)
                && multiset(ports.free) == multiset(old(ports.free))
    {
      if usePorts {
        status := SetUpPorts(tcoreID, taccessID, env.bind1, env.bind2);
        if !status.Answered? {
          return;
        }
        TakenAndReturned(old(ports.free), ports.free, listeners[tcoreID], listeners[taccessID]);
      }
      GivesBackListeners(old(listeners), listeners, tcoreID, taccessID);
      NothingTaken(tcoreID, taccessID);
      status := StartBoth(tcoreID, taccessID, env);
    }

    /** Closing both sides takes nothing from registries that hold neither. */
    lemma NothingTaken(tcoreID: string, taccessID: string)
      requires Unregistered(tcoreID) && Unregistered(taccessID)
      ensures var both := {tcoreID, taccessID};
              pool - both == pool && sinks - both == sinks && streams - both == streams && jitter - both == jitter
    {
    }

    /** DELETE on a call: closes both sides; not found exactly when neither is live. */
    method DeleteCallSession(call: string) returns (found: bool)
      requires Settled()
      modifies this, ports
      ensures Settled()
      ensures found <==> CallSetup.TCore(call) in old(sessions) || CallSetup.TAccess(call) in old(sessions)
      ensures var both := {CallSetup.TCore(call), CallSetup.TAccess(call)};
              && sessions == old(sessions) - both && pool == old(pool) - both && sinks == old(sinks) - both
              && streams == old(streams) - both && jitter == old(jitter) - both && listeners == old(listeners) - both
      ensures multiset(ports.free) == multiset(old(ports.free)) + Held(old(listeners), CallSetup.TCore(call))
                                      + Held(old(listeners), CallSetup.TAccess(call))
    {
      var tcoreID, taccessID := CallSetup.TCore(call), CallSetup.TAccess(call);
      CallSetup.SidesDiffer(call);
      found := tcoreID in sessions || taccessID in sessions;
      CloseCall(tcoreID, taccessID);
    }

    /** Answering a call and deleting it again restores everything, and the delete finds it. */
    method AnswerThenDelete(call: string, env: Environment) returns (status: Status, found: bool)
      requires Settled()
      modifies this, ports
      ensures Restored()
      ensures status.Answered? ==> found
    {
      hide Held;
      found := false;
      status := HandleAnswer(call, true, true, env);
      if status.Answered? {
        var tcoreID, taccessID := CallSetup.TCore(call), CallSetup.TAccess(call);
        CallSetup.SidesDiffer(call);
        AddedListenersGoBack(old(listeners), listeners, old(ports.free), ports.free, usePorts, tcoreID, taccessID);
        AddedGoBack(old(pool), old(sinks), old(streams), old(jitter), tcoreID, taccessID);
        GivesBack(old(sessions), tcoreID, taccessID);
        found := DeleteCallSession(call);
      }
    }
  }
}
