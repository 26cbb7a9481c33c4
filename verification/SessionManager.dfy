/** Sessions and the manager that creates, indexes, updates, closes and collects them. Each
    method is one lock-protected section; Close is two of them. */
module SessionManager {
  import opened Basics
  import opened SessionTable

  datatype Status = CREATED | ACTIVE | IDLE | CLOSING | CLOSED

  datatype Error = MaxSessions | DuplicateID | NotFound

  datatype SessionConfig = SessionConfig(id: string, keys: Keys, callbackURL: string)

  /** Empty strings and None leave a field as it is. */
  datatype SessionPatch = SessionPatch(remoteAddr: string, callbackURL: string, mediaResources: Option<int>)

  function Touched(s: Status): Status {
    if s == CREATED || s == IDLE then ACTIVE else s
  }

  class Session {
    const id: string
    const ssrc: nat
    const peerID: string
    const trackID: string
    var remoteAddr: string
    var callbackURL: string
    var mediaResources: Option<int>
    var status: Status
    var lastPacketAt: int
    var cancelled: bool

    constructor (cfg: SessionConfig, now: int)
      ensures id == cfg.id && TheKeys() == cfg.keys && callbackURL == cfg.callbackURL && mediaResources == None
      ensures status == CREATED && lastPacketAt == now && !cancelled
    {
      id, ssrc, peerID, trackID := cfg.id, cfg.keys.ssrc, cfg.keys.peer, cfg.keys.track;
      remoteAddr, callbackURL, mediaResources := cfg.keys.addr, cfg.callbackURL, None;
      status, lastPacketAt, cancelled := CREATED, now, false;
    }

    function TheKeys(): Keys
      reads this`remoteAddr
    {
      Keys(ssrc, remoteAddr, peerID, trackID)
    }

    predicate Open()
      reads this`status, this`cancelled
    {
      !cancelled && status != CLOSING && status != CLOSED
    }

    predicate Idle(now: int, idleTimeout: int)
      reads this`status, this`lastPacketAt
    {
      status != CLOSED && status != CLOSING && now - lastPacketAt > idleTimeout
    }

    method Touch(now: int)
      modifies this`status, this`lastPacketAt
      ensures lastPacketAt == now && status == Touched(old(status))
      ensures old(status) == CREATED || old(status) == IDLE ==> status == ACTIVE
      ensures old(status) != CREATED && old(status) != IDLE ==> status == old(status)
    {
      lastPacketAt := now;
      if status == CREATED || status == IDLE {
        status := ACTIVE;
      }
    }
  }

  class Manager {
    const maxSessions: int
    var sessions: map<string, Session>
    var ssrcIndex: map<nat, string>
    var addrIndex: map<string, string>
    var peerIndex: map<string, string>
    var trackIndex: map<string, string>
    var createdTotal: nat
    var closedTotal: nat

    /** The live sessions' keys and the indexes, as a value. */
    ghost var table: Table

    ghost predicate Mirrored()
      reads this`sessions, this`table, this`ssrcIndex, this`addrIndex, this`peerIndex, this`trackIndex
      reads sessions.Values`remoteAddr
    {
      && table.sessions.Keys == sessions.Keys
      && (forall id :: id in sessions ==> table.sessions[id] == sessions[id].TheKeys())
      && table.ssrc == ssrcIndex && table.addr == addrIndex && table.peer == peerIndex && table.track == trackIndex
    }

    /** Sessions are mapped under their own IDs and none of them is closing. */
    ghost predicate Healthy()
      reads this`sessions, sessions.Values`status, sessions.Values`cancelled
    {
      forall id :: id in sessions ==> sessions[id].id == id && sessions[id].Open()
    }

    ghost predicate Valid()
      reads this, sessions.Values`remoteAddr, sessions.Values`status, sessions.Values`cancelled
    {
      && Healthy()
      && (maxSessions >= 0 ==> |sessions| <= maxSessions)
      && Mirrored()
      && AllSound(table)
    }

    constructor (maxSessions: int)
      ensures Valid() && table == EMPTY && this.maxSessions == maxSessions && createdTotal == 0 && closedTotal == 0
    {
      this.maxSessions := maxSessions;
      sessions, ssrcIndex, addrIndex, peerIndex, trackIndex := map[], map[], map[], map[], map[];
      createdTotal, closedTotal := 0, 0;
      table := EMPTY;
    }

    /** Create's part on the indexes. */
    method EnterKeys(ks: Keys, id: string)
      modifies this`ssrcIndex, this`addrIndex, this`peerIndex, this`trackIndex
      ensures ssrcIndex == Entered(old(ssrcIndex), ks.ssrc, 0, id)
              && addrIndex == Entered(old(addrIndex), ks.addr, "", id)
      ensures peerIndex == Entered(old(peerIndex), ks.peer, "", id)
              && trackIndex == Entered(old(trackIndex), ks.track, "", id)
    {
      if ks.ssrc != 0 {
        ssrcIndex := ssrcIndex[ks.ssrc := id];
      }
      if ks.addr != "" {
        addrIndex := addrIndex[ks.addr := id];
      }
      if ks.peer != "" {
        peerIndex := peerIndex[ks.peer := id];
      }
      if ks.track != "" {
        trackIndex := trackIndex[ks.track := id];
      }
    }

    /** Close's part on the indexes. */
    method EraseKeys(ks: Keys)
      modifies this`ssrcIndex, this`addrIndex, this`peerIndex, this`trackIndex
      ensures ssrcIndex == Erased(old(ssrcIndex), ks.ssrc, 0) && addrIndex == Erased(old(addrIndex), ks.addr, "")
      ensures peerIndex == Erased(old(peerIndex), ks.peer, "") && trackIndex == Erased(old(trackIndex), ks.track, "")
    {
      if ks.ssrc != 0 {
        ssrcIndex := ssrcIndex - {ks.ssrc};
      }
      if ks.addr != "" {
        addrIndex := addrIndex - {ks.addr};
      }
      if ks.peer != "" {
        peerIndex := peerIndex - {ks.peer};
      }
      if ks.track != "" {
        trackIndex := trackIndex - {ks.track};
      }
    }

    /** Update's part on the address and its index. */
    method MoveAddr(s: Session, addr: string)
      requires Valid() && s.id in sessions && sessions[s.id] == s
      modifies s`remoteAddr, this`addrIndex, this`table
      ensures Valid() && table == Readdressed(old(table), s.id, addr)
    {
      hide AllSound, Erased;
      if addr == "" || addr == s.remoteAddr {
        return;
      }
      assert OtherSessions(s);
      hide Healthy;
      ReaddressedSound(table, s.id, addr);
      SetAddr(s, addr);
    }

    /** Sets a new address; what remains to be known is that the indexes stay sound. */
    method SetAddr(s: Session, addr: string)
      requires Mirrored() && s.id in sessions && sessions[s.id] == s && OtherSessions(s)
      requires addr != "" && addr != s.remoteAddr
      modifies s`remoteAddr, this`addrIndex, this`table
      ensures Mirrored() && table == Readdressed(old(table), s.id, addr)
    {
      hide Erased;
      var was := s.remoteAddr;
      s.remoteAddr := addr;
      RekeyAddr(was, addr, s.id);
      table := Readdressed(table, s.id, addr);
      assert forall x :: x in sessions ==> table.sessions[x] == sessions[x].TheKeys();
    }

    /** No other session is mapped to the same object. */
    ghost predicate OtherSessions(s: Session)
      reads this`sessions
    {
      forall x :: x in sessions && x != s.id ==> sessions[x] != s
    }

    method RekeyAddr(was: string, addr: string, id: string)
      modifies this`addrIndex
      ensures addrIndex == Erased(old(addrIndex), was, "")[addr := id]
    {
      if was != "" {
        addrIndex := addrIndex - {was};
      }
      addrIndex := addrIndex[addr := id];
    }

    /** Create's second half: maps and indexes a new session. */
    method Register(s: Session, ks: Keys)
      requires Valid() && s.id !in sessions && |sessions| < maxSessions && s.Open() && s.TheKeys() == ks
      modifies this
      ensures Valid()
      ensures sessions == old(sessions)[s.id := s] && table == SessionTable.Created(old(table), s.id, ks)
      ensures createdTotal == old(createdTotal) + 1 && closedTotal == old(closedTotal)
    {
      hide AllSound, Mirrored, Healthy, SessionTable.Created;
      ghost var was := table;
      Enter(s, ks);
      CreatedSound(was, s.id, ks);
      createdTotal := createdTotal + 1;
    }

    /** Enters a session into the map and the indexes. */
    method Enter(s: Session, ks: Keys)
      requires Healthy() && Mirrored() && s.id !in sessions && |sessions| < maxSessions && s.Open() && s.TheKeys() == ks
      modifies this`sessions, this`table, this`ssrcIndex, this`addrIndex, this`peerIndex, this`trackIndex
      ensures Healthy() && Mirrored() && (maxSessions >= 0 ==> |sessions| <= maxSessions)
      ensures sessions == old(sessions)[s.id := s] && table == SessionTable.Created(old(table), s.id, ks)
      ensures s.id !in old(table).sessions
    {
      hide Healthy;
      ghost var was := table;
      AddToMap(s, ks);
      Index(was, s.id, ks);
    }

    /** Enters a mapped session into the indexes. */
    method Index(ghost was: Table, id: string, ks: Keys)
      requires was.ssrc == ssrcIndex && was.addr == addrIndex && was.peer == peerIndex && was.track == trackIndex
      modifies this`table, this`ssrcIndex, this`addrIndex, this`peerIndex, this`trackIndex
      ensures table == SessionTable.Created(was, id, ks)
      ensures table.ssrc == ssrcIndex && table.addr == addrIndex && table.peer == peerIndex && table.track == trackIndex
    {
      hide Entered;
      EnterKeys(ks, id);
      table := SessionTable.Created(was, id, ks);
    }

    method AddToMap(s: Session, ks: Keys)
      requires Healthy() && Mirrored() && s.id !in sessions && |sessions| < maxSessions && s.Open() && s.TheKeys() == ks
      modifies this`sessions, this`table
      ensures Healthy() && (maxSessions >= 0 ==> |sessions| <= maxSessions)
      ensures sessions == old(sessions)[s.id := s]
      ensures table == old(table).(sessions := old(table).sessions[s.id := ks])
      ensures table.sessions.Keys == sessions.Keys
              && forall id :: id in sessions ==> table.sessions[id] == sessions[id].TheKeys()
    {
      sessions := sessions[s.id := s];
      table := table.(sessions := table.sessions[s.id := ks]);
    }

    method Create(cfg: SessionConfig, now: int) returns (s: Session?, err: Option<Error>)
      requires Valid()
      modifies this
      ensures Valid()
      ensures err == if |old(sessions)| >= maxSessions then Some(MaxSessions)
                     else if cfg.id in old(sessions) then Some(DuplicateID) else None
      ensures err.Some? ==>
                && s == null && table == old(table) && createdTotal == old(createdTotal)
                && sessions == old(sessions)
      ensures err == None ==>
                && s != null && fresh(s) && sessions == old(sessions)[cfg.id := s]
                && table == SessionTable.Created(old(table), cfg.id, cfg.keys) && createdTotal == old(createdTotal) + 1
                && s.status == CREATED && !s.cancelled && s.lastPacketAt == now
                && s.id == cfg.id && s.callbackURL == cfg.callbackURL && s.mediaResources == None
                && s.TheKeys() == cfg.keys
      ensures closedTotal == old(closedTotal)
    {
      hide Mirrored, AllSound;
      if |sessions| >= maxSessions {
        return null, Some(MaxSessions);
      }
      if cfg.id in sessions {
        return null, Some(DuplicateID);
      }
      s := new Session(cfg, now);
      Register(s, cfg.keys);
      err := None;
    }

    /** A session with that ID that is neither closing nor cancelled; null exactly if none is live. */
    method Get(id: string) returns (s: Session?)
      requires Valid()
      ensures s == null <==> id !in sessions
      ensures s != null ==> s.id == id && s.Open() && s in sessions.Values && table.sessions[id] == s.TheKeys()
    {
      s := if id in sessions then sessions[id] else null;
    }

    /** A lookup by SSRC returns nothing, or the live session that holds it. */
    method GetBySSRC(ssrc: nat) returns (s: Session?)
      requires Valid()
      ensures (if s == null then None else Some(s.id)) == Find(ssrcIndex, table.sessions, ssrc)
      ensures s != null ==> s.id in sessions && sessions[s.id] == s && s.ssrc == ssrc && ssrc != 0
    {
      if ssrc !in ssrcIndex {
        return null;
      }
      var id := ssrcIndex[ssrc];
      s := if id in sessions then sessions[id] else null;
    }

    method GetByAddr(addr: string) returns (s: Session?)
      requires Valid()
      ensures (if s == null then None else Some(s.id)) == Find(addrIndex, table.sessions, addr)
      ensures s != null ==> s.id in sessions && sessions[s.id] == s && s.remoteAddr == addr && addr != ""
    {
      if addr !in addrIndex {
        return null;
      }
      var id := addrIndex[addr];
      s := if id in sessions then sessions[id] else null;
    }

    method GetByPeerID(peerID: string) returns (s: Session?)
      requires Valid()
      ensures (if s == null then None else Some(s.id)) == Find(peerIndex, table.sessions, peerID)
      ensures s != null ==> s.id in sessions && sessions[s.id] == s && s.peerID == peerID && peerID != ""
    {
      if peerID !in peerIndex {
        return null;
      }
      var id := peerIndex[peerID];
      s := if id in sessions then sessions[id] else null;
    }

    method GetByTrackID(trackID: string) returns (s: Session?)
      requires Valid()
      ensures (if s == null then None else Some(s.id)) == Find(trackIndex, table.sessions, trackID)
      ensures s != null ==> s.id in sessions && sessions[s.id] == s && s.trackID == trackID && trackID != ""
    {
      if trackID !in trackIndex {
        return null;
      }
      var id := trackIndex[trackID];
      s := if id in sessions then sessions[id] else null;
    }

    method Update(id: string, patch: SessionPatch) returns (s: Session?, err: Option<Error>)
      requires Valid()
      modifies sessions.Values`remoteAddr, sessions.Values`callbackURL, sessions.Values`mediaResources, this`addrIndex,
               this`table
      ensures Valid()
      ensures err == if id in sessions then None else Some(NotFound)
      ensures err.Some? ==> s == null && table == old(table)
      ensures err == None ==>
                && s == sessions[id] && table == Readdressed(old(table), id, patch.remoteAddr)
                && s.callbackURL == (if patch.callbackURL != "" then patch.callbackURL else old(s.callbackURL))
                && s.mediaResources == (if patch.mediaResources.Some? then patch.mediaResources
                                        else old(s.mediaResources))
      ensures forall x :: x in sessions && x != id ==>
                sessions[x].callbackURL == old(sessions[x].callbackURL)
                  && sessions[x].mediaResources == old(sessions[x].mediaResources)
    {
      hide AllSound, Mirrored, Readdressed;
      if id !in sessions {
        return null, Some(NotFound);
      }
      s := sessions[id];
      MoveAddr(s, patch.remoteAddr);
      if patch.callbackURL != "" {
        s.callbackURL := patch.callbackURL;
      }
      if patch.mediaResources.Some? {
        s.mediaResources := patch.mediaResources;
      }
      err := None;
    }

    /** Close, under the lock: mark the session CLOSING and remove it everywhere. */
    method Unmap(id: string) returns (s: Session?)
      requires Valid()
      modifies this`sessions, this`table, this`ssrcIndex, this`addrIndex, this`peerIndex, this`trackIndex,
               sessions.Values`status
      ensures Valid()
      ensures s == if id in old(sessions) then old(sessions)[id] else null
      ensures s == null ==> sessions == old(sessions) && table == old(table)
      ensures s != null ==> sessions == old(sessions) - {id} && table == Removed(old(table), id)
      ensures s != null ==> s.status == CLOSING && s !in sessions.Values
      ensures forall o :: o in old(sessions).Values && o != s ==> o.status == old(o.status)
    {
      hide AllSound, Healthy, Mirrored, Removed;
      if id !in sessions {
        return null;
      }
      ghost var was := table;
      s := TakeOut(id);
      RemovedSound(was, id);
    }

    /** Takes a session out of the map and the indexes. */
    method TakeOut(id: string) returns (s: Session)
      requires Healthy() && Mirrored() && id in sessions
      modifies this`sessions, this`table, this`ssrcIndex, this`addrIndex, this`peerIndex, this`trackIndex
      modifies sessions.Values`status
      ensures Healthy() && Mirrored() && id in old(table).sessions
      ensures s == old(sessions)[id] && s.status == CLOSING && s !in sessions.Values
      ensures sessions == old(sessions) - {id} && table == Removed(old(table), id)
      ensures forall x :: x in sessions ==> sessions[x].status == old(sessions[x].status)
    {
      hide Erased;
      s := sessions[id];
      s.status := CLOSING;
      sessions := sessions - {id};
      Unindex(id, Keys(s.ssrc, s.remoteAddr, s.peerID, s.trackID));
    }

    /** Takes a session's keys out of the indexes. */
    method Unindex(id: string, ks: Keys)
      requires id in table.sessions && table.sessions[id] == ks
      requires table.ssrc == ssrcIndex && table.addr == addrIndex && table.peer == peerIndex
               && table.track == trackIndex
      modifies this`table, this`ssrcIndex, this`addrIndex, this`peerIndex, this`trackIndex
      ensures table == Removed(old(table), id)
      ensures table.ssrc == ssrcIndex && table.addr == addrIndex && table.peer == peerIndex && table.track == trackIndex
    {
      hide Erased;
      EraseKeys(ks);
      table := Removed(table, id);
    }

    /** Close, after the lock is released. */
    method FinishClose(s: Session)
      requires Valid() && s !in sessions.Values && s.status == CLOSING
      modifies s`cancelled, s`status, this`closedTotal
      ensures Valid() && table == old(table)
      ensures s.cancelled && s.status == CLOSED && closedTotal == old(closedTotal) + 1
    {
      hide AllSound;
      s.cancelled := true;
      s.status := CLOSED;
      closedTotal := closedTotal + 1;
    }

    /** Close with nothing in between. */
    method Close(id: string) returns (ok: bool)
      requires Valid()
      modifies this`sessions, this`table, this`ssrcIndex, this`addrIndex, this`peerIndex, this`trackIndex,
               this`closedTotal
      modifies sessions.Values`status, sessions.Values`cancelled
      ensures Valid()
      ensures ok <==> id in old(sessions)
      ensures sessions == old(sessions) - {id}
      ensures ok ==> table == Removed(old(table), id) && old(sessions)[id] !in sessions.Values
      ensures ok ==> old(sessions)[id].cancelled && old(sessions)[id].status == CLOSED
      ensures !ok ==> table == old(table)
      ensures closedTotal == old(closedTotal) + if ok then 1 else 0
      ensures forall x :: x in sessions ==> sessions[x].status == old(sessions[x].status)
    {
      hide AllSound, Mirrored, Removed;
      var s := Unmap(id);
      if s == null {
        assert sessions == sessions - {id};
        return false;
      }
      FinishClose(s);
      return true;
    }

    /** Gc's scan. */
    method Expired(now: int, idleTimeout: int) returns (expired: set<string>)
      ensures expired == set id | id in sessions && sessions[id].Idle(now, idleTimeout)
    {
      var ids := sessions.Keys;
      expired := {};
      while ids != {}
        invariant ids <= sessions.Keys
        invariant expired == set id | id in sessions && id !in ids && sessions[id].Idle(now, idleTimeout)
        decreases ids
      {
        var id :| id in ids;
        if sessions[id].Idle(now, idleTimeout) {
          expired := expired + {id};
        }
        ids := ids - {id};
      }
    }

    /** Closes the given sessions one after the other. */
    method CloseAll(ids: set<string>)
      requires Valid()
      modifies this`sessions, this`table, this`ssrcIndex, this`addrIndex, this`peerIndex, this`trackIndex,
               this`closedTotal
      modifies sessions.Values`status, sessions.Values`cancelled
      ensures Valid()
      ensures sessions == old(sessions) - ids
      ensures forall id :: id in ids && id in old(sessions) ==>
                old(sessions)[id].cancelled && old(sessions)[id].status == CLOSED
      ensures forall x :: x in sessions ==> sessions[x].status == old(sessions[x].status)
      decreases ids
    {
      hide Valid, Removed;
      if ids != {} {
        var id :| id in ids;
        ghost var start := sessions;
        var _ := Close(id);
        CloseAll(ids - {id});
        assert sessions == start - {id} - (ids - {id}) == start - ids;
      } else {
        assert sessions - ids == sessions;
      }
    }

    /** Gc: closes exactly the sessions without a packet for longer than the idle timeout. */
    method Gc(now: int, idleTimeout: int)
      requires Valid()
      modifies this`sessions, this`table, this`ssrcIndex, this`addrIndex, this`peerIndex, this`trackIndex,
               this`closedTotal
      modifies sessions.Values`status, sessions.Values`cancelled
      ensures Valid()
      ensures sessions == old(sessions) - (set id | id in old(sessions) && old(sessions[id].Idle(now, idleTimeout)))
      ensures forall id :: id in old(sessions) && old(sessions[id].Idle(now, idleTimeout)) ==>
                old(sessions)[id].cancelled && old(sessions)[id].status == CLOSED
      ensures forall x :: x in sessions ==> sessions[x].status == old(sessions[x].status)
    {
      hide Valid;
      var expired := Expired(now, idleTimeout);
      CloseAll(expired);
    }

    /** Main result: the collector leaves a new session alone for idleTimeout ... */
    method CreateThenGc(cfg: SessionConfig, now: int, later: int, idleTimeout: int)
      returns (s: Session?, err: Option<Error>)
      requires Valid() && later - now <= idleTimeout
      modifies this, sessions.Values`status, sessions.Values`cancelled
      ensures Valid()
      ensures err == None ==> s != null && cfg.id in sessions && sessions[cfg.id] == s && s.Open()
    {
      hide AllSound, Mirrored;
      s, err := Create(cfg, now);
      Gc(later, idleTimeout);
    }

    /** ... and a session that got a packet. */
    method TouchThenGc(s: Session, now: int, later: int, idleTimeout: int)
      requires Valid() && s in sessions.Values && later - now <= idleTimeout
      modifies this, sessions.Values`status, sessions.Values`cancelled, s`lastPacketAt
      ensures Valid() && s in sessions.Values && s.status == Touched(old(s.status))
    {
      hide AllSound, Mirrored;
      s.Touch(now);
      assert s.id in sessions && sessions[s.id] == s;
      Gc(later, idleTimeout);
      assert sessions[s.id] == s;
    }
  }
}
