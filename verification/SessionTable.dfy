/** The session table and its four secondary indexes as values: what Create, Update and Close
    do to them, and when a lookup is right. */
module SessionTable {
  import opened Basics

  /** The keys under which a session can be found; 0 and "" mean "none". */
  datatype Keys = Keys(ssrc: nat, addr: string, peer: string, track: string)

  datatype Table = Table(
    sessions: map<string, Keys>,
    ssrc: map<nat, string>, addr: map<string, string>, peer: map<string, string>, track: map<string, string>)

  const EMPTY := Table(map[], map[], map[], map[], map[])

  // ---- One index ----

  function Entered<K>(idx: map<K, string>, k: K, none: K, id: string): map<K, string> {
    if k != none then idx[k := id] else idx
  }

  function Erased<K>(idx: map<K, string>, k: K, none: K): map<K, string> {
    if k != none then idx - {k} else idx
  }

  /** What GetBy... returns: the entry's session, if it is there. */
  function Find<K>(idx: map<K, string>, sessions: map<string, Keys>, k: K): Option<string> {
    if k in idx && idx[k] in sessions then Some(idx[k]) else None
  }

  /** Every entry names a live session that holds that key. */
  ghost predicate Sound<K>(idx: map<K, string>, sessions: map<string, Keys>, key: Keys -> K, none: K) {
    forall k :: k in idx ==> k != none && idx[k] in sessions && key(sessions[idx[k]]) == k
  }

  /** Every session with a key is found under it. */
  ghost predicate Complete<K>(idx: map<K, string>, sessions: map<string, Keys>, key: Keys -> K, none: K) {
    forall id :: id in sessions && key(sessions[id]) != none ==>
      key(sessions[id]) in idx && idx[key(sessions[id])] == id
  }

  /** No two live sessions share a key. */
  ghost predicate Distinct<K>(sessions: map<string, Keys>, key: Keys -> K, none: K) {
    forall a, b :: a in sessions && b in sessions && a != b && key(sessions[a]) != none ==>
      key(sessions[a]) != key(sessions[b])
  }

  lemma EnterSound<K>(idx: map<K, string>, sessions: map<string, Keys>, key: Keys -> K, none: K, id: string, ks: Keys)
    requires Sound(idx, sessions, key, none) && id !in sessions
    ensures Sound(Entered(idx, key(ks), none, id), sessions[id := ks], key, none)
  {
  }

  lemma EraseSound<K>(idx: map<K, string>, sessions: map<string, Keys>, key: Keys -> K, none: K, id: string)
    requires Sound(idx, sessions, key, none) && id in sessions
    ensures Sound(Erased(idx, key(sessions[id]), none), sessions - {id}, key, none)
  {
  }

  /** Rekeying a session does not disturb an index over a key it keeps. */
  lemma RekeySound<K>(idx: map<K, string>, sessions: map<string, Keys>, key: Keys -> K, none: K, id: string, ks: Keys)
    requires Sound(idx, sessions, key, none) && id in sessions && key(ks) == key(sessions[id])
    ensures Sound(idx, sessions[id := ks], key, none)
  {
  }

  lemma EnterComplete<K>(idx: map<K, string>, sessions: map<string, Keys>, key: Keys -> K, none: K, id: string,
                         ks: Keys)
    requires Complete(idx, sessions, key, none) && id !in sessions && Distinct(sessions[id := ks], key, none)
    ensures Complete(Entered(idx, key(ks), none, id), sessions[id := ks], key, none)
  {
    var t := sessions[id := ks];
    forall x | x in t && key(t[x]) != none
      ensures key(t[x]) in Entered(idx, key(ks), none, id) && Entered(idx, key(ks), none, id)[key(t[x])] == x
    {
      if x != id {
        assert key(t[x]) != key(t[id]);
      }
    }
  }

  lemma CompleteIsDistinct<K>(idx: map<K, string>, sessions: map<string, Keys>, key: Keys -> K, none: K)
    requires Complete(idx, sessions, key, none)
    ensures Distinct(sessions, key, none)
  {
  }

  lemma EraseComplete<K>(idx: map<K, string>, sessions: map<string, Keys>, key: Keys -> K, none: K, id: string)
    requires Complete(idx, sessions, key, none) && id in sessions
    ensures Complete(Erased(idx, key(sessions[id]), none), sessions - {id}, key, none)
  {
    CompleteIsDistinct(idx, sessions, key, none);
  }

  lemma RekeyComplete<K>(idx: map<K, string>, sessions: map<string, Keys>, key: Keys -> K, none: K, id: string,
                         ks: Keys)
    requires Complete(idx, sessions, key, none) && id in sessions && key(ks) == key(sessions[id])
    ensures Complete(idx, sessions[id := ks], key, none)
  {
  }

  /** A lookup in a sound and complete index is a linear scan. */
  lemma FindIsScan<K>(idx: map<K, string>, sessions: map<string, Keys>, key: Keys -> K, none: K, k: K, id: string)
    requires Sound(idx, sessions, key, none) && Complete(idx, sessions, key, none) && k != none
    ensures Find(idx, sessions, k) == Some(id) <==> id in sessions && key(sessions[id]) == k
    ensures Find(idx, sessions, k) == None <==> forall x :: x in sessions ==> key(sessions[x]) != k
  {
  }

  // ---- The whole table ----

  function BySSRC(ks: Keys): nat { ks.ssrc }
  function ByAddr(ks: Keys): string { ks.addr }
  function ByPeer(ks: Keys): string { ks.peer }
  function ByTrack(ks: Keys): string { ks.track }

  ghost predicate AllSound(t: Table) {
    && Sound(t.ssrc, t.sessions, BySSRC, 0) && Sound(t.addr, t.sessions, ByAddr, "")
    && Sound(t.peer, t.sessions, ByPeer, "") && Sound(t.track, t.sessions, ByTrack, "")
  }

  ghost predicate AllComplete(t: Table) {
    && Complete(t.ssrc, t.sessions, BySSRC, 0) && Complete(t.addr, t.sessions, ByAddr, "")
    && Complete(t.peer, t.sessions, ByPeer, "") && Complete(t.track, t.sessions, ByTrack, "")
  }

  ghost predicate AllDistinct(t: Table) {
    && Distinct(t.sessions, BySSRC, 0) && Distinct(t.sessions, ByAddr, "")
    && Distinct(t.sessions, ByPeer, "") && Distinct(t.sessions, ByTrack, "")
  }

  function Created(t: Table, id: string, ks: Keys): Table {
    Table(t.sessions[id := ks],
          Entered(t.ssrc, ks.ssrc, 0, id), Entered(t.addr, ks.addr, "", id),
          Entered(t.peer, ks.peer, "", id), Entered(t.track, ks.track, "", id))
  }

  function Removed(t: Table, id: string): Table
    requires id in t.sessions
  {
    var ks := t.sessions[id];
    Table(t.sessions - {id},
          Erased(t.ssrc, ks.ssrc, 0), Erased(t.addr, ks.addr, ""),
          Erased(t.peer, ks.peer, ""), Erased(t.track, ks.track, ""))
  }

  /** An update with a new non-empty address moves the session's address entry. */
  function Readdressed(t: Table, id: string, addr: string): Table
    requires id in t.sessions
  {
    var ks := t.sessions[id];
    if addr == "" || addr == ks.addr then t
    else t.(sessions := t.sessions[id := ks.(addr := addr)],
            addr := Erased(t.addr, ks.addr, "")[addr := id])
  }

  lemma CreatedSound(t: Table, id: string, ks: Keys)
    requires AllSound(t) && id !in t.sessions
    ensures AllSound(Created(t, id, ks))
  {
    EnterSound(t.ssrc, t.sessions, BySSRC, 0, id, ks);
    EnterSound(t.addr, t.sessions, ByAddr, "", id, ks);
    EnterSound(t.peer, t.sessions, ByPeer, "", id, ks);
    EnterSound(t.track, t.sessions, ByTrack, "", id, ks);
  }

  lemma RemovedSound(t: Table, id: string)
    requires AllSound(t) && id in t.sessions
    ensures AllSound(Removed(t, id))
  {
    EraseSound(t.ssrc, t.sessions, BySSRC, 0, id);
    EraseSound(t.addr, t.sessions, ByAddr, "", id);
    EraseSound(t.peer, t.sessions, ByPeer, "", id);
    EraseSound(t.track, t.sessions, ByTrack, "", id);
  }

  lemma ReaddressedSound(t: Table, id: string, addr: string)
    requires AllSound(t) && id in t.sessions
    ensures AllSound(Readdressed(t, id, addr))
  {
    var ks := t.sessions[id];
    if addr != "" && addr != ks.addr {
      var ks' := ks.(addr := addr);
      RekeySound(t.ssrc, t.sessions, BySSRC, 0, id, ks');
      RekeySound(t.peer, t.sessions, ByPeer, "", id, ks');
      RekeySound(t.track, t.sessions, ByTrack, "", id, ks');
      var t' := Readdressed(t, id, addr);
      forall k | k in t'.addr
        ensures k != "" && t'.addr[k] in t'.sessions && ByAddr(t'.sessions[t'.addr[k]]) == k
      {
        if k != addr {
          assert k in t.addr && t.addr[k] == t'.addr[k] && k != ks.addr;
        }
      }
    }
  }

  lemma CreatedComplete(t: Table, id: string, ks: Keys)
    requires AllComplete(t) && id !in t.sessions && AllDistinct(Created(t, id, ks))
    ensures AllComplete(Created(t, id, ks))
  {
    EnterComplete(t.ssrc, t.sessions, BySSRC, 0, id, ks);
    EnterComplete(t.addr, t.sessions, ByAddr, "", id, ks);
    EnterComplete(t.peer, t.sessions, ByPeer, "", id, ks);
    EnterComplete(t.track, t.sessions, ByTrack, "", id, ks);
  }

  lemma RemovedComplete(t: Table, id: string)
    requires AllComplete(t) && id in t.sessions
    ensures AllComplete(Removed(t, id))
  {
    EraseComplete(t.ssrc, t.sessions, BySSRC, 0, id);
    EraseComplete(t.addr, t.sessions, ByAddr, "", id);
    EraseComplete(t.peer, t.sessions, ByPeer, "", id);
    EraseComplete(t.track, t.sessions, ByTrack, "", id);
  }

  lemma ReaddressedComplete(t: Table, id: string, addr: string)
    requires AllComplete(t) && id in t.sessions && AllDistinct(Readdressed(t, id, addr))
    ensures AllComplete(Readdressed(t, id, addr))
  {
    var ks := t.sessions[id];
    if addr != "" && addr != ks.addr {
      var ks' := ks.(addr := addr);
      RekeyComplete(t.ssrc, t.sessions, BySSRC, 0, id, ks');
      RekeyComplete(t.peer, t.sessions, ByPeer, "", id, ks');
      RekeyComplete(t.track, t.sessions, ByTrack, "", id, ks');
      CompleteIsDistinct(t.addr, t.sessions, ByAddr, "");
      var t' := Readdressed(t, id, addr);
      forall x | x in t'.sessions && ByAddr(t'.sessions[x]) != ""
        ensures ByAddr(t'.sessions[x]) in t'.addr && t'.addr[ByAddr(t'.sessions[x])] == x
      {
        if x != id {
          assert ByAddr(t'.sessions[x]) != ByAddr(t'.sessions[id]);
        }
      }
    }
  }

  lemma CompleteMeansDistinct(t: Table)
    requires AllComplete(t)
    ensures AllDistinct(t)
  {
    CompleteIsDistinct(t.ssrc, t.sessions, BySSRC, 0);
    CompleteIsDistinct(t.addr, t.sessions, ByAddr, "");
    CompleteIsDistinct(t.peer, t.sessions, ByPeer, "");
    CompleteIsDistinct(t.track, t.sessions, ByTrack, "");
  }

  // ---- What one operation does to the lookups ----

  /** Main result: a new session is found by each of its keys, whoever held it before, and nothing changes for
      other keys. */
  lemma NewestIsFound(t: Table, id: string, ks: Keys, ssrc: nat, addr: string)
    requires AllSound(t) && id !in t.sessions
    ensures var u := Created(t, id, ks);
            && (ks.ssrc != 0 ==> Find(u.ssrc, u.sessions, ks.ssrc) == Some(id))
            && (ks.addr != "" ==> Find(u.addr, u.sessions, ks.addr) == Some(id))
            && (ks.peer != "" ==> Find(u.peer, u.sessions, ks.peer) == Some(id))
            && (ks.track != "" ==> Find(u.track, u.sessions, ks.track) == Some(id))
            && (ssrc != ks.ssrc ==> Find(u.ssrc, u.sessions, ssrc) == Find(t.ssrc, t.sessions, ssrc))
            && (addr != ks.addr ==> Find(u.addr, u.sessions, addr) == Find(t.addr, t.sessions, addr))
  {
  }

  /** A removed session's keys find nothing, whoever holds them besides; other keys find what they found. */
  lemma GoneIsNotFound(t: Table, id: string, ssrc: nat, addr: string)
    requires AllSound(t) && id in t.sessions
    ensures var u, ks := Removed(t, id), t.sessions[id];
            && Find(u.ssrc, u.sessions, ks.ssrc) == None && Find(u.addr, u.sessions, ks.addr) == None
            && Find(u.peer, u.sessions, ks.peer) == None && Find(u.track, u.sessions, ks.track) == None
            && (ssrc != ks.ssrc ==> Find(u.ssrc, u.sessions, ssrc) == Find(t.ssrc, t.sessions, ssrc))
            && (addr != ks.addr ==> Find(u.addr, u.sessions, addr) == Find(t.addr, t.sessions, addr))
  {
  }

  /** A new address finds the session and the old one nothing; the same or no address changes nothing. */
  lemma MovedIsFound(t: Table, id: string, addr: string, other: string)
    requires AllSound(t) && id in t.sessions
    ensures var u, was := Readdressed(t, id, addr), t.sessions[id].addr;
            && (addr == "" || addr == was ==> u == t)
            && (addr != "" && addr != was ==>
                  && Find(u.addr, u.sessions, addr) == Some(id) && u.sessions[id].addr == addr
                  && Find(u.addr, u.sessions, was) == None
                  && (other != was && other != addr ==>
                        Find(u.addr, u.sessions, other) == Find(t.addr, t.sessions, other)))
            && u.ssrc == t.ssrc && u.peer == t.peer && u.track == t.track
  {
  }
}
