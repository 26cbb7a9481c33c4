/** The idle collector under interleaving: it scans the sessions, and then closes by ID what it has
    found idle. What has become of a session in between decides what it closes. */
module SessionCollector {
  import opened SessionTable
  import opened SessionLifecycle

  /** Neither closing nor closed, and without a packet for longer than the timeout. */
  predicate Idle(o: Obj, now: int, timeout: int) {
    o.status != M.CLOSED && o.status != M.CLOSING && now - o.lastPacketAt > timeout
  }

  /** The scan finds an idle session under this ID. */
  predicate Finds(s: State, id: string, now: int, timeout: int) {
    id in s.refs && s.refs[id] < |s.objs| && Idle(s.objs[s.refs[id]], now, timeout)
  }

  /** The last packet of session `r` since the scan is too recent for it to be idle. */
  predicate TouchedSince(hs: History, scan: History, r: nat, now: int, timeout: int) {
    hs != scan && hs.Then?
    && if hs.op.Touch? && hs.op.r == r then now - hs.op.now <= timeout
       else TouchedSince(hs.past, scan, r, now, timeout)
  }

  /** Since the scan somebody has closed session `r`. */
  predicate ClosedSince(max: int, hs: History, scan: History, r: nat) {
    hs != scan && hs.Then? && (ClosedSince(max, hs.past, scan, r) || Closes(Run(max, hs.past), hs.op, r))
  }

  lemma StepTouches(s: State, op: Op, r: nat)
    requires r < |s.objs|
    ensures var t := Step(s, op);
            && r < |t.objs|
            && t.objs[r].lastPacketAt == if op.Touch? && op.r == r then op.now else s.objs[r].lastPacketAt
  {
    hide Created, Removed, Readdressed;
  }

  /** What the scanned session has become. */
  lemma {:induction false} ScannedLater(max: int, hs: History, scan: History, r: nat, now: int, timeout: int)
    requires Extends(hs, scan) && r < |Run(max, scan).objs|
    requires Run(max, scan).objs[r].phase == Live && now - Run(max, scan).objs[r].lastPacketAt > timeout
    ensures var s := Run(max, hs);
            && |s.objs| >= |Run(max, scan).objs| && s.objs[r].id == Run(max, scan).objs[r].id
            && (s.objs[r].phase == Live <==> !ClosedSince(max, hs, scan, r))
            && (now - s.objs[r].lastPacketAt > timeout <==> !TouchedSince(hs, scan, r, now, timeout))
  {
    hide Step, Inv, Closes;
    if hs != scan {
      ScannedLater(max, hs.past, scan, r, now, timeout);
      var s := Run(max, hs.past);
      RunKeepsInv(max, hs.past);
      StepTouches(s, hs.op, r);
      StepAdvances(s, hs.op, r);
      StepCloses(s, hs.op, r);
      StepAdvances(s, hs.op, |s.objs| - 1);
    }
  }

  /** Main result: after the scan and whatever else, closing an ID that the scan found closes the
      session it found if and only if nobody has closed it since; that session is still idle
      then if and only if it got no recent packet since; and it closes a newer session if and
      only if somebody has closed the old one and the ID is in use again. */
  lemma CollectsWhatItFound(max: int, hs: History, scan: History, id: string, now: int, timeout: int)
    requires Extends(hs, scan) && Finds(Run(max, scan), id, now, timeout)
    ensures var r, s, close := Run(max, scan).refs[id], Run(max, hs), CloseUnmap(id);
            && r < |s.objs|
            && (Closes(s, close, r) <==> !ClosedSince(max, hs, scan, r))
            && (Closes(s, close, r) ==> (Idle(s.objs[r], now, timeout) <==> !TouchedSince(hs, scan, r, now, timeout)))
            && ((exists q: nat :: q != r && Closes(s, close, q)) <==> ClosedSince(max, hs, scan, r) && id in s.refs)
  {
    hide Run, Balanced, AllSound, ClosedSince, TouchedSince;
    RunKeepsInv(max, scan);
    RunKeepsInv(max, hs);
    var r, s, close := Run(max, scan).refs[id], Run(max, hs), CloseUnmap(id);
    ScannedLater(max, hs, scan, r, now, timeout);
    if id in s.refs && s.refs[id] != r {
      assert Closes(s, close, s.refs[id]);
    }
  }

  /** A session that gets a packet between the scan and its close is closed all the same. */
  lemma TouchedIsCollected(id: string)
    ensures var scan := Then(Begin, Create(id, Keys(0, "", "", ""), 0));
            var hs := Then(scan, Touch(0, 100));
            && Finds(Run(1, scan), id, 100, 30) && Closes(Run(1, hs), CloseUnmap(id), 0)
            && !Idle(Run(1, hs).objs[0], 100, 30)
  {
    var scan := Then(Begin, Create(id, Keys(0, "", "", ""), 0));
    assert Run(1, Begin) == Initial(1) && |Initial(1).refs| == 0;
    assert Run(1, scan) == Step(Initial(1), scan.op);
    assert Run(1, scan).refs == map[id := 0];
  }
}
