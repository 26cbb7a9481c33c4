/** The AI stream manager: at most one mapped stream per session, a cleanup goroutine per stream
    that removes only its own stream, and statistics over closed and running streams. */
module AiStreams {
  import opened Basics

  datatype Counters = Counters(sendErrors: nat, recvErrors: nat, retries: nat, firstResultMs: int)

  const FRESH := Counters(0, 0, 0, 0)

  /** How far a stream has come: its wrapper goroutine runs, has returned; its cleanup goroutine
      has added the counters to the totals, has gone through the map. */
  datatype Stage = Running | Exited | Counted | Cleaned

  /** `closed`: Close took the stream out of the map and cancelled it. */
  datatype Stream = Stream(id: string, stage: Stage, closed: bool, counters: Counters)

  datatype Totals = Totals(sendErrors: int, recvErrors: int, retries: int, firstCount: int, firstSum: int)

  const ZERO := Totals(0, 0, 0, 0, 0)

  function Plus(a: Totals, b: Totals): Totals {
    Totals(a.sendErrors + b.sendErrors, a.recvErrors + b.recvErrors, a.retries + b.retries,
           a.firstCount + b.firstCount, a.firstSum + b.firstSum)
  }

  /** What one stream contributes; a latency that is not positive does not count. */
  function Of(c: Counters): Totals {
    var timed := c.firstResultMs > 0;
    Totals(c.sendErrors, c.recvErrors, c.retries, if timed then 1 else 0, if timed then c.firstResultMs else 0)
  }

  /** The contributions of the streams numbered in `ks`. */
  function SumIn(streams: seq<Stream>, ks: set<nat>): Totals {
    if streams == [] then ZERO
    else
      var n := |streams| - 1;
      Extended(SumIn(streams[..n], ks), n in ks, streams[n].counters)
  }

  function Extended(rest: Totals, counts: bool, c: Counters): Totals {
    if counts then Plus(rest, Of(c)) else rest
  }

  /** The contributions of all streams. */
  function Sum(streams: seq<Stream>): Totals {
    if streams == [] then ZERO else Plus(Sum(streams[..|streams| - 1]), Of(streams[|streams| - 1].counters))
  }

  // ---- The table and its steps ----

  /** `streams` are all streams ever opened, `active` is the manager's map into them. */
  datatype Table = Table(maxActive: int, maxRetries: int, streams: seq<Stream>, active: map<string, nat>,
                         totals: Totals)

  datatype OpenError = NoError | MaxStreams | DuplicateStream | DialFailed

  function OpenResult(t: Table, id: string, dial: bool): OpenError {
    if |t.active| >= t.maxActive then MaxStreams
    else if id in t.active then DuplicateStream
    else if !dial then DialFailed
    else NoError
  }

  function Opened(t: Table, id: string, dial: bool): Table {
    if OpenResult(t, id, dial) == NoError then
      t.(streams := t.streams + [Stream(id, Running, false, FRESH)], active := t.active[id := |t.streams|])
    else t
  }

  function With(t: Table, k: nat, s: Stream): Table
    requires k < |t.streams|
  {
    t.(streams := t.streams[k := s])
  }

  function Closed(t: Table, id: string): Table {
    if id in t.active && t.active[id] < |t.streams| then
      var k := t.active[id];
      With(t, k, t.streams[k].(closed := true)).(active := t.active - {id})
    else t
  }

  /** What the goroutines of a running stream record. */
  datatype Event = SendError | RecvError | Retry | FirstResult(ms: int)

  /** A retry passes the guard of the reconnect loop; the first result is kept by compare-and-swap with 0. */
  function Recorded(c: Counters, maxRetries: int, e: Event): Counters {
    match e
    case SendError => c.(sendErrors := c.sendErrors + 1)
    case RecvError => c.(recvErrors := c.recvErrors + 1)
    case Retry => if maxRetries == 0 || c.retries >= maxRetries then c else c.(retries := c.retries + 1)
    case FirstResult(ms) => if c.firstResultMs == 0 then c.(firstResultMs := ms) else c
  }

  predicate At(t: Table, k: nat, stage: Stage) {
    k < |t.streams| && t.streams[k].stage == stage
  }

  function Happened(t: Table, k: nat, e: Event): Table {
    if At(t, k, Running)
    then With(t, k, t.streams[k].(counters := Recorded(t.streams[k].counters, t.maxRetries, e)))
    else t
  }

  function Ended(t: Table, k: nat): Table {
    if At(t, k, Running) then With(t, k, t.streams[k].(stage := Exited)) else t
  }

  function Added(t: Table, k: nat): Table {
    if At(t, k, Exited) then
      With(t, k, t.streams[k].(stage := Counted)).(totals := Plus(t.totals, Of(t.streams[k].counters)))
    else t
  }

  /** The cleanup goroutine of stream `k`: it deletes the map entry only if that is its own. */
  function Unmapped(t: Table, k: nat): Table {
    if At(t, k, Counted) then
      var id := t.streams[k].id;
      With(t, k, t.streams[k].(stage := Cleaned))
        .(active := if id in t.active && t.active[id] == k then t.active - {id} else t.active)
    else t
  }

  /** What Stats reports. */
  function Reported(t: Table): Totals {
    Plus(t.totals, SumIn(t.streams, t.active.Values))
  }

  // ---- Runs ----

  datatype Op =
    | Open(id: string, dial: bool)
    | Close(id: string)
    | Happen(k: nat, e: Event)
    | End(k: nat)
    | Add(k: nat)
    | Unmap(k: nat)

  function Step(t: Table, op: Op): Table {
    match op
    case Open(id, dial) => Opened(t, id, dial)
    case Close(id) => Closed(t, id)
    case Happen(k, e) => Happened(t, k, e)
    case End(k) => Ended(t, k)
    case Add(k) => Added(t, k)
    case Unmap(k) => Unmapped(t, k)
  }

  datatype History = Begin | Then(past: History, op: Op)

  function Run(maxActive: int, maxRetries: int, hs: History): Table {
    match hs
    case Begin => Table(maxActive, maxRetries, [], map[], ZERO)
    case Then(past, op) => Step(Run(maxActive, maxRetries, past), op)
  }

  // ---- Sums ----

  lemma {:induction false} SumIgnores(streams: seq<Stream>, ks: set<nat>, js: set<nat>)
    requires forall k: nat :: k < |streams| ==> (k in ks <==> k in js)
    ensures SumIn(streams, ks) == SumIn(streams, js)
  {
    if streams != [] {
      SumIgnores(streams[..|streams| - 1], ks, js);
    }
  }

  /** One more stream in the sum. */
  lemma {:induction false} SumAdds(streams: seq<Stream>, ks: set<nat>, k: nat)
    requires k < |streams| && k !in ks
    ensures SumIn(streams, ks + {k}) == Plus(SumIn(streams, ks), Of(streams[k].counters))
    decreases |streams|
  {
    var n := |streams| - 1;
    if k < n {
      SumAdds(streams[..n], ks, k);
    } else {
      SumIgnores(streams[..n], ks, ks + {k});
    }
  }

  /** A change of a stream matters only where its counters are part of the sum. */
  lemma {:induction false} SumUpdate(streams: seq<Stream>, ks: set<nat>, k: nat, s: Stream)
    requires k < |streams| && (k !in ks || s.counters == streams[k].counters)
    ensures SumIn(streams[k := s], ks) == SumIn(streams, ks)
    decreases |streams|
  {
    var n := |streams| - 1;
    if k < n {
      assert streams[k := s][..n] == streams[..n][k := s];
      SumUpdate(streams[..n], ks, k, s);
    } else {
      assert streams[k := s][..n] == streams[..n];
    }
  }

  predicate Covered(k: nat, a: set<nat>, b: set<nat>, c: set<nat>, d: set<nat>) {
    One(k in a) + One(k in b) + One(k in c) == 1 + One(k in d)
  }

  /** Three sets that cover every stream once, and those in `d` twice, sum to all and `d`. */
  lemma {:induction false} SumsBalance(streams: seq<Stream>, a: set<nat>, b: set<nat>, c: set<nat>, d: set<nat>)
    requires forall k: nat :: k < |streams| ==> Covered(k, a, b, c, d)
    ensures Plus(Plus(SumIn(streams, a), SumIn(streams, b)), SumIn(streams, c)) == Plus(Sum(streams), SumIn(streams, d))
  {
    hide Covered, Plus, Of, Extended;
    if streams == [] {
      assert Plus(Plus(ZERO, ZERO), ZERO) == Plus(ZERO, ZERO) by { NothingAdded(); }
    } else {
      SumsBalance(streams[..|streams| - 1], a, b, c, d);
      SumsBalanceStep(streams, a, b, c, d);
    }
  }

  lemma NothingAdded()
    ensures Plus(ZERO, ZERO) == ZERO
  {
  }

  lemma SumsBalanceStep(streams: seq<Stream>, a: set<nat>, b: set<nat>, c: set<nat>, d: set<nat>)
    requires streams != [] && Covered(|streams| - 1, a, b, c, d)
    requires var s := streams[..|streams| - 1];
             Plus(Plus(SumIn(s, a), SumIn(s, b)), SumIn(s, c)) == Plus(Sum(s), SumIn(s, d))
    ensures Plus(Plus(SumIn(streams, a), SumIn(streams, b)), SumIn(streams, c)) == Plus(Sum(streams), SumIn(streams, d))
  {
    hide Plus, Of, Extended;
    var n := |streams| - 1;
    var s := streams[..n];
    OneMore(SumIn(s, a), SumIn(s, b), SumIn(s, c), Sum(s), SumIn(s, d), n in a, n in b, n in c, n in d,
            streams[n].counters);
  }

  lemma OneMore(a: Totals, b: Totals, c: Totals, all: Totals, d: Totals, inA: bool, inB: bool, inC: bool, inD: bool,
                x: Counters)
    requires Plus(Plus(a, b), c) == Plus(all, d)
    requires One(inA) + One(inB) + One(inC) == 1 + One(inD)
    ensures Plus(Plus(Extended(a, inA, x), Extended(b, inB, x)), Extended(c, inC, x))
            == Plus(Plus(all, Of(x)), Extended(d, inD, x))
  {
  }

  lemma {:induction false} SumOverNone(streams: seq<Stream>, ks: set<nat>)
    requires ks == {}
    ensures SumIn(streams, ks) == ZERO
  {
    if streams != [] {
      SumOverNone(streams[..|streams| - 1], ks);
    }
  }

  lemma {:induction false} SumOverAll(streams: seq<Stream>, ks: set<nat>)
    requires forall k: nat :: k < |streams| ==> k in ks
    ensures SumIn(streams, ks) == Sum(streams)
  {
    if streams != [] {
      SumOverAll(streams[..|streams| - 1], ks);
    }
  }

  // ---- The invariant of all runs ----

  /** The streams whose counters are in the totals. */
  function CountedOf(t: Table): set<nat> {
    set k: nat | k < |t.streams| && (t.streams[k].stage == Counted || t.streams[k].stage == Cleaned)
  }

  predicate Mapped(t: Table, k: nat) {
    k < |t.streams| && t.streams[k].id in t.active && t.active[t.streams[k].id] == k
  }

  ghost predicate EntriesAreOwn(t: Table) {
    forall id :: id in t.active ==> t.active[id] < |t.streams| && t.streams[t.active[id]].id == id
  }

  /** A stream is mapped exactly until its Close or its own cleanup. */
  ghost predicate MappedUntilClosed(t: Table) {
    forall k: nat :: k < |t.streams| ==> (Mapped(t, k) <==> !t.streams[k].closed && t.streams[k].stage != Cleaned)
  }

  ghost predicate Newest(t: Table) {
    forall k: nat :: k < |t.streams| && t.streams[k].id in t.active ==> k <= t.active[t.streams[k].id]
  }

  ghost predicate RetriesBounded(t: Table) {
    forall k: nat :: k < |t.streams| ==> t.streams[k].counters.retries <= if t.maxRetries > 0 then t.maxRetries else 0
  }

  ghost predicate CountedOnce(t: Table) {
    t.totals == SumIn(t.streams, CountedOf(t))
  }

  ghost predicate Inv(t: Table) {
    && EntriesAreOwn(t) && MappedUntilClosed(t) && Newest(t) && RetriesBounded(t) && CountedOnce(t)
    && |t.active| <= if t.maxActive > 0 then t.maxActive else 0
  }

  lemma OpenKeepsInv(t: Table, id: string, dial: bool)
    requires Inv(t)
    ensures Inv(Opened(t, id, dial))
  {
    var u := Opened(t, id, dial);
    hide CountedOnce, EntriesAreOwn;
    if u != t {
      OpenKeepsCount(t, id, dial);
      OpenKeepsOwn(t, id, dial);
      assert forall k: nat :: k < |t.streams| ==> (Mapped(u, k) <==> Mapped(t, k)) by {
        OpenKeepsMapping(t, id, dial);
      }
    }
  }

  lemma OpenKeepsOwn(t: Table, id: string, dial: bool)
    requires EntriesAreOwn(t)
    ensures EntriesAreOwn(Opened(t, id, dial))
  {
  }

  lemma OpenKeepsMapping(t: Table, id: string, dial: bool)
    requires EntriesAreOwn(t)
    ensures forall k: nat :: k < |t.streams| ==> (Mapped(Opened(t, id, dial), k) <==> Mapped(t, k))
  {
  }

  lemma OpenKeepsCount(t: Table, id: string, dial: bool)
    requires CountedOnce(t)
    ensures CountedOnce(Opened(t, id, dial))
  {
    var u := Opened(t, id, dial);
    if u != t {
      assert u.streams[..|t.streams|] == t.streams;
      assert CountedOf(u) == CountedOf(t);
    }
  }

  lemma CloseKeepsInv(t: Table, id: string)
    requires Inv(t)
    ensures Inv(Closed(t, id))
  {
    var u := Closed(t, id);
    if id in t.active {
      var k := t.active[id];
      assert CountedOf(u) == CountedOf(t);
      SumUpdate(t.streams, CountedOf(t), k, u.streams[k]);
      assert |u.active| == |t.active| - 1;
    }
  }

  lemma HappenKeepsInv(t: Table, k: nat, e: Event)
    requires Inv(t)
    ensures Inv(Happened(t, k, e))
  {
    var u := Happened(t, k, e);
    if At(t, k, Running) {
      assert CountedOf(u) == CountedOf(t);
      SumUpdate(t.streams, CountedOf(t), k, u.streams[k]);
    }
  }

  lemma EndKeepsInv(t: Table, k: nat)
    requires Inv(t)
    ensures Inv(Ended(t, k))
  {
    var u := Ended(t, k);
    if At(t, k, Running) {
      assert CountedOf(u) == CountedOf(t);
      SumUpdate(t.streams, CountedOf(t), k, u.streams[k]);
    }
  }

  lemma AddKeepsInv(t: Table, k: nat)
    requires Inv(t)
    ensures Inv(Added(t, k))
  {
    var u := Added(t, k);
    if At(t, k, Exited) {
      assert CountedOf(u) == CountedOf(t) + {k};
      SumAdds(t.streams, CountedOf(t), k);
      SumUpdate(t.streams, CountedOf(u), k, u.streams[k]);
    }
  }

  lemma UnmapKeepsInv(t: Table, k: nat)
    requires Inv(t)
    ensures Inv(Unmapped(t, k))
  {
    var u := Unmapped(t, k);
    if At(t, k, Counted) {
      assert CountedOf(u) == CountedOf(t);
      SumUpdate(t.streams, CountedOf(t), k, u.streams[k]);
      assert |u.active| <= |t.active|;
    }
  }

  lemma {:induction false} RunKeepsInv(maxActive: int, maxRetries: int, hs: History)
    ensures Inv(Run(maxActive, maxRetries, hs))
  {
    match hs
    case Begin =>
    case Then(past, op) =>
      RunKeepsInv(maxActive, maxRetries, past);
      var t := Run(maxActive, maxRetries, past);
      hide Inv, Opened, Closed, Happened, Ended, Added, Unmapped;
      match op
      case Open(id, dial) => OpenKeepsInv(t, id, dial);
      case Close(id) => CloseKeepsInv(t, id);
      case Happen(k, e) => HappenKeepsInv(t, k, e);
      case End(k) => EndKeepsInv(t, k);
      case Add(k) => AddKeepsInv(t, k);
      case Unmap(k) => UnmapKeepsInv(t, k);
  }

  // ---- Main results ----

  /** On every run at most maxActive streams are mapped; a session's entry is its own stream,
      the newest one opened for it; and a stream that was neither closed nor cleaned up is mapped. */
  lemma OneNewestStreamPerSession(maxActive: int, maxRetries: int, hs: History)
    ensures var t := Run(maxActive, maxRetries, hs);
            && |t.active| <= (if maxActive > 0 then maxActive else 0)
            && (forall id :: id in t.active ==>
                  && t.active[id] < |t.streams| && t.streams[t.active[id]].id == id
                  && forall k: nat :: k < |t.streams| && t.streams[k].id == id ==> k <= t.active[id])
            && (forall k: nat :: k < |t.streams| ==>
                  (Mapped(t, k) <==> !t.streams[k].closed && t.streams[k].stage != Cleaned))
  {
    RunKeepsInv(maxActive, maxRetries, hs);
    RunKeepsConfig(maxActive, maxRetries, hs);
  }

  lemma {:induction false} RunKeepsConfig(maxActive: int, maxRetries: int, hs: History)
    ensures Run(maxActive, maxRetries, hs).maxActive == maxActive
    ensures Run(maxActive, maxRetries, hs).maxRetries == maxRetries
  {
    match hs
    case Begin =>
    case Then(past, _) => RunKeepsConfig(maxActive, maxRetries, past);
  }

  /** A stream leaves the map only by a Close of its session or by its own cleanup: the cleanup
      of an older stream with the same session ID never removes it. */
  lemma OnlyOwnCleanupRemoves(maxActive: int, maxRetries: int, past: History, op: Op, k: nat)
    requires Mapped(Run(maxActive, maxRetries, past), k)
    requires !Mapped(Run(maxActive, maxRetries, Then(past, op)), k)
    ensures op == Close(Run(maxActive, maxRetries, past).streams[k].id) || op == Unmap(k)
  {
    RunKeepsInv(maxActive, maxRetries, past);
    hide Step;
    StepRemoves(Run(maxActive, maxRetries, past), op, k);
  }

  lemma StepRemoves(t: Table, op: Op, k: nat)
    requires EntriesAreOwn(t) && Mapped(t, k) && !Mapped(Step(t, op), k)
    ensures op == Close(t.streams[k].id) || op == Unmap(k)
  {
  }

  /** Every stream's counters are in the totals exactly once from its Add on, and not before;
      no stream retried more than maxRetries times. */
  lemma TotalsCountEachStreamOnce(maxActive: int, maxRetries: int, hs: History)
    ensures var t := Run(maxActive, maxRetries, hs);
            && t.totals == SumIn(t.streams, CountedOf(t))
            && forall k: nat :: k < |t.streams| ==>
                 t.streams[k].counters.retries <= if maxRetries > 0 then maxRetries else 0
  {
    RunKeepsInv(maxActive, maxRetries, hs);
    RunKeepsConfig(maxActive, maxRetries, hs);
  }

  /** Streams counted twice by Stats: added to the totals, but still mapped. */
  function Doubled(t: Table): set<nat> {
    set k: nat | k < |t.streams| && Mapped(t, k) && t.streams[k].stage == Counted
  }

  /** Streams missed by Stats: closed, but not yet added to the totals. */
  function Missed(t: Table): set<nat> {
    set k: nat | k < |t.streams| && t.streams[k].closed
      && (t.streams[k].stage == Running || t.streams[k].stage == Exited)
  }

  /** What Stats reports on every run: the sum over all streams ever opened, without those
      closed but not yet added, and twice those added but still mapped. */
  lemma ReportedIsExact(maxActive: int, maxRetries: int, hs: History)
    ensures var t := Run(maxActive, maxRetries, hs);
            Plus(Reported(t), SumIn(t.streams, Missed(t))) == Plus(Sum(t.streams), SumIn(t.streams, Doubled(t)))
  {
    hide *;
    RunKeepsInv(maxActive, maxRetries, hs);
    var t := Run(maxActive, maxRetries, hs);
    CoveredOnce(t);
    SumsBalance(t.streams, CountedOf(t), t.active.Values, Missed(t), Doubled(t));
    assert t.totals == SumIn(t.streams, CountedOf(t))
           && Reported(t) == Plus(t.totals, SumIn(t.streams, t.active.Values)) by {
      AsCounted(t);
    }
  }

  lemma AsCounted(t: Table)
    requires Inv(t)
    ensures t.totals == SumIn(t.streams, CountedOf(t))
            && Reported(t) == Plus(t.totals, SumIn(t.streams, t.active.Values))
  {
  }

  lemma CoveredOnce(t: Table)
    requires Inv(t)
    ensures forall k: nat :: k < |t.streams| ==> Covered(k, CountedOf(t), t.active.Values, Missed(t), Doubled(t))
  {
    ValuesAreMapped(t);
  }

  lemma ValuesAreMapped(t: Table)
    requires EntriesAreOwn(t)
    ensures forall k: nat :: k < |t.streams| ==> (k in t.active.Values <==> Mapped(t, k))
  {
    forall k: nat | k < |t.streams|
      ensures k in t.active.Values <==> Mapped(t, k)
    {
      if k in t.active.Values {
        var id :| id in t.active && t.active[id] == k;
      }
    }
  }

  /** Once every cleanup goroutine is done, nothing is mapped and Stats is the exact sum. */
  lemma QuietIsExact(maxActive: int, maxRetries: int, hs: History)
    requires var t := Run(maxActive, maxRetries, hs); forall k: nat :: k < |t.streams| ==> t.streams[k].stage == Cleaned
    ensures var t := Run(maxActive, maxRetries, hs); t.active.Keys == {} && Reported(t) == Sum(t.streams)
  {
    RunKeepsInv(maxActive, maxRetries, hs);
    hide Run;
    var t := Run(maxActive, maxRetries, hs);
    assert t.active.Keys == {} by {
      forall id | id in t.active
        ensures Mapped(t, t.active[id])
      {
      }
    }
    SumOverAll(t.streams, CountedOf(t));
    NoValues(t.active);
    SumOverNone(t.streams, t.active.Values);
  }

  /** Stats is off while streams end: one error of one stream is reported twice, or not at all. */
  lemma StatsMayBeOff(id: string)
    ensures var t := Run(1, 0, Then(Then(Then(Then(Begin, Open(id, true)), Happen(0, RecvError)), End(0)), Add(0)));
            Reported(t).recvErrors == 2 && Sum(t.streams).recvErrors == 1
    ensures var t := Run(1, 0, Then(Then(Then(Begin, Open(id, true)), Happen(0, RecvError)), Close(id)));
            Reported(t).recvErrors == 0 && Sum(t.streams).recvErrors == 1
  {
    hide Opened, Happened, Added, Ended, Closed, Reported, Sum;
    var first := Then(Begin, Open(id, true));
    FirstStream(id);
    var failed := Then(first, Happen(0, RecvError));
    assert Run(1, 0, failed) == Happened(Run(1, 0, first), 0, RecvError);
    assert Run(1, 0, Then(failed, End(0))) == Ended(Run(1, 0, failed), 0);
    Doubling(id);
    Missing(id);
  }

  const FAILED := Counters(0, 1, 0, 0)

  /** A table with one stream, still mapped. */
  function OneStream(id: string, stage: Stage, c: Counters, totals: Totals): Table {
    Table(1, 0, [Stream(id, stage, false, c)], map[id := 0], totals)
  }

  lemma FirstStream(id: string)
    ensures Run(1, 0, Then(Begin, Open(id, true))) == OneStream(id, Running, FRESH, ZERO)
  {
    var t := Run(1, 0, Begin);
    assert |t.active| == 0;
    assert t.streams + [Stream(id, Running, false, FRESH)] == [Stream(id, Running, false, FRESH)];
    assert t.active[id := 0] == map[id := 0];
  }

  lemma OneStreamFails(id: string)
    ensures Happened(OneStream(id, Running, FRESH, ZERO), 0, RecvError) == OneStream(id, Running, FAILED, ZERO)
    ensures Ended(OneStream(id, Running, FAILED, ZERO), 0) == OneStream(id, Exited, FAILED, ZERO)
    ensures Added(OneStream(id, Exited, FAILED, ZERO), 0) == OneStream(id, Counted, FAILED, Totals(0, 1, 0, 0, 0))
  {
  }

  lemma Doubling(id: string)
    ensures var u := Added(Ended(Happened(OneStream(id, Running, FRESH, ZERO), 0, RecvError), 0), 0);
            Reported(u).recvErrors == 2 && Sum(u.streams).recvErrors == 1
  {
    OneStreamFails(id);
    hide SumIn, Sum, Happened, Ended, Added;
    var u := OneStream(id, Counted, FAILED, Totals(0, 1, 0, 0, 0));
    assert u.active[id] == 0;
    SumOfOne(u.streams, u.active.Values);
  }

  lemma Missing(id: string)
    ensures var u := Closed(Happened(OneStream(id, Running, FRESH, ZERO), 0, RecvError), id);
            Reported(u).recvErrors == 0 && Sum(u.streams).recvErrors == 1
  {
    OneStreamFails(id);
    OneStreamCloses(id);
    hide SumIn, Sum, Happened, Closed;
    var u := Closed(OneStream(id, Running, FAILED, ZERO), id);
    NoValues(u.active);
    SumOfOne(u.streams, u.active.Values);
  }

  lemma OneStreamCloses(id: string)
    ensures var u := Closed(OneStream(id, Running, FAILED, ZERO), id);
            u.active.Keys == {} && u.totals == ZERO && u.streams == [Stream(id, Running, true, FAILED)]
  {
  }

  lemma NoValues(m: map<string, nat>)
    requires m.Keys == {}
    ensures m.Values == {}
  {
  }

  lemma SumOfOne(streams: seq<Stream>, ks: set<nat>)
    requires |streams| == 1
    ensures Sum(streams) == Of(streams[0].counters)
    ensures SumIn(streams, ks) == if 0 in ks then Of(streams[0].counters) else ZERO
  {
    assert streams[..0] == [];
  }

  /** Mapped streams are told apart by their session IDs. */
  lemma {:induction false} AsManyAsIDs(t: Table, ks: set<nat>, ids: set<string>)
    requires forall k :: k in ks ==> Mapped(t, k) && t.streams[k].id in ids
    ensures |ks| <= |ids|
    decreases ks
  {
    if ks != {} {
      var k :| k in ks;
      AsManyAsIDs(t, ks - {k}, ids - {t.streams[k].id});
    }
  }

  function RunningUnclosed(t: Table): set<nat> {
    set k: nat | k < |t.streams| && t.streams[k].stage == Running && !t.streams[k].closed
  }

  /** Without the closed ones, at most maxActive streams run. */
  lemma UnclosedWithinLimit(maxActive: int, maxRetries: int, hs: History)
    ensures |RunningUnclosed(Run(maxActive, maxRetries, hs))| <= if maxActive > 0 then maxActive else 0
  {
    RunKeepsInv(maxActive, maxRetries, hs);
    RunKeepsConfig(maxActive, maxRetries, hs);
    hide Run, SumIn, CountedOf;
    var t := Run(maxActive, maxRetries, hs);
    AsManyAsIDs(t, RunningUnclosed(t), t.active.Keys);
    assert |t.active.Keys| == |t.active|;
  }

  /** A stream closed but still running no longer counts against the limit. */
  lemma RunningMayExceedLimit(id: string, other: string)
    ensures var t := Run(1, 0, Then(Then(Then(Begin, Open(id, true)), Close(id)), Open(other, true)));
            At(t, 0, Running) && At(t, 1, Running)
  {
    FirstStream(id);
    var t := OneStream(id, Running, FRESH, ZERO);
    var u := Closed(t, id);
    assert Run(1, 0, Then(Then(Begin, Open(id, true)), Close(id))) == u;
    assert u.active.Keys == {};
    assert |u.active| == 0;
  }

  // ---- What the counters count ----

  /** The events of stream `k` while it ran. */
  function Heard(maxActive: int, maxRetries: int, hs: History, k: nat): seq<Event> {
    match hs
    case Begin => []
    case Then(past, op) =>
      Heard(maxActive, maxRetries, past, k)
      + if op.Happen? && op.k == k && At(Run(maxActive, maxRetries, past), k, Running) then [op.e] else []
  }

  predicate NoLatency(es: seq<Event>) {
    forall i :: 0 <= i < |es| && es[i].FirstResult? ==> es[i].ms == 0
  }

  /** Errors one by one, retries up to the limit, and the first latency that is not 0. */
  ghost predicate CountsOf(c: Counters, maxRetries: int, es: seq<Event>) {
    && c.sendErrors == multiset(es)[SendError] && c.recvErrors == multiset(es)[RecvError]
    && (multiset(es)[Retry] <= maxRetries ==> c.retries == multiset(es)[Retry])
    && (multiset(es)[Retry] > maxRetries ==> c.retries == if maxRetries > 0 then maxRetries else 0)
    && (c.firstResultMs == 0 ==> NoLatency(es))
    && (c.firstResultMs != 0 ==>
          exists i :: 0 <= i < |es| && es[i] == FirstResult(c.firstResultMs) && NoLatency(es[..i]))
  }

  lemma NothingCounted(maxRetries: int)
    ensures CountsOf(FRESH, maxRetries, [])
  {
  }

  lemma LatencyCounted(c: Counters, maxRetries: int, es: seq<Event>, e: Event)
    requires CountsOf(c, maxRetries, es)
    ensures var ms := Recorded(c, maxRetries, e).firstResultMs;
            && (ms == 0 ==> NoLatency(es + [e]))
            && (ms != 0 ==> exists i :: 0 <= i < |es + [e]| && (es + [e])[i] == FirstResult(ms)
                                        && NoLatency((es + [e])[..i]))
  {
    if c.firstResultMs != 0 {
      var i :| 0 <= i < |es| && es[i] == FirstResult(c.firstResultMs) && NoLatency(es[..i]);
      assert (es + [e])[i] == es[i] && (es + [e])[..i] == es[..i];
    } else {
      assert (es + [e])[|es|] == e && (es + [e])[..|es|] == es;
    }
  }

  lemma EventCounted(c: Counters, maxRetries: int, es: seq<Event>, e: Event)
    requires CountsOf(c, maxRetries, es)
    ensures CountsOf(Recorded(c, maxRetries, e), maxRetries, es + [e])
  {
    LatencyCounted(c, maxRetries, es, e);
    hide NoLatency;
    assert multiset(es + [e]) == multiset(es) + multiset{e};
  }

  lemma {:induction false} HeardNothing(maxActive: int, maxRetries: int, hs: History, k: nat)
    requires k >= |Run(maxActive, maxRetries, hs).streams|
    ensures Heard(maxActive, maxRetries, hs, k) == []
  {
    match hs
    case Begin =>
    case Then(past, op) =>
      StreamsStay(Run(maxActive, maxRetries, past), op);
      HeardNothing(maxActive, maxRetries, past, k);
  }

  lemma StreamsStay(t: Table, op: Op)
    ensures var u := Step(t, op);
            && u.maxRetries == t.maxRetries && |t.streams| <= |u.streams| <= |t.streams| + 1
            && (|u.streams| > |t.streams| ==> u.streams[|t.streams|].counters == FRESH)
            && forall k: nat :: k < |t.streams| ==>
                 u.streams[k].id == t.streams[k].id
                 && u.streams[k].counters
                    == if op.Happen? && op.k == k && At(t, k, Running)
                       then Recorded(t.streams[k].counters, t.maxRetries, op.e) else t.streams[k].counters
  {
    hide Recorded, OpenResult, Plus, Of;
  }

  /** Main result: in every interleaving the counters of each stream count the events of its life: every error once,
      the retries up to maxRetries, and the first latency that is not 0. */
  lemma {:induction false} CountersAreExact(maxActive: int, maxRetries: int, hs: History, k: nat)
    requires k < |Run(maxActive, maxRetries, hs).streams|
    ensures CountsOf(Run(maxActive, maxRetries, hs).streams[k].counters, maxRetries,
                     Heard(maxActive, maxRetries, hs, k))
  {
    hide CountsOf, Step, Recorded;
    match hs
    case Then(past, op) =>
      var t := Run(maxActive, maxRetries, past);
      StreamsStay(t, op);
      RunKeepsConfig(maxActive, maxRetries, past);
      var es := Heard(maxActive, maxRetries, past, k);
      if k < |t.streams| {
        CountersAreExact(maxActive, maxRetries, past, k);
        if op.Happen? && op.k == k && At(t, k, Running) {
          EventCounted(t.streams[k].counters, maxRetries, es, op.e);
        } else {
          assert Heard(maxActive, maxRetries, hs, k) == es;
        }
      } else {
        HeardNothing(maxActive, maxRetries, past, k);
        NothingCounted(maxRetries);
        assert Heard(maxActive, maxRetries, hs, k) == [];
      }
    case Begin =>
  }

  /** What a stream adds to the statistics: its errors and retries, and its latency if that is positive. */
  lemma Contribution(streams: seq<Stream>, s: Stream, ks: set<nat>)
    ensures Sum([]).sendErrors == Sum([]).recvErrors == Sum([]).retries == Sum([]).firstCount == Sum([]).firstSum == 0
    ensures Exceeds(Sum(streams + [s]), Sum(streams), s.counters)
    ensures |streams| in ks ==> Exceeds(SumIn(streams + [s], ks), SumIn(streams, ks), s.counters)
    ensures |streams| !in ks ==> SumIn(streams + [s], ks) == SumIn(streams, ks)
  {
    assert (streams + [s])[..|streams|] == streams;
  }

  predicate Exceeds(more: Totals, less: Totals, c: Counters) {
    && more.sendErrors - less.sendErrors == c.sendErrors
    && more.recvErrors - less.recvErrors == c.recvErrors
    && more.retries - less.retries == c.retries
    && more.firstCount - less.firstCount == (if c.firstResultMs > 0 then 1 else 0)
    && more.firstSum - less.firstSum == (if c.firstResultMs > 0 then c.firstResultMs else 0)
  }

  /** So the number of latencies in the statistics is the number of streams with one. */
  lemma {:induction false} LatenciesCounted(streams: seq<Stream>)
    ensures Sum(streams).firstCount == |set k: nat | k < |streams| && streams[k].counters.firstResultMs > 0|
  {
    if streams != [] {
      var n := |streams| - 1;
      LatenciesCounted(streams[..n]);
      Contribution(streams[..n], streams[n], {});
      assert streams[..n] + [streams[n]] == streams;
      hide Plus, Of, Sum;
      var before := set k: nat | k < n && streams[..n][k].counters.firstResultMs > 0;
      assert (set k: nat | k < |streams| && streams[k].counters.firstResultMs > 0)
             == before + if streams[n].counters.firstResultMs > 0 then {n} else {};
    }
  }

  /** Main result: from every point of every run the goroutine and the cleanup of a stream can end, and then the
      stream is out of the map. */
  lemma StreamCanEnd(maxActive: int, maxRetries: int, hs: History, k: nat)
    requires k < |Run(maxActive, maxRetries, hs).streams|
    ensures var t := Run(maxActive, maxRetries, Then(Then(Then(hs, End(k)), Add(k)), Unmap(k)));
            At(t, k, Cleaned) && !Mapped(t, k)
  {
    hide EntriesAreOwn, MappedUntilClosed, Newest, RetriesBounded, CountedOnce, Step;
    var ended, added := Then(hs, End(k)), Then(Then(hs, End(k)), Add(k));
    StreamAdvances(Run(maxActive, maxRetries, hs), k);
    StreamAdvances(Run(maxActive, maxRetries, ended), k);
    StreamAdvances(Run(maxActive, maxRetries, added), k);
    RunKeepsInv(maxActive, maxRetries, Then(added, Unmap(k)));
    CleanedIsUnmapped(Run(maxActive, maxRetries, Then(added, Unmap(k))), k);
  }

  lemma CleanedIsUnmapped(t: Table, k: nat)
    requires MappedUntilClosed(t) && At(t, k, Cleaned)
    ensures !Mapped(t, k)
  {
  }

  lemma StreamAdvances(t: Table, k: nat)
    requires k < |t.streams|
    ensures !At(Step(t, End(k)), k, Running)
    ensures !At(t, k, Running) ==> At(Step(t, Add(k)), k, Counted) || At(Step(t, Add(k)), k, Cleaned)
    ensures At(t, k, Counted) || At(t, k, Cleaned) ==> At(Step(t, Unmap(k)), k, Cleaned)
    ensures |Step(t, End(k)).streams| == |Step(t, Add(k)).streams| == |t.streams|
  {
    hide Plus, Of;
  }

  // ---- The manager object ----

  class Manager {
    const maxActive: int
    const maxRetries: int
    var streams: seq<Stream>
    var active: map<string, nat>
    var totals: Totals

    ghost function Contents(): Table
      reads this
    {
      Table(maxActive, maxRetries, streams, active, totals)
    }

    constructor (maxActive: int, maxRetries: int)
      ensures Contents() == Run(maxActive, maxRetries, Begin) && Inv(Contents())
    {
      this.maxActive, this.maxRetries := maxActive, maxRetries;
      streams, active, totals := [], map[], ZERO;
    }

    /** Opens at most one stream per session; on failure nothing changes. */
    method OpenStream(id: string, dial: bool) returns (err: OpenError, k: nat)
      requires Inv(Contents())
      modifies this
      ensures Inv(Contents())
      ensures err == OpenResult(old(Contents()), id, dial)
      ensures err.MaxStreams? <==> |old(active)| >= maxActive
      ensures err.DuplicateStream? <==> |old(active)| < maxActive && id in old(active)
      ensures err.DialFailed? <==> |old(active)| < maxActive && id !in old(active) && !dial
      ensures !err.NoError? ==> streams == old(streams) && active == old(active)
      ensures Contents() == Opened(old(Contents()), id, dial)
      ensures err.NoError? ==> k < |streams| && k == |old(streams)| && Mapped(Contents(), k)
    {
      hide Inv;
      OpenKeepsInv(Contents(), id, dial);
      k := |streams|;
      if |active| >= maxActive {
        return MaxStreams, k;
      }
      if id in active {
        return DuplicateStream, k;
      }
      if !dial {
        return DialFailed, k;
      }
      streams := streams + [Stream(id, Running, false, FRESH)];
      active := active[id := k];
      err := NoError;
    }

    method CloseStream(id: string) returns (found: bool)
      requires Inv(Contents())
      modifies this
      ensures Inv(Contents())
      ensures found <==> id in old(active)
      ensures Contents() == Closed(old(Contents()), id)
    {
      CloseKeepsInv(Contents(), id);
      found := id in active;
      if found {
        var k := active[id];
        active := active - {id};
        streams := streams[k := streams[k].(closed := true)];
      }
    }

    /** The cleanup goroutine, once the stream's goroutine has returned. */
    method CleanUp(k: nat)
      requires Inv(Contents()) && At(Contents(), k, Exited)
      modifies this
      ensures Inv(Contents())
      ensures Contents() == Unmapped(Added(old(Contents()), k), k)
    {
      hide Inv;
      AddKeepsInv(Contents(), k);
      UnmapKeepsInv(Added(Contents(), k), k);
      var s := streams[k];
      totals := Plus(totals, Of(s.counters));
      if s.id in active && active[s.id] == k {
        active := active - {s.id};
      }
      streams := streams[k := s.(stage := Cleaned)];
      assert Contents() == Unmapped(Added(old(Contents()), k), k);
    }

    /** Sums over the map in any order. */
    method Stats() returns (r: Totals)
      requires Inv(Contents())
      ensures r == Reported(Contents())
    {
      var sum := ZERO;
      var todo := active.Keys;
      ghost var done: set<nat> := {};
      SumOverNone(streams, done);
      while todo != {}
        invariant todo <= active.Keys
        invariant done == set id | id in active.Keys - todo :: active[id]
        invariant sum == SumIn(streams, done)
      {
        var id :| id in todo;
        var k := active[id];
        SumAdds(streams, done, k);
        sum := Plus(sum, Of(streams[k].counters));
        todo := todo - {id};
        done := done + {k};
      }
      assert done == active.Values;
      r := Plus(totals, sum);
    }
  }
}
