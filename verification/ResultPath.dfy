/** The way of recognition results from the AI worker to the dispatcher: each session's receive
    loop puts them on the session's bounded queue, its result pump fills in their address and
    pushes them on the dispatcher's queue, shared by all sessions. Any interleaving. */
module ResultPath {
  import opened Dispatcher

  /** One session. `hand` and `pump` hold the result that the receive loop and the result pump are
      working on, if any. The rest is history: what was received, what entered the dispatcher's
      queue, what was dropped for a full queue, and what was given up when a context was done. */
  datatype Path = Path(
    id: string, streamID: string, sourceType: string, capacity: nat,
    receiving: bool, pairDone: bool, sessionDone: bool,
    hand: seq<Result>, queue: seq<Result>, pump: seq<Result>,
    received: seq<Result>, entered: seq<Result>, dropped: seq<Result>, givenUp: seq<Result>)

  datatype Item = Item(session: nat, r: Result)

  /** `taken` are the results that dispatcher workers have taken off the queue. */
  datatype State = State(queueSize: nat, dropPartialWhenFull: bool, paths: seq<Path>, queue: seq<Item>,
                         taken: seq<Item>)

  datatype PathOp =
    | Receive(r: Result)
    | ReceiveFails
    | Deliver(prefersDone: bool)
    | PumpTake(media: Media)
    | PumpPush(prefersDone: bool)
    | Reconnected
    | CancelPair
    | CancelSession

  datatype Op =
    | Join(id: string, streamID: string, sourceType: string, capacity: nat)
    | On(i: nat, op: PathOp)
    | WorkerTakes

  function Filled(p: Path, r: Result, media: Media): Result {
    Result(if r.sessionID == "" then p.id else r.sessionID,
           if r.streamID == "" then p.streamID else r.streamID,
           if r.sourceType == "" then p.sourceType else r.sourceType,
           if r.media.NoMedia? then media else r.media,
           r.speech)
  }

  /** The receive loop's send: a partial result may be dropped; on a done context the loop ends. */
  function Delivered(p: Path, prefersDone: bool): Path
    requires |p.hand| == 1
  {
    var r := p.hand[0];
    match Offered(|p.queue| < p.capacity, p.pairDone || p.sessionDone, prefersDone, !r.speech.isFinal)
    case Enters => p.(hand := [], queue := p.queue + [r])
    case Drops => p.(hand := [], dropped := p.dropped + [r])
    case GivesUp => p.(hand := [], givenUp := p.givenUp + [r], receiving := false)
    case Waits => p
  }

  function PumpOffer(p: Path, room: bool, dropPartial: bool, prefersDone: bool): Offer
    requires |p.pump| == 1
  {
    Offered(room, p.sessionDone, prefersDone, dropPartial && !p.pump[0].speech.isFinal)
  }

  function Pushed(p: Path, room: bool, dropPartial: bool, prefersDone: bool): Path
    requires |p.pump| == 1
  {
    var r := p.pump[0];
    match PumpOffer(p, room, dropPartial, prefersDone)
    case Enters => p.(pump := [], entered := p.entered + [r])
    case Drops => p.(pump := [], dropped := p.dropped + [r])
    case GivesUp => p.(pump := [], givenUp := p.givenUp + [r])
    case Waits => p
  }

  /** A step of one session; a step that is not possible changes nothing. */
  function PathStep(p: Path, op: PathOp, room: bool, dropPartial: bool): Path {
    match op
    case Receive(r) =>
      if p.receiving && p.hand == [] then p.(hand := [r], received := p.received + [r]) else p
    case ReceiveFails =>
      if p.receiving && p.hand == [] then p.(receiving := false) else p
    case Deliver(prefersDone) =>
      if |p.hand| == 1 then Delivered(p, prefersDone) else p
    case PumpTake(media) =>
      if p.pump == [] && p.queue != [] then p.(pump := [Filled(p, p.queue[0], media)], queue := p.queue[1..]) else p
    case PumpPush(prefersDone) =>
      if |p.pump| == 1 then Pushed(p, room, dropPartial, prefersDone) else p
    case Reconnected =>
      if !p.receiving && p.hand == [] && !p.sessionDone then p.(receiving := true, pairDone := false) else p
    case CancelPair => p.(pairDone := true)
    case CancelSession => p.(sessionDone := true)
  }

  function NewPath(id: string, streamID: string, sourceType: string, capacity: nat): Path {
    Path(id, streamID, sourceType, capacity, true, false, false, [], [], [], [], [], [], [])
  }

  /** The results a step of session `i` adds to the shared queue. */
  function Entering(i: nat, p: Path, q: Path): seq<Item> {
    if |q.entered| > |p.entered| then [Item(i, q.entered[|q.entered| - 1])] else []
  }

  function Step(s: State, op: Op): State {
    match op
    case Join(id, streamID, sourceType, capacity) =>
      s.(paths := s.paths + [NewPath(id, streamID, sourceType, capacity)])
    case On(i, pop) =>
      if i < |s.paths| then
        var q := PathStep(s.paths[i], pop, |s.queue| < s.queueSize, s.dropPartialWhenFull);
        s.(paths := s.paths[i := q], queue := s.queue + Entering(i, s.paths[i], q))
      else s
    case WorkerTakes =>
      if s.queue != [] then s.(queue := s.queue[1..], taken := s.taken + s.queue[..1]) else s
  }

  datatype History = Begin | Then(past: History, op: Op)

  function Run(queueSize: nat, dropPartial: bool, hs: History): State {
    match hs
    case Begin => State(queueSize, dropPartial, [], [], [])
    case Then(past, op) => Step(Run(queueSize, dropPartial, past), op)
  }

  // ---- Subsequences ----

  predicate Subseq(a: seq<Speech>, b: seq<Speech>)
    decreases |b|
  {
    a == [] || (b != [] &&
      var bs := b[..|b| - 1];
      (a[|a| - 1] == b[|b| - 1] && Subseq(a[..|a| - 1], bs)) || Subseq(a, bs))
  }

  function Without(a: seq<Speech>, k: nat): seq<Speech>
    requires k < |a|
  {
    a[..k] + a[k + 1..]
  }

  lemma WithoutSplit(a: seq<Speech>, k: nat)
    requires k < |a| - 1
    ensures var m := |a| - 1; Without(a, k) == Without(a[..m], k) + [a[m]]
  {
    var m := |a| - 1;
    assert a == a[..m] + [a[m]];
  }

  lemma SubseqAppend(a: seq<Speech>, b: seq<Speech>, x: Speech)
    requires Subseq(a, b)
    ensures Subseq(a + [x], b + [x])
  {
    assert (a + [x])[..|a|] == a && (b + [x])[..|b|] == b;
  }

  lemma {:induction false} SubseqWithout(a: seq<Speech>, b: seq<Speech>, k: nat)
    requires Subseq(a, b) && k < |a|
    ensures Subseq(Without(a, k), b)
    decreases |b|
  {
    hide Subseq, Without;
    SubseqLast(a, b);
    var m, bs := |a| - 1, b[..|b| - 1];
    if a[m] == b[|b| - 1] && Subseq(a[..m], bs) {
      if k == m {
        WithoutLast(a);
        SubseqSkip(a[..m], bs, b[|b| - 1]);
      } else {
        SubseqWithout(a[..m], bs, k);
        WithoutSplit(a, k);
        SubseqAppend(Without(a[..m], k), bs, a[m]);
      }
    } else {
      SubseqWithout(a, bs, k);
      SubseqSkip(Without(a, k), bs, b[|b| - 1]);
    }
    assert b == bs + [b[|b| - 1]];
  }

  /** The last element of a subsequence is the last one of the whole, or among the rest. */
  lemma SubseqLast(a: seq<Speech>, b: seq<Speech>)
    requires Subseq(a, b) && a != []
    ensures b != []
    ensures var bs := b[..|b| - 1]; (a[|a| - 1] == b[|b| - 1] && Subseq(a[..|a| - 1], bs)) || Subseq(a, bs)
  {
  }

  lemma SubseqSkip(a: seq<Speech>, b: seq<Speech>, x: Speech)
    requires Subseq(a, b)
    ensures Subseq(a, b + [x])
  {
    assert (b + [x])[..|b|] == b;
  }

  lemma WithoutLast(a: seq<Speech>)
    requires a != []
    ensures Without(a, |a| - 1) == a[..|a| - 1]
  {
  }

  lemma {:induction false} SubseqLength(a: seq<Speech>, b: seq<Speech>)
    requires Subseq(a, b)
    ensures |a| <= |b|
    ensures |a| == |b| ==> a == b
    decreases |b|
  {
    if a != [] {
      var m, n := |a| - 1, |b| - 1;
      if a[m] == b[n] && Subseq(a[..m], b[..n]) {
        SubseqLength(a[..m], b[..n]);
        assert a == a[..m] + [a[m]] && b == b[..n] + [b[n]];
      } else {
        SubseqLength(a, b[..n]);
      }
    }
  }

  function Finals(a: seq<Speech>): seq<Speech> {
    if a == [] then []
    else
      var m := |a| - 1;
      Finals(a[..m]) + if a[m].isFinal then [a[m]] else []
  }

  lemma {:induction false} FinalsOfSubseq(a: seq<Speech>, b: seq<Speech>)
    requires Subseq(a, b)
    ensures Subseq(Finals(a), Finals(b))
    decreases |b|
  {
    if a != [] {
      var m, n := |a| - 1, |b| - 1;
      if a[m] == b[n] && Subseq(a[..m], b[..n]) {
        FinalsOfSubseq(a[..m], b[..n]);
        if a[m].isFinal {
          SubseqAppend(Finals(a[..m]), Finals(b[..n]), a[m]);
        } else {
          assert Finals(a) == Finals(a[..m]) && Finals(b) == Finals(b[..n]);
        }
      } else {
        FinalsOfSubseq(a, b[..n]);
        if b[n].isFinal {
          assert Finals(b)[..|Finals(b)| - 1] == Finals(b[..n]);
        } else {
          assert Finals(b) == Finals(b[..n]);
        }
      }
    }
  }

  lemma FinalsAppend(a: seq<Speech>, x: Speech)
    ensures Finals(a + [x]) == Finals(a) + if x.isFinal then [x] else []
  {
    assert (a + [x])[..|a|] == a;
  }

  lemma {:induction false} FinalsWithout(a: seq<Speech>, k: nat)
    requires k < |a|
    ensures |Finals(Without(a, k))| == |Finals(a)| - if a[k].isFinal then 1 else 0
    decreases |a|
  {
    var m := |a| - 1;
    if k == m {
      assert Without(a, k) == a[..m];
    } else {
      FinalsWithout(a[..m], k);
      WithoutSplit(a, k);
      FinalsAppend(Without(a[..m], k), a[m]);
    }
  }

  // ---- The invariant of one session ----

  function Speeches(rs: seq<Result>): (s: seq<Speech>)
    ensures |s| == |rs|
  {
    seq(|rs|, i requires 0 <= i < |rs| => rs[i].speech)
  }

  /** What was received and neither dropped nor given up, oldest first. */
  function Flow(p: Path): seq<Result> {
    p.entered + p.pump + p.queue + p.hand
  }

  predicate Partial(rs: seq<Result>) {
    forall k :: 0 <= k < |rs| ==> !rs[k].speech.isFinal
  }

  ghost predicate Kept(p: Path) {
    var flow, all := Speeches(Flow(p)), Speeches(p.received);
    && Subseq(flow, all)
    && |all| == |flow| + |p.dropped| + |p.givenUp|
    && |Finals(all)| == |Finals(flow)| + |Finals(Speeches(p.givenUp))|
    && Partial(p.dropped)
  }

  ghost predicate Bounded(p: Path) {
    |p.hand| <= 1 && |p.pump| <= 1 && |p.queue| <= p.capacity
  }

  /** A step that moves results on, without losing or adding one. */
  lemma MoveKeeps(p: Path, q: Path)
    requires Kept(p) && Speeches(Flow(q)) == Speeches(Flow(p))
    requires q.received == p.received && q.dropped == p.dropped && q.givenUp == p.givenUp
    ensures Kept(q)
  {
  }

  lemma AppendSpeech(rs: seq<Result>, r: Result)
    ensures Speeches(rs + [r]) == Speeches(rs) + [r.speech]
  {
  }

  lemma ReceiveKeeps(p: Path, q: Path, r: Result)
    requires Kept(p) && Flow(q) == Flow(p) + [r] && q.received == p.received + [r]
    requires q.dropped == p.dropped && q.givenUp == p.givenUp
    ensures Kept(q)
  {
    hide Subseq, Finals;
    AppendSpeech(Flow(p), r);
    AppendSpeech(p.received, r);
    SubseqAppend(Speeches(Flow(p)), Speeches(p.received), r.speech);
    FinalsAppend(Speeches(Flow(p)), r.speech);
    FinalsAppend(Speeches(p.received), r.speech);
  }

  /** A step that loses the k-th result on the way. */
  lemma LossKeeps(p: Path, q: Path, k: nat)
    requires Kept(p) && k < |Flow(p)| && q.received == p.received
    requires Speeches(Flow(q)) == Without(Speeches(Flow(p)), k)
    requires var r := Flow(p)[k];
             || (!r.speech.isFinal && q.dropped == p.dropped + [r] && q.givenUp == p.givenUp)
             || (q.dropped == p.dropped && q.givenUp == p.givenUp + [r])
    ensures Kept(q)
  {
    hide Subseq, Finals;
    var r := Flow(p)[k];
    SubseqWithout(Speeches(Flow(p)), Speeches(p.received), k);
    FinalsWithout(Speeches(Flow(p)), k);
    AppendSpeech(p.givenUp, r);
    FinalsAppend(Speeches(p.givenUp), r.speech);
  }

  lemma DeliverKeeps(p: Path, prefersDone: bool)
    requires Kept(p) && Bounded(p) && |p.hand| == 1
    ensures Kept(Delivered(p, prefersDone))
  {
    hide Kept, Without;
    var q := Delivered(p, prefersDone);
    var before := p.entered + p.pump + p.queue;
    assert Flow(p) == before + p.hand;
    match Offered(|p.queue| < p.capacity, p.pairDone || p.sessionDone, prefersDone, !p.hand[0].speech.isFinal)
    case Enters =>
      assert Flow(q) == Flow(p);
      MoveKeeps(p, q);
    case Waits =>
    case Drops => LastIsLost(p, q, before);
    case GivesUp => LastIsLost(p, q, before);
  }

  lemma LastIsLost(p: Path, q: Path, before: seq<Result>)
    requires Kept(p) && |p.hand| == 1 && Flow(p) == before + p.hand && Flow(q) == before && q.received == p.received
    requires var r := p.hand[0];
             || (!r.speech.isFinal && q.dropped == p.dropped + [r] && q.givenUp == p.givenUp)
             || (q.dropped == p.dropped && q.givenUp == p.givenUp + [r])
    ensures Kept(q)
  {
    hide Kept;
    assert Speeches(Flow(q)) == Without(Speeches(Flow(p)), |before|);
    LossKeeps(p, q, |before|);
  }

  lemma PumpTakeKeeps(p: Path, media: Media)
    requires Kept(p) && p.pump == [] && p.queue != []
    ensures Kept(p.(pump := [Filled(p, p.queue[0], media)], queue := p.queue[1..]))
  {
    hide Kept;
    var q := p.(pump := [Filled(p, p.queue[0], media)], queue := p.queue[1..]);
    assert Speeches(Flow(q)) == Speeches(Flow(p));
    MoveKeeps(p, q);
  }

  lemma PushKeeps(p: Path, room: bool, dropPartial: bool, prefersDone: bool)
    requires Kept(p) && Bounded(p) && |p.pump| == 1
    ensures Kept(Pushed(p, room, dropPartial, prefersDone))
  {
    hide Kept, Without;
    var q := Pushed(p, room, dropPartial, prefersDone);
    match PumpOffer(p, room, dropPartial, prefersDone)
    case Enters =>
      assert Flow(q) == Flow(p);
      MoveKeeps(p, q);
    case Waits =>
    case Drops => PumpedIsLost(p, q);
    case GivesUp => PumpedIsLost(p, q);
  }

  lemma PumpedIsLost(p: Path, q: Path)
    requires Kept(p) && |p.pump| == 1 && q.received == p.received
    requires q.entered == p.entered && q.pump == [] && q.queue == p.queue && q.hand == p.hand
    requires var r := p.pump[0];
             || (!r.speech.isFinal && q.dropped == p.dropped + [r] && q.givenUp == p.givenUp)
             || (q.dropped == p.dropped && q.givenUp == p.givenUp + [r])
    ensures Kept(q)
  {
    hide Kept;
    assert Flow(p)[|p.entered|] == p.pump[0];
    assert Speeches(Flow(q)) == Without(Speeches(Flow(p)), |p.entered|);
    LossKeeps(p, q, |p.entered|);
  }

  lemma TakeInKeeps(p: Path, r: Result)
    requires Kept(p) && p.hand == []
    ensures Kept(p.(hand := [r], received := p.received + [r]))
  {
    hide Kept;
    var q := p.(hand := [r], received := p.received + [r]);
    assert Flow(q) == Flow(p) + [r];
    ReceiveKeeps(p, q, r);
  }

  /** A step that touches only what is not on the way. */
  lemma SameFlowKeeps(p: Path, q: Path)
    requires Kept(p) && q.entered == p.entered && q.pump == p.pump && q.queue == p.queue && q.hand == p.hand
    requires q.received == p.received && q.dropped == p.dropped && q.givenUp == p.givenUp
    ensures Kept(q)
  {
  }

  lemma StepStaysBounded(p: Path, op: PathOp, room: bool, dropPartial: bool)
    requires Bounded(p)
    ensures Bounded(PathStep(p, op, room, dropPartial))
  {
    hide Filled;
  }

  lemma PathStepKeeps(p: Path, op: PathOp, room: bool, dropPartial: bool)
    requires Kept(p) && Bounded(p)
    ensures Kept(PathStep(p, op, room, dropPartial)) && Bounded(PathStep(p, op, room, dropPartial))
  {
    hide Kept, Filled, Flow, Speeches, Delivered, Pushed;
    StepStaysBounded(p, op, room, dropPartial);
    var q := PathStep(p, op, room, dropPartial);
    match op
    case Receive(r) => if p.receiving && p.hand == [] { TakeInKeeps(p, r); }
    case Deliver(prefersDone) => if |p.hand| == 1 { DeliverKeeps(p, prefersDone); }
    case PumpTake(media) => if p.pump == [] && p.queue != [] { PumpTakeKeeps(p, media); }
    case PumpPush(prefersDone) => if |p.pump| == 1 { PushKeeps(p, room, dropPartial, prefersDone); }
    case ReceiveFails => SameFlowKeeps(p, q);
    case Reconnected => SameFlowKeeps(p, q);
    case CancelPair => SameFlowKeeps(p, q);
    case CancelSession => SameFlowKeeps(p, q);
  }

  lemma NewPathKept(id: string, streamID: string, sourceType: string, capacity: nat)
    ensures Kept(NewPath(id, streamID, sourceType, capacity)) && Bounded(NewPath(id, streamID, sourceType, capacity))
  {
    var p := NewPath(id, streamID, sourceType, capacity);
    assert Speeches(Flow(p)) == [] && Speeches(p.received) == [];
  }

  lemma {:induction false} RunKeeps(queueSize: nat, dropPartial: bool, hs: History, i: nat)
    requires i < |Run(queueSize, dropPartial, hs).paths|
    ensures Kept(Run(queueSize, dropPartial, hs).paths[i]) && Bounded(Run(queueSize, dropPartial, hs).paths[i])
  {
    hide Kept, Bounded, PathStep;
    match hs
    case Then(past, op) =>
      var s := Run(queueSize, dropPartial, past);
      if i < |s.paths| {
        RunKeeps(queueSize, dropPartial, past, i);
        if op.On? && op.i == i {
          PathStepKeeps(s.paths[i], op.op, |s.queue| < s.queueSize, s.dropPartialWhenFull);
        }
      } else {
        NewPathKept(op.id, op.streamID, op.sourceType, op.capacity);
      }
    case Begin =>
  }

  // ---- Main results ----

  /** On every run and for every session, what entered the dispatcher's queue, or is still on its
      way to it, is an in-order subsequence of what was received; everything else was dropped,
      and was then partial, or given up; and no final is missing if and only if none was given
      up. */
  lemma FinalsSurvive(queueSize: nat, dropPartial: bool, hs: History, i: nat)
    requires i < |Run(queueSize, dropPartial, hs).paths|
    ensures var p := Run(queueSize, dropPartial, hs).paths[i];
            var flow, all := Speeches(Flow(p)), Speeches(p.received);
            && Subseq(flow, all)
            && |all| == |flow| + |p.dropped| + |p.givenUp| && Partial(p.dropped)
            && |Finals(all)| - |Finals(flow)| == |Finals(Speeches(p.givenUp))|
            && (Finals(flow) == Finals(all) <==> Finals(Speeches(p.givenUp)) == [])
  {
    RunKeeps(queueSize, dropPartial, hs, i);
    hide Run, Subseq, Finals;
    var p := Run(queueSize, dropPartial, hs).paths[i];
    var flow, all := Speeches(Flow(p)), Speeches(p.received);
    FinalsOfSubseq(flow, all);
    SubseqLength(Finals(flow), Finals(all));
  }

  lemma NoFinals()
    ensures Speeches([]) == [] && Finals([]) == []
  {
  }

  /** The session lives, and no pair is cancelled before its receive loop has ended by itself. */
  predicate NeverCutOff(queueSize: nat, dropPartial: bool, hs: History, i: nat) {
    match hs
    case Begin => true
    case Then(past, op) =>
      var s := Run(queueSize, dropPartial, past);
      && NeverCutOff(queueSize, dropPartial, past, i)
      && (op.On? && op.i == i && i < |s.paths| ==>
            !op.op.CancelSession? && (op.op.CancelPair? ==> !s.paths[i].receiving))
  }

  predicate Uncut(p: Path) {
    p.givenUp == [] && !p.sessionDone && (p.pairDone ==> !p.receiving) && (!p.receiving ==> p.hand == [])
  }

  lemma UncutStep(p: Path, op: PathOp, room: bool, dropPartial: bool)
    requires Uncut(p) && !op.CancelSession? && (op.CancelPair? ==> !p.receiving)
    ensures Uncut(PathStep(p, op, room, dropPartial))
  {
    hide Filled;
  }

  lemma {:induction false} RunUncut(queueSize: nat, dropPartial: bool, hs: History, i: nat)
    requires i < |Run(queueSize, dropPartial, hs).paths| && NeverCutOff(queueSize, dropPartial, hs, i)
    ensures Uncut(Run(queueSize, dropPartial, hs).paths[i])
  {
    hide PathStep, Entering;
    match hs
    case Then(past, op) =>
      var s := Run(queueSize, dropPartial, past);
      if i < |s.paths| {
        RunUncut(queueSize, dropPartial, past, i);
        if op.On? && op.i == i {
          UncutStep(s.paths[i], op.op, |s.queue| < s.queueSize, s.dropPartialWhenFull);
        }
      }
    case Begin =>
  }

  /** Unless a receive loop is cut off, reconnects included, once a session's results have left its
      queues, the dispatcher's queue has seen every final that was received, in that order. */
  lemma EveryFinalArrives(queueSize: nat, dropPartial: bool, hs: History, i: nat)
    requires i < |Run(queueSize, dropPartial, hs).paths| && NeverCutOff(queueSize, dropPartial, hs, i)
    requires var p := Run(queueSize, dropPartial, hs).paths[i]; p.hand == [] && p.queue == [] && p.pump == []
    ensures var p := Run(queueSize, dropPartial, hs).paths[i];
            Finals(Speeches(p.entered)) == Finals(Speeches(p.received))
  {
    RunUncut(queueSize, dropPartial, hs, i);
    FinalsSurvive(queueSize, dropPartial, hs, i);
    NoFinals();
    hide Run, Subseq, Finals;
    assert Flow(Run(queueSize, dropPartial, hs).paths[i]) == Run(queueSize, dropPartial, hs).paths[i].entered;
  }

  /** When a step loses a result, its queue is full and the result partial, or its context is done. */
  lemma LossesHaveReasons(p: Path, op: PathOp, room: bool, dropPartial: bool)
    requires Bounded(p)
    ensures var q := PathStep(p, op, room, dropPartial);
            && (q.dropped != p.dropped ==>
                  || (op.Deliver? && |p.queue| == p.capacity && q.dropped == p.dropped + p.hand && Partial(p.hand))
                  || (op.PumpPush? && !room && dropPartial && q.dropped == p.dropped + p.pump && Partial(p.pump)))
            && (q.givenUp != p.givenUp ==>
                  || (op.Deliver? && (p.pairDone || p.sessionDone) && q.givenUp == p.givenUp + p.hand)
                  || (op.PumpPush? && p.sessionDone && q.givenUp == p.givenUp + p.pump))
  {
    hide Filled;
    if op.Deliver? && |p.hand| == 1 {
      assert p.hand == [p.hand[0]];
    } else if op.PumpPush? && |p.pump| == 1 {
      assert p.pump == [p.pump[0]];
    }
  }

  // ---- The shared queue ----

  /** The results of session `i` among the items. */
  function OfSession(items: seq<Item>, i: nat): seq<Result> {
    if items == [] then []
    else
      var m := |items| - 1;
      OfSession(items[..m], i) + if items[m].session == i then [items[m].r] else []
  }

  lemma OfSessionAppend(items: seq<Item>, x: Item, i: nat)
    ensures OfSession(items + [x], i) == OfSession(items, i) + if x.session == i then [x.r] else []
  {
    assert (items + [x])[..|items|] == items;
  }

  ghost predicate Queued(s: State) {
    && |s.queue| <= s.queueSize
    && (forall i: nat :: i < |s.paths| ==> OfSession(s.taken + s.queue, i) == s.paths[i].entered)
    && (forall k :: 0 <= k < |s.taken + s.queue| ==> (s.taken + s.queue)[k].session < |s.paths|)
  }

  lemma {:induction false} OfSessionNone(items: seq<Item>, i: nat)
    requires forall k :: 0 <= k < |items| ==> items[k].session < i
    ensures OfSession(items, i) == []
  {
    if items != [] {
      OfSessionNone(items[..|items| - 1], i);
    }
  }

  lemma EnteredByStep(p: Path, op: PathOp, room: bool, dropPartial: bool, i: nat)
    ensures var q := PathStep(p, op, room, dropPartial);
            if |q.entered| > |p.entered|
            then room && Entering(i, p, q) != [] && q.entered == p.entered + [Entering(i, p, q)[0].r]
            else q.entered == p.entered && Entering(i, p, q) == []
  {
  }

  lemma OnKeepsQueued(s: State, i: nat, op: PathOp)
    requires Queued(s) && i < |s.paths|
    ensures Queued(Step(s, On(i, op)))
  {
    var t := Step(s, On(i, op));
    var p := s.paths[i];
    EnteredByStep(p, op, |s.queue| < s.queueSize, s.dropPartialWhenFull, i);
    hide PathStep, OfSession;
    var items := s.taken + s.queue;
    var added := Entering(i, p, t.paths[i]);
    assert t.taken + t.queue == items + added;
    if added == [] {
      assert t.taken + t.queue == items;
    } else {
      forall j: nat | j < |s.paths|
        ensures OfSession(items + added, j) == t.paths[j].entered
      {
        OfSessionAppend(items, added[0], j);
        assert added == [added[0]];
      }
    }
  }

  lemma JoinKeepsQueued(s: State, op: Op)
    requires Queued(s) && op.Join?
    ensures Queued(Step(s, op))
  {
    OfSessionNone(s.taken + s.queue, |s.paths|);
  }

  lemma WorkerKeepsQueued(s: State)
    requires Queued(s)
    ensures Queued(Step(s, WorkerTakes))
  {
    if s.queue != [] {
      var t := Step(s, WorkerTakes);
      assert t.taken + t.queue == s.taken + s.queue;
    }
  }

  lemma StepQueued(s: State, op: Op)
    requires Queued(s)
    ensures Queued(Step(s, op))
  {
    match op
    case On(i, pop) => if i < |s.paths| { OnKeepsQueued(s, i, pop); }
    case Join(_, _, _, _) => JoinKeepsQueued(s, op);
    case WorkerTakes => WorkerKeepsQueued(s);
  }

  lemma {:induction false} RunQueued(queueSize: nat, dropPartial: bool, hs: History)
    ensures Queued(Run(queueSize, dropPartial, hs))
  {
    match hs
    case Begin =>
    case Then(past, op) =>
      RunQueued(queueSize, dropPartial, past);
      StepQueued(Run(queueSize, dropPartial, past), op);
  }

  /** The shared queue never overflows, and what workers have taken or will take of a session is
      exactly what that session entered, in order. */
  lemma SharedQueueKeepsOrder(queueSize: nat, dropPartial: bool, hs: History, i: nat)
    requires i < |Run(queueSize, dropPartial, hs).paths|
    ensures var s := Run(queueSize, dropPartial, hs);
            |s.queue| <= queueSize && OfSession(s.taken + s.queue, i) == s.paths[i].entered
  {
    RunQueued(queueSize, dropPartial, hs);
    RunKeepsConfig(queueSize, dropPartial, hs);
  }

  lemma {:induction false} RunKeepsConfig(queueSize: nat, dropPartial: bool, hs: History)
    ensures Run(queueSize, dropPartial, hs).queueSize == queueSize
  {
    match hs
    case Begin =>
    case Then(past, _) => RunKeepsConfig(queueSize, dropPartial, past);
  }

  /** The received result `o` as it enters the dispatcher's queue: what the worker left blank is filled in,
      everything else is as it was. */
  predicate ComesFrom(p: Path, o: Result, r: Result) {
    && r.speech == o.speech
    && (o.sessionID != "" ==> r.sessionID == o.sessionID) && (o.sessionID == "" ==> r.sessionID == p.id)
    && (o.streamID != "" ==> r.streamID == o.streamID) && (o.streamID == "" ==> r.streamID == p.streamID)
    && (o.sourceType != "" ==> r.sourceType == o.sourceType) && (o.sourceType == "" ==> r.sourceType == p.sourceType)
    && (o.media != NoMedia ==> r.media == o.media)
  }

  ghost predicate Stems(p: Path, r: Result) {
    exists o: Result :: o in p.received && ComesFrom(p, o, r)
  }

  ghost predicate Addressed(p: Path, rs: seq<Result>) {
    forall k :: 0 <= k < |rs| ==> Stems(p, rs[k])
  }

  predicate Known(p: Path, rs: seq<Result>) {
    forall k :: 0 <= k < |rs| ==> rs[k] in p.received
  }

  ghost predicate Traced(p: Path) {
    Addressed(p, p.entered) && Addressed(p, p.pump) && Known(p, p.queue) && Known(p, p.hand)
  }

  /** The pump looks up the media of the session only for a result that has none. */
  lemma FilledComesFrom(p: Path, r: Result, media: Media)
    ensures ComesFrom(p, r, Filled(p, r, media))
    ensures r.media == NoMedia ==> Filled(p, r, media).media == media
  {
  }

  lemma TracedStays(p: Path, q: Path, rs: seq<Result>)
    requires Addressed(p, rs) && q.id == p.id && q.streamID == p.streamID && q.sourceType == p.sourceType
    requires forall o :: o in p.received ==> o in q.received
    ensures Addressed(q, rs)
  {
    forall k | 0 <= k < |rs|
      ensures Stems(q, rs[k])
    {
      assert Stems(p, rs[k]);
      var o :| o in p.received && ComesFrom(p, o, rs[k]);
      assert ComesFrom(q, o, rs[k]);
    }
  }

  lemma TracedStep(p: Path, op: PathOp, room: bool, dropPartial: bool)
    requires Traced(p)
    ensures Traced(PathStep(p, op, room, dropPartial))
  {
    hide Filled, ComesFrom, Addressed, Delivered, Pushed;
    var q := PathStep(p, op, room, dropPartial);
    match op
    case Deliver(prefersDone) => if |p.hand| == 1 { DeliverIsTraced(p, prefersDone); }
    case PumpTake(media) => if p.pump == [] && p.queue != [] { TakeIsTraced(p, q, media); }
    case PumpPush(prefersDone) => if |p.pump| == 1 { PushIsTraced(p, room, dropPartial, prefersDone); }
    case Receive(r) => TracedStays(p, q, p.entered); TracedStays(p, q, p.pump);
    case ReceiveFails =>  TracedStays(p, q, p.entered); TracedStays(p, q, p.pump);
    case Reconnected => TracedStays(p, q, p.entered); TracedStays(p, q, p.pump);
    case CancelPair => TracedStays(p, q, p.entered); TracedStays(p, q, p.pump);
    case CancelSession => TracedStays(p, q, p.entered); TracedStays(p, q, p.pump);
  }

  lemma DeliverIsTraced(p: Path, prefersDone: bool)
    requires Traced(p) && |p.hand| == 1
    ensures Traced(Delivered(p, prefersDone))
  {
    hide ComesFrom, Addressed;
    var q := Delivered(p, prefersDone);
    TracedStays(p, q, p.entered);
    TracedStays(p, q, p.pump);
    assert forall r :: r in p.queue + [p.hand[0]] ==> r in p.received;
  }

  lemma TakeIsTraced(p: Path, q: Path, media: Media)
    requires Traced(p) && p.pump == [] && p.queue != []
    requires q == p.(pump := [Filled(p, p.queue[0], media)], queue := p.queue[1..])
    ensures Traced(q)
  {
    hide ComesFrom, Addressed, Filled;
    TracedStays(p, q, p.entered);
    FilledComesFrom(p, p.queue[0], media);
    FilledIsTraced(p, p.queue[0], q.pump[0]);
    TracedStays(p, q, q.pump);
  }

  lemma PushIsTraced(p: Path, room: bool, dropPartial: bool, prefersDone: bool)
    requires Traced(p) && |p.pump| == 1
    ensures Traced(Pushed(p, room, dropPartial, prefersDone))
  {
    hide ComesFrom, Addressed, PumpOffer;
    var q := Pushed(p, room, dropPartial, prefersDone);
    PumpedIsTraced(p, p.entered, p.pump);
    assert p.pump == [p.pump[0]];
    TracedStays(p, q, q.entered);
    TracedStays(p, q, q.pump);
  }

  lemma NothingTraced(p: Path)
    ensures Addressed(p, [])
  {
  }

  lemma FilledIsTraced(p: Path, o: Result, r: Result)
    requires o in p.received && ComesFrom(p, o, r)
    ensures Addressed(p, [r])
  {
  }

  lemma PumpedIsTraced(p: Path, a: seq<Result>, b: seq<Result>)
    requires Addressed(p, a) && Addressed(p, b)
    ensures Addressed(p, a + b) && Addressed(p, [])
  {
    hide Stems;
  }

  /** Main result: on every run what enters the dispatcher's queue, or is on the pump, is a result that was
      received, with the address and the media that the worker gave it, and the session's where it gave none. */
  lemma {:induction false} EnteredAreAddressed(queueSize: nat, dropPartial: bool, hs: History, i: nat)
    requires i < |Run(queueSize, dropPartial, hs).paths|
    ensures Traced(Run(queueSize, dropPartial, hs).paths[i])
  {
    hide PathStep, Entering, Addressed;
    match hs
    case Then(past, op) =>
      var s := Run(queueSize, dropPartial, past);
      if i < |s.paths| {
        EnteredAreAddressed(queueSize, dropPartial, past, i);
        if op.On? && op.i == i {
          TracedStep(s.paths[i], op.op, |s.queue| < s.queueSize, s.dropPartialWhenFull);
        }
      } else {
        var p := Run(queueSize, dropPartial, hs).paths[i];
        assert p.entered == p.pump == p.queue == p.hand == [];
        NothingTraced(p);
      }
    case Begin =>
  }

  // ---- Every step that may happen does ----

  /** The receive loop, exactly: when it takes a result, ends, starts again, and when its contexts are done. */
  lemma ReceiveLoop(p: Path, op: PathOp, room: bool, dropPartial: bool)
    requires Bounded(p)
    ensures var q := PathStep(p, op, room, dropPartial);
            && (if op.Receive? && p.receiving && p.hand == [] then q.hand == [op.r] && q.received == p.received + [op.r]
                else q.received == p.received)
            && (p.receiving && !q.receiving <==>
                  p.receiving && ((op.ReceiveFails? && p.hand == []) || (op.Deliver? && q.givenUp != p.givenUp)))
            && (!p.receiving && q.receiving <==>
                  op.Reconnected? && !p.receiving && p.hand == [] && !p.sessionDone)
            && (q.sessionDone <==> p.sessionDone || op.CancelSession?)
            && (q.pairDone <==> op.CancelPair? || (p.pairDone && (p.receiving || !q.receiving)))
  {
    hide Filled;
    if op.Deliver? && |p.hand| == 1 {
      assert |p.givenUp + [p.hand[0]]| == |p.givenUp| + 1;
    }
  }

  /** A new session receives, and nothing of it is on the way. */
  lemma JoinAdds(s: State, op: Op)
    requires op.Join?
    ensures var t := Step(s, op);
            && |t.paths| == |s.paths| + 1 && t.queue == s.queue && t.taken == s.taken
            && (forall i :: 0 <= i < |s.paths| ==> t.paths[i] == s.paths[i])
            && var p := t.paths[|s.paths|];
               p.id == op.id && p.capacity == op.capacity && p.receiving && !p.pairDone && !p.sessionDone
               && p.received == [] && Flow(p) == []
  {
  }

  /** The steps that move results of session `i` on. */
  predicate MovesOn(op: Op, i: nat) {
    op.WorkerTakes? || (op.On? && op.i == i && (op.op.Deliver? || op.op.PumpTake? || op.op.PumpPush?))
  }

  predicate DrainsFrom(hs: History, past: History, i: nat) {
    hs == past || (hs.Then? && MovesOn(hs.op, i) && DrainsFrom(hs.past, past, i))
  }

  predicate Drained(p: Path) {
    p.hand == [] && p.queue == [] && p.pump == []
  }

  /** What is left to do for the results of a session on their way to the shared queue. */
  function Left(p: Path): nat {
    4 * |p.hand| + 3 * |p.queue| + 2 * |p.pump|
  }

  function OnTheWay(s: State, i: nat): nat
    requires i < |s.paths|
  {
    Left(s.paths[i]) + |s.queue|
  }

  /** What brings a session's results nearer to the workers, as long as the shared queue has room. */
  function NextPathMove(p: Path): PathOp {
    if p.pump != [] then PumpPush(false) else if p.queue != [] then PumpTake(NoMedia) else Deliver(false)
  }

  function NextMove(s: State, i: nat): Op
    requires i < |s.paths|
  {
    if |s.queue| >= s.queueSize then WorkerTakes else On(i, NextPathMove(s.paths[i]))
  }

  lemma PathMoveBrings(p: Path, dropPartial: bool)
    requires Bounded(p) && p.capacity > 0 && !Drained(p)
    ensures var q := PathStep(p, NextPathMove(p), true, dropPartial);
            && q.capacity == p.capacity && q.received == p.received
            && Left(q) + (if |q.entered| > |p.entered| then 1 else 0) < Left(p)
  {
    hide Filled;
  }

  lemma MoveBrings(s: State, i: nat)
    requires i < |s.paths| && s.queueSize > 0 && Bounded(s.paths[i]) && s.paths[i].capacity > 0 && !Drained(s.paths[i])
    ensures var t := Step(s, NextMove(s, i));
            && t.queueSize == s.queueSize && |t.paths| == |s.paths| && t.paths[i].capacity == s.paths[i].capacity
            && OnTheWay(t, i) < OnTheWay(s, i) && t.paths[i].received == s.paths[i].received
  {
    hide PathStep, NextPathMove, Left;
    if |s.queue| < s.queueSize {
      PathMoveBrings(s.paths[i], s.dropPartialWhenFull);
    }
  }

  lemma {:induction false} CanDrain(queueSize: nat, dropPartial: bool, hs: History, i: nat) returns (more: History)
    requires i < |Run(queueSize, dropPartial, hs).paths|
    requires queueSize > 0 && Run(queueSize, dropPartial, hs).paths[i].capacity > 0
    ensures DrainsFrom(more, hs, i) && i < |Run(queueSize, dropPartial, more).paths|
    ensures var p := Run(queueSize, dropPartial, more).paths[i];
            Drained(p) && p.received == Run(queueSize, dropPartial, hs).paths[i].received
    ensures NeverCutOff(queueSize, dropPartial, hs, i) ==> NeverCutOff(queueSize, dropPartial, more, i)
    decreases OnTheWay(Run(queueSize, dropPartial, hs), i)
  {
    hide Step;
    var s := Run(queueSize, dropPartial, hs);
    if Drained(s.paths[i]) {
      more := hs;
    } else {
      RunKeeps(queueSize, dropPartial, hs, i);
      RunKeepsConfig(queueSize, dropPartial, hs);
      MoveBrings(s, i);
      var next := Then(hs, NextMove(s, i));
      more := CanDrain(queueSize, dropPartial, next, i);
      DrainsOn(more, next, hs, i);
    }
  }

  lemma {:induction false} DrainsOn(hs: History, past: History, earlier: History, i: nat)
    requires DrainsFrom(hs, past, i) && DrainsFrom(past, earlier, i)
    ensures DrainsFrom(hs, earlier, i)
  {
    if hs != past {
      DrainsOn(hs.past, past, earlier, i);
    }
  }

  /** Main result: from every point of every run in which the receive loop of a session is not cut off, the
      pump, the receive loop and the workers can bring to the dispatcher exactly the finals received so far. */
  lemma FinalsCanArrive(queueSize: nat, dropPartial: bool, hs: History, i: nat) returns (more: History)
    requires i < |Run(queueSize, dropPartial, hs).paths| && NeverCutOff(queueSize, dropPartial, hs, i)
    requires queueSize > 0 && Run(queueSize, dropPartial, hs).paths[i].capacity > 0
    ensures DrainsFrom(more, hs, i) && i < |Run(queueSize, dropPartial, more).paths|
    ensures Finals(Speeches(Run(queueSize, dropPartial, more).paths[i].entered))
         == Finals(Speeches(Run(queueSize, dropPartial, hs).paths[i].received))
  {
    more := CanDrain(queueSize, dropPartial, hs, i);
    EveryFinalArrives(queueSize, dropPartial, more, i);
  }
}
