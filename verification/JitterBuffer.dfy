/** The per-session jitter buffer: a packet heap plus the hold, release and loss
    state machine driven by clock ticks. Times are in nanoseconds. */
module JitterBuffer {
  import opened SequenceNumbers
  import opened PacketHeap

  const NANOS_PER_MS := 1_000_000

  datatype Config = Config(bufferMs: int, maxLateMs: int)

  datatype State = State(
    h: seq<Entry>,
    started: bool, firstAt: int,
    nextSet: bool, nextExpected: Seq16, holdUntil: int,
    hasProcessed: bool, lastProcessed: Seq16,
    received: nat, released: nat, dropped: nat, lost: nat)

  const INITIAL := State([], false, 0, false, 0, 0, false, 0, 0, 0, 0, 0)

  /** What one turn of the release loop did. */
  datatype Outcome =
    | Sent(pkt: Packet)      // delivered to the output channel
    | Overflow(pkt: Packet)  // its turn came, but the output channel was full
    | Stale(pkt: Packet)     // behind nextExpected: discarded
    | Lost(number: Seq16, at: int)

  function BufferNanos(cfg: Config): int {
    cfg.bufferMs * NANOS_PER_MS
  }

  // ---- Specification of Push and flush as state transformers ----

  function PushStep(cfg: Config, s: State, pkt: Packet, now: int): (State, bool) {
    if now - pkt.receivedAtMs * NANOS_PER_MS > cfg.maxLateMs * NANOS_PER_MS then
      (s.(dropped := s.dropped + 1), false)
    else if s.hasProcessed && SeqDiff(pkt.sequence, s.lastProcessed) <= 0 then
      (s.(dropped := s.dropped + 1), false)
    else
      (s.(h := Pushed(s.h, Entry(pkt, now)),
          received := s.received + 1,
          firstAt := if s.started then s.firstAt else now,
          started := true), true)
  }

  /** The release loop ends: nothing is buffered, or the next number is missing and
      may still come. */
  predicate Stops(s: State, now: int) {
    |s.h| == 0 || (SeqDiff(s.h[0].pkt.sequence, s.nextExpected) > 0 && now <= s.holdUntil)
  }

  predicate Sends(s: State)
    requires |s.h| > 0
  {
    s.h[0].pkt.sequence == s.nextExpected
  }

  /** One turn of the release loop; `ok` tells whether the output has room. */
  function Turn(cfg: Config, s: State, now: int, ok: bool): (r: (State, Outcome))
    requires !Stops(s, now)
  {
    var top := s.h[0].pkt;
    if Sends(s) then
      (s.(h := Popped(s.h),
          released := if ok then s.released + 1 else s.released,
          dropped := if ok then s.dropped else s.dropped + 1,
          lastProcessed := s.nextExpected, hasProcessed := true,
          nextExpected := Next(s.nextExpected),
          holdUntil := now + BufferNanos(cfg)),
       if ok then Sent(top) else Overflow(top))
    else if SeqDiff(top.sequence, s.nextExpected) < 0 then
      (s.(h := Popped(s.h), dropped := s.dropped + 1), Stale(top))
    else
      (s.(lastProcessed := s.nextExpected, hasProcessed := true,
          lost := s.lost + 1,
          nextExpected := Next(s.nextExpected),
          holdUntil := now + BufferNanos(cfg)),
       Lost(s.nextExpected, now))
  }

  /** Every turn shrinks the heap or, when a loss is declared, the gap up to its root. */
  lemma TurnShrinks(cfg: Config, s: State, now: int, ok: bool)
    requires !Stops(s, now)
    ensures var t := Turn(cfg, s, now, ok).0; |t.h| < |s.h| || (t.h == s.h && Gap(t) < Gap(s))
  {
  }

  function HasRoom(room: seq<bool>): bool {
    |room| > 0 && room[0]
  }

  function RoomAfter(s: State, room: seq<bool>): seq<bool>
    requires |s.h| > 0
  {
    if Sends(s) && |room| > 0 then room[1..] else room
  }

  /** Distance from nextExpected up to the root: what a loss step shrinks. */
  function Gap(s: State): nat {
    if |s.h| > 0 then Ahead(s.h[0].pkt.sequence, s.nextExpected) else 0
  }

  /** The release loop. `room[k]` tells whether the k-th send of this flush finds room
      in the output channel; a send past the end of `room` finds none. */
  function Release(cfg: Config, s: State, now: int, room: seq<bool>): (r: (State, seq<Outcome>))
    decreases |s.h|, Gap(s)
  {
    if Stops(s, now) then (s, [])
    else
      var (s1, o) := Turn(cfg, s, now, HasRoom(room));
      var (s2, rest) := Release(cfg, s1, now, RoomAfter(s, room));
      (s2, [o] + rest)
  }

  /** One turn of the loop, which then has less left to do. */
  lemma ReleaseUnfolds(cfg: Config, s: State, now: int, room: seq<bool>)
    ensures Stops(s, now) ==> Release(cfg, s, now, room) == (s, [])
    ensures !Stops(s, now) ==>
              var (t, o) := Turn(cfg, s, now, HasRoom(room));
              var (u, rest) := Release(cfg, t, now, RoomAfter(s, room));
              && (|t.h| < |s.h| || (t.h == s.h && Gap(t) < Gap(s)))
              && Release(cfg, s, now, room) == (u, [o] + rest)
  {
    hide Turn;
    if !Stops(s, now) {
      TurnShrinks(cfg, s, now, HasRoom(room));
    }
  }

  /** A release loop begun in `begun` has logged `done` and stands in `s`. */
  predicate Continues(cfg: Config, begun: State, now: int, room: seq<bool>,
                      done: seq<Outcome>, s: State, left: seq<bool>)
  {
    var rest := Release(cfg, s, now, left);
    Release(cfg, begun, now, room) == (rest.0, done + rest.1)
  }

  lemma ContinuesFirst(cfg: Config, begun: State, now: int, room: seq<bool>)
    ensures Continues(cfg, begun, now, room, [], begun, room)
  {
    assert [] + Release(cfg, begun, now, room).1 == Release(cfg, begun, now, room).1;
  }

  lemma ContinuesLast(cfg: Config, begun: State, now: int, room: seq<bool>,
                      done: seq<Outcome>, s: State, left: seq<bool>)
    requires Continues(cfg, begun, now, room, done, s, left) && Stops(s, now)
    ensures Release(cfg, begun, now, room) == (s, done)
  {
    assert done + [] == done;
  }

  lemma ContinuesAfterTurn(cfg: Config, begun: State, now: int, room: seq<bool>,
                           done: seq<Outcome>, s: State, left: seq<bool>)
    requires Continues(cfg, begun, now, room, done, s, left) && !Stops(s, now)
    ensures var (t, o) := Turn(cfg, s, now, HasRoom(left));
            Continues(cfg, begun, now, room, done + [o], t, RoomAfter(s, left))
  {
    var (t, o) := Turn(cfg, s, now, HasRoom(left));
    var rest := Release(cfg, t, now, RoomAfter(s, left)).1;
    assert done + ([o] + rest) == (done + [o]) + rest;
  }

  predicate Waiting(cfg: Config, s: State, now: int) {
    !s.started || |s.h| == 0 || (!s.nextSet && now < s.firstAt + BufferNanos(cfg))
  }

  /** The start of a flush that gets past the accumulation window. */
  function Opened(cfg: Config, s: State, now: int): State
    requires |s.h| > 0
  {
    if s.nextSet then s
    else s.(nextExpected := s.h[0].pkt.sequence, nextSet := true, holdUntil := now + BufferNanos(cfg))
  }

  function FlushStep(cfg: Config, s: State, now: int, room: seq<bool>): (State, seq<Outcome>) {
    if Waiting(cfg, s, now) then (s, []) else Release(cfg, Opened(cfg, s, now), now, room)
  }

  // ---- The buffer object ----

  class Buffer {
    const cfg: Config
    const heap: Heap
    var started: bool
    var firstAt: int
    var nextSet: bool
    var nextExpected: Seq16
    var holdUntil: int
    var hasProcessed: bool
    var lastProcessed: Seq16
    var received: nat
    var released: nat
    var dropped: nat
    var lost: nat

    ghost function Model(): State
      reads this, heap
    {
      State(heap.entries, started, firstAt, nextSet, nextExpected, holdUntil,
            hasProcessed, lastProcessed, received, released, dropped, lost)
    }

    constructor (cfg: Config)
      ensures this.cfg == cfg && Model() == INITIAL && fresh(heap)
    {
      this.cfg := cfg;
      heap := new Heap();
      started, firstAt := false, 0;
      nextSet, nextExpected, holdUntil := false, 0, 0;
      hasProcessed, lastProcessed := false, 0;
      received, released, dropped, lost := 0, 0, 0, 0;
    }

    method Push(pkt: Packet, now: int) returns (kept: bool)
      modifies this, heap
      ensures (Model(), kept) == PushStep(cfg, old(Model()), pkt, now)
      ensures kept <==>
                && now - pkt.receivedAtMs * 1_000_000 <= cfg.maxLateMs * 1_000_000
                && (old(hasProcessed) ==> 0 < Ahead(pkt.sequence, old(lastProcessed)) < HALF_RANGE)
    {
      var age := now - pkt.receivedAtMs * NANOS_PER_MS;
      if age > cfg.maxLateMs * NANOS_PER_MS {
        dropped := dropped + 1;
        return false;
      }
      if hasProcessed && SeqDiff(pkt.sequence, lastProcessed) <= 0 {
        dropped := dropped + 1;
        return false;
      }
      heap.Push(Entry(pkt, now));
      received := received + 1;
      if !started {
        firstAt := now;
        started := true;
      }
      return true;
    }

    /** The body of the release loop, for a turn that does not end it. */
    method ReleaseTurn(now: int, ok: bool) returns (o: Outcome)
      requires !Stops(Model(), now)
      modifies this, heap
      ensures (Model(), o) == Turn(cfg, old(Model()), now, ok)
    {
      hide Popped, Gap;
      var bufDur := cfg.bufferMs * NANOS_PER_MS;
      var top := heap.entries[0].pkt;
      var diff := SeqDiff(top.sequence, nextExpected);
      if diff == 0 {
        var _ := heap.Pop();
        if ok {
          released := released + 1;
          o := Sent(top);
        } else {
          dropped := dropped + 1;
          o := Overflow(top);
        }
        lastProcessed := nextExpected;
        hasProcessed := true;
        nextExpected := Next(nextExpected);
        holdUntil := now + bufDur;
      } else if diff < 0 {
        var _ := heap.Pop();
        dropped := dropped + 1;
        o := Stale(top);
      } else {
        o := Lost(nextExpected, now);
        lastProcessed := nextExpected;
        hasProcessed := true;
        lost := lost + 1;
        nextExpected := Next(nextExpected);
        holdUntil := now + bufDur;
      }
    }

    method Flush(now: int, room: seq<bool>) returns (done: seq<Outcome>)
      modifies this, heap
      ensures (Model(), done) == FlushStep(cfg, old(Model()), now, room)
    {
      done := [];
      if !started || |heap.entries| == 0 {
        return;
      }
      var bufDur := cfg.bufferMs * NANOS_PER_MS;
      if !nextSet {
        if now < firstAt + bufDur {
          return;
        }
        nextExpected := heap.entries[0].pkt.sequence;
        nextSet := true;
        holdUntil := now + bufDur;
      }
      done := ReleaseLoop(now, room);
    }

    method ReleaseLoop(now: int, room: seq<bool>) returns (done: seq<Outcome>)
      modifies this, heap
      ensures (Model(), done) == Release(cfg, old(Model()), now, room)
    {
      hide Release, Continues, Turn;
      done := [];
      ghost var begun, gap := Model(), Gap(Model());
      var left := room;
      ContinuesFirst(cfg, begun, now, room);
      while |heap.entries| > 0
        invariant Continues(cfg, begun, now, room, done, Model(), left)
        invariant gap == Gap(Model())
        decreases |heap.entries|, gap
      {
        var diff := SeqDiff(heap.entries[0].pkt.sequence, nextExpected);
        if diff > 0 && now <= holdUntil {
          break;
        }
        ContinuesAfterTurn(cfg, begun, now, room, done, Model(), left);
        TurnShrinks(cfg, Model(), now, |left| > 0 && left[0]);
        var sends := diff == 0;
        var o := ReleaseTurn(now, |left| > 0 && left[0]);
        done := done + [o];
        if sends && |left| > 0 {
          left := left[1..];
        }
        gap := Gap(Model());
      }
      ContinuesLast(cfg, begun, now, room, done, Model(), left);
    }
  }
}
