/** Re-blocking of PCM into chunks of fixed length, each stamped with the RTP timestamp of the
    packet that supplied its first sample. */
module Chunker {
  import opened Basics
  import opened Pcm

  datatype Config = Config(sampleRate: int, channels: int, chunkMs: int, sessionID: string, streamID: string)

  datatype Chunk = Chunk(sessionID: string, streamID: string, pcm: seq<Byte>,
                         sampleRate: int, channels: int, rtpTimestamp: nat, durationMs: int)

  function ChunkSamples(cfg: Config): int {
    TruncDiv(cfg.sampleRate * cfg.chunkMs, 1000)
  }

  /** A chunk of that many samples lasts chunkMs milliseconds, cut off to whole samples. */
  lemma ChunkSizeIsDuration(cfg: Config)
    requires cfg.sampleRate >= 0 && cfg.chunkMs >= 0
    ensures var c := ChunkSamples(cfg); c * 1000 <= cfg.sampleRate * cfg.chunkMs < (c + 1) * 1000
  {
    DivisionTruncates(cfg.sampleRate * cfg.chunkMs, 1000);
  }

  function EffectiveChannels(cfg: Config): int {
    if cfg.channels <= 0 then 1 else cfg.channels
  }

  // ---- Reference: a buffer of samples that each know their packet ----

  datatype Tagged = Tagged(sample: Sample, ts: nat)

  function Tag(pcm: seq<Sample>, ts: nat): (t: seq<Tagged>)
    ensures |t| == |pcm|
  {
    seq(|pcm|, i requires 0 <= i < |pcm| => Tagged(pcm[i], ts))
  }

  function Untag(t: seq<Tagged>): (pcm: seq<Sample>)
    ensures |pcm| == |t|
  {
    seq(|t|, i requires 0 <= i < |t| => t[i].sample)
  }

  /** Splits off blocks of `c` samples as long as there are enough. */
  function Cut(c: nat, t: seq<Tagged>): (r: (seq<seq<Tagged>>, seq<Tagged>))
    requires c > 0
    ensures |r.1| < c
  {
    if |t| < c then ([], t)
    else
      var (blocks, rest) := Cut(c, t[c..]);
      ([t[..c]] + blocks, rest)
  }

  /** The chunk that carries a block. */
  function ChunkOf(cfg: Config, block: seq<Tagged>): Chunk
    requires block != [] && cfg.sampleRate > 0
  {
    Chunk(cfg.sessionID, cfg.streamID, Bytes(Untag(block)), cfg.sampleRate, EffectiveChannels(cfg),
          block[0].ts, TruncDiv(|block| * 1000, cfg.sampleRate))
  }

  /** A chunk tells its session, stream, rate and channels (one if none are configured), and the time
      that its samples last, cut off to whole milliseconds. */
  lemma ChunkTells(cfg: Config, block: seq<Tagged>)
    requires block != [] && cfg.sampleRate > 0
    ensures var k := ChunkOf(cfg, block);
            && k.sessionID == cfg.sessionID && k.streamID == cfg.streamID && k.sampleRate == cfg.sampleRate
            && k.channels >= 1 && (cfg.channels >= 1 ==> k.channels == cfg.channels)
            && (cfg.channels < 1 ==> k.channels == 1)
            && k.durationMs * cfg.sampleRate <= |block| * 1000 < (k.durationMs + 1) * cfg.sampleRate
  {
    var ms := TruncDiv(|block| * 1000, cfg.sampleRate);
    DivisionTruncates(|block| * 1000, cfg.sampleRate);
    assert (ms + 1) * cfg.sampleRate == ms * cfg.sampleRate + cfg.sampleRate;
  }

  predicate Carry(cfg: Config, chunks: seq<Chunk>, blocks: seq<seq<Tagged>>)
    requires cfg.sampleRate > 0
  {
    |chunks| == |blocks| && forall i :: 0 <= i < |blocks| ==> blocks[i] != [] && chunks[i] == ChunkOf(cfg, blocks[i])
  }

  lemma {:induction false} CutBlocksAreFull(c: nat, t: seq<Tagged>, i: nat)
    requires c > 0 && i < |Cut(c, t).0|
    ensures |Cut(c, t).0[i]| == c
    decreases i
  {
    if i > 0 {
      CutBlocksAreFull(c, t[c..], i - 1);
    }
  }

  /** One block, or none. */
  lemma CutStep(c: nat, t: seq<Tagged>)
    requires c > 0
    ensures Cut(c, t) == if |t| < c then ([], t) else ([t[..c]] + Cut(c, t[c..]).0, Cut(c, t[c..]).1)
  {
  }

  /** Blocks cut off before a cut are its first blocks. */
  lemma CutMore(c: nat, t: seq<Tagged>, blocks: seq<seq<Tagged>>)
    requires 0 < c <= |t|
    ensures blocks + Cut(c, t).0 == (blocks + [t[..c]]) + Cut(c, t[c..]).0 && Cut(c, t).1 == Cut(c, t[c..]).1
  {
    assert blocks + ([t[..c]] + Cut(c, t[c..]).0) == (blocks + [t[..c]]) + Cut(c, t[c..]).0;
  }

  lemma NothingCarried(cfg: Config)
    requires cfg.sampleRate > 0
    ensures Carry(cfg, [], [])
  {
  }

  lemma CarryMore(cfg: Config, chunks: seq<Chunk>, blocks: seq<seq<Tagged>>, chunk: Chunk, block: seq<Tagged>)
    requires cfg.sampleRate > 0 && Carry(cfg, chunks, blocks) && block != [] && chunk == ChunkOf(cfg, block)
    ensures Carry(cfg, chunks + [chunk], blocks + [block])
  {
    hide ChunkOf;
  }

  lemma UntagParts(t: seq<Tagged>, pcm: seq<Sample>, ts: nat)
    ensures Untag(t + Tag(pcm, ts)) == Untag(t) + pcm
  {
  }

  lemma UntagSlices(t: seq<Tagged>, c: nat)
    requires c <= |t|
    ensures Untag(t[..c]) == Untag(t)[..c] && Untag(t[c..]) == Untag(t)[c..]
  {
  }

  // ---- The chunker object ----

  class StreamChunker {
    const cfg: Config
    const chunkSamps: int
    var buf: seq<Sample>
    var curRTPTs: nat
    ghost var pending: seq<Tagged>

    /** The buffer never holds a whole chunk between calls, and curRTPTs is the timestamp of
        the packet its first sample came from. */
    ghost predicate Valid()
      reads this
    {
      && cfg.sampleRate > 0 && chunkSamps == ChunkSamples(cfg) > 0
      && |buf| < chunkSamps
      && Untag(pending) == buf
      && (pending != [] ==> curRTPTs == pending[0].ts)
    }

    constructor (cfg: Config)
      requires cfg.sampleRate > 0 && ChunkSamples(cfg) > 0
      ensures Valid() && this.cfg == cfg && pending == []
    {
      this.cfg := cfg;
      chunkSamps := ChunkSamples(cfg);
      buf, curRTPTs, pending := [], 0, [];
    }

    method Emit(samples: seq<Sample>, ghost block: seq<Tagged>) returns (chunk: Chunk)
      requires cfg.sampleRate > 0 && block != [] && Untag(block) == samples && curRTPTs == block[0].ts
      ensures chunk == ChunkOf(cfg, block)
    {
      var durMs := TruncDiv(|samples| * 1000, cfg.sampleRate);
      var pcm := Int16ToS16LE(samples);
      chunk := Chunk(cfg.sessionID, cfg.streamID, pcm, cfg.sampleRate, EffectiveChannels(cfg), curRTPTs, durMs);
    }

    method Push(pcm: seq<Sample>, rtpTs: nat) returns (chunks: seq<Chunk>)
      requires Valid()
      modifies this
      ensures Valid()
      ensures var (blocks, rest) := Cut(chunkSamps, old(pending) + Tag(pcm, rtpTs));
              Carry(cfg, chunks, blocks) && pending == rest
    {
      hide Cut, ChunkOf, Carry, Untag;
      NothingCarried(cfg);
      UntagParts(pending, pcm, rtpTs);
      if |pcm| == 0 {
        assert pending + Tag(pcm, rtpTs) == pending;
        CutStep(chunkSamps, pending);
        return [];
      }
      var oldCount := |buf|;
      if oldCount == 0 {
        curRTPTs := rtpTs;
      }
      buf := buf + pcm;
      ghost var all := pending + Tag(pcm, rtpTs);
      pending := all;
      chunks := [];
      ghost var blocks: seq<seq<Tagged>> := [];
      assert [] + Cut(chunkSamps, all).0 == Cut(chunkSamps, all).0;
      while |buf| >= chunkSamps
        invariant cfg.sampleRate > 0 && chunkSamps == ChunkSamples(cfg) > 0
        invariant Untag(pending) == buf
        invariant pending != [] ==> curRTPTs == pending[0].ts
        invariant 0 <= oldCount < chunkSamps
        invariant forall i :: oldCount <= i < |pending| ==> pending[i].ts == rtpTs
        invariant Carry(cfg, chunks, blocks)
        invariant Cut(chunkSamps, all) == (blocks + Cut(chunkSamps, pending).0, Cut(chunkSamps, pending).1)
        decreases |buf|
      {
        ghost var block := pending[..chunkSamps];
        UntagSlices(pending, chunkSamps);
        var chunk := Emit(buf[..chunkSamps], block);
        CarryMore(cfg, chunks, blocks, chunk, block);
        chunks := chunks + [chunk];
        CutMore(chunkSamps, pending, blocks);
        blocks := blocks + [block];
        buf := buf[chunkSamps..];
        pending := pending[chunkSamps..];
        if oldCount > 0 {
          oldCount := oldCount - chunkSamps;
          if oldCount <= 0 {
            oldCount := 0;
            curRTPTs := rtpTs;
          }
        }
      }
      CutStep(chunkSamps, pending);
      assert blocks + [] == blocks;
    }

    method Flush() returns (chunks: seq<Chunk>)
      requires Valid()
      modifies this
      ensures Valid() && pending == []
      ensures Carry(cfg, chunks, if old(pending) == [] then [] else [old(pending)])
    {
      if |buf| == 0 {
        return [];
      }
      var chunk := Emit(buf, pending);
      buf := [];
      pending := [];
      return [chunk];
    }
  }

  // ---- Whole histories ----

  datatype Event = Push(pcm: seq<Sample>, ts: nat) | Flush

  datatype History = Begin | Then(past: History, e: Event)

  /** Blocks emitted and samples left, as the methods' contracts say. */
  function Step(c: nat, pending: seq<Tagged>, e: Event): (seq<seq<Tagged>>, seq<Tagged>)
    requires c > 0
  {
    match e
    case Push(pcm, ts) => Cut(c, pending + Tag(pcm, ts))
    case Flush => (if pending == [] then [] else [pending], [])
  }

  function Run(c: nat, hs: History): (r: (seq<seq<Tagged>>, seq<Tagged>))
    requires c > 0
  {
    match hs
    case Begin => ([], [])
    case Then(past, e) =>
      var (blocks, pending) := Run(c, past);
      var (more, rest) := Step(c, pending, e);
      (blocks + more, rest)
  }

  /** Every sample ever pushed, with its packet's timestamp. */
  function Pushed(hs: History): seq<Tagged> {
    match hs
    case Begin => []
    case Then(past, Push(pcm, ts)) => Pushed(past) + Tag(pcm, ts)
    case Then(past, Flush) => Pushed(past)
  }

  function Join(blocks: seq<seq<Tagged>>): seq<Tagged> {
    if blocks == [] then [] else blocks[0] + Join(blocks[1..])
  }

  lemma {:induction false} JoinConcat(a: seq<seq<Tagged>>, b: seq<seq<Tagged>>)
    ensures Join(a + b) == Join(a) + Join(b)
  {
    hide Join;
    if a == [] {
      NothingToJoin();
      assert a + b == b;
    } else {
      JoinConcat(a[1..], b);
      JoinCons(a[0], a[1..]);
      JoinCons(a[0], a[1..] + b);
      assert a == [a[0]] + a[1..] && a + b == [a[0]] + (a[1..] + b);
      assert a[0] + (Join(a[1..]) + Join(b)) == (a[0] + Join(a[1..])) + Join(b);
    }
  }

  lemma {:induction false} CutKeepsSamples(c: nat, t: seq<Tagged>)
    requires c > 0
    ensures Join(Cut(c, t).0) + Cut(c, t).1 == t
  {
    hide Join, Cut;
    CutStep(c, t);
    if |t| < c {
      NothingToJoin();
    } else {
      CutKeepsSamples(c, t[c..]);
      var (blocks, rest) := Cut(c, t[c..]);
      JoinCons(t[..c], blocks);
      assert t[..c] + (Join(blocks) + rest) == (t[..c] + Join(blocks)) + rest;
    }
  }

  lemma NothingToJoin()
    ensures Join([]) == []
  {
  }

  lemma JoinCons(block: seq<Tagged>, blocks: seq<seq<Tagged>>)
    ensures Join([block] + blocks) == block + Join(blocks)
  {
    assert ([block] + blocks)[1..] == blocks;
  }

  lemma StepKeepsSamples(c: nat, pending: seq<Tagged>, e: Event)
    requires c > 0
    ensures var (more, rest) := Step(c, pending, e);
            Join(more) + rest == pending + TagsOf(e)
  {
    match e
    case Push(pcm, ts) => CutKeepsSamples(c, pending + Tag(pcm, ts));
    case Flush =>
      if pending != [] {
        assert Join([pending]) == pending + Join([]);
      }
  }

  lemma Regroup<T>(sent: seq<T>, more: seq<T>, rest: seq<T>, pending: seq<T>, new_: seq<T>, all: seq<T>)
    requires sent + pending == all && more + rest == pending + new_
    ensures (sent + more) + rest == all + new_
  {
    assert (sent + more) + rest == sent + (more + rest);
    assert sent + (pending + new_) == (sent + pending) + new_;
  }

  function TagsOf(e: Event): seq<Tagged> {
    if e.Push? then Tag(e.pcm, e.ts) else []
  }

  lemma PushedNext(past: History, e: Event)
    ensures Pushed(Then(past, e)) == Pushed(past) + TagsOf(e)
  {
  }

  /** Main result: for every history of pushes and flushes, the emitted blocks followed by the
      buffer are exactly the pushed samples: nothing is lost, doubled or moved. */
  lemma {:induction false} ChunkingIsLossless(c: nat, hs: History)
    requires c > 0
    ensures Join(Run(c, hs).0) + Run(c, hs).1 == Pushed(hs)
  {
    match hs
    case Begin =>
    case Then(past, e) =>
      hide Join, Pushed, Step, TagsOf;
      ChunkingIsLossless(c, past);
      var (blocks, pending) := Run(c, past);
      var (more, rest) := Step(c, pending, e);
      StepKeepsSamples(c, pending, e);
      JoinConcat(blocks, more);
      Regroup(Join(blocks), Join(more), rest, pending, TagsOf(e), Pushed(past));
      PushedNext(past, e);
  }

  /** Samples in the first `i` blocks. */
  function Offset(blocks: seq<seq<Tagged>>, i: nat): nat
    requires i <= |blocks|
  {
    if i == 0 then 0 else |blocks[0]| + Offset(blocks[1..], i - 1)
  }

  lemma {:induction false} BlockInJoin(blocks: seq<seq<Tagged>>, i: nat)
    requires i < |blocks|
    ensures Offset(blocks, i) + |blocks[i]| <= |Join(blocks)|
    ensures blocks[i] == Join(blocks)[Offset(blocks, i)..Offset(blocks, i) + |blocks[i]|]
  {
    if i > 0 {
      BlockInJoin(blocks[1..], i - 1);
    }
  }

  predicate Sized(c: nat, blocks: seq<seq<Tagged>>, flushed: bool) {
    forall i :: 0 <= i < |blocks| ==> 0 < |blocks[i]| <= c && (!flushed ==> |blocks[i]| == c)
  }

  function HasFlush(hs: History): bool {
    hs.Then? && (hs.e.Flush? || HasFlush(hs.past))
  }

  /** Without flushes every block has exactly `c` samples; a flush may emit a shorter one. The
      buffer always holds less than a block. */
  lemma {:induction false} BlockSizes(c: nat, hs: History)
    requires c > 0
    ensures Sized(c, Run(c, hs).0, HasFlush(hs)) && |Run(c, hs).1| < c
  {
    match hs
    case Begin =>
    case Then(past, e) =>
      BlockSizes(c, past);
      var pending := Run(c, past).1;
      if e.Push? {
        var t := pending + Tag(e.pcm, e.ts);
        forall i | 0 <= i < |Cut(c, t).0|
          ensures |Cut(c, t).0[i]| == c
        {
          CutBlocksAreFull(c, t, i);
        }
      }
  }

  /** Main result: chunk `i` carries the samples that follow those of the chunks before it, and
      its timestamp is that of the packet which supplied the first of them. */
  lemma ChunkProvenance(cfg: Config, c: nat, hs: History, i: nat)
    requires c > 0 && cfg.sampleRate > 0 && i < |Run(c, hs).0|
    ensures var blocks := Run(c, hs).0;
            var at := Offset(blocks, i);
            && blocks[i] != [] && at + |blocks[i]| <= |Pushed(hs)|
            && FromS16LE(ChunkOf(cfg, blocks[i]).pcm) == Samples(Untag(Pushed(hs)[at..at + |blocks[i]|]))
            && ChunkOf(cfg, blocks[i]).rtpTimestamp == Pushed(hs)[at].ts
  {
    hide Run, Pushed, Join, Offset, Bytes, FromS16LE, Untag;
    var (blocks, rest) := Run(c, hs);
    BlockSizes(c, hs);
    ChunkingIsLossless(c, hs);
    BlockInJoin(blocks, i);
    var at := Offset(blocks, i);
    SliceOfPrefix(Join(blocks), rest, at, at + |blocks[i]|);
    DecodeAfterEncode(Untag(blocks[i]));
  }

  lemma SliceOfPrefix<T>(a: seq<T>, b: seq<T>, lo: nat, hi: nat)
    requires lo <= hi <= |a|
    ensures (a + b)[lo..hi] == a[lo..hi]
  {
  }
}
