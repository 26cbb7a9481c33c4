/** When the loop of the chunker's Push ends: for every configuration, also those for which the
    chunker object makes no sense. */
module ChunkerLoop {
  import opened Pcm
  import opened Chunker

  /** Push between two turns of its loop, after the loop, or after a panic. */
  datatype Loop =
    | Running(blocks: seq<seq<Tagged>>, rest: seq<Tagged>)
    | Ended(blocks: seq<seq<Tagged>>, rest: seq<Tagged>)
    | Panicked

  /** The constructor reserves room for two chunks; a negative capacity panics. */
  predicate NewPanics(cfg: Config) {
    2 * ChunkSamples(cfg) < 0
  }

  /** One turn: the test, the slice, the division by the sample rate in emit, the new buffer. */
  function Turn(cfg: Config, l: Loop): Loop {
    match l
    case Running(blocks, rest) =>
      var c := ChunkSamples(cfg);
      if |rest| < c then Ended(blocks, rest)
      else if c < 0 || cfg.sampleRate == 0 then Panicked
      else Running(blocks + [rest[..c]], rest[c..])
    case _ => l
  }

  function Turns(cfg: Config, n: nat, l: Loop): Loop {
    if n == 0 then l else Turn(cfg, Turns(cfg, n - 1, l))
  }

  /** The loop of a Push that finds `pending` in the buffer. */
  function Start(pending: seq<Tagged>, pcm: seq<Sample>, ts: nat): Loop {
    Running([], pending + Tag(pcm, ts))
  }

  ghost predicate Ends(cfg: Config, l: Loop) {
    exists n: nat :: Turns(cfg, n, l).Ended?
  }

  ghost predicate Panics(cfg: Config, l: Loop) {
    exists n: nat :: Turns(cfg, n, l).Panicked?
  }

  lemma {:induction false} TurnsFirst(cfg: Config, n: nat, l: Loop)
    requires n > 0
    ensures Turns(cfg, n, l) == Turns(cfg, n - 1, Turn(cfg, l))
  {
    if n > 1 {
      TurnsFirst(cfg, n - 1, l);
    }
  }

  /** With chunks of at least one sample the loop cuts off exactly the full blocks. */
  lemma {:induction false} TurnsCut(cfg: Config, blocks: seq<seq<Tagged>>, t: seq<Tagged>)
    requires ChunkSamples(cfg) > 0 && cfg.sampleRate != 0
    ensures var (all, rest) := Cut(ChunkSamples(cfg), t);
            Turns(cfg, |all| + 1, Running(blocks, t)) == Ended(blocks + all, rest)
    decreases |t|
  {
    var c := ChunkSamples(cfg);
    var l := Running(blocks, t);
    if |t| < c {
      assert Turns(cfg, 0, l) == l;
      assert blocks + [] == blocks;
    } else {
      var (more, rest) := Cut(c, t[c..]);
      TurnsCut(cfg, blocks + [t[..c]], t[c..]);
      TurnsFirst(cfg, |more| + 2, l);
      assert blocks + ([t[..c]] + more) == (blocks + [t[..c]]) + more;
    }
  }

  /** With empty chunks and a buffer, the loop never ends: no turn takes a sample. */
  lemma {:induction false} EmptyChunksLoop(cfg: Config, n: nat, l: Loop)
    requires ChunkSamples(cfg) == 0 && l.Running?
    ensures var now := Turns(cfg, n, l);
            if n > 0 && cfg.sampleRate == 0 then now == Panicked
            else now.Running? && |now.blocks| == |l.blocks| + n && now.rest == l.rest
  {
    if n > 0 {
      EmptyChunksLoop(cfg, n - 1, l);
    }
  }

  lemma ChunkSizeSigns(cfg: Config)
    ensures ChunkSamples(cfg) > 0 <==> cfg.sampleRate * cfg.chunkMs >= 1000
    ensures ChunkSamples(cfg) < 0 <==> cfg.sampleRate * cfg.chunkMs <= -1000
    ensures cfg.sampleRate == 0 ==> ChunkSamples(cfg) == 0
  {
  }

  /** The constructor panics exactly for a negative chunk length. */
  lemma NewPanicsIff(cfg: Config)
    ensures NewPanics(cfg) <==> cfg.sampleRate * cfg.chunkMs <= -1000
  {
    ChunkSizeSigns(cfg);
  }

  /** Main result: a Push of samples ends if and only if a chunk lasts at least one sample; then it
      has emitted exactly the full blocks. It panics if and only if the sample rate is zero. In
      all other cases it emits empty chunks for ever. */
  lemma PushEndsIff(cfg: Config, pending: seq<Tagged>, pcm: seq<Sample>, ts: nat)
    requires pcm != [] && !NewPanics(cfg)
    ensures Ends(cfg, Start(pending, pcm, ts)) <==> cfg.sampleRate * cfg.chunkMs >= 1000
    ensures Panics(cfg, Start(pending, pcm, ts)) <==> cfg.sampleRate == 0
    ensures ChunkSamples(cfg) > 0 ==>
              var (blocks, rest) := Cut(ChunkSamples(cfg), pending + Tag(pcm, ts));
              Turns(cfg, |blocks| + 1, Start(pending, pcm, ts)) == Ended(blocks, rest)
  {
    var l := Start(pending, pcm, ts);
    ChunkSizeSigns(cfg);
    if ChunkSamples(cfg) > 0 {
      var n := |Cut(ChunkSamples(cfg), l.rest).0| + 1;
      TurnsCut(cfg, [], l.rest);
      assert [] + Cut(ChunkSamples(cfg), l.rest).0 == Cut(ChunkSamples(cfg), l.rest).0;
      forall m: nat
        ensures !Turns(cfg, m, l).Panicked?
      {
        NoPanic(cfg, m, l);
      }
    } else {
      forall n: nat
        ensures !Turns(cfg, n, l).Ended? && (Turns(cfg, n, l).Panicked? <==> n > 0 && cfg.sampleRate == 0)
      {
        EmptyChunksLoop(cfg, n, l);
      }
      assert Turns(cfg, 1, l).Panicked? <==> cfg.sampleRate == 0;
    }
  }

  lemma {:induction false} NoPanic(cfg: Config, n: nat, l: Loop)
    requires ChunkSamples(cfg) > 0 && cfg.sampleRate != 0 && !l.Panicked?
    ensures !Turns(cfg, n, l).Panicked?
  {
    if n > 0 {
      NoPanic(cfg, n - 1, l);
    }
  }
}
