/** The per-session audio pipeline: decoded PCM through the resampler into the chunker. */
module AudioPipeline {
  import opened Arithmetic
  import opened Pcm
  import R = Resampler
  import C = Chunker

  datatype Decoded = Decoded(pcm: seq<Sample>) | DecodeError

  /** What is sent to the AI stream; only the last chunk of a session ends the stream. */
  datatype AudioChunk = AudioChunk(chunk: C.Chunk, endOfStream: bool)

  class SessionPipeline {
    const resampler: R.StreamResampler
    const chunker: C.StreamChunker
    var cancelled: bool
    var audioOut: seq<AudioChunk>

    ghost predicate Valid()
      reads this, resampler, chunker
    {
      resampler.Valid() && chunker.Valid()
    }

    constructor (resampler: R.StreamResampler, chunker: C.StreamChunker)
      requires resampler.Valid() && chunker.Valid()
      ensures Valid() && this.resampler == resampler && this.chunker == chunker
      ensures !cancelled && audioOut == []
    {
      this.resampler, this.chunker := resampler, chunker;
      cancelled, audioOut := false, [];
    }

    /** Sends block until the session is cancelled, which happens after `sends` of them. */
    method Process(decoded: Decoded, timestamp: nat, sends: nat) returns (emitted: nat, failed: bool, panics: bool)
      requires Valid()
      modifies this, resampler, chunker
      ensures Valid()
      ensures failed <==> !old(cancelled) && decoded.DecodeError?
      ensures old(cancelled) || decoded.DecodeError? ==>
                !panics && emitted == 0 && audioOut == old(audioOut) && cancelled == old(cancelled)
                && chunker.pending == old(chunker.pending) && resampler.phaseNum == old(resampler.phaseNum)
      ensures !old(cancelled) && decoded.Decoded? ==>
                var r := R.Resample(resampler.inRate, resampler.inCh, resampler.outRate, old(resampler.phaseNum),
                                    decoded.pcm);
                if r.IndexPanic? then
                  && panics && audioOut == old(audioOut) && cancelled == old(cancelled)
                  && chunker.pending == old(chunker.pending) && resampler.phaseNum == old(resampler.phaseNum)
                else
                  var (blocks, rest) := C.Cut(chunker.chunkSamps, old(chunker.pending) + C.Tag(r.samples, timestamp));
                  && !panics && resampler.phaseNum == r.phase && chunker.pending == rest
                  && emitted == (if |blocks| <= sends then |blocks| else sends)
                  && (cancelled <==> sends < |blocks|)
                  && |audioOut| == |old(audioOut)| + emitted && old(audioOut) <= audioOut
                  && forall i :: 0 <= i < emitted ==>
                       && blocks[i] != []
                       && audioOut[|old(audioOut)| + i] == AudioChunk(C.ChunkOf(chunker.cfg, blocks[i]), false)
    {
      hide C.Tag, C.ChunkOf;
      if cancelled {
        return 0, false, false;
      }
      if decoded.DecodeError? {
        return 0, true, false;
      }
      var pcm := decoded.pcm;
      if |pcm| == 0 {
        NothingTagged(timestamp);
        assert chunker.pending + [] == chunker.pending;
        return 0, false, false;
      }
      var resampled, broke := resampler.Process(pcm);
      if broke {
        return 0, false, true;
      }
      var chunks := chunker.Push(resampled, timestamp);
      emitted, failed, panics := 0, false, false;
      ghost var before := audioOut;
      while emitted < |chunks|
        invariant 0 <= emitted <= |chunks| && emitted <= sends && !cancelled
        invariant |audioOut| == |before| + emitted && before <= audioOut
        invariant forall i :: 0 <= i < emitted ==> audioOut[|before| + i] == AudioChunk(chunks[i], false)
        invariant Valid()
        invariant chunker.pending == C.Cut(chunker.chunkSamps, old(chunker.pending) + C.Tag(resampled, timestamp)).1
        invariant resampler.phaseNum
                  == R.Resample(resampler.inRate, resampler.inCh, resampler.outRate, old(resampler.phaseNum), pcm).phase
      {
        if emitted == sends {
          cancelled := true;
          return;
        }
        audioOut := audioOut + [AudioChunk(chunks[emitted], false)];
        emitted := emitted + 1;
      }
    }

    /** When the session is unregistered: the rest goes out as the last chunk, unless the output
        has no room. The rest is then gone. */
    method Flush(room: bool) returns (sent: bool)
      requires Valid()
      modifies this`audioOut, chunker
      ensures Valid() && chunker.pending == []
      ensures sent <==> room && old(chunker.pending) != []
      ensures sent ==> audioOut == old(audioOut) + [AudioChunk(C.ChunkOf(chunker.cfg, old(chunker.pending)), true)]
      ensures !sent ==> audioOut == old(audioOut)
    {
      var rest := chunker.Flush();
      if |rest| == 0 {
        return false;
      }
      if !room {
        return false;
      }
      audioOut := audioOut + [AudioChunk(rest[0], true)];
      return true;
    }

    /** One packet: nothing for one that is not heard, or after the session's end. */
    method ProcessPacket(p: Packet, sends: nat) returns (panics: bool)
      requires Valid()
      requires resampler.inRate == resampler.outRate ==> resampler.phaseNum == 0
      modifies this, resampler, chunker
      ensures Valid()
      ensures resampler.inRate == resampler.outRate ==> resampler.phaseNum == 0
      ensures panics <==> !old(cancelled) && Breaks(p, resampler.inRate, resampler.inCh, resampler.outRate)
      ensures !Heard(p, resampler.inCh) ==>
                && audioOut == old(audioOut) && cancelled == old(cancelled)
                && chunker.pending == old(chunker.pending) && resampler.phaseNum == old(resampler.phaseNum)
      ensures old(cancelled) ==> cancelled && audioOut == old(audioOut)
      ensures !old(cancelled) && Heard(p, resampler.inCh) ==>
                var r := R.Resample(resampler.inRate, resampler.inCh, resampler.outRate, old(resampler.phaseNum),
                                    p.decoded.pcm);
                && r.Output? && resampler.phaseNum == r.phase
                && var (blocks, rest) := C.Cut(chunker.chunkSamps, old(chunker.pending) + C.Tag(r.samples, p.ts));
                   && chunker.pending == rest && old(audioOut) <= audioOut && (cancelled <==> sends < |blocks|)
                   && Sent(audioOut[|old(audioOut)|..], chunker.cfg, blocks, cancelled)
    {
      if p.decoded.Decoded? {
        R.PanicsIff(resampler.inRate, resampler.inCh, resampler.outRate, resampler.phaseNum, p.decoded.pcm);
        if !Heard(p, resampler.inCh) && !Breaks(p, resampler.inRate, resampler.inCh, resampler.outRate) {
          ShortInput(p.decoded.pcm, resampler.inRate, resampler.inCh, resampler.outRate, resampler.phaseNum);
          assert chunker.pending + C.Tag([], p.ts) == chunker.pending;
        }
      }
      var _, _, broke := Process(p.decoded, p.ts, sends);
      return broke;
    }

    /** The pipeline after the packets behind `fed`: what the chunker was fed, and the carried phase. */
    ghost predicate Follows(fed: (C.History, nat))
      reads this, resampler, chunker
    {
      && Valid()
      && (resampler.inRate == resampler.outRate ==> resampler.phaseNum == 0)
      && (!cancelled ==>
            resampler.phaseNum == fed.1 && chunker.pending == C.Run(chunker.chunkSamps, fed.0).1)
      && Sent(audioOut, chunker.cfg, C.Run(chunker.chunkSamps, fed.0).0, cancelled)
    }

    /** The next packet of a session that may be cancelled right before it. */
    method ProcessNext(packets: seq<Packet>, k: nat, sends: nat, cancels: bool) returns (panics: bool)
      requires k < |packets| && resampler.inRate > 0 && resampler.inCh > 0 && resampler.outRate > 0
      requires Follows(Fed(packets[..k], resampler.inRate, resampler.inCh, resampler.outRate))
      modifies this, resampler, chunker
      ensures panics ==>
                && !old(cancelled) && !cancelled
                   && Breaks(packets[k], resampler.inRate, resampler.inCh, resampler.outRate)
                && Follows(Fed(packets[..k], resampler.inRate, resampler.inCh, resampler.outRate))
      ensures !panics ==> Follows(Fed(packets[..k + 1], resampler.inRate, resampler.inCh, resampler.outRate))
      ensures !panics && !cancelled ==> !Breaks(packets[k], resampler.inRate, resampler.inCh, resampler.outRate)
      ensures !panics ==>
                (cancelled <==> old(cancelled) || cancels
                                || sends < NewBlocks(packets, k, chunker.chunkSamps, resampler.inRate, resampler.inCh,
                                                     resampler.outRate))
    {
      hide C.Run, C.Cut, C.Tag, Fed, Sent, R.Resample, C.ChunkOf;
      ghost var (hs, phase) := Fed(packets[..k], resampler.inRate, resampler.inCh, resampler.outRate);
      FedNext(packets, k, resampler.inRate, resampler.inCh, resampler.outRate);
      if cancels {
        SentStays(audioOut, chunker.cfg, C.Run(chunker.chunkSamps, hs).0, cancelled);
        cancelled := true;
      }
      label before:
      panics := ProcessPacket(packets[k], sends);
      if !panics && Heard(packets[k], resampler.inCh) {
        ghost var r := R.Resample(resampler.inRate, resampler.inCh, resampler.outRate, phase, packets[k].decoded.pcm);
        NoPanic(packets[k].decoded.pcm, resampler.inRate, resampler.inCh, resampler.outRate, phase);
        ghost var next := C.Then(hs, C.Push(r.samples, packets[k].ts));
        RunNext(chunker.chunkSamps, hs, r.samples, packets[k].ts);
        SentMore(old@before(audioOut), audioOut, chunker.cfg, C.Run(chunker.chunkSamps, hs).0,
                 C.Run(chunker.chunkSamps, next).0, old@before(cancelled), cancelled);
      }
    }

    /** Main result: after any packets what was sent carries, in order, the resampled stream of
        everything decoded, up to what the chunker still holds; if the session was cancelled on
        the way, a beginning of that stream. A packet that breaks the resampler ends everything,
        unless the session is cancelled; the `done` packets before it are accounted for like the
        others. `sends` says how many sends of a packet go through before the session is cancelled,
        `cancels` whether it is cancelled right before a packet. */
    method ProcessAll(packets: seq<Packet>, sends: nat -> nat, cancels: nat -> bool) returns (done: nat, panics: bool)
      requires Valid() && !cancelled && audioOut == [] && chunker.pending == [] && resampler.phaseNum == 0
      modifies this, resampler, chunker
      ensures Valid() && done <= |packets|
      ensures panics <==> done < |packets|
      ensures panics ==> !cancelled && Breaks(packets[done], resampler.inRate, resampler.inCh, resampler.outRate)
      ensures !cancelled ==>
                forall i :: 0 <= i < done ==> !Breaks(packets[i], resampler.inRate, resampler.inCh, resampler.outRate)
      ensures R.NonEmpty(Inputs(packets[..done], resampler.inCh))
      ensures var stream := R.Stream(Inputs(packets[..done], resampler.inCh), 0, resampler.inRate, resampler.outRate);
              if cancelled then SamplesOf(audioOut) <= stream
              else SamplesOf(audioOut) + C.Untag(chunker.pending) == stream
      ensures cancelled <==> CutShort(packets, done, sends, cancels, chunker.chunkSamps,
                                      resampler.inRate, resampler.inCh, resampler.outRate)
      ensures forall i :: 0 <= i < |audioOut| ==> !audioOut[i].endOfStream
    {
      panics := false;
      assert packets[..0] == [];
      hide C.Run, Fed, Sent, C.ChunkOf, R.Stream, Inputs, NewBlocks;
      RunNothing(chunker.chunkSamps, chunker.cfg);
      var k := 0;
      while k < |packets|
        invariant 0 <= k <= |packets| && !panics
        invariant Follows(Fed(packets[..k], resampler.inRate, resampler.inCh, resampler.outRate))
        invariant cancelled <==> CutShort(packets, k, sends, cancels, chunker.chunkSamps,
                                          resampler.inRate, resampler.inCh, resampler.outRate)
        invariant !cancelled ==>
                    forall i :: 0 <= i < k ==> !Breaks(packets[i], resampler.inRate, resampler.inCh, resampler.outRate)
      {
        panics := ProcessNext(packets, k, sends(k), cancels(k));
        if panics {
          break;
        }
        k := k + 1;
      }
      done := k;
      SentIsStream(packets[..k], audioOut, chunker.cfg, chunker.chunkSamps, resampler.inRate, resampler.inCh,
                   resampler.outRate, cancelled);
    }
  }

  // ---- The composition ----

  /** A packet: what the decoder made of it, and its RTP timestamp. */
  datatype Packet = Packet(decoded: Decoded, ts: nat)

  /** The packet contributes samples: at least one frame of `ch` channels. */
  predicate Heard(p: Packet, ch: nat) {
    p.decoded.Decoded? && |p.decoded.pcm| >= ch
  }

  /** How many blocks packet `k` completes. */
  function NewBlocks(ps: seq<Packet>, k: nat, c: nat, inRate: nat, ch: nat, outRate: nat): int
    requires k < |ps| && c > 0 && inRate > 0 && ch > 0 && outRate > 0
  {
    |C.Run(c, Fed(ps[..k + 1], inRate, ch, outRate).0).0| - |C.Run(c, Fed(ps[..k], inRate, ch, outRate).0).0|
  }

  /** The session is cancelled before one of the first `k` packets, or completes more blocks with it
      than go through. */
  predicate CutShort(ps: seq<Packet>, k: nat, sends: nat -> nat, cancels: nat -> bool,
                     c: nat, inRate: nat, ch: nat, outRate: nat)
    requires k <= |ps| && c > 0 && inRate > 0 && ch > 0 && outRate > 0
  {
    k > 0
    && (CutShort(ps, k - 1, sends, cancels, c, inRate, ch, outRate)
        || cancels(k - 1) || sends(k - 1) < NewBlocks(ps, k - 1, c, inRate, ch, outRate))
  }

  /** The packet makes the resampler panic: a piece of less than one frame. */
  predicate Breaks(p: Packet, inRate: nat, ch: nat, outRate: nat) {
    p.decoded.Decoded? && 0 < |p.decoded.pcm| < ch && inRate != outRate
  }

  /** The mono input of the resampler, call by call. */
  function Inputs(ps: seq<Packet>, ch: nat): seq<seq<Sample>>
    requires ch > 0
  {
    if ps == [] then []
    else
      var n := |ps| - 1;
      Inputs(ps[..n], ch) + if Heard(ps[n], ch) then [R.Mono(ps[n].decoded.pcm, ch)] else []
  }

  /** What the chunker is fed, and the phase the resampler carries then. */
  function Fed(ps: seq<Packet>, inRate: nat, ch: nat, outRate: nat): (C.History, nat)
    requires inRate > 0 && ch > 0 && outRate > 0
  {
    if ps == [] then (C.Begin, 0)
    else
      var n := |ps| - 1;
      var (past, phase) := Fed(ps[..n], inRate, ch, outRate);
      if !Heard(ps[n], ch) then (past, phase)
      else
        var r := R.Resample(inRate, ch, outRate, phase, ps[n].decoded.pcm);
        if r.IndexPanic? then (past, phase) else (C.Then(past, C.Push(r.samples, ps[n].ts)), r.phase)
  }

  lemma FedNext(ps: seq<Packet>, k: nat, inRate: nat, ch: nat, outRate: nat)
    requires k < |ps| && inRate > 0 && ch > 0 && outRate > 0
    ensures var (past, phase) := Fed(ps[..k], inRate, ch, outRate);
            Fed(ps[..k + 1], inRate, ch, outRate)
            == if !Heard(ps[k], ch) then (past, phase)
               else
                 var r := R.Resample(inRate, ch, outRate, phase, ps[k].decoded.pcm);
                 if r.IndexPanic? then (past, phase) else (C.Then(past, C.Push(r.samples, ps[k].ts)), r.phase)
  {
    assert ps[..k + 1][..k] == ps[..k];
  }

  lemma NoPanic(pcm: seq<Sample>, inRate: nat, ch: nat, outRate: nat, phase: nat)
    requires inRate > 0 && ch > 0 && outRate > 0 && |pcm| >= ch
    ensures !R.Resample(inRate, ch, outRate, phase, pcm).IndexPanic? && |R.Mono(pcm, ch)| > 0
  {
    R.PanicsIff(inRate, ch, outRate, phase, pcm);
    R.UnalignedInputLosesRest(pcm, ch);
    DivMod(|pcm|, ch);
  }

  /** Less than one frame contributes nothing. */
  lemma ShortInput(pcm: seq<Sample>, inRate: nat, ch: nat, outRate: nat, phase: nat)
    requires inRate > 0 && ch > 0 && outRate > 0 && |pcm| < ch && (|pcm| > 0 ==> inRate == outRate && phase == 0)
    ensures R.Resample(inRate, ch, outRate, phase, pcm) == R.Output([], phase)
  {
    QuotientIsUnique(|pcm|, ch, 0, |pcm|);
  }

  lemma {:induction false} InputsNonEmpty(ps: seq<Packet>, ch: nat)
    requires ch > 0
    ensures R.NonEmpty(Inputs(ps, ch))
  {
    if ps != [] {
      var n := |ps| - 1;
      InputsNonEmpty(ps[..n], ch);
      if Heard(ps[n], ch) {
        NoPanic(ps[n].decoded.pcm, 1, ch, 1, 0);
      }
    }
  }

  // ---- The stream of all samples ----

  lemma UntagConcat(a: seq<C.Tagged>, b: seq<C.Tagged>)
    ensures C.Untag(a + b) == C.Untag(a) + C.Untag(b)
  {
  }

  lemma NothingTagged(ts: nat)
    ensures C.Tag([], ts) == []
  {
  }

  lemma UntagTag(pcm: seq<Sample>, ts: nat)
    ensures C.Untag(C.Tag(pcm, ts)) == pcm
  {
  }

  /** One more call at the end of a stream. */
  lemma {:induction false} StreamAppend(chunks: seq<seq<Sample>>, x: seq<Sample>, phase: nat, inRate: nat, outRate: nat)
    requires R.NonEmpty(chunks) && |x| > 0 && inRate > 0 && outRate > 0
    ensures R.NonEmpty(chunks + [x])
    ensures var carry := R.StreamCarry(chunks, phase, inRate, outRate);
            && R.Stream(chunks + [x], phase, inRate, outRate)
               == R.Stream(chunks, phase, inRate, outRate) + R.Resampled(x, carry, inRate, outRate)
            && R.StreamCarry(chunks + [x], phase, inRate, outRate) == R.Carry(|x| * outRate, carry, inRate)
    decreases |chunks|
  {
    hide R.Resampled, R.Carry;
    var all := chunks + [x];
    if chunks == [] {
      assert all == [x] && all[1..] == [];
    } else {
      var next := R.Carry(|chunks[0]| * outRate, phase, inRate);
      assert all[1..] == chunks[1..] + [x];
      StreamAppend(chunks[1..], x, next, inRate, outRate);
      var carry := R.StreamCarry(chunks, phase, inRate, outRate);
      Associate(R.Resampled(chunks[0], phase, inRate, outRate), R.Stream(chunks[1..], next, inRate, outRate),
                R.Resampled(x, carry, inRate, outRate));
    }
  }

  lemma Associate<T>(a: seq<T>, b: seq<T>, c: seq<T>)
    ensures a + (b + c) == (a + b) + c
  {
  }

  /** The chunker is fed exactly the resampled stream. */
  lemma {:induction false} FedSamples(ps: seq<Packet>, inRate: nat, ch: nat, outRate: nat)
    requires inRate > 0 && ch > 0 && outRate > 0
    ensures R.NonEmpty(Inputs(ps, ch))
    ensures var (hs, phase) := Fed(ps, inRate, ch, outRate);
            && C.Untag(C.Pushed(hs)) == R.Stream(Inputs(ps, ch), 0, inRate, outRate)
            && phase == R.StreamCarry(Inputs(ps, ch), 0, inRate, outRate) < inRate
  {
    InputsNonEmpty(ps, ch);
    if ps != [] {
      var n := |ps| - 1;
      FedSamples(ps[..n], inRate, ch, outRate);
      if Heard(ps[n], ch) {
        FedOne(ps, inRate, ch, outRate);
      } else {
        assert Inputs(ps, ch) == Inputs(ps[..n], ch);
      }
    }
  }

  lemma FedOne(ps: seq<Packet>, inRate: nat, ch: nat, outRate: nat)
    requires ps != [] && inRate > 0 && ch > 0 && outRate > 0 && Heard(ps[|ps| - 1], ch)
    requires var before := ps[..|ps| - 1];
             && R.NonEmpty(Inputs(before, ch))
             && var (hs, phase) := Fed(before, inRate, ch, outRate);
                && C.Untag(C.Pushed(hs)) == R.Stream(Inputs(before, ch), 0, inRate, outRate)
                && phase == R.StreamCarry(Inputs(before, ch), 0, inRate, outRate) < inRate
    ensures R.NonEmpty(Inputs(ps, ch))
    ensures var (hs, phase) := Fed(ps, inRate, ch, outRate);
            && C.Untag(C.Pushed(hs)) == R.Stream(Inputs(ps, ch), 0, inRate, outRate)
            && phase == R.StreamCarry(Inputs(ps, ch), 0, inRate, outRate) < inRate
  {
    hide R.Resampled, R.Carry, R.Mono, R.Stream, R.StreamCarry;
    InputsNonEmpty(ps, ch);
    var n := |ps| - 1;
    var inputs, pcm := Inputs(ps[..n], ch), ps[n].decoded.pcm;
    var (past, phase) := Fed(ps[..n], inRate, ch, outRate);
    var mono := R.Mono(pcm, ch);
    NoPanic(pcm, inRate, ch, outRate, phase);
    StreamAppend(inputs, mono, 0, inRate, outRate);
    R.StreamConserves(Inputs(ps, ch), 0, inRate, outRate);
    OneCall(pcm, inRate, ch, outRate, phase, inputs);
    var r := R.Resample(inRate, ch, outRate, phase, pcm);
    UntagConcat(C.Pushed(past), C.Tag(r.samples, ps[n].ts));
    UntagTag(r.samples, ps[n].ts);
  }

  /** One call does what the stream says, also with the shortcut for equal rates. */
  lemma OneCall(pcm: seq<Sample>, inRate: nat, ch: nat, outRate: nat, phase: nat, before: seq<seq<Sample>>)
    requires inRate > 0 && ch > 0 && outRate > 0 && |pcm| >= ch && R.NonEmpty(before)
    requires phase == R.StreamCarry(before, 0, inRate, outRate)
    ensures |R.Mono(pcm, ch)| > 0
    ensures var mono := R.Mono(pcm, ch);
            R.Resample(inRate, ch, outRate, phase, pcm)
            == R.Output(R.Resampled(mono, phase, inRate, outRate), R.Carry(|mono| * outRate, phase, inRate))
  {
    NoPanic(pcm, inRate, ch, outRate, phase);
    if inRate == outRate {
      SameRateCarriesNothing(before, inRate);
      R.SameRateIsIdentity(R.Mono(pcm, ch), inRate);
    }
  }

  lemma {:induction false} SameRateCarriesNothing(chunks: seq<seq<Sample>>, rate: nat)
    requires R.NonEmpty(chunks) && rate > 0
    ensures R.StreamCarry(chunks, 0, rate, rate) == 0
  {
    if chunks != [] {
      R.SameRateIsIdentity(chunks[0], rate);
      SameRateCarriesNothing(chunks[1..], rate);
    }
  }

  /** Whatever was decoded, chunks and buffer carry the resampled stream: no sample is lost,
      repeated or out of place, and there are ceil(inputs * outRate / inRate) of them. */
  lemma PipelineIsLossless(ps: seq<Packet>, inRate: nat, ch: nat, outRate: nat, c: nat)
    requires inRate > 0 && ch > 0 && outRate > 0 && c > 0
    ensures R.NonEmpty(Inputs(ps, ch))
    ensures var (blocks, pending) := C.Run(c, Fed(ps, inRate, ch, outRate).0);
            && C.Untag(C.Join(blocks)) + C.Untag(pending) == R.Stream(Inputs(ps, ch), 0, inRate, outRate)
            && |C.Join(blocks)| + |pending| == CeilDiv(|R.Flatten(Inputs(ps, ch))| * outRate, inRate)
  {
    var hs := Fed(ps, inRate, ch, outRate).0;
    var (blocks, pending) := C.Run(c, hs);
    C.ChunkingIsLossless(c, hs);
    FedSamples(ps, inRate, ch, outRate);
    UntagConcat(C.Join(blocks), pending);
    R.OutputCountIsExact(Inputs(ps, ch), inRate, outRate);
  }

  // ---- What was sent ----

  /** The samples that the chunks carry. */
  function SamplesOf(out: seq<AudioChunk>): seq<Sample> {
    if out == [] then []
    else
      var n := |out| - 1;
      var decoded := FromS16LE(out[n].chunk.pcm);
      SamplesOf(out[..n]) + if decoded.Samples? then decoded.samples else []
  }

  /** What was sent are the first blocks, and all of them unless the session was cancelled. */
  predicate Sent(out: seq<AudioChunk>, cfg: C.Config, blocks: seq<seq<C.Tagged>>, cancelled: bool)
    requires cfg.sampleRate > 0
  {
    && |out| <= |blocks| && (!cancelled ==> |out| == |blocks|)
    && forall i :: 0 <= i < |out| ==> blocks[i] != [] && out[i] == AudioChunk(C.ChunkOf(cfg, blocks[i]), false)
  }

  lemma SentMore(was: seq<AudioChunk>, now: seq<AudioChunk>, cfg: C.Config, blocks: seq<seq<C.Tagged>>,
                 all: seq<seq<C.Tagged>>, wasCancelled: bool, cancelled: bool)
    requires cfg.sampleRate > 0 && Sent(was, cfg, blocks, wasCancelled) && blocks <= all && was <= now
    requires if wasCancelled then now == was && cancelled
             else Sent(now[|was|..], cfg, all[|blocks|..], cancelled)
    ensures Sent(now, cfg, all, cancelled)
  {
    hide C.ChunkOf;
    if !wasCancelled {
      forall i | 0 <= i < |now|
        ensures all[i] != [] && now[i] == AudioChunk(C.ChunkOf(cfg, all[i]), false)
      {
        if i >= |was| {
          assert now[|was|..][i - |was|] == now[i] && all[|blocks|..][i - |blocks|] == all[i];
        }
      }
    }
  }

  /** What was sent stays a beginning when the session is cancelled. */
  lemma SentStays(out: seq<AudioChunk>, cfg: C.Config, blocks: seq<seq<C.Tagged>>, cancelled: bool)
    requires cfg.sampleRate > 0 && Sent(out, cfg, blocks, cancelled)
    ensures Sent(out, cfg, blocks, true)
  {
  }

  lemma RunNothing(c: nat, cfg: C.Config)
    requires c > 0 && cfg.sampleRate > 0
    ensures C.Run(c, C.Begin) == ([], []) && Sent([], cfg, [], false)
    ensures forall inRate: nat, ch: nat, outRate: nat :: inRate > 0 && ch > 0 && outRate > 0 ==>
              Fed([], inRate, ch, outRate) == (C.Begin, 0)
  {
  }

  lemma RunNext(c: nat, hs: C.History, pcm: seq<Sample>, ts: nat)
    requires c > 0
    ensures var (blocks, pending) := C.Run(c, hs);
            var (more, rest) := C.Cut(c, pending + C.Tag(pcm, ts));
            && C.Run(c, C.Then(hs, C.Push(pcm, ts))) == (blocks + more, rest)
            && (blocks + more)[|blocks|..] == more
  {
  }

  lemma {:induction false} SentSamples(out: seq<AudioChunk>, cfg: C.Config, blocks: seq<seq<C.Tagged>>)
    requires cfg.sampleRate > 0 && |out| <= |blocks|
    requires forall i :: 0 <= i < |out| ==> blocks[i] != [] && out[i] == AudioChunk(C.ChunkOf(cfg, blocks[i]), false)
    ensures SamplesOf(out) == C.Untag(C.Join(blocks[..|out|]))
    decreases |out|
  {
    hide C.Untag, C.Join, Bytes, FromS16LE;
    if out == [] {
      NothingJoined(blocks);
    } else {
      var n := |out| - 1;
      SentSamples(out[..n], cfg, blocks);
      assert blocks[..n + 1] == blocks[..n] + [blocks[n]];
      C.JoinConcat(blocks[..n], [blocks[n]]);
      JoinOfOne(blocks[n]);
      UntagConcat(C.Join(blocks[..n]), blocks[n]);
      DecodeAfterEncode(C.Untag(blocks[n]));
    }
  }

  lemma NothingJoined(blocks: seq<seq<C.Tagged>>)
    ensures C.Untag(C.Join(blocks[..0])) == []
  {
  }

  lemma JoinOfOne(block: seq<C.Tagged>)
    ensures C.Join([block]) == block
  {
    assert [block][1..] == [];
    assert block + [] == block;
  }

  /** The chunks sent carry the beginning of what the blocks carry. */
  lemma SentIsPrefix(out: seq<AudioChunk>, cfg: C.Config, blocks: seq<seq<C.Tagged>>, cancelled: bool)
    requires cfg.sampleRate > 0 && Sent(out, cfg, blocks, cancelled)
    ensures SamplesOf(out) <= C.Untag(C.Join(blocks))
    ensures !cancelled ==> SamplesOf(out) == C.Untag(C.Join(blocks))
  {
    hide C.Untag, C.Join, C.ChunkOf, SamplesOf;
    SentSamples(out, cfg, blocks);
    var first, others := blocks[..|out|], blocks[|out|..];
    assert blocks == first + others;
    C.JoinConcat(first, others);
    UntagConcat(C.Join(first), C.Join(others));
    if !cancelled {
      assert blocks == first;
    }
  }

  lemma SentIsStream(ps: seq<Packet>, out: seq<AudioChunk>, cfg: C.Config, c: nat, inRate: nat, ch: nat,
                     outRate: nat, cancelled: bool)
    requires inRate > 0 && ch > 0 && outRate > 0 && c > 0 && cfg.sampleRate > 0
    requires Sent(out, cfg, C.Run(c, Fed(ps, inRate, ch, outRate).0).0, cancelled)
    ensures R.NonEmpty(Inputs(ps, ch))
    ensures var stream := R.Stream(Inputs(ps, ch), 0, inRate, outRate);
            && SamplesOf(out) <= stream
            && (!cancelled ==> SamplesOf(out) + C.Untag(C.Run(c, Fed(ps, inRate, ch, outRate).0).1) == stream)
  {
    hide *;
    PipelineIsLossless(ps, inRate, ch, outRate, c);
    SentIsPrefix(out, cfg, C.Run(c, Fed(ps, inRate, ch, outRate).0).0, cancelled);
  }
}
