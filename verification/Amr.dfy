/** AMR and AMR-WB frames: the parser of octet-aligned RTP payloads (RFC 4867, section 4.4)
    against the serialisation it undoes, and the sender that turns stored frames (section 5.3 of
    RFC 4867) into payloads. */
module Amr {
  import opened Basics

  type FrameType = t: int | 0 <= t < 16

  datatype Variant = NB | WB

  const NB_FRAME_BYTES: seq<nat> := [12, 13, 15, 17, 19, 20, 26, 31, 5, 0, 0, 0, 0, 0, 0, 0]
  const WB_FRAME_BYTES: seq<nat> := [17, 23, 32, 36, 40, 46, 50, 58, 60, 5, 0, 0, 0, 0, 0, 0]

  function FrameBytes(v: Variant, ft: FrameType): nat {
    if v.WB? then WB_FRAME_BYTES[ft] else NB_FRAME_BYTES[ft]
  }

  datatype Frame = Frame(ft: FrameType, quality: bool, data: seq<Byte>)

  /** The frames found, and whether there was no error. */
  datatype Parsed = Parsed(frames: seq<Frame>, ok: bool)

  /** The frame sizes of RFC 4867: speech modes, then the silence descriptor; nothing else has data. */
  lemma FrameSizes(v: Variant, ft: FrameType)
    ensures v.NB? ==> FrameBytes(v, 0) == 12 && FrameBytes(v, 1) == 13 && FrameBytes(v, 2) == 15
                      && FrameBytes(v, 3) == 17 && FrameBytes(v, 4) == 19 && FrameBytes(v, 5) == 20
                      && FrameBytes(v, 6) == 26 && FrameBytes(v, 7) == 31 && FrameBytes(v, 8) == 5
                      && (ft > 8 ==> FrameBytes(v, ft) == 0)
    ensures v.WB? ==> FrameBytes(v, 0) == 17 && FrameBytes(v, 1) == 23 && FrameBytes(v, 2) == 32
                      && FrameBytes(v, 3) == 36 && FrameBytes(v, 4) == 40 && FrameBytes(v, 5) == 46
                      && FrameBytes(v, 6) == 50 && FrameBytes(v, 7) == 58 && FrameBytes(v, 8) == 60
                      && FrameBytes(v, 9) == 5 && (ft > 9 ==> FrameBytes(v, ft) == 0)
  {
  }

  // ---- The format: serialisation ----

  predicate WellFormed(v: Variant, frames: seq<Frame>) {
    forall k :: 0 <= k < |frames| ==> |frames[k].data| == FrameBytes(v, frames[k].ft)
  }

  /** F, FT, Q and two padding bits. */
  function TocByte(f: Frame, more: bool): Byte {
    (if more then 128 else 0) + 8 * f.ft + (if f.quality then 4 else 0)
  }

  function TocBytes(frames: seq<Frame>): (r: seq<Byte>)
    ensures |r| == |frames|
  {
    if frames == [] then [] else [TocByte(frames[0], |frames| > 1)] + TocBytes(frames[1..])
  }

  function Data(frames: seq<Frame>): seq<Byte> {
    if frames == [] then [] else frames[0].data + Data(frames[1..])
  }

  /** Mode request, table of contents, frame data. */
  function Payload(cmr: Byte, frames: seq<Frame>): seq<Byte> {
    [cmr] + TocBytes(frames) + Data(frames)
  }

  // ---- What the parser computes ----

  /** A frame whose data is not filled in yet. */
  function Entry(b: Byte): Frame {
    Frame(b / 8 % 16, b / 4 % 2 == 1, [])
  }

  /** The table of contents at the head of `p`: up to the first entry with F clear, or the end. */
  function Toc(p: seq<Byte>): (toc: seq<Frame>)
    ensures |toc| <= |p| && (p != [] ==> toc != [])
  {
    if p == [] then []
    else [Entry(p[0])] + if p[0] >= 128 then Toc(p[1..]) else []
  }

  function Fill(v: Variant, toc: seq<Frame>, rest: seq<Byte>): Parsed {
    if toc == [] then Parsed([], true)
    else
      var n := FrameBytes(v, toc[0].ft);
      if n > |rest| then Parsed([], false)
      else
        var r := Fill(v, toc[1..], rest[n..]);
        Parsed([toc[0].(data := rest[..n])] + r.frames, r.ok)
  }

  function Parse(v: Variant, p: seq<Byte>): Parsed {
    if |p| < 2 then Parsed([], false)
    else
      var toc := Toc(p[1..]);
      Fill(v, toc, p[1 + |toc|..])
  }

  lemma TocStep(p: seq<Byte>, i: nat)
    requires i < |p|
    ensures Toc(p[i..]) == [Entry(p[i])] + if p[i] >= 128 then Toc(p[i + 1..]) else []
  {
    assert p[i..][1..] == p[i + 1..];
  }

  lemma FillStep(v: Variant, toc: seq<Frame>, j: nat, p: seq<Byte>, i: nat)
    requires j < |toc| && i <= |p|
    ensures var n := FrameBytes(v, toc[j].ft);
            if i + n > |p| then Fill(v, toc[j..], p[i..]) == Parsed([], false)
            else
              var r := Fill(v, toc[j + 1..], p[i + n..]);
              Fill(v, toc[j..], p[i..]) == Parsed([toc[j].(data := p[i..i + n])] + r.frames, r.ok)
  {
    var n := FrameBytes(v, toc[j].ft);
    assert toc[j..][1..] == toc[j + 1..];
    if i + n <= |p| {
      assert p[i..][n..] == p[i + n..] && p[i..][..n] == p[i..i + n];
    }
  }

  /** The parser: one loop over the table of contents, one that fills in the data in place. */
  method ParseAMRFrames(payload: seq<Byte>, v: Variant) returns (frames: seq<Frame>, ok: bool)
    ensures Parsed(frames, ok) == Parse(v, payload)
  {
    hide Toc, Fill, Entry, FrameBytes;
    if |payload| < 2 {
      return [], false;
    }
    var toc, i := ReadToc(payload);
    frames, ok := FillFrames(payload, v, toc, i);
  }

  /** The first loop of the parser: entries up to the first one with F clear. */
  method ReadToc(payload: seq<Byte>) returns (toc: seq<Frame>, i: nat)
    requires |payload| >= 2
    ensures toc == Toc(payload[1..]) && i == 1 + |toc| <= |payload|
  {
    hide Toc, Entry;
    toc := [];
    i := 1;
    var more := true;
    while i < |payload| && more
      invariant 1 <= i == 1 + |toc| <= |payload|
      invariant toc + (if more then Toc(payload[i..]) else []) == Toc(payload[1..])
    {
      TocStep(payload, i);
      var entry := payload[i];
      ghost var rest := if entry >= 128 then Toc(payload[i + 1..]) else [];
      assert toc + ([Entry(entry)] + rest) == (toc + [Entry(entry)]) + rest;
      i := i + 1;
      toc := toc + [Entry(entry)];
      more := entry >= 128;
    }
    if more {
      TocOfNothing(payload[i..]);
    }
    assert toc + [] == toc;
  }

  /** The second loop of the parser. */
  method FillFrames(payload: seq<Byte>, v: Variant, bare: seq<Frame>, start: nat) returns (frames: seq<Frame>, ok: bool)
    requires start <= |payload|
    ensures Parsed(frames, ok) == Fill(v, bare, payload[start..])
  {
    hide Fill, FrameBytes;
    var toc, i := bare, start;
    var j := 0;
    assert bare[0..] == bare;
    while j < |toc|
      invariant 0 <= j <= |toc| == |bare| && 0 <= i <= |payload|
      invariant toc[j..] == bare[j..]
      invariant var r := Fill(v, bare[j..], payload[i..]);
                Fill(v, bare, payload[start..]) == Parsed(toc[..j] + r.frames, r.ok)
    {
      FillStep(v, bare, j, payload, i);
      assert toc[j] == toc[j..][0] == bare[j];
      var size := FrameBytes(v, toc[j].ft);
      if i + size > |payload| {
        assert toc[..j] + [] == toc[..j];
        return toc[..j], false;
      }
      ghost var was := toc;
      toc := toc[j := toc[j].(data := payload[i..i + size])];
      FilledOne(was, toc, j, Fill(v, bare[j + 1..], payload[i + size..]).frames);
      assert toc[j + 1..] == was[j..][1..] == bare[j + 1..];
      i := i + size;
      j := j + 1;
    }
    NothingToFill(v, payload[i..]);
    assert bare[j..] == [] && toc[..j] + [] == toc;
    return toc, true;
  }

  lemma FilledOne(was: seq<Frame>, now: seq<Frame>, j: nat, rest: seq<Frame>)
    requires j < |was| == |now| && now == was[j := now[j]]
    ensures was[..j] + ([now[j]] + rest) == now[..j + 1] + rest
  {
  }

  lemma NothingToFill(v: Variant, rest: seq<Byte>)
    ensures Fill(v, [], rest) == Parsed([], true)
  {
  }

  /** The parts of a payload as the parser splits it. */
  lemma ParseSplit(v: Variant, cmr: Byte, t: seq<Byte>, rest: seq<Byte>)
    requires t != [] && |Toc(t + rest)| == |t|
    ensures Parse(v, [cmr] + t + rest) == Fill(v, Toc(t + rest), rest)
  {
    hide Toc, Fill;
    var p := [cmr] + t + rest;
    assert p[1..] == t + rest;
    assert p[1 + |t|..] == rest;
  }

  // ---- Parsing undoes serialising ----

  function Bare(frames: seq<Frame>): (toc: seq<Frame>)
    ensures |toc| == |frames|
  {
    seq(|frames|, k requires 0 <= k < |frames| => frames[k].(data := []))
  }

  lemma EntryOfTocByte(f: Frame, more: bool)
    ensures Entry(TocByte(f, more)) == f.(data := []) && (TocByte(f, more) >= 128 <==> more)
  {
  }

  lemma TocCons(b: Byte, rest: seq<Byte>)
    ensures Toc([b] + rest) == [Entry(b)] + if b >= 128 then Toc(rest) else []
  {
    assert ([b] + rest)[1..] == rest;
  }

  lemma BareCons(f: Frame, frames: seq<Frame>)
    ensures Bare([f] + frames) == [f.(data := [])] + Bare(frames)
  {
  }

  lemma {:induction false} TocOfTocBytes(frames: seq<Frame>, rest: seq<Byte>)
    requires frames != []
    ensures Toc(TocBytes(frames) + rest) == Bare(frames)
    decreases |frames|
  {
    hide Toc, TocByte, Entry, Bare;
    var f, more, tail := frames[0], frames[1..], TocBytes(frames[1..]) + rest;
    var b := TocByte(f, |frames| > 1);
    assert frames == [f] + more && TocBytes(frames) + rest == [b] + tail;
    EntryOfTocByte(f, |frames| > 1);
    TocCons(b, tail);
    BareCons(f, more);
    if more != [] {
      TocOfTocBytes(more, rest);
    }
  }

  /** How many leading frames fit into `room` bytes. */
  function Fitting(frames: seq<Frame>, room: nat): (k: nat)
    ensures k <= |frames|
  {
    if frames == [] || |frames[0].data| > room then 0 else 1 + Fitting(frames[1..], room - |frames[0].data|)
  }

  /** Filling from data that is cut off, or that goes on, finds the frames that fit. */
  lemma {:induction false} FillCut(v: Variant, frames: seq<Frame>, rest: seq<Byte>)
    requires WellFormed(v, frames) && (rest <= Data(frames) || Data(frames) <= rest)
    ensures var k := Fitting(frames, |rest|); Fill(v, Bare(frames), rest) == Parsed(frames[..k], k == |frames|)
    decreases |frames|
  {
    hide FrameBytes, Fill, Bare;
    if frames == [] {
      NothingToFill(v, rest);
      assert Bare(frames) == [];
    } else {
      var f, more := frames[0], frames[1..];
      var n := |f.data|;
      assert frames == [f] + more;
      BareCons(f, more);
      FillFirst(v, f, Bare(more), rest);
      if n <= |rest| {
        CutTail(f.data, Data(more), rest);
        FillCut(v, more, rest[n..]);
        var k := Fitting(more, |rest| - n);
        assert frames[..k + 1] == [f] + more[..k];
        assert f.(data := []).(data := rest[..n]) == f;
      }
    }
  }

  /** Filling in the first frame. */
  lemma FillFirst(v: Variant, f: Frame, toc: seq<Frame>, rest: seq<Byte>)
    requires |f.data| == FrameBytes(v, f.ft)
    ensures var n := |f.data|;
            Fill(v, [f.(data := [])] + toc, rest)
            == if n > |rest| then Parsed([], false)
               else
                 var r := Fill(v, toc, rest[n..]);
                 Parsed([f.(data := []).(data := rest[..n])] + r.frames, r.ok)
  {
    assert ([f.(data := [])] + toc)[1..] == toc;
  }

  lemma CutTail(a: seq<Byte>, b: seq<Byte>, rest: seq<Byte>)
    requires (rest <= a + b || a + b <= rest) && |a| <= |rest|
    ensures rest[..|a|] == a && (rest[|a|..] <= b || b <= rest[|a|..])
  {
  }

  lemma {:induction false} EverythingFits(frames: seq<Frame>, room: nat)
    requires room >= |Data(frames)|
    ensures Fitting(frames, room) == |frames|
  {
    if frames != [] {
      EverythingFits(frames[1..], room - |frames[0].data|);
    }
  }

  /** Main result: parsing returns what was serialised, for every frame list but the empty one,
      whatever follows in the packet. */
  lemma ParseUndoesPayload(v: Variant, cmr: Byte, frames: seq<Frame>, padding: seq<Byte>)
    requires frames != [] && WellFormed(v, frames)
    ensures Parse(v, Payload(cmr, frames) + padding) == Parsed(frames, true)
  {
    hide Toc, Fill, TocBytes, Data, Fitting, WellFormed;
    var rest := Data(frames) + padding;
    assert Payload(cmr, frames) + padding == [cmr] + TocBytes(frames) + rest;
    TocOfTocBytes(frames, rest);
    ParseSplit(v, cmr, TocBytes(frames), rest);
    FillCut(v, frames, rest);
    EverythingFits(frames, |rest|);
    assert frames[..|frames|] == frames;
  }

  // ---- Truncated payloads ----

  lemma {:induction false} TocOfCut(frames: seq<Frame>, n: nat)
    requires 0 < n <= |frames|
    ensures Toc(TocBytes(frames)[..n]) == Bare(frames[..n])
    decreases n
  {
    hide Toc, TocByte, Entry, Bare;
    var f, more, tail := frames[0], frames[1..], TocBytes(frames[1..])[..n - 1];
    var b := TocByte(f, |frames| > 1);
    assert frames[..n] == [f] + more[..n - 1] && TocBytes(frames)[..n] == [b] + tail;
    EntryOfTocByte(f, |frames| > 1);
    TocCons(b, tail);
    BareCons(f, more[..n - 1]);
    if n > 1 {
      TocOfCut(more, n - 1);
    } else {
      TocOfNothing(tail);
    }
  }

  lemma TocOfNothing(p: seq<Byte>)
    requires p == []
    ensures Toc(p) == []
  {
  }

  /** How many frames are announced, and how much room there is for data, in the first `n` bytes. */
  function Announced(frames: seq<Frame>, n: nat): nat
    requires n >= 1
  {
    if n - 1 <= |frames| then n - 1 else |frames|
  }

  function Room(frames: seq<Frame>, n: nat): nat {
    if n >= 1 + |frames| then n - 1 - |frames| else 0
  }

  /** Main result: of a payload cut off anywhere the parser returns the longest prefix of the
      announced frames that fits, and reports an error exactly if that is not all of them. */
  lemma CutYieldsLongestPrefix(v: Variant, cmr: Byte, frames: seq<Frame>, n: nat)
    requires frames != [] && WellFormed(v, frames) && 2 <= n <= |Payload(cmr, frames)|
    ensures var a := Announced(frames, n);
            var k := Fitting(frames[..a], Room(frames, n));
            Parse(v, Payload(cmr, frames)[..n]) == Parsed(frames[..k], k == a)
  {
    hide Toc, Fill, TocBytes, Data, Fitting;
    var t, d := TocBytes(frames), Data(frames);
    var a := Announced(frames, n);
    var shown := frames[..a];
    if n - 1 <= |frames| {
      assert Payload(cmr, frames)[..n] == [cmr] + t[..a] + [];
      assert t[..a] + [] == t[..a];
      TocOfCut(frames, a);
      ParseSplit(v, cmr, t[..a], []);
      FillCut(v, shown, []);
    } else {
      var rest := d[..Room(frames, n)];
      assert Payload(cmr, frames)[..n] == [cmr] + t + rest;
      TocOfTocBytes(frames, rest);
      ParseSplit(v, cmr, t, rest);
      assert shown == frames;
      FillCut(v, frames, rest);
    }
    var k := Fitting(shown, Room(frames, n));
    assert shown[..k] == frames[..k];
  }

  lemma {:induction false} FittingInNothing(frames: seq<Frame>)
    ensures Fitting(frames, 0) == |frames| <==> forall k :: 0 <= k < |frames| ==> frames[k].data == []
  {
    if frames != [] {
      FittingInNothing(frames[1..]);
      assert forall k :: 0 <= k < |frames| - 1 ==> frames[1..][k] == frames[k + 1];
      if frames[0].data == [] && forall k :: 0 <= k < |frames| - 1 ==> frames[1..][k].data == [] {
        forall k | 0 <= k < |frames|
          ensures frames[k].data == []
        {
          assert k > 0 ==> frames[1..][k - 1] == frames[k];
        }
      }
    }
  }

  lemma {:induction false} FittingIsData(frames: seq<Frame>, room: nat)
    ensures Fitting(frames, room) == |frames| <==> |Data(frames)| <= room
  {
    if frames != [] && |frames[0].data| <= room {
      FittingIsData(frames[1..], room - |frames[0].data|);
    }
  }

  /** A cut payload is accepted although frames are missing exactly if the cut is inside the table
      of contents and every frame announced before it is empty: the parser does not ask for a last
      entry with F clear. */
  lemma CutAcceptedIff(v: Variant, cmr: Byte, frames: seq<Frame>, n: nat)
    requires frames != [] && WellFormed(v, frames) && 2 <= n < |Payload(cmr, frames)|
    ensures Parse(v, Payload(cmr, frames)[..n]).ok <==>
            n - 1 <= |frames| && forall k :: 0 <= k < n - 1 ==> frames[k].data == []
  {
    CutYieldsLongestPrefix(v, cmr, frames, n);
    var shown := frames[..Announced(frames, n)];
    if n - 1 <= |frames| {
      FittingInNothing(shown);
      assert forall k :: 0 <= k < n - 1 ==> shown[k] == frames[k];
    } else {
      assert shown == frames;
      FittingIsData(frames, Room(frames, n));
    }
  }

  // ---- Serialising undoes parsing ----

  /** The table of contents ends with an entry whose F bit is clear. */
  predicate Terminated(p: seq<Byte>) {
    p != [] && (p[0] < 128 || Terminated(p[1..]))
  }

  lemma {:induction false} TocBytesOfToc(p: seq<Byte>)
    requires Terminated(p) && forall k :: 0 <= k < |Toc(p)| ==> p[k] % 4 == 0
    ensures TocBytes(Toc(p)) == p[..|Toc(p)|]
  {
    var toc := Toc(p);
    if p[0] >= 128 {
      forall k | 0 <= k < |Toc(p[1..])|
        ensures p[1..][k] % 4 == 0
      {
        assert p[1..][k] == p[k + 1];
      }
      TocBytesOfToc(p[1..]);
      assert toc[1..] == Toc(p[1..]);
    } else {
      assert toc[1..] == [];
    }
    assert TocByte(toc[0], p[0] >= 128) == p[0];
  }

  lemma {:induction false} FillIsData(v: Variant, toc: seq<Frame>, rest: seq<Byte>)
    requires Fill(v, toc, rest).ok
    ensures var frames := Fill(v, toc, rest).frames;
            WellFormed(v, frames) && TocBytes(frames) == TocBytes(toc) && |frames| == |toc| && Data(frames) <= rest
  {
    if toc != [] {
      var n := FrameBytes(v, toc[0].ft);
      FillIsData(v, toc[1..], rest[n..]);
      var f := toc[0].(data := rest[..n]);
      var frames := Fill(v, toc[1..], rest[n..]).frames;
      TocBytesCons(f, frames, toc);
      DataCons(f, frames, rest);
    }
  }

  lemma SameTocByte(f: Frame, g: Frame, more: bool)
    requires f.ft == g.ft && f.quality == g.quality
    ensures TocByte(f, more) == TocByte(g, more)
  {
  }

  lemma TocBytesCons(f: Frame, frames: seq<Frame>, toc: seq<Frame>)
    requires toc != [] && f.ft == toc[0].ft && f.quality == toc[0].quality
    requires |frames| == |toc| - 1 && TocBytes(frames) == TocBytes(toc[1..])
    ensures TocBytes([f] + frames) == TocBytes(toc)
  {
    hide TocByte;
    SameTocByte(f, toc[0], |toc| > 1);
    assert ([f] + frames)[1..] == frames;
  }

  lemma DataCons(f: Frame, frames: seq<Frame>, rest: seq<Byte>)
    requires |f.data| <= |rest| && f.data == rest[..|f.data|] && Data(frames) <= rest[|f.data|..]
    ensures Data([f] + frames) <= rest
  {
    assert ([f] + frames)[1..] == frames;
    assert rest == f.data + rest[|f.data|..];
  }

  /** What the parser accepts, and whose table of contents ends properly with clear padding bits,
      is the serialisation of the frames it found, up to unused bytes at the end. */
  lemma PayloadUndoesParse(v: Variant, p: seq<Byte>)
    requires |p| >= 2 && Parse(v, p).ok && Terminated(p[1..])
    requires forall k :: 0 <= k < |Toc(p[1..])| ==> p[1..][k] % 4 == 0
    ensures var frames := Parse(v, p).frames; frames != [] && WellFormed(v, frames) && Payload(p[0], frames) <= p
  {
    var toc := Toc(p[1..]);
    TocBytesOfToc(p[1..]);
    FillIsData(v, toc, p[1 + |toc|..]);
    assert p == [p[0]] + p[1..][..|toc|] + p[1 + |toc|..];
  }

  // ---- The sender ----

  /** A frame as stored in a file. */
  function Stored(f: Frame): seq<Byte> {
    [TocByte(f, false)] + f.data
  }

  function StoredAll(frames: seq<Frame>): seq<Byte> {
    if frames == [] then [] else Stored(frames[0]) + StoredAll(frames[1..])
  }

  const NO_MODE_REQUEST: Byte := 0xF0

  datatype Read = EndOfFile | Failed | Skipped | Packet(payload: seq<Byte>)

  /** What the next read of `file` gives, and how many bytes it takes. */
  function NextRead(v: Variant, file: seq<Byte>): (r: (Read, nat))
    ensures r.1 <= |file| && (r.0.EndOfFile? || r.1 > 0)
  {
    if file == [] then (EndOfFile, 0)
    else
      var n := FrameBytes(v, file[0] / 8 % 16);
      if n > |file| - 1 then (Failed, |file|)
      else if n == 0 then (Skipped, 1)
      else (Packet([NO_MODE_REQUEST, file[0] % 128] + file[1..1 + n]), 1 + n)
  }

  /** The payloads sent from `file` until its end or the first error. */
  function Sent(v: Variant, file: seq<Byte>): seq<seq<Byte>>
    decreases |file|
  {
    var (r, n) := NextRead(v, file);
    match r
    case EndOfFile => []
    case Failed => []
    case Skipped => Sent(v, file[n..])
    case Packet(payload) => [payload] + Sent(v, file[n..])
  }

  lemma SentStep(v: Variant, file: seq<Byte>, pos: nat)
    requires pos <= |file|
    ensures var (r, n) := NextRead(v, file[pos..]);
            && pos + n <= |file|
            && Sent(v, file[pos..]) == (match r
                                        case EndOfFile => []
                                        case Failed => []
                                        case Skipped => Sent(v, file[pos + n..])
                                        case Packet(payload) => [payload] + Sent(v, file[pos + n..]))
  {
    var (r, n) := NextRead(v, file[pos..]);
    assert file[pos..][n..] == file[pos + n..];
  }

  lemma NoMore(payloads: seq<seq<Byte>>)
    ensures payloads + [] == payloads
  {
  }

  lemma OneMore(payloads: seq<seq<Byte>>, payload: seq<Byte>, rest: seq<seq<Byte>>)
    ensures payloads + ([payload] + rest) == (payloads + [payload]) + rest
  {
  }

  class AmrReader {
    const v: Variant
    const file: seq<Byte>
    var pos: nat

    ghost predicate Valid()
      reads this
    {
      pos <= |file|
    }

    /** `file` without the magic header that was checked before. */
    constructor (v: Variant, file: seq<Byte>)
      ensures Valid() && this.v == v && this.file == file && pos == 0
    {
      this.v, this.file, pos := v, file, 0;
    }

    /** One stored frame as a payload; an empty frame is skipped. */
    method ReadFrame() returns (r: Read)
      requires Valid()
      modifies this
      ensures Valid()
      ensures (r, pos - old(pos)) == NextRead(v, file[old(pos)..])
    {
      if pos == |file| {
        return EndOfFile;
      }
      var hdr := file[pos];
      var start := pos + 1;
      var n := FrameBytes(v, hdr / 8 % 16);
      if start + n > |file| {
        pos := |file|;
        return Failed;
      }
      pos := start + n;
      if n == 0 {
        return Skipped;
      }
      assert file[old(pos)..][1..1 + n] == file[start..start + n];
      return Packet([NO_MODE_REQUEST, hdr % 128] + file[start..start + n]);
    }

    method SendAll() returns (payloads: seq<seq<Byte>>)
      requires Valid()
      modifies this
      ensures Valid() && payloads == Sent(v, file[old(pos)..])
    {
      hide NextRead, Sent;
      payloads := [];
      var more := true;
      while more
        invariant Valid()
        invariant payloads + (if more then Sent(v, file[pos..]) else []) == Sent(v, file[old(pos)..])
        decreases more, |file| - pos
      {
        SentStep(v, file, pos);
        var r := ReadFrame();
        NoMore(payloads);
        match r
        case EndOfFile => more := false;
        case Failed => more := false;
        case Skipped =>
        case Packet(payload) =>
          OneMore(payloads, payload, Sent(v, file[pos..]));
          payloads := payloads + [payload];
      }
    }
  }

  function NonEmpty(frames: seq<Frame>): seq<Frame> {
    if frames == [] then []
    else if frames[0].data == [] then NonEmpty(frames[1..])
    else [frames[0]] + NonEmpty(frames[1..])
  }

  /** The packet of one stored frame. */
  lemma StoredIsSent(v: Variant, f: Frame, rest: seq<Byte>)
    requires |f.data| == FrameBytes(v, f.ft)
    ensures NextRead(v, Stored(f) + rest) ==
            (if f.data == [] then Skipped else Packet(Payload(NO_MODE_REQUEST, [f])), 1 + |f.data|)
  {
    var file := Stored(f) + rest;
    var b := TocByte(f, false);
    EntryOfTocByte(f, false);
    assert file[0] == b && b / 8 % 16 == f.ft && b % 128 == b;
    assert file[1..1 + |f.data|] == f.data;
    assert Data([f]) == f.data && TocBytes([f]) == [b];
    assert [NO_MODE_REQUEST, b] + f.data == [NO_MODE_REQUEST] + [b] + f.data;
  }

  /** Main result: sending a file of stored frames and parsing the packets gives back the frames,
      one a packet and in order, without the empty ones. */
  lemma {:induction false} SentFramesComeBack(v: Variant, frames: seq<Frame>)
    requires WellFormed(v, frames)
    ensures var payloads := Sent(v, StoredAll(frames));
            && |payloads| == |NonEmpty(frames)|
            && forall k :: 0 <= k < |payloads| ==> Parse(v, payloads[k]) == Parsed([NonEmpty(frames)[k]], true)
    decreases |frames|
  {
    hide NextRead, Sent, Stored, Parse, Payload, FrameBytes;
    if frames == [] {
      NothingSent(v);
    } else {
      var f := frames[0];
      SentFirst(v, f, StoredAll(frames[1..]));
      SentFramesComeBack(v, frames[1..]);
      if f.data != [] {
        PacketParses(v, f);
      }
    }
  }

  lemma NothingSent(v: Variant)
    ensures Sent(v, []) == []
  {
  }

  lemma SentFirst(v: Variant, f: Frame, rest: seq<Byte>)
    requires |f.data| == FrameBytes(v, f.ft)
    ensures Sent(v, Stored(f) + rest) == (if f.data == [] then [] else [Payload(NO_MODE_REQUEST, [f])]) + Sent(v, rest)
  {
    StoredIsSent(v, f, rest);
    hide NextRead, Payload;
    assert (Stored(f) + rest)[1 + |f.data|..] == rest;
  }

  lemma PacketParses(v: Variant, f: Frame)
    requires |f.data| == FrameBytes(v, f.ft)
    ensures Parse(v, Payload(NO_MODE_REQUEST, [f])) == Parsed([f], true)
  {
    hide Parse, Payload, FrameBytes;
    ParseUndoesPayload(v, NO_MODE_REQUEST, [f], []);
    assert Payload(NO_MODE_REQUEST, [f]) + [] == Payload(NO_MODE_REQUEST, [f]);
  }

  // ---- In figures ----

  /** An entry of the table of contents: the type in bits 6 to 3, the quality in bit 2, then two unused bits. */
  function EntryByte(more: bool, ft: FrameType, quality: bool, unused: nat): Byte
    requires unused < 4
  {
    (if more then 0x80 else 0) + 0x08 * ft + (if quality then 0x04 else 0) + unused
  }

  lemma EntryOf(more: bool, ft: FrameType, quality: bool, unused: nat)
    requires unused < 4
    ensures Entry(EntryByte(more, ft, quality, unused)) == Frame(ft, quality, [])
    ensures EntryByte(more, ft, quality, unused) >= 128 <==> more
    ensures EntryByte(false, ft, quality, 0) == TocByte(Frame(ft, quality, []), false)
  {
    var low := (if quality then 4 else 0) + unused;
    var b := EntryByte(more, ft, quality, unused);
    assert b == 8 * ((if more then 16 else 0) + ft) + low;
    assert b / 8 == (if more then 16 else 0) + ft;
    assert b / 4 == 2 * (b / 8) + low / 4;
  }

  /** Main result: what a payload of one frame is read as, bit by bit. */
  lemma OneFrameInFigures(v: Variant, cmr: Byte, ft: FrameType, quality: bool, unused: nat, data: seq<Byte>,
                          rest: seq<Byte>)
    requires unused < 4 && |data| == FrameBytes(v, ft)
    ensures Parse(v, [cmr, EntryByte(false, ft, quality, unused)] + (data + rest))
            == Parsed([Frame(ft, quality, data)], true)
  {
    hide Entry, EntryByte, FrameBytes;
    var e := EntryByte(false, ft, quality, unused);
    var p := [cmr, e] + (data + rest);
    EntryOf(false, ft, quality, unused);
    assert p[1..][0] == e && p[2..] == data + rest && (data + rest)[..|data|] == data;
    assert Toc(p[1..]) == [Entry(e)];
    assert Fill(v, [], (data + rest)[|data|..]) == Parsed([], true);
  }

  /** And one of two frames. */
  lemma TwoFramesInFigures(v: Variant, cmr: Byte, a: Frame, b: Frame)
    requires |a.data| == FrameBytes(v, a.ft) && |b.data| == FrameBytes(v, b.ft)
    ensures Parse(v, [cmr, EntryByte(true, a.ft, a.quality, 0), EntryByte(false, b.ft, b.quality, 0)]
                     + (a.data + b.data))
            == Parsed([a, b], true)
  {
    hide Entry, EntryByte, FrameBytes;
    var e, f := EntryByte(true, a.ft, a.quality, 0), EntryByte(false, b.ft, b.quality, 0);
    var p := [cmr, e, f] + (a.data + b.data);
    EntryOf(true, a.ft, a.quality, 0);
    EntryOf(false, b.ft, b.quality, 0);
    assert p[1..][1..] == [f] + (a.data + b.data) && p[3..] == a.data + b.data;
    assert Toc([f] + (a.data + b.data)) == [Entry(f)];
    assert Toc(p[1..]) == [Entry(e), Entry(f)];
    assert (a.data + b.data)[..|a.data|] == a.data && (a.data + b.data)[|a.data|..] == b.data;
    assert [Entry(e), Entry(f)][1..] == [Entry(f)] && [Entry(f)][1..] == [];
    assert b.data[..|b.data|] == b.data && Fill(v, [], b.data[|b.data|..]) == Parsed([], true);
    assert Fill(v, [Entry(f)], b.data) == Parsed([b], true);
  }

  lemma ClearedEntry(more: bool, ft: FrameType, quality: bool)
    ensures var b := EntryByte(more, ft, quality, 0); b % 128 == EntryByte(false, ft, quality, 0) && b / 8 % 16 == ft
  {
    var low := if quality then 4 else 0;
    assert EntryByte(more, ft, quality, 0) == 8 * ((if more then 16 else 0) + ft) + low;
  }

  /** Main result: a stored frame is sent behind F0, with its first bit cleared. */
  lemma StoredFrameInFigures(v: Variant, more: bool, ft: FrameType, quality: bool, data: seq<Byte>)
    requires |data| == FrameBytes(v, ft)
    ensures Sent(v, [EntryByte(more, ft, quality, 0)] + data)
            == if data == [] then [] else [[0xF0, EntryByte(false, ft, quality, 0)] + data]
  {
    hide FrameBytes, EntryByte;
    var b := EntryByte(more, ft, quality, 0);
    var file := [b] + data;
    EntryOf(more, ft, quality, 0);
    ClearedEntry(more, ft, quality);
    assert file[1..1 + |data|] == data && file[1 + |data|..] == [];
    NothingSent(v);
    assert NextRead(v, file)
           == if data == [] then (Skipped, 1) else (Packet([NO_MODE_REQUEST, b % 128] + data), 1 + |data|);
    hide NextRead;
    assert [[0xF0, b % 128] + data] + [] == [[0xF0, b % 128] + data];
  }
}
