/** The two hand-written message codecs: AudioChunk (gateway encodes, worker decodes) and
    RecognitionResult (worker encodes, gateway decodes). Strings are byte sequences. */
module SpeechWire {
  import opened Basics
  import opened ProtoWire

  // ---- Fields in figures ----

  /** A string or byte sequence behind its tag; an empty one is left out. */
  function StringBytes(tag: Byte, s: seq<Byte>): seq<Byte> {
    if s == [] then [] else [tag] + Varint(|s|) + s
  }

  /** A number behind its tag, negative ones in two's complement of 64 bits. */
  function NumberBytes(present: bool, tag: Byte, v: int): seq<Byte> {
    if present then [tag] + Varint(v % 0x1_0000_0000_0000_0000) else []
  }

  /** The low 32 bits as a signed number. */
  function Low32(v: int): int {
    (v + 0x8000_0000) % 0x1_0000_0000 - 0x8000_0000
  }

  lemma Low32IsInt32(v: int)
    ensures Low32(v) == ToI32(v)
  {
  }

  lemma OneByteTag(num: FieldNumber, typ: WireType)
    requires num <= 15
    ensures Tag(num, typ) == [num * 8 + typ]
  {
  }

  lemma EncodeOpt(present: bool, f: Field, rest: seq<Field>)
    requires AllWritable(Opt(present, f, rest))
    ensures AllWritable(rest) && (present ==> Writable(f))
    ensures Encode(Opt(present, f, rest)) == (if present then EncodeField(f) else []) + Encode(rest)
  {
    ProduceAll([], Opt(present, f, rest));
    ProduceOpt([], present, f, rest, [] + Encode(Opt(present, f, rest)));
  }

  lemma StringField(num: FieldNumber, s: seq<Byte>)
    requires num <= 15 && Writable(BytesField(num, s))
    ensures EncodeField(BytesField(num, s)) == [num * 8 + 2] + Varint(|s|) + s
  {
    hide Varint, Tag;
    OneByteTag(num, BYTES);
    assert [num * 8 + 2] + Varint(|s|) + s == [num * 8 + 2] + (Varint(|s|) + s);
  }

  lemma EncodeString(num: FieldNumber, s: seq<Byte>, rest: seq<Field>)
    requires num <= 15 && AllWritable(Opt(s != [], BytesField(num, s), rest))
    ensures AllWritable(rest)
    ensures Encode(Opt(s != [], BytesField(num, s), rest)) == StringBytes(num * 8 + 2, s) + Encode(rest)
  {
    hide Encode, EncodeField, Varint, Opt, AllWritable, Writable;
    EncodeOpt(s != [], BytesField(num, s), rest);
    if s != [] {
      StringField(num, s);
    }
  }

  lemma EncodeNumber(present: bool, num: FieldNumber, v: int, rest: seq<Field>)
    requires num <= 15 && AllWritable(Opt(present, IntField(num, ToU64(v)), rest))
    ensures AllWritable(rest)
    ensures Encode(Opt(present, IntField(num, ToU64(v)), rest)) == NumberBytes(present, num * 8, v) + Encode(rest)
  {
    hide Encode, Varint, Tag;
    EncodeOpt(present, IntField(num, ToU64(v)), rest);
    OneByteTag(num, VARINT);
  }

  // ---- AudioChunk ----

  datatype AudioChunk = AudioChunk(
    sessionID: seq<Byte>, streamID: seq<Byte>, pcm: seq<Byte>,
    sampleRate: I64, channels: I64, rtpTimestamp: U32, durationMs: I64,
    endOfStream: bool, language: seq<Byte>, task: seq<Byte>)

  const NO_CHUNK := AudioChunk([], [], [], 0, 0, 0, 0, false, [], [])

  /** Lengths are Go ints. */
  predicate ValidChunk(m: AudioChunk) {
    && |m.sessionID| < I64_SIZE && |m.streamID| < I64_SIZE && |m.pcm| < I64_SIZE
    && |m.language| < I64_SIZE && |m.task| < I64_SIZE
  }

  /** The fields written: defaults are left out, 32-bit rates are sign-extended. */
  function ChunkTail(m: AudioChunk): seq<Field> {
    Opt(m.rtpTimestamp != 0, IntField(6, m.rtpTimestamp),
    Opt(m.durationMs != 0, IntField(7, ToU64(m.durationMs)),
    Opt(m.endOfStream, IntField(8, 1),
    Opt(m.language != [], BytesField(9, m.language),
    Opt(m.task != [], BytesField(10, m.task), [])))))
  }

  function ChunkFields(m: AudioChunk): seq<Field> {
    Opt(m.sessionID != [], BytesField(1, m.sessionID),
    Opt(m.streamID != [], BytesField(2, m.streamID),
    Opt(m.pcm != [], BytesField(3, m.pcm),
    Opt(m.sampleRate != 0, IntField(4, ToU64(ToI32(m.sampleRate))),
    Opt(m.channels != 0, IntField(5, ToU64(ToI32(m.channels))),
    ChunkTail(m))))))
  }

  /** The same message byte by byte. */
  function ChunkTailBytes(m: AudioChunk): seq<Byte> {
    NumberBytes(m.rtpTimestamp != 0, 0x30, m.rtpTimestamp) +
    (NumberBytes(m.durationMs != 0, 0x38, m.durationMs) +
     (NumberBytes(m.endOfStream, 0x40, 1) +
      (StringBytes(0x4A, m.language) +
       StringBytes(0x52, m.task))))
  }

  function ChunkBytes(m: AudioChunk): seq<Byte> {
    StringBytes(0x0A, m.sessionID) +
    (StringBytes(0x12, m.streamID) +
     (StringBytes(0x1A, m.pcm) +
      (NumberBytes(m.sampleRate != 0, 0x20, Low32(m.sampleRate)) +
       (NumberBytes(m.channels != 0, 0x28, Low32(m.channels)) +
        ChunkTailBytes(m)))))
  }

  lemma ChunkTailInFigures(m: AudioChunk)
    requires ValidChunk(m)
    ensures AllWritable(ChunkTail(m)) && Encode(ChunkTail(m)) == ChunkTailBytes(m)
  {
    hide AllWritable, Opt, Encode, StringBytes, NumberBytes, BytesField, IntField;
    ChunkTailWritable(m);
    var r10 := Opt(m.task != [], BytesField(10, m.task), []);
    var r9 := Opt(m.language != [], BytesField(9, m.language), r10);
    var r8 := Opt(m.endOfStream, IntField(8, 1), r9);
    var r7 := Opt(m.durationMs != 0, IntField(7, ToU64(m.durationMs)), r8);
    EncodeNumber(m.rtpTimestamp != 0, 6, m.rtpTimestamp, r7);
    EncodeNumber(m.durationMs != 0, 7, m.durationMs, r8);
    EncodeNumber(m.endOfStream, 8, 1, r9);
    EncodeString(9, m.language, r10);
    EncodeString(10, m.task, []);
    EncodeNothing();
  }

  lemma EncodeNothing()
    ensures AllWritable([]) && Encode([]) == []
  {
  }

  /** Main result: the fields written are these bytes. */
  lemma ChunkInFigures(m: AudioChunk)
    requires ValidChunk(m)
    ensures AllWritable(ChunkFields(m)) && Encode(ChunkFields(m)) == ChunkBytes(m)
  {
    hide AllWritable, Opt, Encode, StringBytes, NumberBytes, BytesField, IntField, ChunkTail, ChunkTailBytes, ToI32,
         Low32;
    ChunkFieldsWritable(m);
    Low32IsInt32(m.sampleRate);
    Low32IsInt32(m.channels);
    var r5 := Opt(m.channels != 0, IntField(5, ToU64(ToI32(m.channels))), ChunkTail(m));
    var r4 := Opt(m.sampleRate != 0, IntField(4, ToU64(ToI32(m.sampleRate))), r5);
    var r3 := Opt(m.pcm != [], BytesField(3, m.pcm), r4);
    var r2 := Opt(m.streamID != [], BytesField(2, m.streamID), r3);
    EncodeString(1, m.sessionID, r2);
    EncodeString(2, m.streamID, r3);
    EncodeString(3, m.pcm, r4);
    EncodeNumber(m.sampleRate != 0, 4, ToI32(m.sampleRate), r5);
    EncodeNumber(m.channels != 0, 5, ToI32(m.channels), ChunkTail(m));
    ChunkTailInFigures(m);
  }

  /** What reading one field does to the message; unknown fields do nothing. */
  function PutChunk(m: AudioChunk, f: Field): AudioChunk {
    match f.value
    case BytesValue(s) =>
      if f.num == 1 then m.(sessionID := s)
      else if f.num == 2 then m.(streamID := s)
      else if f.num == 3 then m.(pcm := s)
      else if f.num == 9 then m.(language := s)
      else if f.num == 10 then m.(task := s)
      else m
    case VarintValue(v) =>
      if f.num == 4 then m.(sampleRate := ToI32(v))
      else if f.num == 5 then m.(channels := ToI32(v))
      else if f.num == 6 then m.(rtpTimestamp := ToU32(v))
      else if f.num == 7 then m.(durationMs := ToI64(v))
      else if f.num == 8 then m.(endOfStream := v != 0)
      else m
    case Fixed32Value(_) => m
    case OtherValue(_) => m
  }

  lemma ChunkTailWritable(m: AudioChunk)
    requires ValidChunk(m)
    ensures AllWritable(ChunkTail(m))
  {
    hide AllWritable, Opt;
    var fs: seq<Field> := [];
    NoneWritable();
    BytesOptWritable(m.task != [], 10, m.task, fs);
    fs := Opt(m.task != [], BytesField(10, m.task), fs);
    BytesOptWritable(m.language != [], 9, m.language, fs);
    fs := Opt(m.language != [], BytesField(9, m.language), fs);
    IntOptWritable(m.endOfStream, 8, 1, fs);
    fs := Opt(m.endOfStream, IntField(8, 1), fs);
    IntOptWritable(m.durationMs != 0, 7, ToU64(m.durationMs), fs);
    fs := Opt(m.durationMs != 0, IntField(7, ToU64(m.durationMs)), fs);
    IntOptWritable(m.rtpTimestamp != 0, 6, m.rtpTimestamp, fs);
  }

  lemma ChunkFieldsWritable(m: AudioChunk)
    requires ValidChunk(m)
    ensures AllWritable(ChunkFields(m))
  {
    hide AllWritable, Opt;
    var fs := ChunkTail(m);
    ChunkTailWritable(m);
    IntOptWritable(m.channels != 0, 5, ToU64(ToI32(m.channels)), fs);
    fs := Opt(m.channels != 0, IntField(5, ToU64(ToI32(m.channels))), fs);
    IntOptWritable(m.sampleRate != 0, 4, ToU64(ToI32(m.sampleRate)), fs);
    fs := Opt(m.sampleRate != 0, IntField(4, ToU64(ToI32(m.sampleRate))), fs);
    BytesOptWritable(m.pcm != [], 3, m.pcm, fs);
    fs := Opt(m.pcm != [], BytesField(3, m.pcm), fs);
    BytesOptWritable(m.streamID != [], 2, m.streamID, fs);
    fs := Opt(m.streamID != [], BytesField(2, m.streamID), fs);
    BytesOptWritable(m.sessionID != [], 1, m.sessionID, fs);
  }

  /** The second half of the encoder. */
  method AppendAudioChunkTail(start: seq<Byte>, m: AudioChunk) returns (b: seq<Byte>)
    requires ValidChunk(m)
    ensures AllWritable(ChunkTail(m)) && b == start + Encode(ChunkTail(m))
  {
    hide Produces, Encode, AllWritable, Opt, AppendBytesField, AppendVarintField, AppendFixed32Field,
         EncodeField, BytesField, IntField, FloatField, ToU64, ToI32, Writable;
    ChunkTailWritable(m);
    b := start;
    ghost var all := start + Encode(ChunkTail(m));
    ProduceAll(start, ChunkTail(m));
    ghost var r10 := Opt(m.task != [], BytesField(10, m.task), []);
    ghost var r9 := Opt(m.language != [], BytesField(9, m.language), r10);
    ghost var r8 := Opt(m.endOfStream, IntField(8, 1), r9);
    ghost var r7 := Opt(m.durationMs != 0, IntField(7, ToU64(m.durationMs)), r8);
    ProduceOpt(b, m.rtpTimestamp != 0, IntField(6, m.rtpTimestamp), r7, all);
    if m.rtpTimestamp != 0 {
      b := AppendVarintField(b, 6, m.rtpTimestamp);
    }
    ProduceOpt(b, m.durationMs != 0, IntField(7, ToU64(m.durationMs)), r8, all);
    if m.durationMs != 0 {
      b := AppendVarintField(b, 7, ToU64(m.durationMs));
    }
    ProduceOpt(b, m.endOfStream, IntField(8, 1), r9, all);
    if m.endOfStream {
      b := AppendVarintField(b, 8, 1);
    }
    ProduceOpt(b, m.language != [], BytesField(9, m.language), r10, all);
    if m.language != [] {
      b := AppendBytesField(b, 9, m.language);
    }
    ProduceOpt(b, m.task != [], BytesField(10, m.task), [], all);
    if m.task != [] {
      b := AppendBytesField(b, 10, m.task);
    }
    ProducedAll(b, [], all);
  }

  method MarshalAudioChunk(m: AudioChunk) returns (b: seq<Byte>)
    requires ValidChunk(m)
    ensures AllWritable(ChunkFields(m)) && b == Encode(ChunkFields(m))
    ensures b == ChunkBytes(m)
  {
    hide Produces, Encode, AllWritable, Opt, AppendBytesField, AppendVarintField, AppendFixed32Field,
         EncodeField, BytesField, IntField, FloatField, ToU64, ToI32, Writable, ChunkBytes;
    ChunkFieldsWritable(m);
    ChunkInFigures(m);
    b := [];
    ghost var all := [] + Encode(ChunkFields(m));
    ProduceAll([], ChunkFields(m));
    ghost var r5 := Opt(m.channels != 0, IntField(5, ToU64(ToI32(m.channels))), ChunkTail(m));
    ghost var r4 := Opt(m.sampleRate != 0, IntField(4, ToU64(ToI32(m.sampleRate))), r5);
    ghost var r3 := Opt(m.pcm != [], BytesField(3, m.pcm), r4);
    ghost var r2 := Opt(m.streamID != [], BytesField(2, m.streamID), r3);
    ProduceOpt(b, m.sessionID != [], BytesField(1, m.sessionID), r2, all);
    if m.sessionID != [] {
      b := AppendBytesField(b, 1, m.sessionID);
    }
    ProduceOpt(b, m.streamID != [], BytesField(2, m.streamID), r3, all);
    if m.streamID != [] {
      b := AppendBytesField(b, 2, m.streamID);
    }
    ProduceOpt(b, m.pcm != [], BytesField(3, m.pcm), r4, all);
    if m.pcm != [] {
      b := AppendBytesField(b, 3, m.pcm);
    }
    ProduceOpt(b, m.sampleRate != 0, IntField(4, ToU64(ToI32(m.sampleRate))), r5, all);
    if m.sampleRate != 0 {
      b := AppendVarintField(b, 4, ToU64(ToI32(m.sampleRate)));
    }
    ProduceOpt(b, m.channels != 0, IntField(5, ToU64(ToI32(m.channels))), ChunkTail(m), all);
    if m.channels != 0 {
      b := AppendVarintField(b, 5, ToU64(ToI32(m.channels)));
    }
    ProducedAll(b, ChunkTail(m), all);
    b := AppendAudioChunkTail(b, m);
  }

  /** The switch of the decoding loop: the value of a field whose tag has been read. */
  method ReadAudioChunkField(num: FieldNumber, typ: WireType, b: seq<Byte>, m: AudioChunk)
    returns (r: Parsed<AudioChunk>)
    ensures match ConsumeValue(num, typ, b)
            case Malformed(e) => r == Malformed(e)
            case Parsed(v, n) => r == Parsed(PutChunk(m, Field(num, v)), n)
  {
    if num == 1 && typ == BYTES {
      var v := ConsumeBytes(b);
      if v.Malformed? {
        return Malformed(v.error);
      }
      return Parsed(m.(sessionID := v.value), v.used);
    } else if num == 2 && typ == BYTES {
      var v := ConsumeBytes(b);
      if v.Malformed? {
        return Malformed(v.error);
      }
      return Parsed(m.(streamID := v.value), v.used);
    } else if num == 3 && typ == BYTES {
      var v := ConsumeBytes(b);
      if v.Malformed? {
        return Malformed(v.error);
      }
      return Parsed(m.(pcm := v.value), v.used);
    } else if num == 4 && typ == VARINT {
      var v := ConsumeVarint(b);
      if v.Malformed? {
        return Malformed(v.error);
      }
      return Parsed(m.(sampleRate := ToI32(v.value)), v.used);
    } else if num == 5 && typ == VARINT {
      var v := ConsumeVarint(b);
      if v.Malformed? {
        return Malformed(v.error);
      }
      return Parsed(m.(channels := ToI32(v.value)), v.used);
    } else if num == 6 && typ == VARINT {
      var v := ConsumeVarint(b);
      if v.Malformed? {
        return Malformed(v.error);
      }
      return Parsed(m.(rtpTimestamp := ToU32(v.value)), v.used);
    } else if num == 7 && typ == VARINT {
      var v := ConsumeVarint(b);
      if v.Malformed? {
        return Malformed(v.error);
      }
      return Parsed(m.(durationMs := ToI64(v.value)), v.used);
    } else if num == 8 && typ == VARINT {
      var v := ConsumeVarint(b);
      if v.Malformed? {
        return Malformed(v.error);
      }
      return Parsed(m.(endOfStream := v.value != 0), v.used);
    } else if num == 9 && typ == BYTES {
      var v := ConsumeBytes(b);
      if v.Malformed? {
        return Malformed(v.error);
      }
      return Parsed(m.(language := v.value), v.used);
    } else if num == 10 && typ == BYTES {
      var v := ConsumeBytes(b);
      if v.Malformed? {
        return Malformed(v.error);
      }
      return Parsed(m.(task := v.value), v.used);
    } else {
      ConsumeValueMatchesSkip(num, typ, b);
      var v := Skip(num, typ, b, RECURSION_LIMIT);
      if v.Malformed? {
        return Malformed(v.error);
      }
      return Parsed(m, v.used);
    }
  }

  method UnmarshalAudioChunk(bytes: seq<Byte>, into: AudioChunk) returns (r: Decoded<AudioChunk>)
    ensures r == Decode(bytes, into, PutChunk)
  {
    hide Decode, ConsumeValue, PutChunk;
    var b, m := bytes, into;
    while |b| > 0
      invariant Decode(b, m, PutChunk) == Decode(bytes, into, PutChunk)
      decreases |b|
    {
      var tag := ConsumeTag(b);
      if tag.Malformed? {
        DecodeMalformed(b, m, PutChunk);
        return Failed(m, tag.error);
      }
      var (num, typ) := tag.value;
      NextFieldAfterTag(b, num, typ, tag.used);
      var value := ReadAudioChunkField(num, typ, b[tag.used..], m);
      if value.Malformed? {
        DecodeMalformed(b, m, PutChunk);
        return Failed(m, value.error);
      }
      DecodeStep(b, NextField(b).value, tag.used + value.used, m, PutChunk);
      assert b[tag.used..][value.used..] == b[tag.used + value.used..];
      m := value.value;
      b := b[tag.used..][value.used..];
    }
    DecodeNothing(m, PutChunk);
    return Done(m);
  }

  // ---- RecognitionResult ----

  /** `confidence` is the bit pattern of the 32-bit float. */
  datatype RecognitionResult = RecognitionResult(
    sessionID: seq<Byte>, streamID: seq<Byte>, text: seq<Byte>, isFinal: bool,
    tsStart: I64, tsEnd: I64, confidence: U32, language: seq<Byte>, seq_: U64)

  const NO_RESULT := RecognitionResult([], [], [], false, 0, 0, 0, [], 0)
  const NEGATIVE_ZERO: U32 := 0x8000_0000

  /** A float compares equal to zero when it is +0.0 or -0.0. */
  predicate IsZeroFloat(bits: U32) {
    bits == 0 || bits == NEGATIVE_ZERO
  }

  predicate ValidResult(m: RecognitionResult) {
    && |m.sessionID| < I64_SIZE && |m.streamID| < I64_SIZE && |m.text| < I64_SIZE && |m.language| < I64_SIZE
  }

  function ResultTail(m: RecognitionResult): seq<Field> {
    Opt(m.tsEnd != 0, IntField(6, ToU64(m.tsEnd)),
    Opt(!IsZeroFloat(m.confidence), FloatField(7, m.confidence),
    Opt(m.language != [], BytesField(8, m.language),
    Opt(m.seq_ != 0, IntField(9, m.seq_), []))))
  }

  function ResultFields(m: RecognitionResult): seq<Field> {
    Opt(m.sessionID != [], BytesField(1, m.sessionID),
    Opt(m.streamID != [], BytesField(2, m.streamID),
    Opt(m.text != [], BytesField(3, m.text),
    Opt(m.isFinal, IntField(4, 1),
    Opt(m.tsStart != 0, IntField(5, ToU64(m.tsStart)),
    ResultTail(m))))))
  }

  /** The same message byte by byte. */
  function ResultTailBytes(m: RecognitionResult): seq<Byte> {
    NumberBytes(m.tsEnd != 0, 0x30, m.tsEnd) +
    (FloatBytes(m.confidence) +
     (StringBytes(0x42, m.language) +
      NumberBytes(m.seq_ != 0, 0x48, m.seq_)))
  }

  /** The confidence, lowest byte first; the two zeros are left out. */
  function FloatBytes(w: U32): seq<Byte> {
    if w == 0 || w == 0x8000_0000 then []
    else [0x3D, w % 0x100, w / 0x100 % 0x100, w / 0x1_0000 % 0x100, w / 0x100_0000]
  }

  function ResultBytes(m: RecognitionResult): seq<Byte> {
    StringBytes(0x0A, m.sessionID) +
    (StringBytes(0x12, m.streamID) +
     (StringBytes(0x1A, m.text) +
      (NumberBytes(m.isFinal, 0x20, 1) +
       (NumberBytes(m.tsStart != 0, 0x28, m.tsStart) +
        ResultTailBytes(m)))))
  }

  lemma EncodeFloat(w: U32, rest: seq<Field>)
    requires AllWritable(Opt(!IsZeroFloat(w), FloatField(7, w), rest))
    ensures AllWritable(rest)
    ensures Encode(Opt(!IsZeroFloat(w), FloatField(7, w), rest)) == FloatBytes(w) + Encode(rest)
  {
    hide Encode, Tag;
    EncodeOpt(!IsZeroFloat(w), FloatField(7, w), rest);
    OneByteTag(7, FIXED32);
  }

  lemma ResultTailInFigures(m: RecognitionResult)
    requires ValidResult(m)
    ensures AllWritable(ResultTail(m)) && Encode(ResultTail(m)) == ResultTailBytes(m)
  {
    hide AllWritable, Opt, Encode, StringBytes, NumberBytes, FloatBytes, BytesField, IntField, FloatField, IsZeroFloat;
    ResultTailWritable(m);
    var r9 := Opt(m.seq_ != 0, IntField(9, m.seq_), []);
    var r8 := Opt(m.language != [], BytesField(8, m.language), r9);
    var r7 := Opt(!IsZeroFloat(m.confidence), FloatField(7, m.confidence), r8);
    EncodeNumber(m.tsEnd != 0, 6, m.tsEnd, r7);
    EncodeFloat(m.confidence, r8);
    EncodeString(8, m.language, r9);
    EncodeNumber(m.seq_ != 0, 9, m.seq_, []);
    EncodeNothing();
  }

  /** Main result: the fields written are these bytes. */
  lemma ResultInFigures(m: RecognitionResult)
    requires ValidResult(m)
    ensures AllWritable(ResultFields(m)) && Encode(ResultFields(m)) == ResultBytes(m)
  {
    hide AllWritable, Opt, Encode, StringBytes, NumberBytes, BytesField, IntField, ResultTail, ResultTailBytes;
    ResultFieldsWritable(m);
    var r5 := Opt(m.tsStart != 0, IntField(5, ToU64(m.tsStart)), ResultTail(m));
    var r4 := Opt(m.isFinal, IntField(4, 1), r5);
    var r3 := Opt(m.text != [], BytesField(3, m.text), r4);
    var r2 := Opt(m.streamID != [], BytesField(2, m.streamID), r3);
    EncodeString(1, m.sessionID, r2);
    EncodeString(2, m.streamID, r3);
    EncodeString(3, m.text, r4);
    EncodeNumber(m.isFinal, 4, 1, r5);
    EncodeNumber(m.tsStart != 0, 5, m.tsStart, ResultTail(m));
    ResultTailInFigures(m);
  }

  function PutResult(m: RecognitionResult, f: Field): RecognitionResult {
    match f.value
    case BytesValue(s) =>
      if f.num == 1 then m.(sessionID := s)
      else if f.num == 2 then m.(streamID := s)
      else if f.num == 3 then m.(text := s)
      else if f.num == 8 then m.(language := s)
      else m
    case VarintValue(v) =>
      if f.num == 4 then m.(isFinal := v != 0)
      else if f.num == 5 then m.(tsStart := ToI64(v))
      else if f.num == 6 then m.(tsEnd := ToI64(v))
      else if f.num == 9 then m.(seq_ := v)
      else m
    case Fixed32Value(w) => if f.num == 7 then m.(confidence := w) else m
    case OtherValue(_) => m
  }

  lemma ResultTailWritable(m: RecognitionResult)
    requires ValidResult(m)
    ensures AllWritable(ResultTail(m))
  {
    hide AllWritable, Opt;
    var fs: seq<Field> := [];
    NoneWritable();
    IntOptWritable(m.seq_ != 0, 9, m.seq_, fs);
    fs := Opt(m.seq_ != 0, IntField(9, m.seq_), fs);
    BytesOptWritable(m.language != [], 8, m.language, fs);
    fs := Opt(m.language != [], BytesField(8, m.language), fs);
    FloatOptWritable(!IsZeroFloat(m.confidence), 7, m.confidence, fs);
    fs := Opt(!IsZeroFloat(m.confidence), FloatField(7, m.confidence), fs);
    IntOptWritable(m.tsEnd != 0, 6, ToU64(m.tsEnd), fs);
  }

  lemma ResultFieldsWritable(m: RecognitionResult)
    requires ValidResult(m)
    ensures AllWritable(ResultFields(m))
  {
    hide AllWritable, Opt;
    var fs := ResultTail(m);
    ResultTailWritable(m);
    IntOptWritable(m.tsStart != 0, 5, ToU64(m.tsStart), fs);
    fs := Opt(m.tsStart != 0, IntField(5, ToU64(m.tsStart)), fs);
    IntOptWritable(m.isFinal, 4, 1, fs);
    fs := Opt(m.isFinal, IntField(4, 1), fs);
    BytesOptWritable(m.text != [], 3, m.text, fs);
    fs := Opt(m.text != [], BytesField(3, m.text), fs);
    BytesOptWritable(m.streamID != [], 2, m.streamID, fs);
    fs := Opt(m.streamID != [], BytesField(2, m.streamID), fs);
    BytesOptWritable(m.sessionID != [], 1, m.sessionID, fs);
  }

  /** The second half of the encoder. */
  method AppendRecognitionResultTail(start: seq<Byte>, m: RecognitionResult) returns (b: seq<Byte>)
    requires ValidResult(m)
    ensures AllWritable(ResultTail(m)) && b == start + Encode(ResultTail(m))
  {
    hide Produces, Encode, AllWritable, Opt, AppendBytesField, AppendVarintField, AppendFixed32Field,
         EncodeField, BytesField, IntField, FloatField, ToU64, ToI32, Writable;
    ResultTailWritable(m);
    b := start;
    ghost var all := start + Encode(ResultTail(m));
    ProduceAll(start, ResultTail(m));
    ghost var r9 := Opt(m.seq_ != 0, IntField(9, m.seq_), []);
    ghost var r8 := Opt(m.language != [], BytesField(8, m.language), r9);
    ghost var r7 := Opt(!IsZeroFloat(m.confidence), FloatField(7, m.confidence), r8);
    ProduceOpt(b, m.tsEnd != 0, IntField(6, ToU64(m.tsEnd)), r7, all);
    if m.tsEnd != 0 {
      b := AppendVarintField(b, 6, ToU64(m.tsEnd));
    }
    ProduceOpt(b, !IsZeroFloat(m.confidence), FloatField(7, m.confidence), r8, all);
    if !IsZeroFloat(m.confidence) {
      b := AppendFixed32Field(b, 7, m.confidence);
    }
    ProduceOpt(b, m.language != [], BytesField(8, m.language), r9, all);
    if m.language != [] {
      b := AppendBytesField(b, 8, m.language);
    }
    ProduceOpt(b, m.seq_ != 0, IntField(9, m.seq_), [], all);
    if m.seq_ != 0 {
      b := AppendVarintField(b, 9, m.seq_);
    }
    ProducedAll(b, [], all);
  }

  method MarshalRecognitionResult(m: RecognitionResult) returns (b: seq<Byte>)
    requires ValidResult(m)
    ensures AllWritable(ResultFields(m)) && b == Encode(ResultFields(m))
    ensures b == ResultBytes(m)
  {
    hide Produces, Encode, AllWritable, Opt, AppendBytesField, AppendVarintField, AppendFixed32Field,
         EncodeField, BytesField, IntField, FloatField, ToU64, ToI32, Writable, ResultBytes;
    ResultFieldsWritable(m);
    ResultInFigures(m);
    b := [];
    ghost var all := [] + Encode(ResultFields(m));
    ProduceAll([], ResultFields(m));
    ghost var r5 := Opt(m.tsStart != 0, IntField(5, ToU64(m.tsStart)), ResultTail(m));
    ghost var r4 := Opt(m.isFinal, IntField(4, 1), r5);
    ghost var r3 := Opt(m.text != [], BytesField(3, m.text), r4);
    ghost var r2 := Opt(m.streamID != [], BytesField(2, m.streamID), r3);
    ProduceOpt(b, m.sessionID != [], BytesField(1, m.sessionID), r2, all);
    if m.sessionID != [] {
      b := AppendBytesField(b, 1, m.sessionID);
    }
    ProduceOpt(b, m.streamID != [], BytesField(2, m.streamID), r3, all);
    if m.streamID != [] {
      b := AppendBytesField(b, 2, m.streamID);
    }
    ProduceOpt(b, m.text != [], BytesField(3, m.text), r4, all);
    if m.text != [] {
      b := AppendBytesField(b, 3, m.text);
    }
    ProduceOpt(b, m.isFinal, IntField(4, 1), r5, all);
    if m.isFinal {
      b := AppendVarintField(b, 4, 1);
    }
    ProduceOpt(b, m.tsStart != 0, IntField(5, ToU64(m.tsStart)), ResultTail(m), all);
    if m.tsStart != 0 {
      b := AppendVarintField(b, 5, ToU64(m.tsStart));
    }
    ProducedAll(b, ResultTail(m), all);
    b := AppendRecognitionResultTail(b, m);
  }

  /** The switch of the decoding loop: the value of a field whose tag has been read. */
  method ReadRecognitionResultField(num: FieldNumber, typ: WireType, b: seq<Byte>, m: RecognitionResult)
    returns (r: Parsed<RecognitionResult>)
    ensures match ConsumeValue(num, typ, b)
            case Malformed(e) => r == Malformed(e)
            case Parsed(v, n) => r == Parsed(PutResult(m, Field(num, v)), n)
  {
    if num == 1 && typ == BYTES {
      var v := ConsumeBytes(b);
      if v.Malformed? {
        return Malformed(v.error);
      }
      return Parsed(m.(sessionID := v.value), v.used);
    } else if num == 2 && typ == BYTES {
      var v := ConsumeBytes(b);
      if v.Malformed? {
        return Malformed(v.error);
      }
      return Parsed(m.(streamID := v.value), v.used);
    } else if num == 3 && typ == BYTES {
      var v := ConsumeBytes(b);
      if v.Malformed? {
        return Malformed(v.error);
      }
      return Parsed(m.(text := v.value), v.used);
    } else if num == 4 && typ == VARINT {
      var v := ConsumeVarint(b);
      if v.Malformed? {
        return Malformed(v.error);
      }
      return Parsed(m.(isFinal := v.value != 0), v.used);
    } else if num == 5 && typ == VARINT {
      var v := ConsumeVarint(b);
      if v.Malformed? {
        return Malformed(v.error);
      }
      return Parsed(m.(tsStart := ToI64(v.value)), v.used);
    } else if num == 6 && typ == VARINT {
      var v := ConsumeVarint(b);
      if v.Malformed? {
        return Malformed(v.error);
      }
      return Parsed(m.(tsEnd := ToI64(v.value)), v.used);
    } else if num == 7 && typ == FIXED32 {
      var v := ConsumeFixed32(b);
      if v.Malformed? {
        return Malformed(v.error);
      }
      return Parsed(m.(confidence := v.value), v.used);
    } else if num == 8 && typ == BYTES {
      var v := ConsumeBytes(b);
      if v.Malformed? {
        return Malformed(v.error);
      }
      return Parsed(m.(language := v.value), v.used);
    } else if num == 9 && typ == VARINT {
      var v := ConsumeVarint(b);
      if v.Malformed? {
        return Malformed(v.error);
      }
      return Parsed(m.(seq_ := v.value), v.used);
    } else {
      ConsumeValueMatchesSkip(num, typ, b);
      var v := Skip(num, typ, b, RECURSION_LIMIT);
      if v.Malformed? {
        return Malformed(v.error);
      }
      return Parsed(m, v.used);
    }
  }

  method UnmarshalRecognitionResult(bytes: seq<Byte>, into: RecognitionResult) returns (r: Decoded<RecognitionResult>)
    ensures r == Decode(bytes, into, PutResult)
  {
    hide Decode, ConsumeValue, PutResult;
    var b, m := bytes, into;
    while |b| > 0
      invariant Decode(b, m, PutResult) == Decode(bytes, into, PutResult)
      decreases |b|
    {
      var tag := ConsumeTag(b);
      if tag.Malformed? {
        DecodeMalformed(b, m, PutResult);
        return Failed(m, tag.error);
      }
      var (num, typ) := tag.value;
      NextFieldAfterTag(b, num, typ, tag.used);
      var value := ReadRecognitionResultField(num, typ, b[tag.used..], m);
      if value.Malformed? {
        DecodeMalformed(b, m, PutResult);
        return Failed(m, value.error);
      }
      DecodeStep(b, NextField(b).value, tag.used + value.used, m, PutResult);
      assert b[tag.used..][value.used..] == b[tag.used + value.used..];
      m := value.value;
      b := b[tag.used..][value.used..];
    }
    DecodeNothing(m, PutResult);
    return Done(m);
  }

  // ---- The two halves of each codec undo each other ----

  lemma ChunkTailFold(m: AudioChunk, x: AudioChunk)
    requires x.rtpTimestamp == 0 && x.durationMs == 0 && x.endOfStream == false && x.language == [] && x.task == []
    ensures Fold(ChunkTail(m), x, PutChunk)
         == x.(rtpTimestamp := m.rtpTimestamp, durationMs := m.durationMs, endOfStream := m.endOfStream,
               language := m.language, task := m.task)
  {
    hide Fold, Opt;
    var r4 := Opt(m.task != [], BytesField(10, m.task), []);
    var r3 := Opt(m.language != [], BytesField(9, m.language), r4);
    var r2 := Opt(m.endOfStream, IntField(8, 1), r3);
    var r1 := Opt(m.durationMs != 0, IntField(7, ToU64(m.durationMs)), r2);
    FoldOpt(m.rtpTimestamp != 0, IntField(6, m.rtpTimestamp), r1, x, PutChunk);
    var x1 := x.(rtpTimestamp := m.rtpTimestamp);
    assert x1 == if m.rtpTimestamp != 0 then PutChunk(x, IntField(6, m.rtpTimestamp)) else x;
    FoldOpt(m.durationMs != 0, IntField(7, ToU64(m.durationMs)), r2, x1, PutChunk);
    var x2 := x1.(durationMs := m.durationMs);
    assert x2 == if m.durationMs != 0 then PutChunk(x1, IntField(7, ToU64(m.durationMs))) else x1;
    FoldOpt(m.endOfStream, IntField(8, 1), r3, x2, PutChunk);
    var x3 := x2.(endOfStream := m.endOfStream);
    assert x3 == if m.endOfStream then PutChunk(x2, IntField(8, 1)) else x2;
    FoldOpt(m.language != [], BytesField(9, m.language), r4, x3, PutChunk);
    var x4 := x3.(language := m.language);
    assert x4 == if m.language != [] then PutChunk(x3, BytesField(9, m.language)) else x3;
    FoldOpt(m.task != [], BytesField(10, m.task), [], x4, PutChunk);
    var x5 := x4.(task := m.task);
    assert x5 == if m.task != [] then PutChunk(x4, BytesField(10, m.task)) else x4;
    FoldNothing(x5, PutChunk);
  }

  lemma ChunkFieldsFold(m: AudioChunk, x: AudioChunk)
    requires x.sessionID == [] && x.streamID == [] && x.pcm == [] && x.sampleRate == 0 && x.channels == 0
    ensures Fold(ChunkFields(m), x, PutChunk)
         == Fold(ChunkTail(m), x.(sessionID := m.sessionID, streamID := m.streamID, pcm := m.pcm,
                                  sampleRate := ToI32(m.sampleRate), channels := ToI32(m.channels)), PutChunk)
  {
    hide Fold, Opt, ToI32, ToU64;
    I32ThroughU64(m.sampleRate);
    I32ThroughU64(m.channels);
    var r4 := Opt(m.channels != 0, IntField(5, ToU64(ToI32(m.channels))), ChunkTail(m));
    var r3 := Opt(m.sampleRate != 0, IntField(4, ToU64(ToI32(m.sampleRate))), r4);
    var r2 := Opt(m.pcm != [], BytesField(3, m.pcm), r3);
    var r1 := Opt(m.streamID != [], BytesField(2, m.streamID), r2);
    FoldOpt(m.sessionID != [], BytesField(1, m.sessionID), r1, x, PutChunk);
    var x1 := x.(sessionID := m.sessionID);
    assert x1 == if m.sessionID != [] then PutChunk(x, BytesField(1, m.sessionID)) else x;
    FoldOpt(m.streamID != [], BytesField(2, m.streamID), r2, x1, PutChunk);
    var x2 := x1.(streamID := m.streamID);
    assert x2 == if m.streamID != [] then PutChunk(x1, BytesField(2, m.streamID)) else x1;
    FoldOpt(m.pcm != [], BytesField(3, m.pcm), r3, x2, PutChunk);
    var x3 := x2.(pcm := m.pcm);
    assert x3 == if m.pcm != [] then PutChunk(x2, BytesField(3, m.pcm)) else x2;
    FoldOpt(m.sampleRate != 0, IntField(4, ToU64(ToI32(m.sampleRate))), r4, x3, PutChunk);
    var x4 := x3.(sampleRate := ToI32(m.sampleRate));
    assert x4 == if m.sampleRate != 0 then PutChunk(x3, IntField(4, ToU64(ToI32(m.sampleRate)))) else x3;
    FoldOpt(m.channels != 0, IntField(5, ToU64(ToI32(m.channels))), ChunkTail(m), x4, PutChunk);
    var x5 := x4.(channels := ToI32(m.channels));
    assert x5 == if m.channels != 0 then PutChunk(x4, IntField(5, ToU64(ToI32(m.channels)))) else x4;
  }

  /** Main result: the worker reads back exactly what the gateway wrote, with the two rates
      cut to 32 bits. */
  lemma AudioChunkRoundTrip(m: AudioChunk)
    requires ValidChunk(m)
    ensures AllWritable(ChunkFields(m))
    ensures Decode(Encode(ChunkFields(m)), NO_CHUNK, PutChunk)
         == Done(m.(sampleRate := ToI32(m.sampleRate), channels := ToI32(m.channels)))
  {
    hide Fold, Decode, Encode, ChunkTail, ChunkFields;
    ChunkFieldsWritable(m);
    EncodedIsWellFormed(ChunkFields(m));
    DecodeIsFold(Encode(ChunkFields(m)), NO_CHUNK, PutChunk);
    ChunkFieldsFold(m, NO_CHUNK);
    var x := NO_CHUNK.(sessionID := m.sessionID, streamID := m.streamID, pcm := m.pcm,
                       sampleRate := ToI32(m.sampleRate), channels := ToI32(m.channels));
    ChunkTailFold(m, x);
  }

  /** Main result: the round trip is exact if and only if both rates fit in 32 bits. */
  lemma AudioChunkRoundTripIff(m: AudioChunk)
    requires ValidChunk(m)
    ensures AllWritable(ChunkFields(m))
    ensures Decode(Encode(ChunkFields(m)), NO_CHUNK, PutChunk) == Done(m)
       <==> -I32_SIZE <= m.sampleRate < I32_SIZE && -I32_SIZE <= m.channels < I32_SIZE
  {
    AudioChunkRoundTrip(m);
    I32ThroughU64(m.sampleRate);
    I32ThroughU64(m.channels);
  }

  /** What arrives of a confidence: negative zero is left out and comes back as zero. */
  function SentFloat(bits: U32): U32 {
    if IsZeroFloat(bits) then 0 else bits
  }

  lemma ResultTailFold(m: RecognitionResult, x: RecognitionResult)
    requires x.tsEnd == 0 && x.confidence == 0 && x.language == [] && x.seq_ == 0
    ensures Fold(ResultTail(m), x, PutResult)
         == x.(tsEnd := m.tsEnd, confidence := SentFloat(m.confidence), language := m.language, seq_ := m.seq_)
  {
    hide Fold, Opt;
    var r3 := Opt(m.seq_ != 0, IntField(9, m.seq_), []);
    var r2 := Opt(m.language != [], BytesField(8, m.language), r3);
    var r1 := Opt(!IsZeroFloat(m.confidence), FloatField(7, m.confidence), r2);
    FoldOpt(m.tsEnd != 0, IntField(6, ToU64(m.tsEnd)), r1, x, PutResult);
    var x1 := x.(tsEnd := m.tsEnd);
    assert x1 == if m.tsEnd != 0 then PutResult(x, IntField(6, ToU64(m.tsEnd))) else x;
    FoldOpt(!IsZeroFloat(m.confidence), FloatField(7, m.confidence), r2, x1, PutResult);
    var x2 := x1.(confidence := SentFloat(m.confidence));
    assert x2 == if !IsZeroFloat(m.confidence) then PutResult(x1, FloatField(7, m.confidence)) else x1;
    FoldOpt(m.language != [], BytesField(8, m.language), r3, x2, PutResult);
    var x3 := x2.(language := m.language);
    assert x3 == if m.language != [] then PutResult(x2, BytesField(8, m.language)) else x2;
    FoldOpt(m.seq_ != 0, IntField(9, m.seq_), [], x3, PutResult);
    var x4 := x3.(seq_ := m.seq_);
    assert x4 == if m.seq_ != 0 then PutResult(x3, IntField(9, m.seq_)) else x3;
    FoldNothing(x4, PutResult);
  }

  lemma ResultFieldsFold(m: RecognitionResult, x: RecognitionResult)
    requires x.sessionID == [] && x.streamID == [] && x.text == [] && x.isFinal == false && x.tsStart == 0
    ensures Fold(ResultFields(m), x, PutResult)
         == Fold(ResultTail(m), x.(sessionID := m.sessionID, streamID := m.streamID, text := m.text,
                                   isFinal := m.isFinal, tsStart := m.tsStart), PutResult)
  {
    hide Fold, Opt;
    var r4 := Opt(m.tsStart != 0, IntField(5, ToU64(m.tsStart)), ResultTail(m));
    var r3 := Opt(m.isFinal, IntField(4, 1), r4);
    var r2 := Opt(m.text != [], BytesField(3, m.text), r3);
    var r1 := Opt(m.streamID != [], BytesField(2, m.streamID), r2);
    FoldOpt(m.sessionID != [], BytesField(1, m.sessionID), r1, x, PutResult);
    var x1 := x.(sessionID := m.sessionID);
    assert x1 == if m.sessionID != [] then PutResult(x, BytesField(1, m.sessionID)) else x;
    FoldOpt(m.streamID != [], BytesField(2, m.streamID), r2, x1, PutResult);
    var x2 := x1.(streamID := m.streamID);
    assert x2 == if m.streamID != [] then PutResult(x1, BytesField(2, m.streamID)) else x1;
    FoldOpt(m.text != [], BytesField(3, m.text), r3, x2, PutResult);
    var x3 := x2.(text := m.text);
    assert x3 == if m.text != [] then PutResult(x2, BytesField(3, m.text)) else x2;
    FoldOpt(m.isFinal, IntField(4, 1), r4, x3, PutResult);
    var x4 := x3.(isFinal := m.isFinal);
    assert x4 == if m.isFinal then PutResult(x3, IntField(4, 1)) else x3;
    FoldOpt(m.tsStart != 0, IntField(5, ToU64(m.tsStart)), ResultTail(m), x4, PutResult);
    var x5 := x4.(tsStart := m.tsStart);
    assert x5 == if m.tsStart != 0 then PutResult(x4, IntField(5, ToU64(m.tsStart))) else x4;
  }

  /** Main result: the gateway reads back exactly what the worker wrote, up to the sign of a
      zero confidence. */
  lemma RecognitionResultRoundTrip(m: RecognitionResult)
    requires ValidResult(m)
    ensures AllWritable(ResultFields(m))
    ensures Decode(Encode(ResultFields(m)), NO_RESULT, PutResult) == Done(m.(confidence := SentFloat(m.confidence)))
  {
    hide Fold, Decode, Encode, ResultTail, ResultFields;
    ResultFieldsWritable(m);
    EncodedIsWellFormed(ResultFields(m));
    DecodeIsFold(Encode(ResultFields(m)), NO_RESULT, PutResult);
    ResultFieldsFold(m, NO_RESULT);
    var x := NO_RESULT.(sessionID := m.sessionID, streamID := m.streamID, text := m.text,
                        isFinal := m.isFinal, tsStart := m.tsStart);
    ResultTailFold(m, x);
  }

  /** Main result: the round trip is exact if and only if the confidence is not -0.0. */
  lemma RecognitionResultRoundTripIff(m: RecognitionResult)
    requires ValidResult(m)
    ensures AllWritable(ResultFields(m))
    ensures Decode(Encode(ResultFields(m)), NO_RESULT, PutResult) == Done(m) <==> m.confidence != NEGATIVE_ZERO
  {
    RecognitionResultRoundTrip(m);
  }

  // ---- Decoding is insensitive to unknown fields and to field order ----

  predicate KnownToChunk(f: Field) {
    match f.value
    case BytesValue(_) => f.num in {1, 2, 3, 9, 10}
    case VarintValue(_) => 4 <= f.num <= 8
    case Fixed32Value(_) => false
    case OtherValue(_) => false
  }

  predicate KnownToResult(f: Field) {
    match f.value
    case BytesValue(_) => f.num in {1, 2, 3, 8}
    case VarintValue(_) => f.num in {4, 5, 6, 9}
    case Fixed32Value(_) => f.num == 7
    case OtherValue(_) => false
  }

  /** Main result: whole fields with an unknown number or a wrong wire type, inserted between
      the fields of a message, leave the decoded AudioChunk as it was. */
  lemma ChunkIgnoresUnknown(x: seq<Byte>, u: seq<Byte>, y: seq<Byte>, m: AudioChunk)
    requires WellFormed(x) && WellFormed(u)
    requires forall i :: 0 <= i < |Fields(u)| ==> !KnownToChunk(Fields(u)[i])
    ensures Decode(x + (u + y), m, PutChunk) == Decode(x + y, m, PutChunk)
  {
    forall i | 0 <= i < |Fields(u)|
      ensures Ignores(PutChunk, Fields(u)[i])
    {
      assert !KnownToChunk(Fields(u)[i]);
    }
    UnknownFieldsChangeNothing(x, u, y, m, PutChunk);
  }

  lemma ResultIgnoresUnknown(x: seq<Byte>, u: seq<Byte>, y: seq<Byte>, m: RecognitionResult)
    requires WellFormed(x) && WellFormed(u)
    requires forall i :: 0 <= i < |Fields(u)| ==> !KnownToResult(Fields(u)[i])
    ensures Decode(x + (u + y), m, PutResult) == Decode(x + y, m, PutResult)
  {
    forall i | 0 <= i < |Fields(u)|
      ensures Ignores(PutResult, Fields(u)[i])
    {
      assert !KnownToResult(Fields(u)[i]);
    }
    UnknownFieldsChangeNothing(x, u, y, m, PutResult);
  }

  lemma ChunkFieldsIndependent()
    ensures Independent(PutChunk)
  {
    hide ToI64, ToI32;
  }

  lemma ResultFieldsIndependent()
    ensures Independent(PutResult)
  {
    hide ToI64;
  }

  /** Main result: any reordering of whole fields that keeps the order among fields of one
      number decodes to the same AudioChunk. */
  lemma ChunkFieldOrderIsFree(x: seq<Byte>, y: seq<Byte>, m: AudioChunk)
    requires WellFormed(x) && WellFormed(y) && SameByNumber(Fields(x), Fields(y))
    ensures Decode(x, m, PutChunk) == Decode(y, m, PutChunk)
  {
    ChunkFieldsIndependent();
    ReorderedFieldsDecodeAlike(x, y, m, PutChunk);
  }

  lemma ResultFieldOrderIsFree(x: seq<Byte>, y: seq<Byte>, m: RecognitionResult)
    requires WellFormed(x) && WellFormed(y) && SameByNumber(Fields(x), Fields(y))
    ensures Decode(x, m, PutResult) == Decode(y, m, PutResult)
  {
    ResultFieldsIndependent();
    ReorderedFieldsDecodeAlike(x, y, m, PutResult);
  }
}
