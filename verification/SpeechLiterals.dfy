/** Both speech messages in figures: the bytes of each field, and what a reader makes of them. */
module SpeechLiterals {
  import opened Basics
  import opened ProtoWire
  import opened SpeechWire

  // ---- What is written ----

  lemma Absent()
    ensures forall t: Byte :: StringBytes(t, []) == []
    ensures forall t: Byte, v: int :: NumberBytes(false, t, v) == []
    ensures forall x: seq<Byte> :: x + [] == x && [] + x == x
    ensures FloatBytes(0) == []
  {
  }

  lemma Strings(s: seq<Byte>)
    requires s != []
    ensures forall t: Byte :: StringBytes(t, s) == [t] + Varint(|s|) + s
  {
  }

  /** A number of 64 bits with its sign. */
  function Signed(v: I64): U64 {
    if v < 0 then 0x1_0000_0000_0000_0000 + v else v
  }

  lemma Numbers(v: I64)
    ensures forall t: Byte :: NumberBytes(true, t, v) == [t] + Varint(Signed(v))
    ensures -0x8000_0000 <= v < 0x8000_0000 ==> Low32(v) == v
  {
    hide Varint;
  }

  /** A chunk whose last five fields are not set. */
  lemma EmptyChunkTail(m: AudioChunk)
    requires m.rtpTimestamp == 0 && m.durationMs == 0 && !m.endOfStream && m.language == [] && m.task == []
    ensures ChunkTailBytes(m) == []
  {
    hide StringBytes, NumberBytes;
    Absent();
  }

  /** A chunk whose first five fields are not set. */
  lemma EmptyChunkHead(m: AudioChunk)
    requires m.sessionID == [] && m.streamID == [] && m.pcm == [] && m.sampleRate == 0 && m.channels == 0
    ensures ChunkBytes(m) == ChunkTailBytes(m)
  {
    hide StringBytes, NumberBytes, ChunkTailBytes;
    Absent();
  }

  /** Main result: a chunk with one field set is the tag of that field and its value. */
  lemma ChunkStringsAlone(s: seq<Byte>)
    requires s != []
    ensures ChunkBytes(NO_CHUNK.(sessionID := s)) == [0x0A] + Varint(|s|) + s
    ensures ChunkBytes(NO_CHUNK.(streamID := s)) == [0x12] + Varint(|s|) + s
    ensures ChunkBytes(NO_CHUNK.(pcm := s)) == [0x1A] + Varint(|s|) + s
  {
    hide StringBytes, NumberBytes, Varint, ChunkTailBytes;
    Absent();
    Strings(s);
    EmptyChunkTail(NO_CHUNK.(sessionID := s));
    EmptyChunkTail(NO_CHUNK.(streamID := s));
    EmptyChunkTail(NO_CHUNK.(pcm := s));
  }

  lemma ChunkTagsAlone(s: seq<Byte>)
    requires s != []
    ensures ChunkBytes(NO_CHUNK.(language := s)) == [0x4A] + Varint(|s|) + s
    ensures ChunkBytes(NO_CHUNK.(task := s)) == [0x52] + Varint(|s|) + s
  {
    hide StringBytes, NumberBytes, Varint, ChunkBytes;
    Absent();
    Strings(s);
    EmptyChunkHead(NO_CHUNK.(language := s));
    EmptyChunkHead(NO_CHUNK.(task := s));
  }

  /** Rate and channels as signed numbers of 32 bits. */
  lemma ChunkRatesAlone(v: I64)
    requires -0x8000_0000 <= v < 0x8000_0000 && v != 0
    ensures ChunkBytes(NO_CHUNK.(sampleRate := v)) == [0x20] + Varint(Signed(v))
    ensures ChunkBytes(NO_CHUNK.(channels := v)) == [0x28] + Varint(Signed(v))
  {
    hide StringBytes, NumberBytes, Varint, ChunkTailBytes, Low32;
    Absent();
    Numbers(v);
    EmptyChunkTail(NO_CHUNK.(sampleRate := v));
    EmptyChunkTail(NO_CHUNK.(channels := v));
  }

  lemma ChunkTimesAlone(v: I64)
    requires v != 0
    ensures 0 <= v < 0x1_0000_0000 ==> ChunkBytes(NO_CHUNK.(rtpTimestamp := v)) == [0x30] + Varint(v)
    ensures ChunkBytes(NO_CHUNK.(durationMs := v)) == [0x38] + Varint(Signed(v))
    ensures ChunkBytes(NO_CHUNK.(endOfStream := true)) == [0x40, 0x01]
  {
    assert Varint(1) == [1];
    hide StringBytes, NumberBytes, Varint, ChunkBytes, Low32;
    Absent();
    Numbers(v);
    Numbers(1);
    if 0 <= v < 0x1_0000_0000 {
      EmptyChunkHead(NO_CHUNK.(rtpTimestamp := v));
    }
    EmptyChunkHead(NO_CHUNK.(durationMs := v));
    EmptyChunkHead(NO_CHUNK.(endOfStream := true));
  }

  lemma EmptyResultTail(m: RecognitionResult)
    requires m.tsEnd == 0 && m.confidence == 0 && m.language == [] && m.seq_ == 0
    ensures ResultTailBytes(m) == []
  {
    hide StringBytes, NumberBytes;
    Absent();
  }

  lemma EmptyResultHead(m: RecognitionResult)
    requires m.sessionID == [] && m.streamID == [] && m.text == [] && !m.isFinal && m.tsStart == 0
    ensures ResultBytes(m) == ResultTailBytes(m)
  {
    hide StringBytes, NumberBytes, ResultTailBytes;
    Absent();
  }

  /** Main result: a result with one field set is the tag of that field and its value. */
  lemma ResultStringsAlone(s: seq<Byte>)
    requires s != []
    ensures ResultBytes(NO_RESULT.(sessionID := s)) == [0x0A] + Varint(|s|) + s
    ensures ResultBytes(NO_RESULT.(streamID := s)) == [0x12] + Varint(|s|) + s
    ensures ResultBytes(NO_RESULT.(text := s)) == [0x1A] + Varint(|s|) + s
  {
    hide StringBytes, NumberBytes, Varint, ResultTailBytes;
    Absent();
    Strings(s);
    EmptyResultTail(NO_RESULT.(sessionID := s));
    EmptyResultTail(NO_RESULT.(streamID := s));
    EmptyResultTail(NO_RESULT.(text := s));
  }

  lemma ResultHeadAlone(v: I64)
    requires v != 0
    ensures ResultBytes(NO_RESULT.(isFinal := true)) == [0x20, 0x01]
    ensures ResultBytes(NO_RESULT.(tsStart := v)) == [0x28] + Varint(Signed(v))
  {
    assert Varint(1) == [1];
    hide StringBytes, NumberBytes, Varint, ResultTailBytes, Low32;
    Absent();
    Numbers(v);
    Numbers(1);
    EmptyResultTail(NO_RESULT.(isFinal := true));
    EmptyResultTail(NO_RESULT.(tsStart := v));
  }

  lemma Unsigned(u: U64)
    ensures forall t: Byte :: NumberBytes(true, t, u) == [t] + Varint(u)
  {
    hide Varint;
  }

  lemma ResultTailAlone(v: I64, u: U64, s: seq<Byte>)
    requires v != 0 && u != 0 && s != []
    ensures ResultBytes(NO_RESULT.(tsEnd := v)) == [0x30] + Varint(Signed(v))
    ensures ResultBytes(NO_RESULT.(language := s)) == [0x42] + Varint(|s|) + s
    ensures ResultBytes(NO_RESULT.(seq_ := u)) == [0x48] + Varint(u)
  {
    hide StringBytes, NumberBytes, FloatBytes, Varint, ResultBytes, Low32;
    Absent();
    Numbers(v);
    Unsigned(u);
    Strings(s);
    EmptyResultHead(NO_RESULT.(tsEnd := v));
    EmptyResultHead(NO_RESULT.(language := s));
    EmptyResultHead(NO_RESULT.(seq_ := u));
  }

  /** The confidence is four bytes, the lowest first; zero of either sign is left out. */
  lemma ConfidenceAlone(b0: Byte, b1: Byte, b2: Byte, b3: Byte)
    ensures var w := (b0 as int) + 0x100 * (b1 as int) + 0x1_0000 * (b2 as int) + 0x100_0000 * (b3 as int);
            ResultBytes(NO_RESULT.(confidence := w))
            == if b0 == b1 == b2 == 0 && b3 in {0, 0x80} then [] else [0x3D, b0, b1, b2, b3]
  {
    var w := (b0 as int) + 0x100 * (b1 as int) + 0x1_0000 * (b2 as int) + 0x100_0000 * (b3 as int);
    assert FloatBytes(w) == if b0 == b1 == b2 == 0 && b3 in {0, 0x80} then [] else [0x3D, b0, b1, b2, b3] by {
      BytesOf(b0, b1, b2, b3);
    }
    hide StringBytes, NumberBytes, FloatBytes, ResultBytes;
    Absent();
    EmptyResultHead(NO_RESULT.(confidence := w));
  }

  lemma BytesOf(b0: Byte, b1: Byte, b2: Byte, b3: Byte)
    ensures var w := (b0 as int) + 0x100 * (b1 as int) + 0x1_0000 * (b2 as int) + 0x100_0000 * (b3 as int);
            w % 0x100 == b0 && w / 0x100 % 0x100 == b1 && w / 0x1_0000 % 0x100 == b2 && w / 0x100_0000 == b3
  {
    var c := (b1 as int) + 0x100 * (b2 as int) + 0x1_0000 * (b3 as int);
    var w := (b0 as int) + 0x100 * c;
    assert w / 0x100 == c && w / 0x1_0000 == c / 0x100 && w / 0x100_0000 == c / 0x1_0000;
  }

  /** The number 1.0, and a text of two letters. */
  lemma ResultsInFigures()
    ensures ResultBytes(NO_RESULT.(confidence := 0x3F80_0000)) == [0x3D, 0x00, 0x00, 0x80, 0x3F]
    ensures ResultBytes(NO_RESULT.(text := [0x68, 0x69])) == [0x1A, 0x02, 0x68, 0x69]
  {
    ConfidenceAlone(0, 0, 0x80, 0x3F);
    ResultStringsAlone([0x68, 0x69]);
  }

  // ---- What is read ----

  /** The low 64 bits as a signed number. */
  function Low64(v: U64): I64 {
    if v < 0x8000_0000_0000_0000 then v else v - 0x1_0000_0000_0000_0000
  }

  lemma Low64IsInt64(v: U64)
    ensures ToI64(v) == Low64(v)
  {
  }

  lemma TakesField<M>(head: seq<Byte>, f: Field, body: seq<Byte>, rest: seq<Byte>, m: M, put: (M, Field) -> M)
    requires Writable(f) && EncodeField(f) == head + body && head != []
    ensures Decode(head + body + rest, m, put) == Decode(rest, put(m, f), put)
  {
    FieldRoundTrip(f, rest);
    var b := head + body + rest;
    assert b[|EncodeField(f)|..] == rest;
  }

  lemma TakesString<M>(num: FieldNumber, s: seq<Byte>, rest: seq<Byte>, m: M, put: (M, Field) -> M)
    requires num <= 15 && |s| < 0x8000_0000_0000_0000
    ensures Decode([num * 8 + 2] + (Varint(|s|) + s) + rest, m, put)
         == Decode(rest, put(m, Field(num, BytesValue(s))), put)
  {
    hide Decode, Varint, Tag;
    OneByteTag(num, BYTES);
    TakesField([num * 8 + 2], Field(num, BytesValue(s)), Varint(|s|) + s, rest, m, put);
  }

  lemma TakesNumber<M>(num: FieldNumber, v: U64, rest: seq<Byte>, m: M, put: (M, Field) -> M)
    requires num <= 15
    ensures Decode([num * 8] + Varint(v) + rest, m, put) == Decode(rest, put(m, Field(num, VarintValue(v))), put)
  {
    hide Decode, Varint, Tag;
    OneByteTag(num, VARINT);
    TakesField([num * 8], Field(num, VarintValue(v)), Varint(v), rest, m, put);
  }

  /** Main result: behind its tag each field of a chunk is set to the value that follows, and reading goes on
      behind it. */
  lemma ChunkStringsRead(s: seq<Byte>, rest: seq<Byte>, m: AudioChunk)
    requires |s| < 0x8000_0000_0000_0000
    ensures Decode([0x0A] + (Varint(|s|) + s) + rest, m, PutChunk) == Decode(rest, m.(sessionID := s), PutChunk)
    ensures Decode([0x12] + (Varint(|s|) + s) + rest, m, PutChunk) == Decode(rest, m.(streamID := s), PutChunk)
    ensures Decode([0x1A] + (Varint(|s|) + s) + rest, m, PutChunk) == Decode(rest, m.(pcm := s), PutChunk)
    ensures Decode([0x4A] + (Varint(|s|) + s) + rest, m, PutChunk) == Decode(rest, m.(language := s), PutChunk)
    ensures Decode([0x52] + (Varint(|s|) + s) + rest, m, PutChunk) == Decode(rest, m.(task := s), PutChunk)
  {
    hide Decode, Varint;
    TakesString(1, s, rest, m, PutChunk);
    TakesString(2, s, rest, m, PutChunk);
    TakesString(3, s, rest, m, PutChunk);
    TakesString(9, s, rest, m, PutChunk);
    TakesString(10, s, rest, m, PutChunk);
  }

  lemma ChunkNumbersRead(v: U64, rest: seq<Byte>, m: AudioChunk)
    ensures Decode([0x20] + Varint(v) + rest, m, PutChunk) == Decode(rest, m.(sampleRate := Low32(v)), PutChunk)
    ensures Decode([0x28] + Varint(v) + rest, m, PutChunk) == Decode(rest, m.(channels := Low32(v)), PutChunk)
    ensures Decode([0x30] + Varint(v) + rest, m, PutChunk)
         == Decode(rest, m.(rtpTimestamp := v % 0x1_0000_0000), PutChunk)
    ensures Decode([0x38] + Varint(v) + rest, m, PutChunk) == Decode(rest, m.(durationMs := Low64(v)), PutChunk)
    ensures Decode([0x40] + Varint(v) + rest, m, PutChunk) == Decode(rest, m.(endOfStream := v != 0), PutChunk)
  {
    hide Decode, Varint, ToI64, Low64, Low32;
    Low32IsInt32(v);
    Low64IsInt64(v);
    TakesNumber(4, v, rest, m, PutChunk);
    TakesNumber(5, v, rest, m, PutChunk);
    TakesNumber(6, v, rest, m, PutChunk);
    TakesNumber(7, v, rest, m, PutChunk);
    TakesNumber(8, v, rest, m, PutChunk);
  }

  lemma ResultStringsRead(s: seq<Byte>, rest: seq<Byte>, m: RecognitionResult)
    requires |s| < 0x8000_0000_0000_0000
    ensures Decode([0x0A] + (Varint(|s|) + s) + rest, m, PutResult) == Decode(rest, m.(sessionID := s), PutResult)
    ensures Decode([0x12] + (Varint(|s|) + s) + rest, m, PutResult) == Decode(rest, m.(streamID := s), PutResult)
    ensures Decode([0x1A] + (Varint(|s|) + s) + rest, m, PutResult) == Decode(rest, m.(text := s), PutResult)
    ensures Decode([0x42] + (Varint(|s|) + s) + rest, m, PutResult) == Decode(rest, m.(language := s), PutResult)
  {
    hide Decode, Varint;
    TakesString(1, s, rest, m, PutResult);
    TakesString(2, s, rest, m, PutResult);
    TakesString(3, s, rest, m, PutResult);
    TakesString(8, s, rest, m, PutResult);
  }

  lemma ResultNumbersRead(v: U64, rest: seq<Byte>, m: RecognitionResult)
    ensures Decode([0x20] + Varint(v) + rest, m, PutResult) == Decode(rest, m.(isFinal := v != 0), PutResult)
    ensures Decode([0x28] + Varint(v) + rest, m, PutResult) == Decode(rest, m.(tsStart := Low64(v)), PutResult)
    ensures Decode([0x30] + Varint(v) + rest, m, PutResult) == Decode(rest, m.(tsEnd := Low64(v)), PutResult)
    ensures Decode([0x48] + Varint(v) + rest, m, PutResult) == Decode(rest, m.(seq_ := v), PutResult)
  {
    hide Decode, Varint, ToI64, Low64;
    Low64IsInt64(v);
    TakesNumber(4, v, rest, m, PutResult);
    TakesNumber(5, v, rest, m, PutResult);
    TakesNumber(6, v, rest, m, PutResult);
    TakesNumber(9, v, rest, m, PutResult);
  }

  lemma ConfidenceRead(b0: Byte, b1: Byte, b2: Byte, b3: Byte, rest: seq<Byte>, m: RecognitionResult)
    ensures var w := (b0 as int) + 0x100 * (b1 as int) + 0x1_0000 * (b2 as int) + 0x100_0000 * (b3 as int);
            Decode([0x3D] + [b0, b1, b2, b3] + rest, m, PutResult) == Decode(rest, m.(confidence := w), PutResult)
  {
    BytesOf(b0, b1, b2, b3);
    var w := (b0 as int) + 0x100 * (b1 as int) + 0x1_0000 * (b2 as int) + 0x100_0000 * (b3 as int);
    OneByteTag(7, FIXED32);
    assert Fixed32(w) == [b0, b1, b2, b3];
    hide Decode, Tag, Fixed32;
    TakesField([0x3D], Field(7, Fixed32Value(w)), [b0, b1, b2, b3], rest, m, PutResult);
  }
}
