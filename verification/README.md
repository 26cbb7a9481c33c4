# Media AI gateway: model and proofs

The gateway takes RTP packets of calls, puts them back in order, decodes and resamples them,
sends PCM chunks to an AI worker over gRPC and returns the transcripts through callbacks. This
Dafny project models the parts of it that carry state or arithmetic across calls, and proves what
they promise. `dafny verify dfyconfig.toml` checks everything.

| part | files |
|---|---|
| jitter buffer | `SequenceNumbers`, `PacketHeap`, `JitterBuffer`, `JitterProperties`, `JitterHistory`, `JitterReordering`, `JitterSteady`, `JitterAdmission` |
| wire format | `ProtoWire`, `WireLiterals`, `SpeechWire`, `SpeechLiterals` |
| audio | `Arithmetic`, `Pcm`, `Resampler`, `HeldOutputs`, `Chunker`, `ChunkerLoop`, `AudioPipeline` |
| sessions | `SessionTable`, `SessionManager`, `SessionLifecycle`, `SessionRefinement`, `SessionCollector` |
| call set-up and ports | `PortAllocator`, `CallSetup`, `CallSetupPlans`, `CallSetupSafety`, `CallSetupLeaks`, `CallSetupPipelines`, `CallSetupCleanup`, `CallSetupPairs`, `CallSetupRollback`, `CallSetupLoneSides`, `CallSetupRest`, `CallSetupSuccess`, `CallSetupFailure`, `CallSetupExamples`, `AnswerHandler` |
| AI streams and results | `AiStreams`, `Reconnect`, `Dispatcher`, `ResultPath` |
| AMR payloads | `Amr` |
| shared | `Basics` |

Code that updates objects is modelled by classes and loops, proved against functions of the old
state; the theorems are about those functions. Concurrent behaviour is modelled by a step function
on a state in which each section under a lock is one step, and any number of goroutines take steps
in any order: a `History` is any such sequence and `Run` its final state, so a lemma over all
histories is a lemma over all interleavings. Choices of the environment (does a bind or a dial
succeed, has a channel room, when does a context end) are parameters.

The protobuf primitives follow the Protocol Buffers Encoding specification, sections "Base 128
Varints" and "Message Structure"; the comparison of sequence numbers is that of section 3.2 of
RFC 1982; AMR payloads follow section 4.4 of RFC 4867 and stored frames its section 5.3.

## Where the code and its comments disagree

The model follows the code.

- `internal/audio/resampler.go:91` promises an error of at most one sample per chunk. That holds
  if and only if outRate <= inRate + gcd(inRate, outRate) (`OneHeldIff`), so for rates that do not
  grow and for 8 to 16 kHz; in general the last ceil(outRate / inRate) outputs of a call may be
  held (`HeldOutputsAreLast`, `TwoHeldWhenRateTriples`).
- `internal/audio/resampler.go:105` reads the last mono sample; a non-empty input shorter than one
  frame has none (`PanicsIff`).
- `internal/jitter/buffer.go:213` calls what the branch discards a late duplicate. With packets
  that span more than half the number range before the first release, first copies may be
  discarded (`FirstCopyDiscardedOutsideHalfRange`); with a half-range start it is right
  (`LossExactness`, one way only: some wider starts discard nothing either). The exact condition
  `OrderedIffHalfRangeStart` is about the order on the buffer; when a number is declared lost is
  stated both ways (`LossIffOverdue`).
- `internal/ai/stream_manager.go:85` calls Stats cumulative. Between a stream's end and its removal
  its counters are reported twice, between its Close and its end not at all (`ReportedIsExact`,
  `StatsMayBeOff`).
- `internal/codec/amr.go:92` promises an error for a cut payload. A table of contents that is cut
  off behind an entry with F set is accepted when the entries before it are empty (`CutAcceptedIff`).
- `internal/audio/chunker.go:78` never ends when chunkSamps is zero: Push of a non-empty input ends
  if and only if sampleRate * chunkMs >= 1000 (`PushEndsIff`).
- `internal/coordinator/coordinator.go:125-132` unregisters by ID. A session's pipeline is safe from
  the cleanup of an older session with its ID (`LiveSessionsKeepPipelines`), its callback sink and
  its jitter buffer are not (`OldCleanupTakesNewEntries`); it keeps them if and only if its
  hand-over was clean (`EntryIffCleanStart`).
- `internal/controlplane/handler.go:142-155` closes by ID what it created. When its session has been
  closed by somebody else and the call has been answered again, it closes the session of the new
  request (`RollbackMayCloseAnother`), and only then (`RollbackClosesOwnIff`); it takes a request to
  close a side of the call to get there (`StruckByRequest`).
- `internal/session/manager.go:297` says that gc collects sessions that are idle. It closes by ID what
  it scanned before: also a session that got a packet in between (`TouchedIsCollected`), or a newer
  one with that ID; exactly when is `CollectsWhatItFound`.


## Model

| member | source | states |
|---|---|---|
| SequenceNumbers.SeqDiff | internal/jitter/sequence.go:8-10 | The result lies in [-32768, 32767] and is the step that leads from `b` to `a` on the 16-bit circle |
| SequenceNumbers.SeqDiffIsUnique | internal/jitter/sequence.go:8-10 | There is no other such step in that range |
| SequenceNumbers.OrderInsideHalfRange | internal/jitter/sequence.go:8-15 | Seen from any base, numbers less than 32768 ahead of it compare by their distance from the base, across the wrap |
| SequenceNumbers.AntipodesAreMutuallyLess | internal/jitter/sequence.go:13-15 | Two numbers 32768 apart are each less than the other |
| SequenceNumbers.OrderIffHalfRange | internal/jitter/sequence.go:13-15 | `SeqLess` is a strict total order on a set of numbers if and only if the set lies in one half range |
| PacketHeap.Heap.Push | internal/jitter/buffer.go:244-250 | Appending and sifting up gives exactly the heap specified by the pure function `Pushed` |
| PacketHeap.Heap.Pop | internal/jitter/buffer.go:252-258 | Returns the root and leaves exactly the heap specified by `Popped` |
| PacketHeap.PushedContents | internal/jitter/buffer.go:248-250 | A push adds the entry and loses none, on every heap, ordered or not |
| PacketHeap.PoppedContents | internal/jitter/buffer.go:252-258 | A pop removes exactly the root, on every heap |
| PacketHeap.PushKeepsOrder | internal/jitter/buffer.go:242-250 | Inside one half range, a push keeps the heap ordered by `SeqLess` |
| PacketHeap.PopKeepsOrder | internal/jitter/buffer.go:242-258 | Inside one half range, a pop keeps the heap ordered by `SeqLess` |
| PacketHeap.RootIsMinimum | internal/jitter/buffer.go:242-258 | Inside one half range, the root of an ordered heap is the first number in wrap-around order |
| JitterBuffer.TurnShrinks | internal/jitter/buffer.go:193-232 | Every turn of the release loop shrinks (heap size, distance to nextExpected) lexicographically, so every flush ends |
| JitterBuffer.Buffer.Push | internal/jitter/buffer.go:84-114 | A packet is kept if and only if it is at most MaxLateMs old and ahead of the last number passed, if there is one; a kept one is buffered, the other is counted as dropped, and the object follows the specification `PushStep` |
| JitterBuffer.Buffer.ReleaseTurn | internal/jitter/buffer.go:193-232 | One turn of the release loop follows the specification `Turn`: release, drop for a full output, discard or declare lost |
| JitterBuffer.Buffer.ReleaseLoop | internal/jitter/buffer.go:193-232 | The whole loop follows the recursive specification `Release`, for every pattern of room in the output |
| JitterBuffer.Buffer.Flush | internal/jitter/buffer.go:171-233 | Accumulation window, start at the root and release loop follow the specification `FlushStep` |
| JitterProperties.TurnKeeps | internal/jitter/buffer.go:193-232 | Each kind of turn keeps the window of the release loop; only a repeat of the number just passed is discarded and only an absent number is declared lost |
| JitterProperties.WindowInvariant | internal/jitter/buffer.go:98-103 | On every run with a half-range start: after the first release every buffered packet is 1 to 32767 ahead of the last processed number, `SeqLess` is a strict total order on the buffered numbers, and no entry is before the root |
| JitterProperties.OrderedIffHalfRangeStart | internal/jitter/buffer.go:98-103 | The order, not the discards: `SeqLess` orders the buffered numbers all along a run if and only if, until the first release, they always lie in one half range |
| JitterProperties.LossExactness | internal/jitter/buffer.go:212-226 | On every such run a flush declares a number lost only if no packet buffered then or left afterwards carries it, and discards only packets whose number it passed earlier in the same flush |
| JitterSteady.LossIffOverdue | internal/jitter/buffer.go:212-226 | On every run with a half-range start a flush declares a number lost if and only if the next number is missing, a later one is buffered and the hold deadline is over; it is then that number and no other |
| JitterAdmission.KeptIff | internal/jitter/buffer.go:84-114 | On every run an arrival is kept if and only if it is not older than MaxLateMs and is ahead of the last number that the output has passed, if any |
| JitterAdmission.EverythingWasPunctual | internal/jitter/buffer.go:91-95 | On every run each packet in the buffer and each packet sent, dropped for a full output or discarded arrived, and at most MaxLateMs old |
| JitterAdmission.NothingOutIffWindowOpen | internal/jitter/buffer.go:183-186 | On every run nothing has come out if and only if no tick has yet reached the first punctual arrival plus BufferMs; until then every punctual packet is buffered |
| JitterAdmission.DeadlineIsBufferAfterProgress | internal/jitter/buffer.go:207-225 | On every run that releases, the hold deadline is BufferMs after the flush that last passed a number, by sending, overflow or loss |
| JitterAdmission.LossIffSilentForBuffer | internal/jitter/buffer.go:212-226 | So on every run with a half-range start a flush declares a loss if and only if the next number is missing, a later one is buffered and more than BufferMs have gone by since a number was last passed |
| JitterAdmission.RoomDecides | internal/jitter/buffer.go:204-211 | On every run the k-th packet that a flush tries to send goes out if and only if the output has room for the k-th send |
| JitterHistory.NumbersPassInOrder | internal/jitter/buffer.go:187-225 | On every run, half range or not, released, overflowed and lost numbers together form one gapless ascending sequence that ends before nextExpected |
| JitterHistory.ReleasesIncrease | internal/jitter/buffer.go:207-209 | On every run the unwrapped numbers of any two log entries increase, and equal 16-bit numbers are at least 65536 steps apart |
| JitterHistory.CountersAddUp | internal/jitter/buffer.go:100-104 | On every run Push calls = Released + Dropped + heap size, and Released + Lost + drops for a full output = numbers passed |
| JitterHistory.PacketsAreConserved | internal/jitter/buffer.go:171-233 | On every run each kept packet is in the buffer or consumed by exactly one outcome: none is duplicated or vanishes |
| JitterReordering.ReorderedArrivalsComeOutInOrder | internal/jitter/buffer.go:183-210 | Any arrivals, repeated and permuted, that cover a contiguous range of at most 32768 numbers come out in one flush as exactly that range in order, with Lost = 0 |
| JitterReordering.ReorderingIsUndone | internal/jitter/buffer.go:183-210 | The same from any ordered heap that holds the range |
| JitterSteady.GapsFilledInTimeLeaveNoTrace | internal/jitter/buffer.go:193-232 | From any point after the first release on, over any arrivals and any number of flushes: as long as no tick finds an overdue gap and the output has room, nothing is lost and the numbers sent are consecutive from the one that was expected |
| JitterSteady.NothingIsHeldBack | internal/jitter/buffer.go:193-232 | After each tick past the first release the next number is not buffered: everything that could go out is out |
| JitterReordering.LossesAreSpaced | internal/jitter/buffer.go:217-226 | On every run with monotone ticks two losses are more than BufferMs apart, so a flush declares at most one |
| JitterReordering.FirstCopyDiscardedOutsideHalfRange | internal/jitter/buffer.go:212-215 | Concrete run without a half-range start: the discard branch for late duplicates throws away a first copy |
| ProtoWire.VarintRoundTrip | vendor/google.golang.org/protobuf/encoding/protowire/wire.go:185-369 | Decoding a Base 128 varint gives back every 64-bit value and its length, whatever follows |
| ProtoWire.FieldRoundTrip | cmd/mock-ai-worker/main.go:85-91 | Tag and value of any writable field are read back, whatever follows |
| ProtoWire.ConsumeValueMatchesSkip | vendor/google.golang.org/protobuf/encoding/protowire/wire.go:112-159 | Reading a value as its wire type and skipping it take the same bytes and fail alike, groups included |
| ProtoWire.DecodeSucceedsIffWellFormed | internal/ai/grpc_dialer.go:93-99 | Decoding succeeds if and only if the input is a sequence of well-formed fields |
| ProtoWire.DecodeIsFold | internal/ai/grpc_dialer.go:93-173 | On well-formed input decoding is a fold of the field assignments |
| ProtoWire.DecodeConcat | internal/ai/grpc_dialer.go:93-173 | Decoding x ++ y is decoding y into the result of x, so the last write wins |
| ProtoWire.UnknownFieldsChangeNothing | internal/ai/grpc_dialer.go:164-169 | Well-formed fields that the message ignores may be inserted at any field boundary |
| ProtoWire.ReorderedFieldsDecodeAlike | internal/ai/grpc_dialer.go:93-173 | Inputs whose fields agree number by number decode alike, whatever the order of different numbers |
| ProtoWire.EncodedIsWellFormed | internal/ai/grpc_dialer.go:47-90 | An encoded list of fields is well-formed and its fields are read back as that list |
| WireLiterals.VarintIff | vendor/google.golang.org/protobuf/encoding/protowire/wire.go:185-263 | The varint of a number is the one sequence of bytes that are marked by the top bit except the last, spends no byte on leading zeros, and holds the number at seven bits a byte, the lowest first |
| WireLiterals.VarintIsRead | vendor/google.golang.org/protobuf/encoding/protowire/wire.go:266-369 | Reading takes the bytes up to the first unmarked one and gives their sum; the tenth byte may only be 0 or 1 |
| WireLiterals.EndlessVarint | vendor/google.golang.org/protobuf/encoding/protowire/wire.go:266-369 | Without an unmarked byte the input is truncated if shorter than ten bytes, an overflow otherwise |
| WireLiterals.VarintsInFigures | vendor/google.golang.org/protobuf/encoding/protowire/wire.go:185-262 | The bytes of 0, 127, 128, 150 (96 01), 300, 16383 and of the largest 64-bit number |
| WireLiterals.TagIsRead | vendor/google.golang.org/protobuf/encoding/protowire/wire.go:162-178 | Any varint is a tag if and only if its value is from 8 to below 2^34: the number is the value by 8, the type the rest |
| WireLiterals.FixedTypes | vendor/google.golang.org/protobuf/encoding/protowire/wire.go:116-159 | For every field number: type 1 takes eight bytes, type 5 four as a little-endian number; type 4 is a stray end of a group, 6 and 7 are reserved |
| WireLiterals.SizedTypes | vendor/google.golang.org/protobuf/encoding/protowire/wire.go:116-159 | For every field number: type 0 is a varint, type 2 a length and that many bytes, truncated if there are fewer |
| WireLiterals.NestingLimit | vendor/google.golang.org/protobuf/encoding/protowire/wire.go:130-153 | Groups are accepted nested up to 10001 deep and no deeper |
| WireLiterals.ForeignEnd | vendor/google.golang.org/protobuf/encoding/protowire/wire.go:141-146 | A group that ends with another number is an error |
| SpeechWire.MarshalAudioChunk | internal/ai/grpc_dialer.go:47-90 | The appending code writes the literal bytes `ChunkBytes`: tags 0A, 12, 1A, 20, 28, 30, 38, 40, 4A, 52 with their values, defaults left out; they are the encoding of the list of fields |
| SpeechWire.UnmarshalAudioChunk | cmd/mock-ai-worker/main.go:84-171 | The decoding loop equals the fold `Decode` of `PutChunk`, on every input, errors and partial results included |
| SpeechWire.ReadAudioChunkField | cmd/mock-ai-worker/main.go:91-168 | One case of the loop: a known field of its wire type is stored, any other skipped, a malformed one reported |
| SpeechWire.MarshalRecognitionResult | cmd/mock-ai-worker/main.go:173-212 | The appending code writes the literal bytes `ResultBytes`: tags 0A, 12, 1A, 20, 28, 30, 3D, 42, 48 with their values, defaults left out; they are the encoding of the list of fields |
| SpeechWire.UnmarshalRecognitionResult | internal/ai/grpc_dialer.go:93-173 | The decoding loop equals the fold `Decode` of `PutResult`, on every input |
| SpeechWire.ReadRecognitionResultField | internal/ai/grpc_dialer.go:99-170 | One case of the loop, as above |
| SpeechLiterals.ChunkStringsAlone | internal/ai/grpc_dialer.go:49-60 | A chunk with only session, stream or PCM set is written as 0A, 12 or 1A, the length and the bytes |
| SpeechLiterals.ChunkTagsAlone | internal/ai/grpc_dialer.go:81-88 | With only language or task: 4A or 52, the length and the bytes |
| SpeechLiterals.ChunkRatesAlone | internal/ai/grpc_dialer.go:61-68 | With only an int32 sample rate or channel count: 20 or 28 and the varint, negative ones in 64-bit two's complement |
| SpeechLiterals.ChunkTimesAlone | internal/ai/grpc_dialer.go:69-80 | With only timestamp, duration or end of stream: 30, 38 and the varint, or 40 01 |
| SpeechLiterals.ResultStringsAlone | cmd/mock-ai-worker/main.go:175-186 | A result with only session, stream or text set is written as 0A, 12 or 1A, the length and the bytes |
| SpeechLiterals.ResultHeadAlone | cmd/mock-ai-worker/main.go:187-194 | With only the final mark or the start time: 20 01, or 28 and the varint |
| SpeechLiterals.ResultTailAlone | cmd/mock-ai-worker/main.go:195-210 | With only end time, language or sequence: 30, 42 or 48 and the value |
| SpeechLiterals.ConfidenceAlone | cmd/mock-ai-worker/main.go:199-202 | With only the confidence: 3D and its four bytes, the lowest first; nothing for either zero |
| SpeechLiterals.ResultsInFigures | cmd/mock-ai-worker/main.go:173-212 | Confidence 1.0 is 3D 00 00 80 3F, the text "hi" is 1A 02 68 69 |
| SpeechLiterals.ChunkStringsRead | cmd/mock-ai-worker/main.go:92-161 | Behind 0A, 12, 1A, 4A and 52, in any message and whatever follows, length and bytes set session, stream, PCM, language and task and nothing else |
| SpeechLiterals.ChunkNumbersRead | cmd/mock-ai-worker/main.go:113-147 | Behind 20, 28, 30, 38 and 40 a varint sets rate and channels to its low 32 bits with sign, the timestamp to its low 32 bits, the duration to the signed 64 bits, and end of stream to whether it is not 0 |
| SpeechLiterals.ResultStringsRead | internal/ai/grpc_dialer.go:101-156 | Behind 0A, 12, 1A and 42 length and bytes set session, stream, text and language and nothing else |
| SpeechLiterals.ResultNumbersRead | internal/ai/grpc_dialer.go:122-163 | Behind 20, 28, 30 and 48 a varint sets the final mark, both times with sign, and the sequence |
| SpeechLiterals.ConfidenceRead | internal/ai/grpc_dialer.go:143-149 | Behind 3D four bytes, the lowest first, are the bits of the confidence |
| SpeechWire.AudioChunkRoundTrip | cmd/mock-ai-worker/main.go:84-171 | The worker's decode of the gateway's encoding gives back every chunk, with rates and channels reduced to int32 |
| SpeechWire.AudioChunkRoundTripIff | internal/ai/grpc_dialer.go:47-90 | The round trip is the identity if and only if sample rate and channels fit int32 |
| SpeechWire.RecognitionResultRoundTrip | internal/ai/grpc_dialer.go:93-173 | The gateway's decode of the worker's encoding gives back every result, with a confidence of -0.0 turned into +0.0 |
| SpeechWire.RecognitionResultRoundTripIff | cmd/mock-ai-worker/main.go:173-212 | The round trip is the identity if and only if the confidence is not -0.0 |
| SpeechWire.ChunkIgnoresUnknown | cmd/mock-ai-worker/main.go:162-168 | Unknown and wrong-type fields anywhere in a chunk change nothing |
| SpeechWire.ResultIgnoresUnknown | internal/ai/grpc_dialer.go:164-169 | Unknown and wrong-type fields anywhere in a result change nothing |
| SpeechWire.ChunkFieldOrderIsFree | cmd/mock-ai-worker/main.go:84-171 | Chunks whose fields agree number by number decode alike |
| SpeechWire.ResultFieldOrderIsFree | internal/ai/grpc_dialer.go:93-173 | Results whose fields agree number by number decode alike |
| Pcm.Int16ToS16LE | internal/audio/pcm.go:31-40 | The loop writes the little-endian bytes of every sample |
| Pcm.S16LEToInt16 | internal/audio/pcm.go:15-27 | The loop reads them; an odd number of bytes is an error |
| Pcm.DecodeAfterEncode | internal/audio/pcm.go:15-40 | Decoding undoes encoding for all samples |
| Pcm.EncodeAfterDecode | internal/audio/pcm.go:15-40 | Encoding undoes decoding, which succeeds exactly on an even number of bytes |
| Pcm.BytesAreLittleEndian | internal/audio/pcm.go:15-40 | The two bytes of a sample are its 16-bit two's complement, the low byte first |
| Pcm.DivisionTruncates | internal/audio/resampler.go:73 | The division used for means and lengths truncates toward zero: the remainder is smaller than the divisor and has the sign of the dividend |
| Resampler.StreamResampler.ToMono | internal/audio/resampler.go:63-76 | The loops average each frame with truncation toward zero; a trailing partial frame is ignored |
| Resampler.ChannelsCountOnce | internal/audio/resampler.go:69-72 | Replacing the sample of one channel of a frame changes the sum of the frame by exactly the difference, and no other frame: each channel counts once |
| Resampler.SilenceSumsToZero | internal/audio/resampler.go:69-72 | A frame of zeros sums to 0 |
| Resampler.FrameIsAveraged | internal/audio/resampler.go:63-76 | Every whole frame, of any number of channels, becomes their sum by their number, truncated toward zero |
| Resampler.StereoIsAveraged | internal/audio/resampler.go:69-73 | Two channels are averaged, truncated toward zero: [100, 200] gives [150] |
| Resampler.SumFitsInt32 | internal/audio/resampler.go:69-72 | The int32 accumulator of a frame of fewer than 65536 channels never overflows |
| Resampler.MeanIsExact | internal/audio/resampler.go:69-73 | The mean of a frame lies between its least and its greatest sample, so that the conversion to int16 changes nothing |
| Resampler.UnalignedInputLosesRest | internal/audio/resampler.go:67-73 | A call loses exactly the samples behind its last whole frame |
| Resampler.StreamResampler.LinearResample | internal/audio/resampler.go:92-130 | The loop computes exactly the samples at phases phase, phase + inRate, ... and carries the phase past the end |
| Resampler.StreamResampler.Process | internal/audio/resampler.go:50-60 | A call follows the specification, including the index panic |
| Resampler.PanicsIff | internal/audio/resampler.go:50-60 | A call panics if and only if the input is non-empty, shorter than one frame and the rates differ |
| Resampler.OutputsFitCapacity | internal/audio/resampler.go:100-102 | The outputs of every call fit the capacity reserved for them |
| Resampler.OutputCountIsExact | internal/audio/resampler.go:97-129 | For every split of the input into chunks the total number of outputs is ceil(inputs * outRate / inRate) |
| Resampler.StreamRefinesOneShot | internal/audio/resampler.go:107-129 | For every split each output equals that of resampling the whole input at once, except where it needs the sample after a chunk end; there it is the last sample of the chunk |
| Resampler.HeldErrorIsBounded | internal/audio/resampler.go:88-91 | Where a sample is held, the exact value lies between the held sample and the next input sample |
| Resampler.HeldOutputsAreLast | internal/audio/resampler.go:88-111 | For every split, fewer than ceil(outRate / inRate) outputs of a call follow a held one: a held output lies at the end of its chunk, and that many outputs later the chunk is over |
| Resampler.TwoHeldWhenRateTriples | internal/audio/resampler.go:91 | Concrete input: two outputs of one call are held when 8 kHz becomes 24 kHz |
| HeldOutputs.OneHeldIff | internal/audio/resampler.go:88-91 | For every split from phase 0 no two held outputs come from one call if and only if outRate <= inRate + gcd(inRate, outRate) |
| HeldOutputs.HeldTogether | internal/audio/resampler.go:88-91 | Held outputs come from one call exactly if they wait for the same input sample, the first of the next chunk |
| HeldOutputs.OneHeldWhenRateDoesNotGrowOrDoubles | internal/audio/resampler.go:88-91 | In particular at most one when the rate does not grow, and when it doubles |
| Resampler.InterpolationIsBetween | internal/audio/resampler.go:118-121 | Every interpolated value lies between its two neighbours, so the conversion to int16 is exact |
| Resampler.InterpolationIsLinear | internal/audio/resampler.go:107-121 | An interpolated value is the point of the straight line between its two neighbours, cut toward the first of them by less than 1 |
| Resampler.OneShotIsLinear | internal/audio/resampler.go:107-121 | Output k of a whole signal lies k * inRate / outRate samples from its start: on a sample it is that sample, between two it is the point of the straight line between them, less than 1 off; behind the last sample it is that one |
| Resampler.SameRateIsIdentity | internal/audio/resampler.go:55-58 | Interpolating at equal rates would return the input and phase 0: the shortcut changes nothing |
| Chunker.StreamChunker.Push | internal/audio/chunker.go:60-91 | The loop emits exactly the full blocks of buffer plus input, each with the timestamp of the packet of its first sample, and keeps the rest |
| Chunker.StreamChunker.Flush | internal/audio/chunker.go:95-102 | Emits what is left as one chunk, or nothing |
| Chunker.StreamChunker.Emit | internal/audio/chunker.go:105-116 | The chunk carries the bytes, timestamp and duration of its block |
| Chunker.ChunkingIsLossless | internal/audio/chunker.go:60-102 | For every history of pushes and flushes the emitted blocks followed by the buffer are exactly the samples pushed |
| Chunker.BlockSizes | internal/audio/chunker.go:77-80 | Without a flush every block has exactly chunkSamps samples, with flushes at most that many, and the buffer always fewer |
| Chunker.ChunkProvenance | internal/audio/chunker.go:65-89 | For every history the bytes of each chunk decode to its run of pushed samples, and its timestamp is that of the packet that supplied the first of them |
| Chunker.ChunkSizeIsDuration | internal/audio/chunker.go:44 | chunkSamps is the number of whole samples in chunkMs milliseconds: sampleRate * chunkMs by 1000, truncated toward zero |
| Chunker.ChunkTells | internal/audio/chunker.go:105-116 | A chunk tells the rate, one channel if none is configured, and the duration and timestamp of its block |
| ChunkerLoop.PushEndsIff | internal/audio/chunker.go:60-91 | For every configuration the constructor accepts and every non-empty input: the loop ends if and only if sampleRate * chunkMs reaches 1000, panics if and only if sampleRate is 0, and otherwise runs forever; when it ends, then with the full blocks of buffer plus input |
| ChunkerLoop.EmptyChunksLoop | internal/audio/chunker.go:78-89 | With chunkSamps = 0 every turn emits an empty chunk and takes no sample, so no number of turns ends the loop |
| ChunkerLoop.NewPanicsIff | internal/audio/chunker.go:44-50 | chunkSamps is negative, on which the constructor panics, if and only if sampleRate * chunkMs <= -1000 |
| AudioPipeline.SessionPipeline.Process | internal/pipeline/audio_pipeline.go:59-106 | A packet goes through decoder result, resampler and chunker; chunks are sent in order until the session is cancelled |
| AudioPipeline.SessionPipeline.ProcessAll | internal/pipeline/audio_pipeline.go:59-106 | After any list of packets the samples of the chunks sent, followed by the buffer, are exactly the resampled stream of what was decoded; if the session was cancelled on the way, before a packet or during its sends, the samples sent are a beginning of that stream. It ends early exactly at the first packet that makes the resampler panic before a cancellation, with the packets before it accounted for in the same way |
| AudioPipeline.SessionPipeline.Flush | internal/pipeline/audio_pipeline.go:110-144 | The rest of the buffer is sent as the chunk that ends the stream, exactly if there is a rest and room |
| AudioPipeline.PipelineIsLossless | internal/pipeline/audio_pipeline.go:84-85 | For every packet list, of any number of channels and with errors and short packets in between, the chunks and the rest carry exactly the resampled mono stream, ceil(inputs * outRate / inRate) samples in all |
| SessionManager.Session.Touch | internal/session/session.go:64-71 | Stamps the arrival; a session that is CREATED or IDLE becomes ACTIVE, any other status stays |
| SessionManager.Manager.constructor | internal/session/manager.go:84-93 | A new manager has no session, no index entry and zero totals |
| SessionManager.Manager.Create | internal/session/manager.go:96-149 | Limit first, then duplicate ID; on success the new session has the given ID, keys and callback, is CREATED and stamped with the time of its creation, is mapped, indexed under its non-zero keys and counted; on failure nothing changes |
| SessionManager.Manager.Get | internal/session/manager.go:152-157 | A session returned has that ID and is neither closing nor cancelled; none is returned exactly when none is live |
| SessionManager.Manager.GetBySSRC | internal/session/manager.go:160-169 | A session returned is live and has that non-zero SSRC |
| SessionManager.Manager.GetByAddr | internal/session/manager.go:173-182 | A session returned is live and has that non-empty address |
| SessionManager.Manager.GetByPeerID | internal/session/manager.go:186-195 | A session returned is live and has that non-empty peer ID |
| SessionManager.Manager.GetByTrackID | internal/session/manager.go:199-208 | A session returned is live and has that non-empty track ID |
| SessionManager.Manager.Update | internal/session/manager.go:243-264 | A new non-empty address moves the index entry; empty patch fields keep the old values; other sessions keep theirs |
| SessionManager.Manager.Unmap | internal/session/manager.go:213-233 | The locked half of Close: CLOSING, out of the map and the indexes |
| SessionManager.Manager.FinishClose | internal/session/manager.go:235-237 | The other half: cancelled, CLOSED and counted |
| SessionManager.Manager.Close | internal/session/manager.go:212-239 | Succeeds exactly for a live session, which ends cancelled and CLOSED; other sessions keep their status |
| SessionManager.Manager.Expired | internal/session/manager.go:300-307 | Exactly the sessions idle for longer than the timeout |
| SessionManager.Manager.CloseAll | internal/session/manager.go:309-311 | Whatever has become of them since the scan: closes those of the given IDs that are still live, and no other session |
| SessionManager.Manager.Gc | internal/session/manager.go:299-312 | With no other step in between, closes exactly the idle sessions |
| SessionManager.Manager.CreateThenGc | internal/session/manager.go:299-312 | A Gc at most idleTimeout after the creation of a session leaves it mapped and open |
| SessionManager.Manager.TouchThenGc | internal/session/manager.go:299-312 | So does one at most idleTimeout after a packet |
| SessionCollector.CollectsWhatItFound | internal/session/manager.go:299-312 | In every interleaving, after the scan and whatever else: closing an ID that the scan found closes the session it found if and only if nobody has closed it since; that session is still idle then if and only if it got no recent packet since; a newer session is closed if and only if the old one is gone and the ID is in use again |
| SessionCollector.TouchedIsCollected | internal/session/manager.go:299-312 | Concrete run: a session that gets a packet between the scan and its close is closed all the same |
| SessionTable.FindIsScan | internal/session/manager.go:160-169 | In a sound and complete index a lookup equals a scan of the live sessions |
| SessionTable.NewestIsFound | internal/session/manager.go:134-146 | A new session is found by each of its non-zero keys, whoever held them before; other keys find what they found |
| SessionTable.GoneIsNotFound | internal/session/manager.go:221-233 | The keys of a removed session find nothing; other keys find what they found |
| SessionTable.MovedIsFound | internal/session/manager.go:247-255 | A new address finds the session and the old one nothing; an empty or unchanged address changes nothing |
| SessionLifecycle.LookupsAreSound | internal/session/manager.go:134-146 | In every interleaving each index entry names a live session that holds that non-zero key |
| SessionLifecycle.CompleteIffDistinct | internal/session/manager.go:135-146 | The indexes stay complete along a run if and only if live sessions have distinct non-zero keys all along it |
| SessionLifecycle.LookupsAreScans | internal/session/manager.go:160-208 | With distinct keys every GetBy function equals a scan of the live sessions, across Create, Update and Close |
| SessionLifecycle.SharedKeyIsStolen | internal/session/manager.go:135-137 | Concrete run: two sessions share an SSRC, the second is closed and the first can no longer be found by it |
| SessionLifecycle.ClosedMeansGone | internal/session/manager.go:219-236 | In every interleaving CLOSED implies cancelled and unmapped, and mapped means neither CLOSING nor CLOSED |
| SessionLifecycle.TotalsAddUp | internal/session/manager.go:147-237 | In every interleaving createdTotal = live + closedTotal + closes in flight, and live never exceeds MaxSessions |
| SessionLifecycle.ClosingIsForever | internal/session/session.go:64-91 | In every interleaving, whatever Touch does, a session that is CLOSING or CLOSED never becomes anything earlier |
| SessionLifecycle.ExactlyOneCloseSucceeds | internal/session/manager.go:212-218 | In every interleaving at most one Close succeeds per session, and exactly one if it is no longer live |
| SessionRefinement.Create | internal/session/manager.go:96-149 | Whatever the objects, Create does to them what the step of the lifecycle machine does to its state, so its theorems are about the objects |
| SessionRefinement.Touch | internal/session/session.go:64-71 | The same for Touch |
| SessionRefinement.Update | internal/session/manager.go:243-264 | The same for Update |
| SessionRefinement.Unmap | internal/session/manager.go:213-233 | The same for the locked half of Close |
| SessionRefinement.FinishClose | internal/session/manager.go:235-237 | The same for the rest of Close, which is three steps of the machine |
| PortAllocator.RangeHoldsEachPortOnce | internal/controlplane/port_allocator.go:27-30 | The initial free list holds every port of the range once and no other |
| PortAllocator.Allocator.New | internal/controlplane/port_allocator.go:23-32 | Fails exactly on a range that is empty or not positive; otherwise the whole range is free |
| PortAllocator.Allocator.Acquire | internal/controlplane/port_allocator.go:35-45 | Pops the last free port; fails exactly when none is free |
| PortAllocator.Allocator.Release | internal/controlplane/port_allocator.go:48-52 | The port is free once more often than before, every other port as often, and it comes out next; releasing a free port doubles it |
| CallSetupSafety.PortsHaveOneOwner | internal/controlplane/handler.go:105-140 | In every interleaving of handlers, listeners, closes and cleanups each port of the range has exactly one owner: the free list, one handler or one open listener; ports outside the range have none |
| CallSetupSafety.NoPortTwice | internal/ingress/rawrtp/port_manager.go:50-52 | In every interleaving two open listeners have different ports, which are neither free nor in a handler's hands |
| CallSetupLeaks.NothingLeaks | internal/coordinator/coordinator.go:78-135 | In every interleaving, once all goroutines have run, only live sessions have pipelines, sinks, AI streams and jitter buffers, every live session was set up completely, and every port is free or served |
| CallSetupLeaks.EverythingComesBack | internal/coordinator/coordinator.go:125-132 | If no session is live then, all registries are empty and the free list is the whole range, each port once |
| CallSetupPipelines.PipelinesHaveOneHolder | internal/coordinator/coordinator.go:103-125 | In every interleaving each pipeline has exactly one goroutine that will remove it |
| CallSetupPipelines.LiveSessionsKeepPipelines | internal/coordinator/coordinator.go:103-135 | In every interleaving, at every moment, a live session whose set-up succeeded has its pipeline: no cleanup of an older session with its ID can take it |
| CallSetupPipelines.PipelinesAreTheLiveSessions | internal/coordinator/coordinator.go:103-135 | Once all goroutines have run, exactly the live sessions have pipelines |
| CallSetupCleanup.EntryIffCleanStart | internal/coordinator/coordinator.go:124-132 | Once all goroutines have run, a live session has its sink, and its jitter buffer, if and only if at its hand-over no cleanup of another session with its ID was still to remove that entry and the entry was there |
| CallSetupCleanup.RegistriesAreTheLiveSessions | internal/coordinator/coordinator.go:124-132 | If all hand-overs of live sessions were clean, pipelines, jitter buffers and, with callbacks, sinks are exactly those of the live sessions |
| CallSetupExamples.OldCleanupTakesNewEntries | internal/coordinator/coordinator.go:124-132 | Concrete run with callbacks: a live session whose set-up succeeded ends without sink and jitter buffer |
| CallSetupSuccess.UndisturbedAnswers | internal/controlplane/handler.go:50-155 | From every state, with ports or without, and for every outcome of binds, codecs and dials: a handler that nobody disturbs sets up both sides completely if and only if HandleAnswer answers (room for the call, and all goes well); otherwise it undoes its plan to the end and the live sessions are as before |
| CallSetupFailure.FailureLeavesNoTrace | internal/controlplane/handler.go:60-155 | From any point at rest: when the handler of an answered call fails, and what it started has come to its end in whatever order, then sessions, pipelines, sinks, jitter buffers, AI streams and the count of every free port are as before |
| CallSetupFailure.FailureComesToRest | internal/controlplane/handler.go:60-155 | Such a run exists from every point at rest at which there is no room for the call or a bind, codec or dial is going to fail |
| CallSetupSuccess.SetUpSucceeds | internal/controlplane/handler.go:50-155 | In every run, from every state with room for the call, such a handler sets it up when all goes well |
| CallSetupSuccess.SetUpAdds | internal/controlplane/handler.go:60-155 | A set-up adds both sides to sessions, pipelines, AI streams and jitter buffers, to the sinks if there are callbacks, and nothing else |
| CallSetupSuccess.SetUpTakesPorts | internal/controlplane/handler.go:105-140 | With ports it hands the two ports at the end of the free list to the listeners of the two sessions, without ports it touches neither |
| CallSetupSuccess.FirstCallIsServed | internal/controlplane/handler.go:105-155 | Every gateway with at least two ports and room for two sessions commits its first call, with a listener on each of two ports, and is at rest |
| CallSetupRest.CanComeToRest | internal/coordinator/coordinator.go:124-132 | Every run can be continued, without new requests, to one at rest |
| CallSetupRest.ContinuationsAreBounded | internal/coordinator/coordinator.go:124-132 | However a run is continued without new requests, the steps that change anything are bounded by what was left to do when it began |
| CallSetupPairs.SuccessIsBoth | internal/controlplane/handler.go:142-155 | From any point of a run at which no close of the call is pending and its sides are both live or neither: after every interleaving that comes to rest and in which nobody asks to close a side, they are again both live or neither |
| CallSetupLoneSides.AloneIffPartnerClosed | internal/controlplane/handler.go:142-155 | With closes: at rest a live side was set up by one handler together with exactly one session of the other side, and has that session beside it if and only if nobody has closed the other ID since that session was created |
| CallSetupLoneSides.AliveIffNotClosed | internal/session/manager.go:212-239 | In every interleaving a session is live if and only if nobody has closed its ID since it was created |
| CallSetupLoneSides.IdIsLiveIff | internal/session/manager.go:212-239 | In every interleaving an ID is live if and only if it has a session that nobody has closed |
| CallSetupExamples.CloseMayLeaveOneSide | internal/session/manager.go:299-312 | Concrete run: a close that names one side leaves the other one live |
| CallSetupRollback.RollbackMayCloseAnother | internal/controlplane/handler.go:149-154 | Concrete interleaving: a handler that fails after its call was deleted and answered again closes the new session |
| CallSetupRollback.RollbackClosesOwnIff | internal/controlplane/handler.go:142-155 | In every interleaving a rollback closes the session that the handler created under the ID if and only if no other goroutine has closed the ID since then; it closes the session of another request if and only if one has, and the ID is in use again |
| CallSetupRollback.OnlyOwnCloses | internal/controlplane/handler.go:142-155 | From any point at which no close of the call is pending, and as long as nobody asks to close a side of it, whoever holds the close of a side is the creator of the session that is live under it |
| CallSetupRollback.StruckByRequest | internal/controlplane/handler.go:142-155 | If another goroutine has closed a handler's session, somebody has asked to close a side of the call, since any point at which no close of it was pending |
| AnswerHandler.Gateway.Start | internal/coordinator/coordinator.go:78-135 | Succeeds exactly if the codec exists, no pipeline or stream of that ID is left, and stream limit and dial allow it; a failure leaves pipelines, streams and jitter buffers as they were and the session without sinks |
| AnswerHandler.Gateway.CreateBoth | internal/controlplane/handler.go:75-103 | Both sessions or neither, with Conflict or Unavailable exactly as the first check that fails says |
| AnswerHandler.Gateway.SetUpPorts | internal/controlplane/handler.go:107-140 | Two ports handed to two listeners, or sessions, listeners and free ports as before |
| AnswerHandler.Gateway.StartBoth | internal/controlplane/handler.go:142-155 | Both pipelines, or both sessions closed and nothing registered for either; fails also when a pipeline or stream of one of the IDs is left |
| AnswerHandler.Gateway.HandleAnswer | internal/controlplane/handler.go:50-155 | Each of the seven answers exactly under its condition on the old state and the environment: the first check that fails decides, an ID in use gives Conflict before the others, and Answered needs them all. All or nothing: an answered call has both sides added and two ports taken; every other exit restores sessions, pipelines, sinks, streams, jitter buffers, listeners and free ports, so a session that caused a conflict is not closed |
| AnswerHandler.Gateway.DeleteCallSession | internal/controlplane/handler.go:308-318 | Closes both sides; not found exactly when neither is live |
| AnswerHandler.Gateway.AnswerThenDelete | internal/controlplane/handler.go:308-318 | Answering and then deleting restores everything, and the delete finds the call |
| AiStreams.Manager.OpenStream | internal/ai/stream_manager.go:129-187 | MaxStreams exactly at the limit, else DuplicateStream exactly if the session has a stream, else DialFailed exactly if the dial fails, and then nothing changes; success maps one new stream |
| AiStreams.Manager.CloseStream | internal/ai/stream_manager.go:192-205 | Takes the mapped stream out and closes it; reports whether there was one |
| AiStreams.Manager.CleanUp | internal/ai/stream_manager.go:169-184 | Adds the counters to the totals and removes the map entry only if it is its own |
| AiStreams.Manager.Stats | internal/ai/stream_manager.go:86-111 | The loop over the map, in whatever order, sums the totals and the mapped streams |
| AiStreams.OneNewestStreamPerSession | internal/ai/stream_manager.go:138-166 | In every interleaving at most maxActive streams are mapped, each session's entry is its own newest stream, and a stream is mapped exactly until its Close or its own cleanup |
| AiStreams.OnlyOwnCleanupRemoves | internal/ai/stream_manager.go:179-183 | In every interleaving a stream leaves the map only by a Close of its session or by its own cleanup |
| AiStreams.TotalsCountEachStreamOnce | internal/ai/stream_manager.go:171-178 | In every interleaving the totals are the sum over the streams that have ended, each once, and no stream retried more than maxRetries times |
| AiStreams.CountersAreExact | internal/ai/grpc_client.go:106-165 | In every interleaving the counters of a stream count the events of its life: each send and receive error once, the retries up to maxRetries, and the first latency that is not 0 |
| AiStreams.Contribution | internal/ai/stream_manager.go:86-111 | A stream adds its errors and retries to the sums, and its latency, counted once, exactly if that is positive |
| AiStreams.LatenciesCounted | internal/ai/stream_manager.go:95-98 | The number of latencies in the sum is the number of streams with a positive one |
| AiStreams.StreamCanEnd | internal/ai/stream_manager.go:169-184 | From every point of every run the goroutine and the cleanup of a stream can end, and then it is out of the map |
| AiStreams.ReportedIsExact | internal/ai/stream_manager.go:86-111 | In every interleaving Stats = sum over all streams - those closed but not yet added + those added but still mapped |
| AiStreams.QuietIsExact | internal/ai/stream_manager.go:86-111 | Once all cleanups are done nothing is mapped and Stats is the exact sum |
| AiStreams.StatsMayBeOff | internal/ai/stream_manager.go:86-111 | Concrete runs: an error reported twice, and one not reported at all |
| AiStreams.UnclosedWithinLimit | internal/ai/stream_manager.go:138-140 | In every interleaving at most maxActive streams run, not counting those that were closed |
| AiStreams.RunningMayExceedLimit | internal/ai/stream_manager.go:192-205 | Concrete run: with limit 1, two streams run, because a closed one leaves the map before it ends |
| Reconnect.RunWithReconnect | internal/ai/grpc_client.go:106-165 | For every behaviour of the connection: at most maxRetries reconnects, every pair but the last led to another one, the loop ends exactly for one of its reasons, and the backoffs double up to 30 s |
| Reconnect.DoublingKeepsCap | internal/ai/grpc_client.go:153-156 | Doubling and capping step by step gives the closed form min(first * 2^i, 30 s) for every wait but the first, which is as configured |
| Reconnect.DefaultBackoffs | internal/ai/grpc_client.go:119-156 | By default the waits are 1, 2, 4, 8, 16 and from then on 30 seconds |
| Dispatcher.ResultDispatcher.Push | internal/result/dispatcher.go:90-117 | A result is dropped at once if and only if it is partial, the policy allows it, the queue is full and the context not done; given up if and only if the context is done or ends while it waits and it did not get in; otherwise it enters behind the others. Every call is counted |
| Dispatcher.ResultDispatcher.Dispatch | internal/result/dispatcher.go:146-171 | Every sink is tried in order until a shutdown; the attempts accepted are counted as sent, final or partial, and all others as errors |
| Dispatcher.ResultDispatcher.RegisterSink | internal/result/dispatcher.go:75-79 | The session has one more sink, behind the others; every other session has the sinks it had |
| Dispatcher.ResultDispatcher.UnregisterSinks | internal/result/dispatcher.go:82-86 | The session has no sink and no entry; every other session has the sinks it had |
| Dispatcher.ResultDispatcher.ReplaceHTTPSink | internal/result/dispatcher.go:188-205 | The loop computes the list specified by `Replaced`; a session without sinks has no entry |
| Dispatcher.ReplacingSupersedes | internal/result/dispatcher.go:188-205 | At most one HTTP callback remains: the last sink, with the new URL; the other sinks keep their order, other sessions are untouched, and a later replacement supersedes an earlier one |
| Dispatcher.OtherKindsIsFilter | internal/result/dispatcher.go:190-195 | What is kept of the sinks is the filter of those that are no HTTP callbacks: it goes through the list one by one |
| ResultPath.FinalsSurvive | internal/ai/grpc_client.go:326-370 | In every interleaving what entered the dispatcher's queue or is on its way is an in-order subsequence of what was received; the rest was dropped, and then partial, or given up on a done context; no final is missing if and only if none was given up |
| ResultPath.EveryFinalArrives | internal/coordinator/coordinator.go:176-212 | In every interleaving in which no receive loop is cut off, once the queues are drained exactly the finals received have entered the dispatcher, in order |
| ResultPath.LossesHaveReasons | internal/result/dispatcher.go:93-117 | A step loses a result only if it is partial and that queue is full, or if its context is done |
| ResultPath.SharedQueueKeepsOrder | internal/result/dispatcher.go:93-96 | In every interleaving of all sessions the shared queue stays within its size and carries each session's results exactly in the order they entered |
| ResultPath.EnteredAreAddressed | internal/coordinator/coordinator.go:186-197 | On every run whatever enters the dispatcher, or is on the pump, is a received result with its content, and the session, stream, source and media that the worker gave it; what the worker left blank is that of the session |
| ResultPath.FinalsCanArrive | internal/coordinator/coordinator.go:176-212 | From every point of every run in which a receive loop is not cut off, deliveries, pump and workers alone can bring exactly the finals received so far to the dispatcher, in order: no queue blocks for ever |
| ResultPath.ReceiveLoop | internal/ai/grpc_client.go:326-370 | Exactly when the receive loop takes a result, ends (by its connection, or giving one up on a done context), starts again, and when its contexts are done |
| ResultPath.JoinAdds | internal/coordinator/coordinator.go:78-135 | A new session is receiving with nothing on the way, and the others are as before |
| Amr.ParseAMRFrames | internal/codec/amr.go:93-126 | The two loops compute exactly the specification `Parse`, on every input |
| Amr.FrameSizes | internal/codec/amr.go:21-38 | The sizes of the speech frames are those of the AMR and AMR-WB modes; types without speech are empty |
| Amr.ParseUndoesPayload | internal/codec/amr.go:93-126 | Parsing the section 4.4 of RFC 4867 serialisation of any non-empty frame list returns it, whatever follows |
| Amr.PayloadUndoesParse | internal/codec/amr.go:93-126 | Accepted input with a proper table of contents is the serialisation of the frames found, up to unused bytes |
| Amr.CutYieldsLongestPrefix | internal/codec/amr.go:117-124 | Of a payload cut off anywhere the longest prefix of the announced frames that fits is returned, with an error exactly if that is not all of them |
| Amr.CutAcceptedIff | internal/codec/amr.go:99-109 | A cut payload is accepted if and only if the cut is inside the table of contents and all frames announced before it are empty |
| Amr.OneFrameInFigures | internal/codec/amr.go:93-126 | An entry is read bit by bit: F in 80, the type times 8, the quality in 04, two bits unused; a payload of one frame gives that frame |
| Amr.TwoFramesInFigures | internal/codec/amr.go:93-126 | The same for two frames, the first entry with F set |
| Amr.StoredFrameInFigures | cmd/mock-rtp-sender/main.go:121-151 | A stored frame is sent as F0, its head with the first bit cleared, and its data; an empty one is not sent |
| Amr.AmrReader.ReadFrame | cmd/mock-rtp-sender/main.go:121-151 | One stored frame becomes one payload, an empty one is skipped, a cut one fails |
| Amr.AmrReader.SendAll | cmd/mock-rtp-sender/main.go:272-313 | Sends exactly the payloads up to the end of the file or the first error |
| Amr.SentFramesComeBack | cmd/mock-rtp-sender/main.go:121-151 | Sending a file of stored frames and parsing the packets gives back the frames in order, without the empty ones |

## Left out

- JitterProperties.WindowInvariant: requires that the packets buffered before the first release lie in one half range; the code does not bound them, and OrderedIffHalfRangeStart shows that the order on the buffer needs exactly this.
- JitterProperties.LossExactness: the same requirement, and for discards one way only: what a wider start discards depends on the layout of the heap, and some wider starts discard nothing.
- JitterSteady.LossIffOverdue: the same requirement, with bufferMs >= 0.
- Jitter estimate of section 6.4.1 of RFC 3550 (`updateJitter`): float64 statistics that nothing else reads.
- Counters are unbounded; the wrap-around of uint64 and int64, and of n * outRate in the resampler, is not modelled.
- Times are integers given to each operation; clocks, tickers and durations that overflow are not part of this model.
- SpeechWire.MarshalAudioChunk: requires strings and byte slices shorter than 2^63 bytes, and field values in their Go types.
- The protowire library (`vendor/google.golang.org/protobuf/encoding/protowire/wire.go`): only what the two codecs call, with the error kinds merged where the callers do not tell them apart; varints are read and written by recursion instead of its unrolled cases.
- The reuse of the PCM backing array in `unmarshalAudioChunk` is not modelled: byte sequences are values.
- Resampler.StreamResampler.Process: the class requires positive rates and 0 < channels < 65536; a frame of more channels could overflow its int32 sum. Reset is left out.
- Chunker.StreamChunker.Push: the class requires chunkSamps > 0; ChunkerLoop states what happens for every configuration.
- ChunkerLoop.NewPanicsIff: the constructor also panics when the capacity of its buffer is more than Go can allocate; that limit is not part of this model.
- Chunker.StreamChunker.Push: the capacity and sharing of the Go slices are not modelled.
- AudioPipeline.SessionPipeline.Process: decoding (Opus, G.711, EVS, AMR-WB) is a parameter, PCM dumping is left out, and sends block until a given number of them went through.
- AudioPipeline.SessionPipeline.ProcessAll: starts with a new session; a panic ends the process, and nothing is said about what other sessions lose.
- The worker pool is modelled by its table of pipelines only; it gives no order between packets of one session when it has several workers.
- SessionManager.Manager.Close: runs both halves in one go; SessionLifecycle interleaves them. The intermediate fields of a session that no property uses (codec, queues, language) are left out.
- The status IDLE is never set by the code; only Touch mentions it.
- CallSetupLeaks.NothingLeaks: assumes that every cancelled context is noticed and every goroutine runs to its end; registering the jitter buffer and starting the cleanup goroutine is one step, and goroutines of the HTTP server that answer other requests are left out.
- CallSetupLeaks.NothingLeaks: `UpdateCallbackSink` after the cleanup of a session registers a sink that nobody removes; `ctrlResult` is not part of this model.
- SessionManager.Manager.Gc: the scan and the closes run without other steps in between; SessionCollector interleaves them with everything.
- AnswerHandler.Gateway.HandleAnswer: one request at a time, with the goroutines cancelled by a close run at once; the interleavings are those of CallSetup. The response body, admission thresholds and `serviceToCodec` are parameters or left out.
- AiStreams.ReportedIsExact: Stats and the five additions of a cleanup are one step each; contexts and timeouts of a stream are only seen as its end.
- Reconnect.RunWithReconnect: what happens inside a pair is a parameter; sending, its timeouts and the first-chunk deadline are left out.
- Dispatcher.ResultDispatcher.Push: an unbuffered queue (size 0) is always full here, whereas Go may hand over to a waiting worker; a waiting sender gets its place when one worker takes the head of the queue.
- ResultPath.FinalsSurvive: the receive loop, the pump and Push are steps of a state machine; delivery to sinks, callback retries and the order between dispatcher workers are left out.
- ResultPath.FinalsCanArrive: requires queues of positive size; that a scheduler takes these steps in the end is not part of this model.
- Amr.AmrReader.SendAll: without packet pacing, RTP headers, the count limit and looping; the file starts behind its magic header.
- Decoding AMR, AMR-WB and EVS frames: stubs or foreign code.
- HTTP, UDP, WebRTC, gRPC connections, configuration, metrics, gateway and worker selection, admission: these pass data on or look it up; nothing about them spans several calls.
- `StartMockResultPump`: a laboratory path.
