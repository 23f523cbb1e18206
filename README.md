# Span channel builder and blind compressor

A model, in Dafny, of two pieces of the OP Stack batcher's write path:

- **`SpanChannelOut`** (op-node/rollup/derive/span_channel_out.go) builds one
  channel. Singular L2 batches are appended to a span batch, the span batch
  is RLP-encoded into one of two buffers, and the active buffer is
  zlib-compressed whenever its size might have crossed the target. When a
  new batch pushes the compressed size past the target, the channel rolls
  back to the other buffer, closes itself and reports
  `ErrCompressorFull`; a lone oversized batch is admitted anyway. A closed
  channel is cut into frames of at most `maxSize` bytes.
- **`BlindCompressor`** (op-batcher/compressor/blind_compressor.go) is a
  compression strategy. It buffers writes until the buffered bytes plus the
  compressed output reach the target, then hands input to zlib and refuses
  further writes once the output is full.

Each of the two Go types is modelled twice:

- as a reference model, in which the state is a datatype and each operation is
  a function from the old state to the new state and the results
  (`ChannelModel`, `BlindModel`);
- as a class with the Go fields and methods (`SpanChannel.SpanChannelOut`,
  `Compressor.BlindCompressor`). Every method is proved to change the fields
  exactly as the reference function says, e.g.
  `ensures M.AddResult(State(), n, err) == M.AddSingularBatch(old(State()), env, batch, seqNum)`.

The properties are proved as lemmas over the reference functions
(`ChannelProperties`, `BlindProperties`). Examples: the outcome of every
branch of `AddSingularBatch`; that after every successful addition that
leaves the channel open the two RLP buffers hold the encodings of the span
batch with and without its last batch (`AddKeepsTracking`); that a rollback
leaves exactly the accepted batches in the sealed payload; that the frames of
a drained channel reassemble its payload with consecutive 16-bit frame
numbers; and that a full `BlindCompressor` stays full. The buffers do not
always track the span batch: a failed conversion or encoding keeps the new
batch in the span batch but not in the buffers
(span_channel_out.go:116-133, `AddEncodingFails`).

zlib itself is abstract. An `Emitter` gives the bytes the writer appends to
its output buffer for one operation (`Write`, `Flush` or `Close`), given the
operations since the writer's last reset (module `Zlib`). The writer's
error state is modelled as Go's `compress/flate` and `compress/zlib` keep
it. After `Close`, a `Flush` or a non-empty `Write` fails and appends
nothing. The error is then stored, and every later operation returns it. A
second `Close` of a writer without a stored error succeeds. The span batch
collaborators are fields of `ChannelModel.Env`:

- `AppendSingularBatch`'s verdict;
- `ToRawSpanBatch` followed by `rlp.Encode`, which reports which of the two
  stages failed or gives the RLP bytes;
- the emitter.

Go's integer conversions are written out: `uint64(int)` wraps negatives
(`Common.ToUint64`), `uint16(frame)` truncates (`Common.ToUint16`), and
`frame += 1` wraps at 2^64 (`Common.Inc64`).

Where the code differs from what one might expect, the model follows the
code:

- `BlindCompressor.Reset` (blind_compressor.go:70-74) keeps the building
  buffer, although it clears everything else.
- `SpanChannelOut.Reset` (span_channel_out.go:72-83) keeps `rlpIndex`,
  although it clears everything else.
- The fast path of `AddSingularBatch` (span_channel_out.go:141-147) returns
  `lastCompressedRLPSize`, an uncompressed size. The other successful paths
  return the compressed size.
- `BlindCompressor.Write` (blind_compressor.go:42-60) hands only `p` to
  zlib, although the comment at line 48 says the buffer will be compressed.
  It does not flush after writing.

## Model

| member | source | states |
|---|---|---|
| SpanChannel.SpanChannelOut.State | op-node/rollup/derive/span_channel_out.go:17-39 | the fields, read as a `ChannelModel.Channel`, always hold two RLP buffers with `rlpIndex` naming one of them |
| ChannelModel.NewSpanChannelOut | op-node/rollup/derive/span_channel_out.go:53-70 | no channel exactly when the error is `ErrRandomID`, and no other error; a new channel has two buffers, is open with nothing ready, holds no batches and has the given target (`NewChannelTracks` adds the rest) |
| ChannelProperties.NewChannelTracks | op-node/rollup/derive/span_channel_out.go:53-70 | a channel is returned exactly when a random ID can be drawn, and the error is nil exactly then, `ErrRandomID` otherwise; the channel has the drawn ID, frame 0, is open, has the given target and an empty span batch with the given genesis timestamp and chain ID, two empty RLP buffers with index 0, a zero baseline, no compressed data and a fresh writer, and its buffers track its span batch |
| SpanChannel.SpanChannelOut.constructor | op-node/rollup/derive/span_channel_out.go:53-70 | the new object's state is the initial channel of the reference model, with fresh RLP buffers |
| SpanChannel.SpanChannelOut.New | op-node/rollup/derive/span_channel_out.go:45-70 | returns a channel in the initial state and nil when an ID is drawn; returns null and `ErrRandomID` otherwise |
| ChannelModel.Reset | op-node/rollup/derive/span_channel_out.go:72-83 | the channel is open with nothing ready and no batches, keeps its target and `rlpIndex`; nil exactly when an ID is drawn, otherwise `ErrRandomID` with the old ID (`ResetClearsChannel` adds the rest) |
| ChannelProperties.ResetClearsChannel | op-node/rollup/derive/span_channel_out.go:72-83 | reset gives an open, empty, tracking channel: frame 0, both buffers, the compressed data and the writer cleared, same target, genesis timestamp and chain ID; a new ID and nil, or the old ID and `ErrRandomID` when no ID can be drawn |
| SpanChannel.SpanChannelOut.Reset | op-node/rollup/derive/span_channel_out.go:72-83 | the fields and the error are those of the reference reset |
| SpanChannel.SpanChannelOut.ID | op-node/rollup/derive/span_channel_out.go:41-43 | the channel's ID |
| SpanChannel.SpanChannelOut.ActiveRLP | op-node/rollup/derive/span_channel_out.go:85-87 | the buffer `rlpIndex` names |
| ChannelModel.SwitchRLP | op-node/rollup/derive/span_channel_out.go:89-91 | the index changes and stays in range; the active and the other buffer trade places |
| ChannelProperties.SwitchTwiceRestores | op-node/rollup/derive/span_channel_out.go:89-91 | two switches give back the channel one started with |
| SpanChannel.SpanChannelOut.SwitchRLP | op-node/rollup/derive/span_channel_out.go:89-91 | the fields are those of the reference switch |
| ChannelModel.AddBlock | op-node/rollup/derive/span_channel_out.go:93-103 | the result keeps two buffers and an index in range |
| SpanChannel.SpanChannelOut.AddBlock | op-node/rollup/derive/span_channel_out.go:93-103 | the fields, size and error are those of the reference `AddBlock` |
| ChannelProperties.AddToClosedChannel | op-node/rollup/derive/span_channel_out.go:94-111 | adding a batch or a block to a closed channel returns `(0, ErrChannelOutAlreadyClosed)` and changes nothing |
| ChannelModel.AddSingularBatch | op-node/rollup/derive/span_channel_out.go:105-172 | every outcome keeps two buffers and an index in range |
| ChannelProperties.AddRejectedBatch | op-node/rollup/derive/span_channel_out.go:115-119 | a batch the span batch refuses returns 0 with an error and the channel is unchanged |
| ChannelProperties.AddEncodingFails | op-node/rollup/derive/span_channel_out.go:120-133 | a failed raw conversion leaves the buffers as they were; a failed RLP encoding leaves the switched-to buffer empty and the old active one as the other; both return 0, keep the channel open, keep the compressed data and the baseline size, and keep the batch in the span batch |
| ChannelModel.SetActive | op-node/rollup/derive/span_channel_out.go:128-130 | the active buffer holds exactly the written bytes and the other buffer is untouched |
| ChannelProperties.AddKeepsBothSnapshots | op-node/rollup/derive/span_channel_out.go:127-168 | after a successful encoding the span batch keeps the new batch; unless the call fails full, the new RLP is active and the old active RLP is the other buffer; after a rollback the two are the other way round |
| ChannelProperties.AddTooManyRLPBytes | op-node/rollup/derive/span_channel_out.go:134-139 | an RLP over 10,000,000 bytes returns `(0, ErrTooManyRLPBytes)`; the channel stays open with the oversized RLP active and the compressed data, writer and baseline unchanged |
| ChannelProperties.AddFastPath | op-node/rollup/derive/span_channel_out.go:141-147 | when the compressed size plus the RLP growth is under the target, the call returns `lastCompressedRLPSize` and nil without touching the compressed data, the writer or the baseline |
| Common.ToUint64 | op-node/rollup/derive/span_channel_out.go:144 | a non-negative value below 2^64 is kept, and a negative one becomes 2^64 plus it |
| ChannelProperties.NegativeGrowthWraps | op-node/rollup/derive/span_channel_out.go:143-144 | when the RLP shrinks by more than the compressed size, for any target up to 2^64 minus the baseline, the wrapped sum prevents the fast path |
| ChannelProperties.AddSlowPathWithinTarget | op-node/rollup/derive/span_channel_out.go:151-171 | otherwise the new RLP is compressed from scratch and its length becomes the baseline; if that is within the target, the call returns the compressed size and nil, with the channel open |
| ChannelProperties.AddForceAdmitsLoneBatch | op-node/rollup/derive/span_channel_out.go:156-162 | a first batch that compresses past the target is kept: the channel is closed with the sealed stream of that batch's RLP, and its size is returned with nil |
| ChannelProperties.AddRollsBack | op-node/rollup/derive/span_channel_out.go:164-168 | with earlier batches, a compression past the target switches back to the previous RLP and seals it; the channel closes and `ErrCompressorFull` is returned with the sealed size; the writer's input is the previous RLP while the baseline keeps the rejected RLP's length |
| ChannelProperties.AddKeepsTracking | op-node/rollup/derive/span_channel_out.go:105-172 | a successful addition that leaves the channel open keeps the active buffer equal to the encoding of the span batch and the other buffer equal to the encoding without its last batch |
| ChannelProperties.AddSealsAcceptedBatches | op-node/rollup/derive/span_channel_out.go:156-168 | when an addition closes a tracking channel, the payload is the sealed zlib stream of an encoding of exactly the accepted batches: the lone batch after a force-admit, all but the rejected batch after a rollback |
| ChannelProperties.ThreeBatchesOfFortyBytes | op-node/rollup/derive/span_channel_out.go:105-172 | target 100, an identity compressor and 40-byte batches: the first two additions take the fast path, return 0 and give the stated channels (buffers of 40 and 80 bytes, the index switching each time); the third closes the channel with `(80, ErrCompressorFull)`, leaving the 80 bytes of the first two batches ready |
| ChannelModel.CompressAndCheck | op-node/rollup/derive/span_channel_out.go:151-171 | the slow path keeps two buffers and an index in range |
| SpanChannel.SpanChannelOut.CompressAndCheck | op-node/rollup/derive/span_channel_out.go:151-171 | the fields, size and error are those of the reference slow path |
| SpanChannel.SpanChannelOut.AddSingularBatch | op-node/rollup/derive/span_channel_out.go:105-172 | the fields, size and error are those of the reference `AddSingularBatch` |
| ChannelModel.FreshCompress | op-node/rollup/derive/span_channel_out.go:174-183 | the compressed data becomes the flushed zlib output of exactly the active RLP |
| SpanChannel.SpanChannelOut.FreshCompress | op-node/rollup/derive/span_channel_out.go:174-183 | the fields are those of the reference `freshCompress` |
| SpanChannel.SpanChannelOut.InputBytes | op-node/rollup/derive/span_channel_out.go:185-188 | returns `lastCompressedRLPSize`. This is the length of the input the zlib writer compressed last, not of the bytes added since, except after a rollback (see `AddKeepsMeasure` and `AddRollsBack`) |
| ChannelProperties.MeasuredAtStart | op-node/rollup/derive/span_channel_out.go:53-83 | a new or reset channel reports as its input size the length of what its writer has compressed (nothing), and its writer holds no error |
| ChannelProperties.AddKeepsMeasure | op-node/rollup/derive/span_channel_out.go:105-253 | every addition except a rollback, every close and every frame keep `lastCompressedRLPSize` equal to the length of the input the writer has compressed since its reset |
| ChannelProperties.WriterStaysOk | op-node/rollup/derive/span_channel_out.go:105-253 | additions, closes and frames never leave an error in the channel's zlib writer, so the channel's `Close()` never returns a closed-writer error |
| ChannelProperties.CompressKeepsWriterOk | op-node/rollup/derive/span_channel_out.go:151-183 | the slow path of an addition, which resets, writes, flushes and may close the writer, leaves no error in it |
| ChannelModel.Channel.ReadyBytes | op-node/rollup/derive/span_channel_out.go:190-197 | 0 while the channel is open, the whole compressed size once it is closed |
| SpanChannel.SpanChannelOut.ReadyBytes | op-node/rollup/derive/span_channel_out.go:190-197 | agrees with the reference `ReadyBytes` of the fields |
| SpanChannel.SpanChannelOut.Flush | op-node/rollup/derive/span_channel_out.go:199-203 | always nil, and it changes nothing |
| ChannelModel.Channel.FullErr | op-node/rollup/derive/span_channel_out.go:205-210 | `ErrCompressorFull` exactly when the compressed size has reached the target, nil exactly when it is below it |
| SpanChannel.SpanChannelOut.FullErr | op-node/rollup/derive/span_channel_out.go:205-210 | agrees with the reference `FullErr` of the fields |
| ChannelModel.Close | op-node/rollup/derive/span_channel_out.go:212-221 | the channel ends closed; a closed one is returned unchanged with `ErrChannelOutAlreadyClosed`; the compressed data only grows, and the RLP buffers and the span batch are untouched, so nothing is recompressed (`CloseOnce`, `WriterStaysOk` and `CloseDropsFastPathBatch` add the rest) |
| ChannelProperties.CloseOnce | op-node/rollup/derive/span_channel_out.go:212-221 | the first close of a channel whose writer holds no error (always the case, by `WriterStaysOk`) succeeds and appends the writer's trailer to the compressed data; a second close returns `ErrChannelOutAlreadyClosed` and changes nothing |
| SpanChannel.SpanChannelOut.Close | op-node/rollup/derive/span_channel_out.go:212-221 | the fields and the error are those of the reference close as written; the error is the zlib writer's |
| ChannelProperties.CloseDropsFastPathBatch | op-node/rollup/derive/span_channel_out.go:199-221 | as written, a channel whose one batch took the fast path closes with an empty payload although the active RLP holds that batch's 10 bytes |
| ChannelModel.CloseCompressing | op-node/rollup/derive/span_channel_out.go:212-221 | the corrected close: the channel ends closed, a closed one is returned unchanged with `ErrChannelOutAlreadyClosed`, and the RLP buffers and span batch are untouched (`CloseCompressingSealsEveryBatch` gives the payload) |
| ChannelProperties.CloseCompressingSealsEveryBatch | op-node/rollup/derive/span_channel_out.go:212-221 | the corrected close leaves as payload the sealed stream of the active RLP, which encodes the whole span batch |
| ChannelProperties.CloseVersionsAgreeAfterCompression | op-node/rollup/derive/span_channel_out.go:156-168 | right after `freshCompress`, which is where `AddSingularBatch` closes, the corrected close and the written one give the same result |
| ChannelModel.OutputFrame | op-node/rollup/derive/span_channel_out.go:230-253 | the written frame's data followed by what remains is the old compressed data; only the compressed data and the frame counter change; `EOF` comes only with a frame marked last (`OutputFrameTooSmall` and `OutputFrameAdvances` give the branches) |
| ChannelProperties.OutputFrameTooSmall | op-node/rollup/derive/span_channel_out.go:231-234 | a `maxSize` below the 23-byte frame overhead returns `(0, ErrMaxFrameSizeTooSmall)` and changes nothing |
| ChannelModel.FrameDataSize | op-node/rollup/derive/span_channel_out.go:236 | the frame's data size is the smaller of the ready bytes and the room `maxSize` leaves after the overhead |
| ChannelModel.ReadFull | op-node/rollup/derive/span_channel_out.go:238-240 | the bytes read plus those left are the buffer; it succeeds exactly when enough bytes are there, and then reads exactly that many |
| Common.ToUint16 | op-node/rollup/derive/span_channel_out.go:236 | the frame number is the counter modulo 2^16 |
| Common.Inc64 | op-node/rollup/derive/span_channel_out.go:246 | the counter goes up by one and wraps to 0 at 2^64 |
| ChannelProperties.FrameNumberAdvances | op-node/rollup/derive/span_channel_out.go:246-247 | after the increment, the frame number is the previous one plus one modulo 2^16, also when the counter wraps |
| ChannelProperties.OutputFrameAdvances | op-node/rollup/derive/span_channel_out.go:230-253 | with room for the overhead a frame is always written. It carries the channel ID and the counter's low 16 bits, and its data is the front of the compressed data and fits the size. The counter goes up by one. `EOF` is returned exactly for the last frame, which is the frame of a closed channel whose remaining data fits. An open channel yields an empty frame |
| ChannelModel.DrainFrames | op-node/rollup/derive/span_channel_out.go:223-253 | draining a closed channel gives at least one frame |
| ChannelProperties.DrainPayload | op-node/rollup/derive/span_channel_out.go:223-253 | the drained frames' data concatenated is exactly the compressed payload |
| ChannelProperties.DrainLastFrame | op-node/rollup/derive/span_channel_out.go:223-253 | the final drained frame is marked last and no other is |
| ChannelProperties.DrainFramesFit | op-node/rollup/derive/span_channel_out.go:223-253 | every drained frame carries the channel ID and at most `maxSize - 23` data bytes |
| ChannelProperties.DrainFrameNumbers | op-node/rollup/derive/span_channel_out.go:223-253 | the first frame number is the counter's low 16 bits and each next one is one more modulo 2^16 |
| ChannelProperties.DrainReassemblesPayload | op-node/rollup/derive/span_channel_out.go:223-253 | the drained frames' data concatenated is exactly the compressed payload; only the final frame is marked last; every frame carries the channel ID and fits the size; frame numbers start at the counter and go up by one modulo 2^16 |
| SpanChannel.SpanChannelOut.OutputFrame | op-node/rollup/derive/span_channel_out.go:230-253 | the fields, frame number, error and written frame are those of the reference `OutputFrame` |
| BlindModel.NewBlindCompressor | op-batcher/compressor/blind_compressor.go:23-36 | the compressor has the configuration, an empty output and building buffer, and an input count equal to the writer's input (`NewCompressorIsEmpty` gives the zero count and the fresh writer) |
| BlindProperties.NewCompressorIsEmpty | op-batcher/compressor/blind_compressor.go:23-36 | a new compressor has a zero input count, an empty output, a fresh writer, an empty building buffer and the configured target |
| Compressor.BlindCompressor.constructor | op-batcher/compressor/blind_compressor.go:23-36 | the new compressor has the configuration, no input, an empty output, a fresh writer and an empty building buffer |
| Compressor.BlindCompressor.TargetOutputSize | op-batcher/compressor/blind_compressor.go:38-40 | the configured target |
| BlindProperties.ConfigNeverChanges | op-batcher/compressor/blind_compressor.go:38-40 | no operation changes the configuration, so the target is always the configured one |
| BlindModel.Write | op-batcher/compressor/blind_compressor.go:42-60 | as written: the configuration is kept and the output only grows; a nil error comes with `len(p)`, an error with 0 (`WriteUnderThreshold`, `WriteWhenFull`, `WriteCompressesOnlyP` and `WriteDropsBufferedBytes` give the branches) |
| BlindProperties.WriteUnderThreshold | op-batcher/compressor/blind_compressor.go:42-52 | under the threshold `Write` returns `(len(p), nil)`: the writer is flushed, `p` joins the building buffer, and nothing new reaches zlib or the input count |
| BlindProperties.WriteWhenFull | op-batcher/compressor/blind_compressor.go:53-55 | past the threshold with a full output `Write` returns `(0, ErrCompressorFull)`; `p` stays buffered and nothing new reaches zlib or the input count |
| BlindProperties.WriteCompressesOnlyP | op-batcher/compressor/blind_compressor.go:56-59 | past the threshold with room left, exactly `p` is written to zlib after the flush; the input count grows by `len(p)` and the building buffer is emptied; the writer's error is returned with 0, or nil with `len(p)`, and it is always `(len(p), nil)` while the writer is not closed |
| BlindProperties.ClosedWriterRefusesInput | op-batcher/compressor/blind_compressor.go:42-82 | after `Close`, `Flush` returns the writer's error and adds no output; `Write` adds no output either: under the threshold it still buffers `p` and returns `(len(p), nil)`, and past it with room left it counts `len(p)`, empties the building buffer and returns 0 with the writer's error |
| BlindProperties.CountedAlways | op-batcher/compressor/blind_compressor.go:42-74 | the input count equals the number of bytes handed to zlib since the last reset, from construction on and across every operation |
| BlindProperties.WriteAfterFullFails | op-batcher/compressor/blind_compressor.go:42-55 | a compressor whose output has reached the target refuses a write with `(0, ErrCompressorFull)`, stays full and hands nothing to zlib |
| BlindProperties.FullStaysFull | op-batcher/compressor/blind_compressor.go:42-60 | after any sequence of writes a full compressor is still full, its input count unchanged and nothing new written to zlib |
| BlindProperties.WriteDropsBufferedBytes | op-batcher/compressor/blind_compressor.go:46-59 | as written, with target 100 and an identity compressor, 10 bytes are buffered, then 95 more cross the threshold and only those 95 reach zlib and the count |
| BlindModel.WriteBuffered | op-batcher/compressor/blind_compressor.go:42-60 | the corrected write: the configuration is kept and the output only grows; a nil error comes with `len(p)`, an error with 0 (`WriteBufferedKeepsEveryByte` gives what reaches zlib) |
| BlindProperties.WriteBufferedKeepsEveryByte | op-batcher/compressor/blind_compressor.go:42-60 | the corrected write loses no byte: what reached zlib followed by what is still buffered grows by exactly `p`; the input count keeps counting; the result is `(len(p), nil)`, or 0 with `ErrCompressorFull` or the closed writer's error, and never the latter while the writer is open |
| Compressor.BlindCompressor.Write | op-batcher/compressor/blind_compressor.go:42-60 | the fields and results are those of the reference `Write` as written |
| BlindModel.Close | op-batcher/compressor/blind_compressor.go:62-64 | only the output and the writer change, the writer taking `Close`; the output only grows; nil exactly when the writer does not fail, and a failed close adds no output |
| Compressor.BlindCompressor.Close | op-batcher/compressor/blind_compressor.go:62-64 | the writer's close output is appended to the output buffer and the writer's error returned |
| BlindModel.Read | op-batcher/compressor/blind_compressor.go:66-68 | the bytes read followed by the remaining output are the old output; the count returned is the number read and at most the size asked for; the error is nil or `EOF`; the configuration and input count are kept (`ReadTakesFromFront` gives the amount and `EOF` exactly) |
| BlindProperties.ReadTakesFromFront | op-batcher/compressor/blind_compressor.go:66-68 | `Read` takes `min(len(p), Len())` bytes from the front of the output; `EOF` exactly when the output is empty and something was asked for, nil otherwise |
| Compressor.BlindCompressor.Read | op-batcher/compressor/blind_compressor.go:66-68 | the fields and results are those of the reference `Read` |
| BlindModel.Reset | op-batcher/compressor/blind_compressor.go:70-74 | the output is empty, the input count equals the writer's input, and the configuration and building buffer are kept |
| BlindProperties.ResetClears | op-batcher/compressor/blind_compressor.go:70-74 | reset empties the output, the writer and the input count, and keeps the building buffer and the target |
| Compressor.BlindCompressor.Reset | op-batcher/compressor/blind_compressor.go:70-74 | the fields are those of the reference `Reset` |
| Compressor.BlindCompressor.Len | op-batcher/compressor/blind_compressor.go:76-78 | the size of the output buffer |
| BlindModel.Flush | op-batcher/compressor/blind_compressor.go:80-82 | only the output and the writer change, the writer taking `Flush`; the output only grows; nil exactly when the writer does not fail, and a failed flush adds no output (`ClosedWriterRefusesInput` gives the failing case) |
| Compressor.BlindCompressor.Flush | op-batcher/compressor/blind_compressor.go:80-82 | the writer's flush output is appended to the output buffer and the writer's error returned |
| BlindModel.Blind.FullErr | op-batcher/compressor/blind_compressor.go:84-91 | `ErrCompressorFull` exactly when the output has reached the target, nil exactly when it is below it |
| Compressor.BlindCompressor.FullErr | op-batcher/compressor/blind_compressor.go:84-91 | agrees with the reference `FullErr` of the fields |

## Left out

- zlib's compression itself: it is the abstract `Zlib.Emitter`. Only the
  closed-writer errors of the writer are modelled. The output is an
  in-memory buffer, so writing to it never fails. Each error is the one
  sentinel `ErrWriterClosed`, and a stored error is not told apart from a
  fresh one. `zlib.NewWriterLevel` cannot fail at `BestCompression`, so
  that error path is not modelled.
- SpanChannel.SpanChannelOut.InputBytes: after a rollback
  (span_channel_out.go:164-168) it reports the rejected RLP's length, not
  the length of the previous RLP that was compressed last. The model states
  this as the source has it (`AddRollsBack`) and promises the measure only
  after the other operations (`AddKeepsMeasure`).
- `AppendSingularBatch`, `ToRawSpanBatch`, `NewBatchData` and `rlp.Encode`:
  their code is not part of this model. They are the fields of `Env`.
  - A refused batch is taken to leave the span batch unchanged.
  - A failed RLP encoding is taken to leave the freshly reset buffer empty.
    Bytes a failing encoder may have written before failing are not modelled.
- `BlockToSingularBatch` and the rollup configuration: `AddBlock` takes the
  conversion's result (a batch and sequence number, or a failure) as a
  parameter.
- `crypto/rand`: the random ID is a parameter, `None` when drawing it fails.
  A partially overwritten ID after a failed read is not modelled; the old ID
  is kept.
- `createEmptyFrame` and `Frame.MarshalBinary`, and the constants
  `FrameV0OverHeadSize` (23) and `MaxRLPBytesPerChannel` (10,000,000): they
  are defined in files that are not part of this model.
  - The frame's data size and is-last flag follow the upstream
    `createEmptyFrame` (`ChannelModel.FrameDataSize`).
  - The marshalled bytes written to `w` are not modelled: the frame is
    returned as a value, and `MarshalBinary` never fails on a byte buffer.
- ChannelModel.DrainFrames: requires `maxSize` above 23. At exactly 23 a
  frame carries no data, so a caller looping until `EOF` on a non-empty
  channel never finishes.
- The error messages built by `fmt.Errorf`: each error is the sentinel or
  the stage that failed. The commented-out and live `fmt.Println` output is
  omitted.
- Integer widths other than the ones written out under `Common`:
  - Go `int` lengths and `inputBytes` are unbounded integers, since they
    cannot overflow for buffers that fit in memory.
  - `uint64(len(buildbuf) + buf.Len())` in `BlindCompressor.Write` is
    therefore the plain sum.
- The benchmark op-node/benchmarks/batchbuilding_test.go: it times the
  compressors, `BlindCompressor` among them, and adds no behaviour to them.
- The test opnode/rollup/sync/start_test.go: it covers the search for the
  sync starting point, which this model does not include.

## Findings

The classes follow the code as written. Beside them, the reference
models hold the corrected definitions with the intended property proved about
them.

| source | as written | input that shows it | evidently intended | confidence | as-written member | corrected member |
|---|---|---|---|---|---|---|
| op-node/rollup/derive/span_channel_out.go:199-221 | `Close()` calls the no-op `Flush()` and closes the zlib writer without compressing the active RLP, so batches admitted on the fast path since the last `freshCompress` are missing from the payload | target 100, one batch whose RLP is 10 bytes (fast path), then `Close()`: the payload is the writer's trailer on an empty stream, ReadyBytes 0 with an identity compressor | the payload holds every batch the channel accepted: the active RLP is compressed before the writer is closed | medium, not executed | ChannelModel.Close, shown by ChannelProperties.CloseDropsFastPathBatch | ChannelModel.CloseCompressing, proved by ChannelProperties.CloseCompressingSealsEveryBatch |
| op-batcher/compressor/blind_compressor.go:46-59 | past the threshold only `p` is written to zlib and the building buffer, which already holds `p` and every earlier buffered write, is dropped | target 100: `Write` of 10 bytes returns `(10, nil)` and buffers them; `Write` of 95 more returns `(95, nil)`, but only those 95 reach zlib and `inputBytes` is 95 | the whole building buffer is compressed, as the comment at line 48 says | high, not executed | BlindModel.Write, shown by BlindProperties.WriteDropsBufferedBytes | BlindModel.WriteBuffered, proved by BlindProperties.WriteBufferedKeepsEveryByte |
