/** Reference model of the channel builder `SpanChannelOut`
    (op-node/rollup/derive/span_channel_out.go): its state as a value and each
    of its operations as a function from the old state to the new state and the
    values the operation returns. The class in span_channel_out.dfy is proved
    to follow these functions step by step. */
module ChannelModel {
  import opened Common
  import Zlib

  /** Absolute ceiling on the uncompressed RLP bytes of one channel. */
  const MaxRLPBytesPerChannel: nat := 10_000_000

  /** Bytes a version-0 frame adds around its data: channel ID (16), frame
      number (2), data length (4) and the is-last flag (1). */
  const FrameV0OverHeadSize: nat := 23

  type ChannelID = s: seq<Byte> | |s| == 16
    witness [0, 0, 0, 0, 0, 0, 0, 0, 0, 0, 0, 0, 0, 0, 0, 0]

  /** One block's worth of transactions, as produced by the block converter. */
  datatype SingularBatch = SingularBatch(
    parentHash: seq<Byte>,
    epochNum: UInt64,
    epochHash: seq<Byte>,
    timestamp: UInt64,
    transactions: seq<seq<Byte>>)

  /** The span batch being built: genesis timestamp and chain ID are fixed,
      the batches grow by appending. */
  datatype SpanBatch = SpanBatch(genesisTimestamp: UInt64, chainId: nat, batches: seq<SingularBatch>)

  function NewSpanBatch(genesisTimestamp: UInt64, chainId: nat): SpanBatch
  {
    SpanBatch(genesisTimestamp, chainId, [])
  }

  function Appended(sb: SpanBatch, batch: SingularBatch): SpanBatch
  {
    sb.(batches := sb.batches + [batch])
  }

  /** What `ToRawSpanBatch` followed by `rlp.Encode(NewBatchData(..))` yields
      for a span batch: the first conversion can fail, the encoding can fail,
      or both succeed with the RLP bytes. */
  datatype EncodeOutcome = RawFailed | RlpFailed | Encoded(bytes: seq<Byte>)

  /** The collaborators whose code is not part of this model:
      `appendOk(sb, batch, seqNum)` is whether `AppendSingularBatch` accepts
      the batch, `encode` is the span batch encoding and `zlib` the writer the
      channel compresses with. */
  datatype Env = Env(
    appendOk: (SpanBatch, SingularBatch, UInt64) -> bool,
    encode: SpanBatch -> EncodeOutcome,
    zlib: Zlib.Emitter)

  /** The fields of a `SpanChannelOut`. `zHistory` is the state of the zlib
      writer (the operations since its last reset); `compressed` is the
      buffer that writer writes into. */
  datatype Channel = Channel(
    id: ChannelID,
    frame: UInt64,
    rlp: seq<seq<Byte>>,
    lastCompressedRLPSize: nat,
    rlpIndex: int,
    compressed: seq<Byte>,
    zHistory: seq<Zlib.Op>,
    target: UInt64,
    closed: bool,
    spanBatch: SpanBatch)
  {
    /** There are two RLP buffers and `rlpIndex` names one of them. */
    predicate Valid()
    {
      |rlp| == 2 && 0 <= rlpIndex < 2
    }

    /** `activeRLP()` */
    function Active(): seq<Byte>
      requires Valid()
    {
      rlp[rlpIndex]
    }

    /** The buffer that is not active: the snapshot a rollback returns to. */
    function Previous(): seq<Byte>
      requires Valid()
    {
      rlp[1 - rlpIndex]
    }

    /** `ReadyBytes()`: nothing is ready until the channel is closed. */
    function ReadyBytes(): (r: nat)
      ensures !closed ==> r == 0
      ensures closed ==> r == |compressed|
    {
      if closed then |compressed| else 0
    }

    /** The baseline of the growth estimate is the length of the input the
        zlib writer has taken since its last reset. */
    predicate Measured()
    {
      lastCompressedRLPSize == |Zlib.Input(zHistory)|
    }

    /** The zlib writer holds no error, and an open channel's writer has not
        been closed since its last reset. */
    predicate WriterOk()
    {
      !Zlib.Failed(zHistory) && (!closed ==> Zlib.Close !in zHistory)
    }

    /** `FullErr()` */
    function FullErr(): (r: Option<Error>)
      ensures r == Some(ErrCompressorFull) <==> |compressed| >= target
      ensures r == None <==> |compressed| < target
    {
      if |compressed| >= target then Some(ErrCompressorFull) else None
    }
  }

  /** `NewSpanChannelOut`: fails, returning no channel, when the random
      channel ID cannot be drawn (`randomID == None`). */
  function NewSpanChannelOut(genesisTimestamp: UInt64, chainId: nat, targetOutputSize: UInt64,
                             randomID: Option<ChannelID>): (r: (Option<Channel>, Option<Error>))
    ensures r.0.None? <==> r.1 == Some(ErrRandomID)
    ensures r.1 == None || r.1 == Some(ErrRandomID)
    ensures r.0.Some? ==> var c := r.0.value;
      c.Valid() && !c.closed && c.ReadyBytes() == 0 && c.spanBatch.batches == [] && c.target == targetOutputSize
  {
    match randomID
    case None => (None, Some(ErrRandomID))
    case Some(id) =>
      (Some(Channel(id, 0, [[], []], 0, 0, [], [], targetOutputSize, false,
                    NewSpanBatch(genesisTimestamp, chainId))), None)
  }

  /** `Reset()`: everything but the target, the genesis data of the span batch
      and `rlpIndex` is cleared before a new ID is drawn; drawing it is the only
      step that can fail, and then the old ID stays. */
  function Reset(c: Channel, randomID: Option<ChannelID>): (r: (Channel, Option<Error>))
    ensures !r.0.closed && r.0.ReadyBytes() == 0 && r.0.spanBatch.batches == []
    ensures r.0.target == c.target && r.0.rlpIndex == c.rlpIndex
    ensures r.1 == None <==> randomID.Some?
    ensures randomID.None? ==> r.0.id == c.id && r.1 == Some(ErrRandomID)
  {
    var cleared := c.(closed := false, frame := 0, rlp := [[], []], lastCompressedRLPSize := 0,
                      compressed := [], zHistory := [],
                      spanBatch := NewSpanBatch(c.spanBatch.genesisTimestamp, c.spanBatch.chainId));
    match randomID
    case Some(id) => (cleared.(id := id), None)
    case None => (cleared, Some(ErrRandomID))
  }

  /** `switchRLP()` */
  function SwitchRLP(c: Channel): (r: Channel)
    requires c.Valid()
    ensures r.Valid() && r.rlpIndex != c.rlpIndex
    ensures r.Active() == c.Previous() && r.Previous() == c.Active()
  {
    c.(rlpIndex := (c.rlpIndex + 1) % 2)
  }

  /** `activeRLP().Reset()` followed by writing `data` into the active buffer. */
  function SetActive(c: Channel, data: seq<Byte>): (r: Channel)
    requires c.Valid()
    ensures r.Valid() && r.Active() == data && r.Previous() == c.Previous()
  {
    c.(rlp := c.rlp[c.rlpIndex := data])
  }

  /** `freshCompress()`: reset the buffer and the writer, write the whole
      active buffer, flush. */
  function FreshCompress(c: Channel, z: Zlib.Emitter): (r: Channel)
    requires c.Valid()
    ensures r.Valid() && r.compressed == Zlib.Compressed(z, c.Active())
  {
    c.(compressed := Zlib.Compressed(z, c.Active()), zHistory := [Zlib.Write(c.Active()), Zlib.Flush])
  }

  /** `Close()` as written: marks the channel closed, calls `Flush()` (which
      does nothing and cannot fail) and closes the zlib writer, which appends
      its trailer to `compressed`, and returns the writer's error. Nothing is
      recompressed. */
  function Close(c: Channel, z: Zlib.Emitter): (r: (Channel, Option<Error>))
    ensures r.0.closed
    ensures c.closed ==> r == (c, Some(ErrChannelOutAlreadyClosed))
    ensures c.compressed <= r.0.compressed
    ensures r.0.rlp == c.rlp && r.0.rlpIndex == c.rlpIndex && r.0.spanBatch == c.spanBatch
  {
    if c.closed then (c, Some(ErrChannelOutAlreadyClosed))
    else (c.(closed := true, compressed := c.compressed + Zlib.Out(z, c.zHistory, Zlib.Close),
             zHistory := c.zHistory + [Zlib.Close]), Zlib.Status(c.zHistory, Zlib.Close))
  }

  /** `Close()` as evidently intended: the active RLP is compressed before the
      writer is closed, so the payload covers every batch the channel holds,
      including those admitted on the fast path since the last compression. */
  function CloseCompressing(c: Channel, z: Zlib.Emitter): (r: (Channel, Option<Error>))
    requires c.Valid()
    ensures r.0.closed
    ensures c.closed ==> r == (c, Some(ErrChannelOutAlreadyClosed))
    ensures r.0.rlp == c.rlp && r.0.rlpIndex == c.rlpIndex && r.0.spanBatch == c.spanBatch
  {
    if c.closed then (c, Some(ErrChannelOutAlreadyClosed))
    else Close(FreshCompress(c, z), z)
  }

  /** The result of `AddSingularBatch`/`AddBlock`: the new state and the
      returned size and error. */
  datatype AddResult = AddResult(next: Channel, n: nat, err: Option<Error>)

  /** Whether the growth estimate lets an insert whose new RLP has `rlpLen`
      bytes return without compressing; the sum is converted with Go's
      `uint64(..)`, so a negative sum wraps around. */
  predicate TakesFastPath(c: Channel, rlpLen: nat)
  {
    ToUint64(|c.compressed| + (rlpLen - c.lastCompressedRLPSize)) < c.target
  }

  /** `AddSingularBatch(batch, seqNum)` */
  function AddSingularBatch(c: Channel, env: Env, batch: SingularBatch, seqNum: UInt64): (r: AddResult)
    requires c.Valid()
    ensures r.next.Valid()
  {
    if c.closed then AddResult(c, 0, Some(ErrChannelOutAlreadyClosed))
    else if !env.appendOk(c.spanBatch, batch, seqNum) then AddResult(c, 0, Some(ErrAppendSingularBatch))
    else
      var grown := c.(spanBatch := Appended(c.spanBatch, batch));
      match env.encode(grown.spanBatch)
      case RawFailed => AddResult(grown, 0, Some(ErrToRawSpanBatch))
      case RlpFailed => AddResult(SetActive(SwitchRLP(grown), []), 0, Some(ErrRlpEncode))
      case Encoded(bytes) =>
        var encoded := SetActive(SwitchRLP(grown), bytes);
        if |bytes| > MaxRLPBytesPerChannel then AddResult(encoded, 0, Some(ErrTooManyRLPBytes))
        else if TakesFastPath(encoded, |bytes|) then AddResult(encoded, encoded.lastCompressedRLPSize, None)
        else CompressAndCheck(encoded, env.zlib)
  }

  /** The slow path of `AddSingularBatch`, from the channel whose active
      buffer holds the new RLP: compress it and make its length the baseline;
      past the target, a lone batch closes the channel and any other is
      rolled back before the channel is closed. The results of `Close()` are
      ignored. */
  function CompressAndCheck(encoded: Channel, z: Zlib.Emitter): (r: AddResult)
    requires encoded.Valid()
    ensures r.next.Valid()
  {
    var measured := FreshCompress(encoded, z).(lastCompressedRLPSize := |encoded.Active()|);
    if |measured.compressed| > measured.target then
      if |encoded.spanBatch.batches| == 1 then
        var sealed := Close(measured, z).0;
        AddResult(sealed, |sealed.compressed|, None)
      else
        var sealed := Close(FreshCompress(SwitchRLP(measured), z), z).0;
        AddResult(sealed, |sealed.compressed|, Some(ErrCompressorFull))
    else AddResult(measured, |measured.compressed|, None)
  }

  /** `AddBlock`: `conversion` is what `BlockToSingularBatch` yields for the
      block (the batch and the L1 info's sequence number), consulted only once
      the closed guard has passed. */
  function AddBlock(c: Channel, env: Env, conversion: Option<(SingularBatch, UInt64)>): (r: AddResult)
    requires c.Valid()
    ensures r.next.Valid()
  {
    if c.closed then AddResult(c, 0, Some(ErrChannelOutAlreadyClosed))
    else match conversion
      case None => AddResult(c, 0, Some(ErrBlockToSingularBatch))
      case Some((batch, seqNum)) => AddSingularBatch(c, env, batch, seqNum)
  }

  /** A frame as `OutputFrame` marshals it into the caller's buffer. */
  datatype Frame = Frame(id: ChannelID, frameNumber: UInt16, data: seq<Byte>, isLast: bool)

  /** The data size `createEmptyFrame` gives a frame: what is ready, capped by
      the room the frame overhead leaves. */
  function FrameDataSize(maxSize: UInt64, readyBytes: nat): (r: nat)
    requires maxSize >= FrameV0OverHeadSize
    ensures r <= readyBytes && r <= maxSize - FrameV0OverHeadSize
    ensures r == readyBytes || r == maxSize - FrameV0OverHeadSize
  {
    if maxSize - FrameV0OverHeadSize >= readyBytes then readyBytes else maxSize - FrameV0OverHeadSize
  }

  datatype ReadResult = ReadResult(data: seq<Byte>, rest: seq<Byte>, err: Option<Error>)

  /** `io.ReadFull` of `n` bytes from a byte buffer: it consumes what it reads
      and fails when fewer than `n` bytes are there. */
  function ReadFull(buf: seq<Byte>, n: nat): (r: ReadResult)
    ensures r.data + r.rest == buf
    ensures r.err == None <==> n <= |buf|
    ensures r.err == None ==> |r.data| == n
  {
    if n <= |buf| then ReadResult(buf[..n], buf[n..], None)
    else ReadResult(buf, [], Some(if |buf| == 0 then EOF else ErrUnexpectedEOF))
  }

  /** The result of `OutputFrame`: the new state, the returned frame number
      and error, and the frame written to the caller's buffer, if any. */
  datatype FrameResult = FrameResult(next: Channel, frameNumber: UInt16, err: Option<Error>, written: Option<Frame>)

  /** `OutputFrame(w, maxSize)` */
  function OutputFrame(c: Channel, maxSize: UInt64): (r: FrameResult)
    ensures (if r.written.Some? then r.written.value.data else []) + r.next.compressed == c.compressed
    ensures r.next == c.(compressed := r.next.compressed, frame := r.next.frame)
    ensures r.err == Some(EOF) ==> r.written.Some? && r.written.value.isLast
  {
    if maxSize < FrameV0OverHeadSize then FrameResult(c, 0, Some(ErrMaxFrameSizeTooSmall), None)
    else
      var ready := c.ReadyBytes();
      var isLast := c.closed && maxSize - FrameV0OverHeadSize >= ready;
      var read := ReadFull(c.compressed, FrameDataSize(maxSize, ready));
      if read.err.Some? then FrameResult(c.(compressed := read.rest), 0, read.err, None)
      else
        var f := Frame(c.id, ToUint16(c.frame), read.data, isLast);
        FrameResult(c.(compressed := read.rest, frame := Inc64(c.frame)), f.frameNumber,
                    if isLast then Some(EOF) else None, Some(f))
  }

  /** The frames a caller collects by calling `OutputFrame(maxSize)` on a
      closed channel until it signals the end of the stream. */
  function DrainFrames(c: Channel, maxSize: UInt64): (frames: seq<Frame>)
    requires c.closed && maxSize > FrameV0OverHeadSize
    ensures |frames| >= 1
    decreases |c.compressed|
  {
    var r := OutputFrame(c, maxSize);
    if r.err == Some(EOF) then [r.written.value]
    else [r.written.value] + DrainFrames(r.next, maxSize)
  }

  function Payload(frames: seq<Frame>): seq<Byte>
  {
    if frames == [] then [] else frames[0].data + Payload(frames[1..])
  }
}
