/** What `SpanChannelOut` promises, proved about the reference model in
    ChannelModel: the outcome of each branch of `AddSingularBatch`, the buffer
    discipline behind the rollback, what a sealed channel's payload holds, and
    how `OutputFrame` cuts that payload into frames. */
module ChannelProperties {
  import opened Common
  import Zlib
  import opened ChannelModel

  /** A channel that is open and whose batch was accepted and encoded as
      `bytes`: the situation every branch after the encoding starts from. */
  predicate EncodesTo(c: Channel, env: Env, batch: SingularBatch, seqNum: UInt64, bytes: seq<Byte>)
  {
    && c.Valid() && !c.closed
    && env.appendOk(c.spanBatch, batch, seqNum)
    && env.encode(Appended(c.spanBatch, batch)) == Encoded(bytes)
  }

  // ---------------------------------------------------------------------------
  // Guards and the index of the active buffer

  /** Adding to a closed channel fails with `ErrChannelOutAlreadyClosed`,
      returns 0 and changes nothing; `AddBlock` has the same guard. */
  lemma AddToClosedChannel(c: Channel, env: Env, batch: SingularBatch, seqNum: UInt64,
                           conversion: Option<(SingularBatch, UInt64)>)
    requires c.Valid() && c.closed
    ensures AddSingularBatch(c, env, batch, seqNum) == AddResult(c, 0, Some(ErrChannelOutAlreadyClosed))
    ensures AddBlock(c, env, conversion) == AddResult(c, 0, Some(ErrChannelOutAlreadyClosed))
  {
  }

  /** Two switches give back the active buffer one started with. */
  lemma SwitchTwiceRestores(c: Channel)
    requires c.Valid()
    ensures SwitchRLP(SwitchRLP(c)) == c
  {
  }

  /** A batch the span batch refuses leaves the channel as it was. */
  lemma AddRejectedBatch(c: Channel, env: Env, batch: SingularBatch, seqNum: UInt64)
    requires c.Valid() && !c.closed && !env.appendOk(c.spanBatch, batch, seqNum)
    ensures AddSingularBatch(c, env, batch, seqNum) == AddResult(c, 0, Some(ErrAppendSingularBatch))
  {
  }

  /** The two encoding failures: the raw conversion fails before the buffers
      are touched; the RLP encoding fails after the switch, leaving the new
      active buffer empty. In both cases the span batch keeps the batch. */
  lemma AddEncodingFails(c: Channel, env: Env, batch: SingularBatch, seqNum: UInt64)
    requires c.Valid() && !c.closed && env.appendOk(c.spanBatch, batch, seqNum)
    requires !env.encode(Appended(c.spanBatch, batch)).Encoded?
    ensures var r := AddSingularBatch(c, env, batch, seqNum);
      && r.n == 0 && !r.next.closed
      && r.next.spanBatch == Appended(c.spanBatch, batch)
      && r.next.compressed == c.compressed && r.next.lastCompressedRLPSize == c.lastCompressedRLPSize
      && (env.encode(Appended(c.spanBatch, batch)) == RawFailed ==>
            r.err == Some(ErrToRawSpanBatch) && r.next.rlp == c.rlp && r.next.rlpIndex == c.rlpIndex)
      && (env.encode(Appended(c.spanBatch, batch)) == RlpFailed ==>
            r.err == Some(ErrRlpEncode) && r.next.Active() == [] && r.next.Previous() == c.Active())
  {
  }

  // ---------------------------------------------------------------------------
  // The branches after a successful encoding

  /** After a successful encoding the new RLP sits in the buffer that was not
      active and the old active buffer is kept untouched: it stays the
      snapshot to roll back to, and after a rollback it is active again. The
      span batch keeps the new batch in every case, the rejected one included. */
  lemma AddKeepsBothSnapshots(c: Channel, env: Env, batch: SingularBatch, seqNum: UInt64, bytes: seq<Byte>)
    requires EncodesTo(c, env, batch, seqNum, bytes)
    ensures var r := AddSingularBatch(c, env, batch, seqNum);
      && r.next.spanBatch == Appended(c.spanBatch, batch)
      && (r.err != Some(ErrCompressorFull) ==> r.next.Active() == bytes && r.next.Previous() == c.Active())
      && (r.err == Some(ErrCompressorFull) ==> r.next.Active() == c.Active() && r.next.Previous() == bytes)
  {
  }

  /** An RLP over the ceiling fails with `ErrTooManyRLPBytes` and leaves the
      channel open, with the oversized RLP active. */
  lemma AddTooManyRLPBytes(c: Channel, env: Env, batch: SingularBatch, seqNum: UInt64, bytes: seq<Byte>)
    requires EncodesTo(c, env, batch, seqNum, bytes) && |bytes| > MaxRLPBytesPerChannel
    ensures var r := AddSingularBatch(c, env, batch, seqNum);
      && r == AddResult(r.next, 0, Some(ErrTooManyRLPBytes))
      && !r.next.closed && r.next.Active() == bytes
      && r.next.compressed == c.compressed && r.next.zHistory == c.zHistory
      && r.next.lastCompressedRLPSize == c.lastCompressedRLPSize
  {
  }

  /** Fast path: when the compressed size plus the RLP growth since the last
      compression is under the target, the call succeeds at once with the
      last compressed RLP size, without touching the compressed data. */
  lemma AddFastPath(c: Channel, env: Env, batch: SingularBatch, seqNum: UInt64, bytes: seq<Byte>)
    requires EncodesTo(c, env, batch, seqNum, bytes) && |bytes| <= MaxRLPBytesPerChannel
    requires TakesFastPath(c, |bytes|)
    ensures var r := AddSingularBatch(c, env, batch, seqNum);
      && r == AddResult(r.next, c.lastCompressedRLPSize, None)
      && !r.next.closed
      && r.next.compressed == c.compressed && r.next.zHistory == c.zHistory
      && r.next.lastCompressedRLPSize == c.lastCompressedRLPSize
  {
  }

  /** The growth estimate is a signed sum converted to uint64: when the new
      RLP is shorter than the last compressed one by more than the compressed
      size, the sum wraps around and the fast path is not taken. */
  lemma NegativeGrowthWraps(c: Channel, rlpLen: nat)
    requires |c.compressed| + rlpLen < c.lastCompressedRLPSize
    requires c.lastCompressedRLPSize < TWO_TO_THE_64
    requires c.target <= TWO_TO_THE_64 - c.lastCompressedRLPSize
    ensures !TakesFastPath(c, rlpLen)
  {
  }

  /** Slow path: the active RLP is compressed from scratch and becomes the
      baseline for the growth estimate; if the result is within the target the
      call succeeds with the compressed size and the channel stays open. */
  lemma AddSlowPathWithinTarget(c: Channel, env: Env, batch: SingularBatch, seqNum: UInt64, bytes: seq<Byte>)
    requires EncodesTo(c, env, batch, seqNum, bytes) && |bytes| <= MaxRLPBytesPerChannel
    requires !TakesFastPath(c, |bytes|)
    requires |Zlib.Compressed(env.zlib, bytes)| <= c.target
    ensures var r := AddSingularBatch(c, env, batch, seqNum);
      && r == AddResult(r.next, |Zlib.Compressed(env.zlib, bytes)|, None)
      && !r.next.closed
      && r.next.compressed == Zlib.Compressed(env.zlib, bytes)
      && r.next.lastCompressedRLPSize == |bytes|
  {
  }

  /** A lone batch that compresses past the target is admitted anyway: the
      channel is closed and the call succeeds with the size of the sealed
      stream of that batch's RLP. */
  lemma AddForceAdmitsLoneBatch(c: Channel, env: Env, batch: SingularBatch, seqNum: UInt64, bytes: seq<Byte>)
    requires EncodesTo(c, env, batch, seqNum, bytes) && |bytes| <= MaxRLPBytesPerChannel
    requires !TakesFastPath(c, |bytes|)
    requires |Zlib.Compressed(env.zlib, bytes)| > c.target
    requires c.spanBatch.batches == []
    ensures var r := AddSingularBatch(c, env, batch, seqNum);
      && r == AddResult(r.next, |Zlib.Sealed(env.zlib, bytes)|, None)
      && r.next.closed
      && r.next.compressed == Zlib.Sealed(env.zlib, bytes)
      && r.next.lastCompressedRLPSize == |bytes|
  {
  }

  /** Rollback: with more than one batch, a compression past the target
      switches back to the previous snapshot, recompresses it, closes the
      channel and fails with `ErrCompressorFull`. `lastCompressedRLPSize`
      keeps the length of the rejected RLP. */
  lemma AddRollsBack(c: Channel, env: Env, batch: SingularBatch, seqNum: UInt64, bytes: seq<Byte>)
    requires EncodesTo(c, env, batch, seqNum, bytes) && |bytes| <= MaxRLPBytesPerChannel
    requires !TakesFastPath(c, |bytes|)
    requires |Zlib.Compressed(env.zlib, bytes)| > c.target
    requires c.spanBatch.batches != []
    ensures var r := AddSingularBatch(c, env, batch, seqNum);
      && r == AddResult(r.next, |Zlib.Sealed(env.zlib, c.Active())|, Some(ErrCompressorFull))
      && r.next.closed
      && r.next.rlpIndex == c.rlpIndex
      && r.next.compressed == Zlib.Sealed(env.zlib, c.Active())
      && r.next.lastCompressedRLPSize == |bytes|
      && Zlib.Input(r.next.zHistory) == c.Active()
  {
    Zlib.InputOfFreshWriter(c.Active());
  }

  // ---------------------------------------------------------------------------
  // The buffers track the span batch

  function DropLast(sb: SpanBatch): SpanBatch
    requires sb.batches != []
  {
    sb.(batches := sb.batches[..|sb.batches| - 1])
  }

  /** The state of an open channel reached from a new or reset one by
      additions that all succeeded: the active buffer is the encoding of the
      whole span batch and the other buffer the encoding of all but its last
      batch. */
  ghost predicate Tracks(c: Channel, env: Env)
  {
    && c.Valid() && !c.closed
    && (|c.spanBatch.batches| >= 1 ==> env.encode(c.spanBatch) == Encoded(c.Active()))
    && (|c.spanBatch.batches| >= 2 ==> env.encode(DropLast(c.spanBatch)) == Encoded(c.Previous()))
  }

  lemma NewChannelTracks(genesisTimestamp: UInt64, chainId: nat, targetOutputSize: UInt64,
                         randomID: Option<ChannelID>, env: Env)
    ensures var (c, err) := NewSpanChannelOut(genesisTimestamp, chainId, targetOutputSize, randomID);
      && (c.Some? <==> randomID.Some?) && (err == None <==> randomID.Some?)
      && (c.Some? ==> Tracks(c.value, env) && c.value.spanBatch.batches == [] && c.value.target == targetOutputSize)
      && (c.Some? ==> var n := c.value;
            && n.id == randomID.value && n.frame == 0 && !n.closed
            && n.spanBatch == NewSpanBatch(genesisTimestamp, chainId)
            && n.rlp == [[], []] && n.rlpIndex == 0 && n.lastCompressedRLPSize == 0
            && n.compressed == [] && n.zHistory == [])
      && (c.None? ==> err == Some(ErrRandomID))
  {
  }

  /** `Reset()` gives an open, empty channel with the same target, genesis
      timestamp and chain ID, empty buffers, frame 0 and a fresh ID, or
      `ErrRandomID` with the old ID when no ID can be drawn. */
  lemma ResetClearsChannel(c: Channel, randomID: Option<ChannelID>, env: Env)
    requires c.Valid()
    ensures var (r, err) := Reset(c, randomID);
      && Tracks(r, env)
      && !r.closed && r.frame == 0 && r.rlp == [[], []] && r.compressed == [] && r.zHistory == []
      && r.lastCompressedRLPSize == 0 && r.target == c.target && r.rlpIndex == c.rlpIndex
      && r.spanBatch == SpanBatch(c.spanBatch.genesisTimestamp, c.spanBatch.chainId, [])
      && (randomID.Some? ==> err == None && r.id == randomID.value)
      && (randomID.None? ==> err == Some(ErrRandomID) && r.id == c.id)
  {
  }

  /** A successful addition that leaves the channel open keeps the buffers in
      step with the span batch. */
  lemma AddKeepsTracking(c: Channel, env: Env, batch: SingularBatch, seqNum: UInt64)
    requires Tracks(c, env)
    ensures var r := AddSingularBatch(c, env, batch, seqNum);
      r.err == None && !r.next.closed ==> Tracks(r.next, env)
  {
    var r := AddSingularBatch(c, env, batch, seqNum);
    if r.err == None && !r.next.closed {
      assert DropLast(Appended(c.spanBatch, batch)) == c.spanBatch;
    }
  }

  /** When an addition closes a tracking channel, the payload is the complete
      zlib stream of exactly the batches the channel holds: all of them after a
      force-admit, all but the rejected one after a rollback. */
  lemma AddSealsAcceptedBatches(c: Channel, env: Env, batch: SingularBatch, seqNum: UInt64)
    requires Tracks(c, env)
    ensures var r := AddSingularBatch(c, env, batch, seqNum);
      && (r.next.closed && r.err == None ==>
            c.spanBatch.batches == [] &&
            exists bytes :: env.encode(r.next.spanBatch) == Encoded(bytes) &&
                            r.next.compressed == Zlib.Sealed(env.zlib, bytes))
      && (r.err == Some(ErrCompressorFull) ==>
            r.next.closed && c.spanBatch.batches != [] &&
            env.encode(c.spanBatch) == Encoded(c.Active()) &&
            r.next.compressed == Zlib.Sealed(env.zlib, c.Active()))
  {
    var r := AddSingularBatch(c, env, batch, seqNum);
    if r.next.closed && r.err == None {
      var bytes := env.encode(r.next.spanBatch).bytes;
      assert r.next.compressed == Zlib.Sealed(env.zlib, bytes);
    }
  }

  // ---------------------------------------------------------------------------
  // Closing and reading

  /** `Close()` succeeds once and then fails with `ErrChannelOutAlreadyClosed`
      without changing anything. As written it only appends the writer's
      trailer to the data compressed so far. */
  lemma CloseOnce(c: Channel, z: Zlib.Emitter)
    requires !c.closed && c.WriterOk()
    ensures var (c1, err1) := Close(c, z);
      && err1 == None && c1.closed
      && c1.compressed == c.compressed + z(c.zHistory, Zlib.Close)
      && Close(c1, z) == (c1, Some(ErrChannelOutAlreadyClosed))
  {
  }

  /** The environment of the concrete runs below: every batch is accepted, a
      span batch of `k` batches encodes to `k * perBatch` zero bytes, and the
      writer emits its input unchanged. */
  function UniformEnv(perBatch: nat): Env
  {
    Env((sb: SpanBatch, b: SingularBatch, s: UInt64) => true,
        (sb: SpanBatch) => Encoded(seq(perBatch * |sb.batches|, _ => 0)),
        (h: seq<Zlib.Op>, op: Zlib.Op) => if op.Write? then op.data else [])
  }

  /** As written, `Close()` loses batches: on a new channel whose one batch
      took the fast path, closing yields an empty payload although the active
      buffer holds that batch's ten RLP bytes. */
  lemma CloseDropsFastPathBatch(id: ChannelID, batch: SingularBatch)
    ensures var env := UniformEnv(10);
      var c0 := Channel(id, 0, [[], []], 0, 0, [], [], 100, false, NewSpanBatch(0, 1));
      var r := AddSingularBatch(c0, env, batch, 0);
      var (c1, err) := Close(r.next, env.zlib);
      && NewSpanChannelOut(0, 1, 100, Some(id)) == (Some(c0), None)
      && r.err == None && err == None && c1.closed
      && env.encode(c1.spanBatch) == Encoded(c1.Active()) && |c1.Active()| == 10
      && c1.compressed == [] && c1.ReadyBytes() == 0
      && Zlib.Sealed(env.zlib, c1.Active()) == c1.Active() != c1.compressed
  {
    var env := UniformEnv(10);
    var c0 := Channel(id, 0, [[], []], 0, 0, [], [], 100, false, NewSpanBatch(0, 1));
    assert |Appended(c0.spanBatch, batch).batches| == 1;
    var r := AddSingularBatch(c0, env, batch, 0);
    assert TakesFastPath(SetActive(SwitchRLP(c0.(spanBatch := Appended(c0.spanBatch, batch))), seq(10, _ => 0)), 10);
    assert r.next.Active() == seq(10, _ => 0);
  }

  /** The corrected close always seals the active buffer, so a tracking
      channel's payload is the zlib stream of its whole span batch. */
  lemma CloseCompressingSealsEveryBatch(c: Channel, env: Env)
    requires Tracks(c, env)
    ensures var (c1, err) := CloseCompressing(c, env.zlib);
      && err == None && c1.closed
      && c1.compressed == Zlib.Sealed(env.zlib, c.Active())
      && (c.spanBatch.batches != [] ==> env.encode(c1.spanBatch) == Encoded(c.Active()))
  {
    Zlib.OpenWriterNeverFails([Zlib.Write(c.Active()), Zlib.Flush], Zlib.Close);
  }

  /** Where `AddSingularBatch` closes the channel the active buffer has just
      been compressed, and there the written close and the corrected one
      agree; they differ only for a close requested from outside. */
  lemma CloseVersionsAgreeAfterCompression(c: Channel, z: Zlib.Emitter)
    requires c.Valid() && !c.closed
    requires c.compressed == Zlib.Compressed(z, c.Active())
    requires c.zHistory == [Zlib.Write(c.Active()), Zlib.Flush]
    ensures CloseCompressing(c, z) == Close(c, z)
  {
    assert FreshCompress(c, z) == c;
  }

  /** Target 100, a compressor that emits its input unchanged and batches of
      40 RLP bytes each: the first two additions take the fast path, the third
      measures 120 bytes, rolls back to the two-batch RLP, closes the channel
      and fails with `ErrCompressorFull`, leaving 80 bytes ready. */
  lemma ThreeBatchesOfFortyBytes(id: ChannelID, b1: SingularBatch, b2: SingularBatch, b3: SingularBatch)
    ensures var env := UniformEnv(40);
      var e40, e80 := seq(40, _ => 0), seq(80, _ => 0);
      var c0 := Channel(id, 0, [[], []], 0, 0, [], [], 100, false, NewSpanBatch(0, 1));
      var c1 := c0.(rlp := [[], e40], rlpIndex := 1, spanBatch := SpanBatch(0, 1, [b1]));
      var c2 := c1.(rlp := [e80, e40], rlpIndex := 0, spanBatch := SpanBatch(0, 1, [b1, b2]));
      var r3 := AddSingularBatch(c2, env, b3, 2);
      && NewSpanChannelOut(0, 1, 100, Some(id)) == (Some(c0), None)
      && AddSingularBatch(c0, env, b1, 0) == AddResult(c1, 0, None)
      && AddSingularBatch(c1, env, b2, 1) == AddResult(c2, 0, None)
      && r3 == AddResult(r3.next, 80, Some(ErrCompressorFull))
      && r3.next.closed && r3.next.ReadyBytes() == 80
      && r3.next.compressed == e80
  {
    var env := UniformEnv(40);
    var z := env.zlib;
    var e40, e80, e120 := seq(40, _ => 0), seq(80, _ => 0), seq(120, _ => 0);
    var c0 := Channel(id, 0, [[], []], 0, 0, [], [], 100, false, NewSpanBatch(0, 1));
    var c1 := c0.(rlp := [[], e40], rlpIndex := 1, spanBatch := SpanBatch(0, 1, [b1]));
    var c2 := c1.(rlp := [e80, e40], rlpIndex := 0, spanBatch := SpanBatch(0, 1, [b1, b2]));
    assert Appended(c0.spanBatch, b1) == c1.spanBatch;
    AddFastPath(c0, env, b1, 0, e40);
    assert AddSingularBatch(c0, env, b1, 0).next == c1;
    assert Appended(c1.spanBatch, b2) == c2.spanBatch;
    AddFastPath(c1, env, b2, 1, e80);
    assert AddSingularBatch(c1, env, b2, 1).next == c2;
    assert |Appended(c2.spanBatch, b3).batches| == 3;
    assert Zlib.Compressed(z, e120) == e120;
    assert Zlib.Sealed(z, e80) == e80;
    AddRollsBack(c2, env, b3, 2, e120);
  }

  /** A frame size below the overhead fails with `ErrMaxFrameSizeTooSmall`
      and changes nothing. */
  lemma OutputFrameTooSmall(c: Channel, maxSize: UInt64)
    requires maxSize < FrameV0OverHeadSize
    ensures OutputFrame(c, maxSize) == FrameResult(c, 0, Some(ErrMaxFrameSizeTooSmall), None)
  {
  }

  /** A frame size that fits the overhead always yields a frame: the read
      never comes up short, the frame number is the low 16 bits of the counter,
      the counter goes up by one, the frame's data is taken from the front of
      the compressed data, and `EOF` is returned exactly when the frame is the
      last one. Before the channel is closed the frame is empty and not last. */
  lemma OutputFrameAdvances(c: Channel, maxSize: UInt64)
    requires maxSize >= FrameV0OverHeadSize
    ensures var r := OutputFrame(c, maxSize);
      && r.written.Some? && r.err != Some(ErrUnexpectedEOF)
      && r.frameNumber == r.written.value.frameNumber == ToUint16(c.frame)
      && r.written.value.id == c.id
      && r.next == c.(compressed := r.next.compressed, frame := Inc64(c.frame))
      && r.written.value.data + r.next.compressed == c.compressed
      && |r.written.value.data| <= maxSize - FrameV0OverHeadSize
      && (r.err == Some(EOF) <==> r.written.value.isLast) && (r.err == None <==> !r.written.value.isLast)
      && (r.written.value.isLast <==> c.closed && |c.compressed| <= maxSize - FrameV0OverHeadSize)
      && (!c.closed ==> r.written.value.data == [] && r.next.compressed == c.compressed)
  {
  }

  lemma FrameNumberAdvances(x: UInt64)
    ensures ToUint16(Inc64(x)) == (ToUint16(x) + 1) % TWO_TO_THE_16
  {
    if x + 1 < TWO_TO_THE_64 {
      var q := x / TWO_TO_THE_16;
      assert x == q * TWO_TO_THE_16 + ToUint16(x);
    }
  }

  /** Draining a closed channel with frames of `maxSize` bytes gives back the
      whole compressed payload, in order. */
  lemma {:induction false} DrainPayload(c: Channel, maxSize: UInt64)
    requires c.closed && maxSize > FrameV0OverHeadSize
    ensures Payload(DrainFrames(c, maxSize)) == c.compressed
    decreases |c.compressed|
  {
    OutputFrameAdvances(c, maxSize);
    var r := OutputFrame(c, maxSize);
    if r.err != Some(EOF) {
      var rest := DrainFrames(r.next, maxSize);
      DrainPayload(r.next, maxSize);
      assert ([r.written.value] + rest)[1..] == rest;
    }
  }

  /** Only the final drained frame is marked last. */
  lemma {:induction false} DrainLastFrame(c: Channel, maxSize: UInt64)
    requires c.closed && maxSize > FrameV0OverHeadSize
    ensures var fs := DrainFrames(c, maxSize);
      && fs[|fs| - 1].isLast
      && (forall i :: 0 <= i < |fs| - 1 ==> !fs[i].isLast)
    decreases |c.compressed|
  {
    OutputFrameAdvances(c, maxSize);
    var r := OutputFrame(c, maxSize);
    if r.err != Some(EOF) {
      DrainLastFrame(r.next, maxSize);
    }
  }

  /** Every drained frame carries the channel ID and fits `maxSize`. */
  lemma {:induction false} DrainFramesFit(c: Channel, maxSize: UInt64)
    requires c.closed && maxSize > FrameV0OverHeadSize
    ensures forall f :: f in DrainFrames(c, maxSize) ==> f.id == c.id && |f.data| <= maxSize - FrameV0OverHeadSize
    decreases |c.compressed|
  {
    OutputFrameAdvances(c, maxSize);
    var r := OutputFrame(c, maxSize);
    if r.err != Some(EOF) {
      DrainFramesFit(r.next, maxSize);
    }
  }

  /** The drained frames are numbered from the frame counter up, by one
      modulo 2^16. */
  lemma {:induction false} DrainFrameNumbers(c: Channel, maxSize: UInt64)
    requires c.closed && maxSize > FrameV0OverHeadSize
    ensures var fs := DrainFrames(c, maxSize);
      && fs[0].frameNumber == ToUint16(c.frame)
      && (forall i :: 0 <= i < |fs| - 1 ==> fs[i + 1].frameNumber == (fs[i].frameNumber + 1) % TWO_TO_THE_16)
    decreases |c.compressed|
  {
    OutputFrameAdvances(c, maxSize);
    var r := OutputFrame(c, maxSize);
    if r.err != Some(EOF) {
      DrainFrameNumbers(r.next, maxSize);
      FrameNumberAdvances(c.frame);
    }
  }

  /** Draining a closed channel with frames of `maxSize` bytes: the frames'
      data put together is the whole compressed payload, only the final frame
      is marked last, every frame carries the channel ID and fits the size,
      and the frame numbers count up from the counter, wrapping at 16 bits. */
  lemma DrainReassemblesPayload(c: Channel, maxSize: UInt64)
    requires c.closed && maxSize > FrameV0OverHeadSize
    ensures var fs := DrainFrames(c, maxSize);
      && Payload(fs) == c.compressed
      && fs[|fs| - 1].isLast
      && (forall i :: 0 <= i < |fs| - 1 ==> !fs[i].isLast)
      && (forall i :: 0 <= i < |fs| ==> fs[i].id == c.id && |fs[i].data| <= maxSize - FrameV0OverHeadSize)
      && fs[0].frameNumber == ToUint16(c.frame)
      && (forall i :: 0 <= i < |fs| - 1 ==> fs[i + 1].frameNumber == (fs[i].frameNumber + 1) % TWO_TO_THE_16)
  {
    DrainPayload(c, maxSize);
    DrainLastFrame(c, maxSize);
    DrainFramesFit(c, maxSize);
    var fs := DrainFrames(c, maxSize);
    assert forall i :: 0 <= i < |fs| ==> fs[i] in fs;
    DrainFrameNumbers(c, maxSize);
  }

  // ---------------------------------------------------------------------------
  // The growth baseline and the zlib writer's state

  /** A new or reset channel starts measured, with a writer that holds no
      error and has not been closed. */
  lemma MeasuredAtStart(genesisTimestamp: UInt64, chainId: nat, targetOutputSize: UInt64,
                        randomID: Option<ChannelID>, c: Channel)
    ensures var m := NewSpanChannelOut(genesisTimestamp, chainId, targetOutputSize, randomID).0;
      m.Some? ==> m.value.Measured() && m.value.WriterOk()
    ensures Reset(c, randomID).0.Measured() && Reset(c, randomID).0.WriterOk()
  {
  }

  /** `InputBytes()` reports the length of the input the writer compressed
      last after every addition except one that rolls back, and after closing
      and emitting frames; after a rollback it reports the rejected RLP's
      length (`AddRollsBack`). */
  lemma AddKeepsMeasure(c: Channel, env: Env, batch: SingularBatch, seqNum: UInt64, maxSize: UInt64)
    requires c.Valid() && c.Measured()
    ensures var r := AddSingularBatch(c, env, batch, seqNum);
      r.err != Some(ErrCompressorFull) ==> r.next.Measured()
    ensures Close(c, env.zlib).0.Measured() && OutputFrame(c, maxSize).next.Measured()
  {
    Zlib.InputAppend(c.zHistory, Zlib.Close);
    var r := AddSingularBatch(c, env, batch, seqNum);
    if !c.closed && env.appendOk(c.spanBatch, batch, seqNum) && env.encode(Appended(c.spanBatch, batch)).Encoded? {
      Zlib.InputOfFreshWriter(env.encode(Appended(c.spanBatch, batch)).bytes);
    }
  }

  /** The channel's zlib writer never fails: it is closed at most once
      between resets, and nothing is written to it after that. So `Close()`
      never returns a writer error. */
  lemma WriterStaysOk(c: Channel, env: Env, batch: SingularBatch, seqNum: UInt64, maxSize: UInt64)
    requires c.Valid() && c.WriterOk()
    ensures AddSingularBatch(c, env, batch, seqNum).next.WriterOk()
    ensures Close(c, env.zlib).0.WriterOk() && OutputFrame(c, maxSize).next.WriterOk()
    ensures Close(c, env.zlib).1 != Some(ErrWriterClosed)
  {
    Zlib.FailedAppend(c.zHistory, Zlib.Close);
    if !c.closed && env.appendOk(c.spanBatch, batch, seqNum) && env.encode(Appended(c.spanBatch, batch)).Encoded? {
      var bytes := env.encode(Appended(c.spanBatch, batch)).bytes;
      CompressKeepsWriterOk(SetActive(SwitchRLP(c.(spanBatch := Appended(c.spanBatch, batch))), bytes), env.zlib);
    }
  }

  /** The slow path leaves a writer that was reset, written, flushed and
      possibly closed: it holds no error. */
  lemma CompressKeepsWriterOk(e: Channel, z: Zlib.Emitter)
    requires e.Valid()
    ensures CompressAndCheck(e, z).next.WriterOk()
  {
    Zlib.OpenWriterNeverFails([Zlib.Write(e.Active()), Zlib.Flush], Zlib.Close);
    Zlib.FailedAppend([Zlib.Write(e.Active()), Zlib.Flush], Zlib.Close);
    Zlib.OpenWriterNeverFails([Zlib.Write(e.Previous()), Zlib.Flush], Zlib.Close);
    Zlib.FailedAppend([Zlib.Write(e.Previous()), Zlib.Flush], Zlib.Close);
  }
}
