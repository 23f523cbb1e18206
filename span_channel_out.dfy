/** The channel builder `SpanChannelOut` (op-node/rollup/derive/span_channel_out.go)
    as a class with the source's fields. Every method is proved to change the
    fields exactly as the corresponding function of ChannelModel says; the
    properties of those functions are proved in ChannelProperties. */
module SpanChannel {
  import opened Common
  import Zlib
  import M = ChannelModel

  class SpanChannelOut {
    /** The span batch encoder, the block-independent collaborators and the
        zlib writer's behaviour. */
    const env: M.Env

    var id: M.ChannelID
    /** Number of the next frame to emit. */
    var frame: UInt64
    /** The two RLP buffers; `rlpIndex` selects the active one. */
    const rlp: array<seq<Byte>>
    /** Uncompressed length of the RLP that was last compressed. */
    var lastCompressedRLPSize: nat
    var rlpIndex: int
    /** The buffer the zlib writer writes into. */
    var compressed: seq<Byte>
    /** The zlib writer: the operations it performed since its last reset. */
    var zHistory: seq<Zlib.Op>
    const target: UInt64
    var closed: bool
    var spanBatch: M.SpanBatch

    ghost predicate Valid()
      reads this
    {
      rlp.Length == 2 && 0 <= rlpIndex < 2
    }

    /** The fields as a ChannelModel value. */
    function State(): (s: M.Channel)
      reads this, rlp
      requires Valid()
      ensures s.Valid()
    {
      M.Channel(id, frame, rlp[..], lastCompressedRLPSize, rlpIndex, compressed, zHistory,
                target, closed, spanBatch)
    }

    constructor (env: M.Env, genesisTimestamp: UInt64, chainId: nat, targetOutputSize: UInt64, id: M.ChannelID)
      ensures Valid() && fresh(rlp) && this.env == env
      ensures State() == M.NewSpanChannelOut(genesisTimestamp, chainId, targetOutputSize, Some(id)).0.value
    {
      this.env := env;
      this.id := id;
      frame := 0;
      spanBatch := M.NewSpanBatch(genesisTimestamp, chainId);
      rlp := new seq<Byte>[2](_ => []);
      compressed := [];
      zHistory := [];
      target := targetOutputSize;
      lastCompressedRLPSize := 0;
      rlpIndex := 0;
      closed := false;
      new;
      assert rlp[..] == [[], []];
    }

    /** `NewSpanChannelOut`: `randomID` is the outcome of drawing the random
        channel ID; when that fails no channel is returned. */
    static method New(env: M.Env, genesisTimestamp: UInt64, chainId: nat, targetOutputSize: UInt64,
                      randomID: Option<M.ChannelID>)
      returns (c: SpanChannelOut?, err: Option<Error>)
      ensures var (m, e) := M.NewSpanChannelOut(genesisTimestamp, chainId, targetOutputSize, randomID);
        && err == e && (c == null <==> m.None?)
        && (c != null ==> fresh(c) && fresh(c.rlp) && c.Valid() && c.env == env && c.State() == m.value)
    {
      if randomID.None? {
        return null, Some(ErrRandomID);
      }
      c := new SpanChannelOut(env, genesisTimestamp, chainId, targetOutputSize, randomID.value);
      err := None;
    }

    /** `ID()` */
    function ID(): (r: M.ChannelID)
      reads this, rlp
      requires Valid()
      ensures r == State().id
    {
      id
    }

    method Reset(randomID: Option<M.ChannelID>) returns (err: Option<Error>)
      requires Valid()
      modifies this, rlp
      ensures Valid() && (State(), err) == M.Reset(old(State()), randomID)
    {
      closed := false;
      frame := 0;
      rlp[0] := [];
      rlp[1] := [];
      lastCompressedRLPSize := 0;
      compressed := [];
      zHistory := [];
      spanBatch := M.NewSpanBatch(spanBatch.genesisTimestamp, spanBatch.chainId);
      assert rlp[..] == [[], []];
      match randomID
      case Some(newID) =>
        id := newID;
        err := None;
      case None =>
        err := Some(ErrRandomID);
    }

    /** `activeRLP()` */
    function ActiveRLP(): (r: seq<Byte>)
      reads this, rlp
      requires Valid()
      ensures r == State().Active()
    {
      rlp[rlpIndex]
    }

    /** `switchRLP()` */
    method SwitchRLP()
      requires Valid()
      modifies this`rlpIndex
      ensures Valid() && State() == M.SwitchRLP(old(State()))
    {
      rlpIndex := (rlpIndex + 1) % 2;
    }

    /** One operation of the zlib writer, appending its output to `compressed`. */
    method Emit(op: Zlib.Op)
      modifies this`compressed, this`zHistory
      ensures compressed == old(compressed) + Zlib.Out(env.zlib, old(zHistory), op)
      ensures zHistory == old(zHistory) + [op]
    {
      compressed := compressed + Zlib.Out(env.zlib, zHistory, op);
      zHistory := zHistory + [op];
    }

    /** `freshCompress()` */
    method FreshCompress()
      requires Valid()
      modifies this`compressed, this`zHistory
      ensures Valid() && State() == M.FreshCompress(old(State()), env.zlib)
    {
      compressed := [];
      zHistory := [];
      Emit(Zlib.Write(rlp[rlpIndex]));
      assert zHistory == [Zlib.Write(rlp[rlpIndex])];
      Emit(Zlib.Flush);
    }

    method AddBlock(conversion: Option<(M.SingularBatch, UInt64)>) returns (n: nat, err: Option<Error>)
      requires Valid()
      modifies this, rlp
      ensures Valid() && M.AddResult(State(), n, err) == M.AddBlock(old(State()), env, conversion)
    {
      if closed {
        return 0, Some(ErrChannelOutAlreadyClosed);
      }
      match conversion
      case None =>
        return 0, Some(ErrBlockToSingularBatch);
      case Some((batch, seqNum)) =>
        n, err := AddSingularBatch(batch, seqNum);
    }

    method AddSingularBatch(batch: M.SingularBatch, seqNum: UInt64) returns (n: nat, err: Option<Error>)
      requires Valid()
      modifies this, rlp
      ensures Valid() && M.AddResult(State(), n, err) == M.AddSingularBatch(old(State()), env, batch, seqNum)
    {
      if closed {
        return 0, Some(ErrChannelOutAlreadyClosed);
      }
      if !env.appendOk(spanBatch, batch, seqNum) {
        return 0, Some(ErrAppendSingularBatch);
      }
      ghost var grown := old(State()).(spanBatch := M.Appended(spanBatch, batch));
      spanBatch := M.Appended(spanBatch, batch);
      assert State() == grown;
      var raw := env.encode(spanBatch);
      if raw.RawFailed? {
        return 0, Some(ErrToRawSpanBatch);
      }
      SwitchRLP();
      rlp[rlpIndex] := [];
      if raw.RlpFailed? {
        assert State() == M.SetActive(M.SwitchRLP(grown), []);
        return 0, Some(ErrRlpEncode);
      }
      rlp[rlpIndex] := raw.bytes;
      ghost var encoded := M.SetActive(M.SwitchRLP(grown), raw.bytes);
      assert State() == encoded;
      if |rlp[rlpIndex]| > M.MaxRLPBytesPerChannel {
        return 0, Some(ErrTooManyRLPBytes);
      }
      var rlpGrowth := |rlp[rlpIndex]| - lastCompressedRLPSize;
      if ToUint64(|compressed| + rlpGrowth) < target {
        assert M.TakesFastPath(encoded, |raw.bytes|);
        return lastCompressedRLPSize, None;
      }
      assert !M.TakesFastPath(encoded, |raw.bytes|);
      n, err := CompressAndCheck();
    }

    /** The slow path of `AddSingularBatch`, once the new RLP is active. */
    method CompressAndCheck() returns (n: nat, err: Option<Error>)
      requires Valid()
      modifies this
      ensures Valid() && M.AddResult(State(), n, err) == M.CompressAndCheck(old(State()), env.zlib)
    {
      FreshCompress();
      lastCompressedRLPSize := |rlp[rlpIndex]|;
      ghost var measured := M.FreshCompress(old(State()), env.zlib).(lastCompressedRLPSize := |rlp[rlpIndex]|);
      assert State() == measured;
      if |compressed| > target {
        if |spanBatch.batches| == 1 {
          var _ := Close();
          return |compressed|, None;
        }
        SwitchRLP();
        FreshCompress();
        assert State() == M.FreshCompress(M.SwitchRLP(measured), env.zlib);
        var _ := Close();
        return |compressed|, Some(ErrCompressorFull);
      }
      return |compressed|, None;
    }

    /** `InputBytes()`: the RLP size as of the last compression. */
    function InputBytes(): (r: nat)
      reads this
      ensures r == lastCompressedRLPSize
    {
      lastCompressedRLPSize
    }

    function ReadyBytes(): (r: nat)
      reads this, rlp
      requires Valid()
      ensures r == State().ReadyBytes()
    {
      if closed then |compressed| else 0
    }

    /** `Flush()`: does nothing and never fails. */
    function Flush(): (r: Option<Error>)
      ensures r == None
    {
      None
    }

    function FullErr(): (r: Option<Error>)
      reads this, rlp
      requires Valid()
      ensures r == State().FullErr()
    {
      if |compressed| >= target then Some(ErrCompressorFull) else None
    }

    method Close() returns (err: Option<Error>)
      requires Valid()
      modifies this`closed, this`compressed, this`zHistory
      ensures Valid() && (State(), err) == M.Close(old(State()), env.zlib)
    {
      if closed {
        return Some(ErrChannelOutAlreadyClosed);
      }
      closed := true;
      // `Flush()` returns nil, so the result is the zlib writer's.
      err := Zlib.Status(zHistory, Zlib.Close);
      Emit(Zlib.Close);
    }

    /** `OutputFrame(w, maxSize)`: `written` is the frame marshalled into `w`. */
    method OutputFrame(maxSize: UInt64) returns (frameNumber: UInt16, err: Option<Error>, written: Option<M.Frame>)
      requires Valid()
      modifies this`compressed, this`frame
      ensures Valid() && M.FrameResult(State(), frameNumber, err, written) == M.OutputFrame(old(State()), maxSize)
    {
      if maxSize < M.FrameV0OverHeadSize {
        return 0, Some(ErrMaxFrameSizeTooSmall), None;
      }
      // createEmptyFrame
      var ready := ReadyBytes();
      var isLast := closed && maxSize - M.FrameV0OverHeadSize >= ready;
      var f := M.Frame(id, ToUint16(frame), [], isLast);
      var read := M.ReadFull(compressed, M.FrameDataSize(maxSize, ready));
      compressed := read.rest;
      frameNumber, err, written := 0, read.err, None;
      if read.err.None? {
        f := f.(data := read.data);
        written := Some(f);
        frame := Inc64(frame);
        frameNumber := f.frameNumber;
        err := if f.isLast then Some(EOF) else None;
      }
    }
  }
}
