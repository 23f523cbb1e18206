/** Reference model of the `BlindCompressor` strategy
    (op-batcher/compressor/blind_compressor.go): its fields as a value and each
    of its operations as a function. The class in blind_compressor.dfy is
    proved to follow these functions. */
module BlindModel {
  import opened Common
  import Zlib

  /** The compressor configuration; this strategy reads only the target. */
  datatype Config = Config(targetOutputSize: UInt64)

  /** The fields of a `BlindCompressor`. `buf` is the buffer the zlib writer
      writes into and `zHistory` that writer's state (its operations since its
      last reset). */
  datatype Blind = Blind(config: Config, inputBytes: int, buf: seq<Byte>, zHistory: seq<Zlib.Op>, buildbuf: seq<Byte>)
  {
    function TargetOutputSize(): UInt64
    {
      config.targetOutputSize
    }

    /** `Len()`: the size of the compressed output buffer. */
    function Len(): nat
    {
      |buf|
    }

    /** `FullErr()`: full once the output buffer has reached the target. */
    function FullErr(): (r: Option<Error>)
      ensures r == Some(ErrCompressorFull) <==> Len() >= TargetOutputSize()
      ensures r == None <==> Len() < TargetOutputSize()
    {
      if Len() >= TargetOutputSize() then Some(ErrCompressorFull) else None
    }
  }

  /** `NewBlindCompressor(config)` */
  function NewBlindCompressor(config: Config): (r: Blind)
    ensures r.config == config && r.Len() == 0 && r.buildbuf == []
    ensures r.inputBytes == |Zlib.Input(r.zHistory)|
  {
    Blind(config, 0, [], [], [])
  }

  /** One operation of the zlib writer, appending its output to `buf`. */
  function Emit(b: Blind, z: Zlib.Emitter, op: Zlib.Op): (r: Blind)
    ensures r.zHistory == b.zHistory + [op] && b.buf <= r.buf
  {
    b.(buf := b.buf + Zlib.Out(z, b.zHistory, op), zHistory := b.zHistory + [op])
  }

  datatype WriteResult = WriteResult(next: Blind, n: nat, err: Option<Error>)

  /** `Write(p)` as written: after the initial flush, `p` joins the building
      buffer; under the threshold nothing more happens; past it the call fails
      if the output is full, and otherwise the building buffer is dropped and
      `p` alone goes to the zlib writer, whose result is returned. The result
      of the initial flush is ignored. */
  function Write(b: Blind, z: Zlib.Emitter, p: seq<Byte>): (r: WriteResult)
    ensures r.next.config == b.config && b.buf <= r.next.buf
    ensures r.err == None ==> r.n == |p|
    ensures r.err != None ==> r.n == 0
  {
    var flushed := Emit(b, z, Zlib.Flush).(buildbuf := b.buildbuf + p);
    if |flushed.buildbuf| + |flushed.buf| < flushed.config.targetOutputSize then WriteResult(flushed, |p|, None)
    else if flushed.FullErr().Some? then WriteResult(flushed, 0, flushed.FullErr())
    else
      var status := Zlib.Status(flushed.zHistory, Zlib.Write(p));
      WriteResult(Emit(flushed.(inputBytes := flushed.inputBytes + |p|, buildbuf := []), z, Zlib.Write(p)),
                  if status == None then |p| else 0, status)
  }

  /** `Write(p)` as evidently intended: past the threshold the whole building
      buffer, which ends with `p`, goes to the zlib writer and is counted. */
  function WriteBuffered(b: Blind, z: Zlib.Emitter, p: seq<Byte>): (r: WriteResult)
    ensures r.next.config == b.config && b.buf <= r.next.buf
    ensures r.err == None ==> r.n == |p|
    ensures r.err != None ==> r.n == 0
  {
    var flushed := Emit(b, z, Zlib.Flush).(buildbuf := b.buildbuf + p);
    if |flushed.buildbuf| + |flushed.buf| < flushed.config.targetOutputSize then WriteResult(flushed, |p|, None)
    else if flushed.FullErr().Some? then WriteResult(flushed, 0, flushed.FullErr())
    else
      var status := Zlib.Status(flushed.zHistory, Zlib.Write(flushed.buildbuf));
      WriteResult(Emit(flushed.(inputBytes := flushed.inputBytes + |flushed.buildbuf|, buildbuf := []), z,
                       Zlib.Write(flushed.buildbuf)), if status == None then |p| else 0, status)
  }

  /** `Flush()` */
  function Flush(b: Blind, z: Zlib.Emitter): (r: (Blind, Option<Error>))
    ensures r.0 == b.(buf := r.0.buf, zHistory := b.zHistory + [Zlib.Flush]) && b.buf <= r.0.buf
    ensures r.1 == None <==> !Zlib.Fails(b.zHistory, Zlib.Flush)
    ensures r.1 != None ==> r.0.buf == b.buf
  {
    (Emit(b, z, Zlib.Flush), Zlib.Status(b.zHistory, Zlib.Flush))
  }

  /** `Close()` */
  function Close(b: Blind, z: Zlib.Emitter): (r: (Blind, Option<Error>))
    ensures r.0 == b.(buf := r.0.buf, zHistory := b.zHistory + [Zlib.Close]) && b.buf <= r.0.buf
    ensures r.1 == None <==> !Zlib.Fails(b.zHistory, Zlib.Close)
    ensures r.1 != None ==> r.0.buf == b.buf
  {
    (Emit(b, z, Zlib.Close), Zlib.Status(b.zHistory, Zlib.Close))
  }

  /** `Reset()`: clears the output buffer, the writer and the input count;
      the building buffer is left as it is. */
  function Reset(b: Blind): (r: Blind)
    ensures r.Len() == 0 && r.inputBytes == |Zlib.Input(r.zHistory)|
    ensures r.config == b.config && r.buildbuf == b.buildbuf
  {
    b.(buf := [], zHistory := [], inputBytes := 0)
  }

  datatype ReadResult = ReadResult(next: Blind, data: seq<Byte>, n: nat, err: Option<Error>)

  /** `Read(p)` with `len(p) == size`: `bytes.Buffer.Read` on the output:
      an empty buffer yields `EOF` unless nothing was asked for; otherwise as
      many bytes as fit are taken from the front. */
  function Read(b: Blind, size: nat): (r: ReadResult)
    ensures r.data + r.next.buf == b.buf && r.n == |r.data| <= size
    ensures r.next.config == b.config && r.next.inputBytes == b.inputBytes
    ensures r.err == None || r.err == Some(EOF)
  {
    if b.buf == [] then ReadResult(b, [], 0, if size == 0 then None else Some(EOF))
    else
      var k := if size <= |b.buf| then size else |b.buf|;
      ReadResult(b.(buf := b.buf[k..]), b.buf[..k], k, None)
  }

  /** The state after writing each of `ps` in turn, ignoring the results. */
  function WriteAll(b: Blind, z: Zlib.Emitter, ps: seq<seq<Byte>>): Blind
    decreases |ps|
  {
    if ps == [] then b else WriteAll(Write(b, z, ps[0]).next, z, ps[1..])
  }
}
