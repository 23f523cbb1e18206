/** The `BlindCompressor` strategy (op-batcher/compressor/blind_compressor.go)
    as a class with the source's fields. Every method is proved to change the
    fields exactly as the corresponding function of BlindModel says; the
    properties of those functions are proved in BlindProperties. */
module Compressor {
  import opened Common
  import Zlib
  import M = BlindModel

  class BlindCompressor {
    const config: M.Config
    /** The behaviour of the zlib writer `compress`. */
    const zlib: Zlib.Emitter

    var inputBytes: int
    /** The buffer the zlib writer writes into. */
    var buf: seq<Byte>
    /** The zlib writer: the operations it performed since its last reset. */
    var zHistory: seq<Zlib.Op>
    /** Raw input held back from the zlib writer. */
    var buildbuf: seq<Byte>

    /** The fields as a BlindModel value. */
    function State(): M.Blind
      reads this
    {
      M.Blind(config, inputBytes, buf, zHistory, buildbuf)
    }

    /** `NewBlindCompressor(config)`; creating the zlib writer at a valid level
        cannot fail. */
    constructor (config: M.Config, zlib: Zlib.Emitter)
      ensures State() == M.NewBlindCompressor(config) && this.zlib == zlib
    {
      this.config := config;
      this.zlib := zlib;
      inputBytes := 0;
      buf := [];
      zHistory := [];
      buildbuf := [];
    }

    function TargetOutputSize(): (r: UInt64)
      reads this
      ensures r == State().TargetOutputSize()
    {
      config.targetOutputSize
    }

    /** One operation of the zlib writer, appending its output to `buf`. */
    method Emit(op: Zlib.Op)
      modifies this`buf, this`zHistory
      ensures State() == M.Emit(old(State()), zlib, op)
    {
      buf := buf + Zlib.Out(zlib, zHistory, op);
      zHistory := zHistory + [op];
    }

    method Write(p: seq<Byte>) returns (n: nat, err: Option<Error>)
      modifies this
      ensures M.WriteResult(State(), n, err) == M.Write(old(State()), zlib, p)
    {
      Emit(Zlib.Flush);
      buildbuf := buildbuf + p;
      // Both lengths are non-negative, so Go's uint64(..) keeps the sum.
      if |buildbuf| + |buf| < config.targetOutputSize {
        return |p|, None;
      }
      err := FullErr();
      if err.Some? {
        return 0, err;
      }
      inputBytes := inputBytes + |p|;
      buildbuf := [];
      err := Zlib.Status(zHistory, Zlib.Write(p));
      Emit(Zlib.Write(p));
      n := if err == None then |p| else 0;
    }

    method Close() returns (err: Option<Error>)
      modifies this`buf, this`zHistory
      ensures (State(), err) == M.Close(old(State()), zlib)
    {
      err := Zlib.Status(zHistory, Zlib.Close);
      Emit(Zlib.Close);
    }

    method Read(size: nat) returns (data: seq<Byte>, n: nat, err: Option<Error>)
      modifies this`buf
      ensures M.ReadResult(State(), data, n, err) == M.Read(old(State()), size)
    {
      if buf == [] {
        return [], 0, if size == 0 then None else Some(EOF);
      }
      n := if size <= |buf| then size else |buf|;
      data := buf[..n];
      buf := buf[n..];
      err := None;
    }

    method Reset()
      modifies this`buf, this`zHistory, this`inputBytes
      ensures State() == M.Reset(old(State()))
    {
      buf := [];
      zHistory := [];
      inputBytes := 0;
    }

    function Len(): (r: nat)
      reads this
      ensures r == State().Len()
    {
      |buf|
    }

    method Flush() returns (err: Option<Error>)
      modifies this`buf, this`zHistory
      ensures (State(), err) == M.Flush(old(State()), zlib)
    {
      err := Zlib.Status(zHistory, Zlib.Flush);
      Emit(Zlib.Flush);
    }

    /** Only meaningful right after a flush. */
    function FullErr(): (r: Option<Error>)
      reads this
      ensures r == State().FullErr()
    {
      if |buf| >= config.targetOutputSize then Some(ErrCompressorFull) else None
    }
  }
}
