/** What `BlindCompressor` promises, proved about the reference model in
    BlindModel: the three outcomes of `Write`, what `Reset` clears, that the
    input count follows the bytes handed to the zlib writer, and that a full
    compressor stays full. */
module BlindProperties {
  import opened Common
  import Zlib
  import opened BlindModel

  /** The output buffer after `Write`'s initial flush. */
  function FlushedBuf(b: Blind, z: Zlib.Emitter): seq<Byte>
  {
    b.buf + Zlib.Out(z, b.zHistory, Zlib.Flush)
  }

  /** Under the threshold `Write` returns `(len(p), nil)`: `p` is appended to
      the building buffer, nothing reaches the zlib writer and the input count
      stays. */
  lemma WriteUnderThreshold(b: Blind, z: Zlib.Emitter, p: seq<Byte>)
    requires |b.buildbuf + p| + |FlushedBuf(b, z)| < b.config.targetOutputSize
    ensures var r := Write(b, z, p);
      && r.n == |p| && r.err == None
      && r.next.buildbuf == b.buildbuf + p
      && r.next.inputBytes == b.inputBytes
      && r.next.buf == FlushedBuf(b, z)
      && r.next.zHistory == b.zHistory + [Zlib.Flush]
      && Zlib.Input(r.next.zHistory) == Zlib.Input(b.zHistory)
  {
    Zlib.InputAppend(b.zHistory, Zlib.Flush);
  }

  /** At the threshold with a full output `Write` returns
      `(0, ErrCompressorFull)`; `p` stays in the building buffer and the input
      count stays. */
  lemma WriteWhenFull(b: Blind, z: Zlib.Emitter, p: seq<Byte>)
    requires |b.buildbuf + p| + |FlushedBuf(b, z)| >= b.config.targetOutputSize
    requires |FlushedBuf(b, z)| >= b.config.targetOutputSize
    ensures var r := Write(b, z, p);
      && r.n == 0 && r.err == Some(ErrCompressorFull)
      && r.next.buildbuf == b.buildbuf + p
      && r.next.inputBytes == b.inputBytes
      && r.next.buf == FlushedBuf(b, z)
      && Zlib.Input(r.next.zHistory) == Zlib.Input(b.zHistory)
  {
    Zlib.InputAppend(b.zHistory, Zlib.Flush);
  }

  /** At the threshold with room left `Write` compresses: the input count grows
      by exactly `len(p)`, the building buffer is emptied, and exactly `p`,
      not the building buffer, is handed to the zlib writer, whose result is
      returned: `(len(p), nil)` from a writer not closed since its reset. */
  lemma WriteCompressesOnlyP(b: Blind, z: Zlib.Emitter, p: seq<Byte>)
    requires |b.buildbuf + p| + |FlushedBuf(b, z)| >= b.config.targetOutputSize
    requires |FlushedBuf(b, z)| < b.config.targetOutputSize
    ensures var r := Write(b, z, p);
      && r.err == Zlib.Status(b.zHistory + [Zlib.Flush], Zlib.Write(p))
      && r.n == (if r.err == None then |p| else 0)
      && (Zlib.Close !in b.zHistory ==> r.n == |p| && r.err == None)
      && r.next.buildbuf == []
      && r.next.inputBytes == b.inputBytes + |p|
      && r.next.zHistory == b.zHistory + [Zlib.Flush, Zlib.Write(p)]
      && r.next.buf == FlushedBuf(b, z) + Zlib.Out(z, b.zHistory + [Zlib.Flush], Zlib.Write(p))
      && Zlib.Input(r.next.zHistory) == Zlib.Input(b.zHistory) + p
  {
    Zlib.InputAppend(b.zHistory, Zlib.Flush);
    Zlib.InputAppend(b.zHistory + [Zlib.Flush], Zlib.Write(p));
    assert b.zHistory + [Zlib.Flush] + [Zlib.Write(p)] == b.zHistory + [Zlib.Flush, Zlib.Write(p)];
    if Zlib.Close !in b.zHistory {
      Zlib.OpenWriterNeverFails(b.zHistory + [Zlib.Flush], Zlib.Write(p));
    }
  }

  /** After `Close()` the zlib writer refuses to flush or take input: `Flush`
      fails and appends nothing; `Write` appends nothing to the output, still
      returns `(len(p), nil)` under the threshold, and past it, with room
      left, counts `p` as input, drops the building buffer and fails. */
  lemma ClosedWriterRefusesInput(b: Blind, z: Zlib.Emitter, p: seq<Byte>)
    requires Zlib.Close in b.zHistory
    ensures Flush(b, z).1 == Some(ErrWriterClosed) && Flush(b, z).0.buf == b.buf
    ensures var r := Write(b, z, p);
      && r.next.buf == b.buf
      && (|b.buildbuf + p| + |b.buf| < b.config.targetOutputSize ==> r == WriteResult(r.next, |p|, None))
      && (|b.buildbuf + p| + |b.buf| >= b.config.targetOutputSize && |b.buf| < b.config.targetOutputSize ==>
            && r.n == 0 && r.err == Some(ErrWriterClosed)
            && r.next.inputBytes == b.inputBytes + |p| && r.next.buildbuf == [])
  {
    Zlib.FailedAppend(b.zHistory, Zlib.Flush);
  }

  /** `Reset()` empties the output and the input count and keeps the building
      buffer and the configuration. */
  lemma NewCompressorIsEmpty(config: Config)
    ensures var b := NewBlindCompressor(config);
      && b.inputBytes == 0 && b.Len() == 0 && b.zHistory == [] && b.buildbuf == []
      && b.TargetOutputSize() == config.targetOutputSize
  {
  }

  lemma ResetClears(b: Blind)
    ensures var r := Reset(b);
      && r.Len() == 0 && r.inputBytes == 0 && r.zHistory == []
      && r.buildbuf == b.buildbuf && r.TargetOutputSize() == b.TargetOutputSize()
  {
  }

  /** No operation changes the configuration, so `TargetOutputSize()` always
      returns the configured target. */
  lemma ConfigNeverChanges(b: Blind, z: Zlib.Emitter, p: seq<Byte>, size: nat)
    ensures Write(b, z, p).next.TargetOutputSize() == b.config.targetOutputSize
    ensures Flush(b, z).0.config == b.config && Close(b, z).0.config == b.config
    ensures Reset(b).config == b.config && Read(b, size).next.config == b.config
  {
  }

  /** The input count is the number of bytes handed to the zlib writer since
      the last reset. */
  ghost predicate Counted(b: Blind)
  {
    b.inputBytes == |Zlib.Input(b.zHistory)|
  }

  lemma CountedAlways(config: Config, b: Blind, z: Zlib.Emitter, p: seq<Byte>, size: nat)
    requires Counted(b)
    ensures Counted(NewBlindCompressor(config)) && Counted(Reset(b))
    ensures Counted(Write(b, z, p).next)
    ensures Counted(Flush(b, z).0) && Counted(Close(b, z).0) && Counted(Read(b, size).next)
  {
    Zlib.InputAppend(b.zHistory, Zlib.Flush);
    Zlib.InputAppend(b.zHistory, Zlib.Close);
    Zlib.InputAppend(b.zHistory + [Zlib.Flush], Zlib.Write(p));
  }

  /** A compressor whose output has reached the target refuses every write. */
  lemma WriteAfterFullFails(b: Blind, z: Zlib.Emitter, p: seq<Byte>)
    requires b.Len() >= b.TargetOutputSize()
    ensures var r := Write(b, z, p);
      && r.n == 0 && r.err == Some(ErrCompressorFull)
      && r.next.Len() >= r.next.TargetOutputSize()
      && r.next.inputBytes == b.inputBytes
      && Zlib.Input(r.next.zHistory) == Zlib.Input(b.zHistory)
  {
    WriteWhenFull(b, z, p);
  }

  /** Once full, a compressor stays full whatever is written to it: no byte
      reaches the zlib writer and the input count never moves until `Reset`. */
  lemma {:induction false} FullStaysFull(b: Blind, z: Zlib.Emitter, ps: seq<seq<Byte>>)
    requires b.Len() >= b.TargetOutputSize()
    ensures var e := WriteAll(b, z, ps);
      && e.Len() >= e.TargetOutputSize()
      && e.inputBytes == b.inputBytes
      && Zlib.Input(e.zHistory) == Zlib.Input(b.zHistory)
    decreases |ps|
  {
    if ps != [] {
      WriteAfterFullFails(b, z, ps[0]);
      FullStaysFull(Write(b, z, ps[0]).next, z, ps[1..]);
    }
  }

  /** `Read` hands out the front of the output buffer. */
  lemma ReadTakesFromFront(b: Blind, size: nat)
    ensures var r := Read(b, size);
      && r.data + r.next.buf == b.buf
      && r.n == |r.data| == (if size <= |b.buf| then size else |b.buf|)
      && (r.err == Some(EOF) <==> b.buf == [] && size > 0)
      && (r.err != Some(EOF) ==> r.err == None)
  {
  }

  /** As written, bytes accepted under the threshold never reach the zlib
      writer: with target 100 and a writer that emits its input unchanged,
      ten bytes are buffered, then 95 more cross the threshold and only those
      95 are compressed, while the building buffer is dropped. */
  lemma WriteDropsBufferedBytes()
    ensures var z := (h: seq<Zlib.Op>, op: Zlib.Op) => if op.Write? then op.data else [];
      var ten, more := seq(10, _ => 7), seq(95, _ => 9);
      var r1 := Write(NewBlindCompressor(Config(100)), z, ten);
      var r2 := Write(r1.next, z, more);
      && r1.n == 10 && r1.err == None && r1.next.buildbuf == ten
      && r2.n == 95 && r2.err == None
      && Zlib.Input(r2.next.zHistory) == more && r2.next.buildbuf == []
      && r2.next.inputBytes == 95
  {
    var z := (h: seq<Zlib.Op>, op: Zlib.Op) => if op.Write? then op.data else [];
    var ten, more := seq(10, _ => 7), seq(95, _ => 9);
    var b0 := NewBlindCompressor(Config(100));
    WriteUnderThreshold(b0, z, ten);
    var r1 := Write(b0, z, ten);
    assert |r1.next.buf| == 0;
    WriteCompressesOnlyP(r1.next, z, more);
    Zlib.InputAppend([], Zlib.Flush);
  }

  /** The corrected write loses nothing: what has reached the zlib writer
      followed by what is still buffered grows by exactly `p` (also on the
      full path, where `p` stays buffered), and the input count keeps
      counting the bytes handed to the writer. */
  lemma WriteBufferedKeepsEveryByte(b: Blind, z: Zlib.Emitter, p: seq<Byte>)
    requires Counted(b)
    ensures var r := WriteBuffered(b, z, p);
      && Zlib.Input(r.next.zHistory) + r.next.buildbuf == Zlib.Input(b.zHistory) + b.buildbuf + p
      && Counted(r.next)
      && (r.err == None ==> r.n == |p|)
      && (r.err != None ==> r.n == 0 && (r.err == Some(ErrCompressorFull) || r.err == Some(ErrWriterClosed)))
      && (Zlib.Close !in b.zHistory ==> r.err != Some(ErrWriterClosed))
  {
    var flushed := Emit(b, z, Zlib.Flush).(buildbuf := b.buildbuf + p);
    Zlib.InputAppend(b.zHistory, Zlib.Flush);
    if |flushed.buildbuf| + |flushed.buf| >= flushed.config.targetOutputSize && flushed.FullErr().None? {
      Zlib.InputAppend(b.zHistory + [Zlib.Flush], Zlib.Write(flushed.buildbuf));
      if Zlib.Close !in b.zHistory {
        Zlib.OpenWriterNeverFails(b.zHistory + [Zlib.Flush], Zlib.Write(flushed.buildbuf));
      }
    }
  }
}
