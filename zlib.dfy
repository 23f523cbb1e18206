/** An abstract zlib writer. The compression algorithm itself is not modelled:
    a writer is described by a function that says which bytes it appends to
    its sink when it performs an operation, given the operations it has
    performed since it was last reset. The sink only ever grows at the end.
    What is modelled exactly is when the writer fails: once closed, the
    underlying deflate writer refuses to flush or to take more input, and the
    zlib writer keeps the first error it meets and returns it from then on. */
module Zlib {
  import opened Common

  datatype Op = Write(data: seq<Byte>) | Flush | Close

  /** `z(history, op)` is what the writer appends to its sink for `op` when
      `op` succeeds. */
  type Emitter = (seq<Op>, Op) -> seq<Byte>

  /** The input handed to the writer since its last reset, in order. */
  function Input(history: seq<Op>): seq<Byte>
  {
    if history == [] then []
    else Input(history[..|history| - 1]) + (match history[|history| - 1]
                                              case Write(d) => d
                                              case _ => [])
  }

  lemma InputAppend(h: seq<Op>, op: Op)
    ensures Input(h + [op]) == Input(h) + (if op.Write? then op.data else [])
  {
    assert (h + [op])[..|h|] == h;
  }

  /** The input of a writer that was reset and then performed `Write(data)`
      and `Flush`, and possibly `Close`. */
  lemma InputOfFreshWriter(data: seq<Byte>)
    ensures Input([Write(data), Flush]) == data
    ensures Input([Write(data), Flush, Close]) == data
  {
    InputAppend([], Write(data));
    InputAppend([Write(data)], Flush);
    InputAppend([Write(data), Flush], Close);
    assert [Write(data)] == [] + [Write(data)];
    assert [Write(data), Flush] == [Write(data)] + [Flush];
    assert [Write(data), Flush, Close] == [Write(data), Flush] + [Close];
  }

  /** The operations a closed deflate writer refuses: a flush, and a write
      of at least one byte (an empty write returns before reaching it). */
  predicate RefusedWhenClosed(op: Op)
  {
    op.Flush? || (op.Write? && op.data != [])
  }

  /** Whether the writer holds an error after `history`. */
  predicate Failed(history: seq<Op>)
  {
    if history == [] then false
    else
      var before := history[..|history| - 1];
      Failed(before) || (Close in before && RefusedWhenClosed(history[|history| - 1]))
  }

  /** Whether `op` fails on a writer with `history`: it returns a stored
      error, or it is refused by the closed deflate writer. Closing a closed
      writer that holds no error succeeds. */
  predicate Fails(history: seq<Op>, op: Op)
  {
    Failed(history) || (Close in history && RefusedWhenClosed(op))
  }

  /** A failed operation leaves its error in the writer. */
  lemma FailedAppend(h: seq<Op>, op: Op)
    ensures Failed(h + [op]) == Fails(h, op)
  {
    assert (h + [op])[..|h|] == h;
  }

  /** A writer that has not been closed since its last reset never fails. */
  lemma {:induction false} OpenWriterNeverFails(h: seq<Op>, op: Op)
    requires Close !in h
    ensures !Failed(h) && !Fails(h, op)
    decreases |h|
  {
    if h != [] {
      var before := h[..|h| - 1];
      assert forall o :: o in before ==> o in h;
      OpenWriterNeverFails(before, h[|h| - 1]);
    }
  }

  /** What the writer appends to its sink for `op`: nothing when it fails. */
  function Out(z: Emitter, history: seq<Op>, op: Op): seq<Byte>
  {
    if Fails(history, op) then [] else z(history, op)
  }

  /** The error the writer returns for `op`. */
  function Status(history: seq<Op>, op: Op): (r: Option<Error>)
    ensures r == None <==> !Fails(history, op)
  {
    if Fails(history, op) then Some(ErrWriterClosed) else None
  }

  /** The sink after a reset followed by `Write(data)` and `Flush`; a fresh
      writer performs both. */
  function Compressed(z: Emitter, data: seq<Byte>): (r: seq<Byte>)
    ensures r == z([], Write(data)) + z([Write(data)], Flush)
  {
    OpenWriterNeverFails([Write(data)], Flush);
    Out(z, [], Write(data)) + Out(z, [Write(data)], Flush)
  }

  /** The sink after a reset followed by `Write(data)`, `Flush` and `Close`:
      the complete zlib stream of `data`. */
  function Sealed(z: Emitter, data: seq<Byte>): (r: seq<Byte>)
    ensures Compressed(z, data) <= r
    ensures r == z([], Write(data)) + z([Write(data)], Flush) + z([Write(data), Flush], Close)
  {
    OpenWriterNeverFails([Write(data), Flush], Close);
    Compressed(z, data) + Out(z, [Write(data), Flush], Close)
  }
}
