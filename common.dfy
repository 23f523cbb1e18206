/** Machine types, Go-style error values and the Option wrapper shared by the
    channel builder and the compressor. */
module Common {

  type Byte = b: int | 0 <= b < 0x100

  const TWO_TO_THE_16: int := 0x1_0000
  const TWO_TO_THE_64: int := 0x1_0000_0000_0000_0000

  type UInt16 = x: int | 0 <= x < TWO_TO_THE_16
  type UInt64 = x: int | 0 <= x < TWO_TO_THE_64

  /** Go's conversion `uint64(x)` of a signed 64-bit value: two's-complement
      wrap-around, so a negative value becomes a very large one. */
  function ToUint64(x: int): (r: UInt64)
    ensures 0 <= x ==> (r == x <==> x < TWO_TO_THE_64)
    ensures -TWO_TO_THE_64 <= x < 0 ==> r == TWO_TO_THE_64 + x
  {
    x % TWO_TO_THE_64
  }

  /** Go's conversion `uint16(x)` of an unsigned 64-bit value: truncation to
      the low 16 bits. */
  function ToUint16(x: UInt64): (r: UInt16)
    ensures x < TWO_TO_THE_16 ==> r == x
    ensures (x - r) % TWO_TO_THE_16 == 0
  {
    x % TWO_TO_THE_16
  }

  /** `x += 1` on a uint64. */
  function Inc64(x: UInt64): (r: UInt64)
    ensures x + 1 < TWO_TO_THE_64 ==> r == x + 1
    ensures x + 1 == TWO_TO_THE_64 ==> r == 0
  {
    (x + 1) % TWO_TO_THE_64
  }

  datatype Option<+T> = None | Some(value: T)

  /** The error values the modelled code returns. `None` of an
      `Option<Error>` is Go's `nil`. Errors that the source wraps with
      `fmt.Errorf("...: %w", err)` are represented by the stage that failed. */
  datatype Error =
    | ErrChannelOutAlreadyClosed
    | ErrTooManyRLPBytes
    | ErrCompressorFull
    | ErrMaxFrameSizeTooSmall
    | ErrAppendSingularBatch
    | ErrToRawSpanBatch
    | ErrRlpEncode
    | ErrBlockToSingularBatch
    | ErrRandomID
    | ErrUnexpectedEOF
    | ErrWriterClosed
    | EOF
}
