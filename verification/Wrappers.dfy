/** Small result types shared by the whole model. */
module Wrappers {
  import opened Bytes

  datatype Option<+T> = None | Some(value: T)

  datatype Result<+T, +E> = Success(value: T) | Failure(error: E)

  /** Why a frame cannot be parsed.  The library does not check bounds, so reading
      past the end of the buffer is undefined behaviour there; a zero NPDU length
      asks `std::vector::resize` for more than it can hold, which throws. */
  datatype ParseError = OutOfBounds | LengthError

  /** The outcome of parsing a prefix of a byte string: the value read and the
      bytes that are left, usable with `:-`. */
  datatype Parsed<+T> = Ok(value: T, rest: seq<byte>) | Fail(error: ParseError) {

    predicate IsFailure() {
      Fail?
    }

    function PropagateFailure<U>(): Parsed<U>
      requires Fail?
    {
      Fail(error)
    }

    function Extract(): (T, seq<byte>)
      requires Ok?
    {
      (value, rest)
    }
  }
}
