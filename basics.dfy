/** Small value types shared by the other modules. */
module Basics {

  /** A value that may be absent: a missing (NaN) field of an event, or a
      purchase that was not flagged. */
  datatype Option<+T> = None | Some(value: T)

  /** The outcome of an operation that can abort with an error. */
  datatype Result<+R, +E> = Success(value: R) | Failure(error: E)

  function Min(a: int, b: int): int
  {
    if a <= b then a else b
  }
}
