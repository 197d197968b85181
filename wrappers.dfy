/** Option and Result values, used for absent JSON fields and for the
    errors the source throws. */
module Wrappers {

  datatype Option<+T> = None | Some(value: T)

  /** A computation that either yields a value or fails with the message of
      the JavaScript `Error` it would have thrown. */
  datatype Result<+T, +E> = Success(value: T) | Failure(error: E)
}
