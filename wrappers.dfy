/** Option and Result values for optional inputs and Go's `(value, error)` returns. */
module Wrappers {

  datatype Option<+T> = None | Some(value: T)

  /** A Go call that either yields a value or fails with an error whose text is `error`. */
  datatype Result<+T> = Success(value: T) | Failure(error: string)
}
