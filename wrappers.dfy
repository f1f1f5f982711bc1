/** Option and Result values shared by the model. */
module Wrappers {

  /** A value that may be absent, like a JavaScript `string | undefined`. */
  datatype Option<+T> = None | Some(value: T)

  /** The outcome of an operation that either yields a value or throws. */
  datatype Result<+T, +E> = Success(value: T) | Failure(error: E)
}
