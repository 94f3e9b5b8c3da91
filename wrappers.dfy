/** Optional values and outcomes, as the client's JavaScript expresses them with
    `undefined` and thrown errors. */
module Wrappers {

  /** A value that may be absent (`undefined` or `null` in the source). */
  datatype Option<+T> = None | Some(value: T)

  /** The outcome of an operation: its value, or the error it throws. */
  datatype Result<+T, +E> = Success(value: T) | Failure(error: E)
}
