/** Optional values and success-or-error results, used wherever the client
    reads an argument that may be `undefined` or completes with a thrown error. */
module Wrappers {

  /** A value that may be absent (`undefined` in the client). */
  datatype Option<+T> = None | Some(value: T)

  /** The outcome of an operation that either returns a value or throws. */
  datatype Result<+R, +E> = Success(value: R) | Failure(error: E)
}
