/** Optional values and success-or-error results, as the controller's guarded returns use them. */
module Wrappers {

  /** A value that may be absent: `None` stands for JavaScript's `undefined` or `null`. */
  datatype Option<+T> = None | Some(value: T)

  /** The outcome of a request handler: the value it produces, or the error it reports. */
  datatype Result<+T, +E> = Success(value: T) | Failure(error: E)
}
