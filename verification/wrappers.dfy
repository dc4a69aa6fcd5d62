/** Optional values and results shared by the modules of this model. */
module Wrappers {

  /** A value that may be absent (JavaScript `undefined`, Java `null`). */
  datatype Option<+T> = None | Some(value: T)

  /** The outcome of an operation that may throw. */
  datatype Result<+R, +E> = Success(value: R) | Failure(error: E)
}
