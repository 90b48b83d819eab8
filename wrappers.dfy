/** Optional values and results with an error, as the request handler uses them. */
module Wrappers {

  /** A JSON field that may be absent (undefined or null) or present. */
  datatype Option<+T> = None | Some(value: T)

  /** The outcome of a check that can fail with an error message. */
  datatype Result<+R, +E> = Success(value: R) | Failure(error: E)
}
