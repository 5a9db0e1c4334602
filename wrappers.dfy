/** Option and Result, used for the lookups the controller performs and for its error returns. */
module Wrappers {

  /** A lookup that may find nothing (a Mongoose query returning null). */
  datatype Option<+T> = None | Some(value: T)

  /** Either a value or an error that the handler turns into an HTTP error response. */
  datatype Result<+R, +E> = Success(value: R) | Failure(error: E)
}
