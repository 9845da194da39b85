/** Failure-carrying result types shared by the model. */
module Outcomes {

  /** A value that may be absent, as Python's `None` return. */
  datatype Option<+T> = None | Some(value: T)

  /** Either a computed value or the exception the source would raise. */
  datatype Result<+T, +E> = Success(value: T) | Failure(error: E)
}
