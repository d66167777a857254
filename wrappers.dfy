/** Option and Result, the two failure-carrying wrappers the model uses. */
module Wrappers {

  /** `None` stands for Python's `None` (an unset marker or a failed parse). */
  datatype Option<+T> = None | Some(value: T)

  /** The outcome of a check that either yields a value or a reason for refusing it. */
  datatype Result<+R, +E> = Success(value: R) | Failure(error: E)
}
