/** Failure-carrying wrappers used throughout the model. */
module Wrappers {

  /** A value that may be absent (PHP's NULL). */
  datatype Option<+T> = None | Some(value: T)

  /** The outcome of an operation that either completes or throws. */
  datatype Outcome<+E> = Pass | Fail(error: E)
}
