/** Failure-carrying result types shared by the modules of this model. */
module Wrappers {

  datatype Option<+T> = None | Some(value: T)

  /** The value a Ruby method returns, or the exception it raises instead. */
  datatype Result<+T, +E> = Success(value: T) | Failure(error: E)

  /** A check that either passes or raises an exception. */
  datatype Outcome<+E> = Pass | Fail(error: E)
}
