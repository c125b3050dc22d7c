/** Failure-carrying values: a lookup that may find nothing, an operation that may throw. */
module Wrappers {

  datatype Option<+T> = None | Some(value: T)

  /** The value an operation returns, or the exception it throws instead. */
  datatype Result<+R, +E> = Success(value: R) | Failure(error: E)

  /** What a `void` operation does: return normally, or throw. */
  datatype Outcome<+E> = Pass | Fail(error: E)
}
