/** Failure-carrying result types shared by the two core functions. */
module Wrappers {

  /** Ruby's `nil` or a value. */
  datatype Option<+T> = None | Some(value: T)

  /** A computed value, or the error a Puppet `fail(...)` raises. */
  datatype Result<+R, +E> = Success(value: R) | Failure(error: E)
}
