/** Failure-carrying datatypes shared by the rest of the model. */
module Wrappers {

  /** Some value, or nothing (Ruby's `nil`). */
  datatype Option<+T> = None | Some(value: T)

  /** A computed value, or the fault that a Ruby `raise` would propagate. */
  datatype Result<+T, +E> = Success(value: T) | Failure(error: E)

  /** A check that passes, or fails with an error and no value. */
  datatype Outcome<+E> = Pass | Fail(error: E)
}
