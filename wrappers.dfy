/** Option, Result and Outcome: the model's stand-ins for null references and thrown exceptions. */
module Wrappers {

  datatype Option<+T> = None | Some(value: T)

  /** The value of an operation that either produces a `value` or throws `error`. */
  datatype Result<+T, +E> = Success(value: T) | Failure(error: E)

  /** The value of a `void` operation that either completes or throws `error`. */
  datatype Outcome<+E> = Pass | Fail(error: E)
}
