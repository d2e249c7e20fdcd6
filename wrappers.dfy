/** Option, Result and Outcome: the values a JavaScript `undefined`, return or throw becomes. */
module Wrappers {

  /** A value that may be absent (`undefined` in the source). */
  datatype Option<+T> = None | Some(value: T)

  /** A computation that returns a value or throws an error. */
  datatype Result<+T, +E> = Success(value: T) | Failure(error: E)

  /** A computation that returns nothing or throws an error. */
  datatype Outcome<+E> = Pass | Fail(error: E)
}
