/** Result types shared by the connection model. */
module Wrappers {

  /** A value that may be absent: PHP's `isset` / unset distinction. */
  datatype Option<+T> = None | Some(value: T)

  /** Either a value or the error a PHP method would have thrown. */
  datatype Result<+R, +E> = Success(value: R) | Failure(error: E)

  /** The outcome of an operation that returns nothing but may throw. */
  datatype Outcome<+E> = Pass | Fail(error: E)
}
