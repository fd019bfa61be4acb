/** Optional values and success/failure outcomes, used where the C# code
    has a null reference or throws an exception. */
module Wrappers {

  /** A value that may be absent: a C# reference that may be null. */
  datatype Option<+T> = None | Some(value: T)

  /** A computation that produces a value or fails with an error. */
  datatype Result<+R, +E> = Success(value: R) | Failure(error: E)

  /** A void call that returns normally or throws. */
  datatype Outcome<+E> = Pass | Fail(error: E)
}
