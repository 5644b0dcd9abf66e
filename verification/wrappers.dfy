// Optional values, values-or-exceptions, and settled promises without a value.
module Wrappers {

  datatype Option<+T> = None | Some(value: T)

  datatype Result<+T, +E> = Success(value: T) | Failure(error: E)

  datatype Outcome<+E> = Pass | Fail(error: E)
}
