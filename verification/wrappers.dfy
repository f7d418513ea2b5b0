/** An optional value (Objective-C's `nil` where a value is absent) and a
    result that is either a value or an error (the exceptions
    `GBMethodsProvider` throws). */
module Wrappers {

  datatype Option<+T> = None | Some(value: T)

  datatype Result<+T, +E> = Success(value: T) | Failure(error: E)
}
