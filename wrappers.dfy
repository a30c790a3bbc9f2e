/** Optional values and results with an error, used in place of Kotlin's
    nullable types and of exceptions that a caller may observe. */
module Wrappers {

  datatype Option<+T> = None | Some(value: T)

  datatype Result<+R, +E> = Success(value: R) | Failure(error: E)
}
