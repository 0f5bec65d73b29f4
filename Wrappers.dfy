/** Option and Result values used across the model for JavaScript's null/undefined
    and for the error paths of calls that throw or raise. */
module Wrappers {

  datatype Option<T> = None | Some(value: T)

  datatype Result<T, E> = Success(value: T) | Failure(error: E)
}
