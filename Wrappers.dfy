/** Failure-compatible wrappers used for the error paths of the model
    (Python exceptions, HTTP 4xx answers, pydantic validation errors). */
module Wrappers {

  datatype Option<+T> = None | Some(value: T)

  datatype Result<+T, +E> = Success(value: T) | Failure(error: E)
}
