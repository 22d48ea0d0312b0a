/** Option and Result, the failure-carrying values used across the model:
    `None` stands for Python's `None`, `Failure` for a raised exception. */
module Wrappers {

  datatype Option<+T> = None | Some(value: T)

  datatype Result<+T, +E> = Success(value: T) | Failure(error: E)
}
