/** Option and Result, used for Python's `None`, for dictionary lookups that raise
    `KeyError`, and for parses that may fail. */
module Wrappers {

  datatype Option<+T> = None | Some(value: T)

  datatype Result<+R, +E> = Success(value: R) | Failure(error: E)
}
