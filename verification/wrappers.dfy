/** The outcome of an operation that can fail: a value, or the error the
    Python code would have raised instead. */
module Wrappers {

  datatype Result<+T, +E> = Success(value: T) | Failure(error: E)
}
