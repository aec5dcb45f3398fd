/** Option and Result: absence of a value, and an operation that either
    yields a value or reports an error. */
module Wrappers {

  /** A value that may be absent; stands for a nilable pointer. */
  datatype Option<+T> = None | Some(value: T)

  /** Either a value or the error that prevented it. */
  datatype Result<+T, +E> = Success(value: T) | Failure(error: E)
}
