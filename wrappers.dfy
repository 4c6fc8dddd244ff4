/** Failure-carrying datatypes used for the Go `(value, error)` returns. */
module Wrappers {

  /** A value that may be absent; `None` also stands for Go's `nil` error. */
  datatype Option<+T> = None | Some(value: T)

  /** A value or an error message. */
  datatype Result<+T> = Success(value: T) | Failure(error: string)
}
