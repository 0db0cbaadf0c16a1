/** Failure-carrying datatypes shared by every module of the model.
    Go's `(value, error)` pairs become `Result`, nil-able pointers become `Option`. */
module Wrappers {

  /** A value that may be absent (a nil pointer or nil interface in the source). */
  datatype Option<+T> = None | Some(value: T)

  /** A value or the text of the error that replaced it. Only the message of a Go
      `error` is observable in the source's tests, so that is all an `Err` keeps. */
  datatype Result<+T> = Ok(value: T) | Err(error: string)
}
