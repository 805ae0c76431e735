/** Failure-compatible values for the lookups and constructors of the library that can fail. */
module Wrappers {

  datatype Option<+T> = None | Some(value: T)

  /** A Go `(value, error)` pair; the error is kept as its message text. */
  datatype Result<+T> = Ok(value: T) | Err(msg: string)
}
