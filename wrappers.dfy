/** Failure-carrying results, for the Go functions that return `(value, error)`. */
module Wrappers {
  datatype Option<T> = None | Some(value: T)

  /** A Go `(value, err)` pair in which exactly one side is meaningful; errors are messages. */
  datatype Result<T> = Ok(value: T) | Err(error: string)
}
