/** Failure-carrying values used in place of Go's `(value, error)` returns. */
module Outcomes {

  /** An optional value (Go's nil / non-nil, or "not set"). */
  datatype Option<T> = None | Some(value: T)

  /** A value or an error: Go's `(T, error)` pair where exactly one half is meaningful. */
  datatype Result<T, E> = Ok(value: T) | Err(error: E)

  /** An error or nothing: Go's plain `error` return, `Pass` standing for nil. */
  datatype Outcome<E> = Pass | Fail(error: E)
}
