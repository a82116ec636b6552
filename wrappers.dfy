/** Failure-carrying values used across the model in place of Go's `(value, error)` pairs
    and TypeScript's optional fields. */
module Wrappers {

  datatype Option<+T> = None | Some(value: T)

  /** A computation that either produced a value or failed with an error text. */
  datatype Result<+R, +E> = Ok(value: R) | Err(error: E)

  /** A check that either passed or failed with an error text (Go's plain `error` return). */
  datatype Outcome<+E> = Pass | Fail(error: E)
}
