/**
 * Option: a value that may be absent (JavaScript's `null`).
 * Outcome: an operation that either completes or raises an error.
 */
module Wrappers {

  datatype Option<+T> = None | Some(value: T)

  datatype Outcome<+E> = Pass | Fail(error: E)
}
