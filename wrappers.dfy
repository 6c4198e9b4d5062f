/** Failure-carrying values shared by both agents: an optional value, a result
    with an error, and a pass/fail outcome (Go's bare `error` return). */
module Wrappers {

  datatype Option<+T> = None | Some(value: T)

  datatype Result<+T, +E> = Success(value: T) | Failure(error: E)

  datatype Outcome<+E> = Pass | Fail(error: E)
}
