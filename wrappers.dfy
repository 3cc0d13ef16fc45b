/** Failure-compatible wrappers standing in for Go's nil pointers and `error` returns. */
module Wrappers {

  /** An optional value: `None` models a nil pointer or a nil slice. */
  datatype Option<+T> = None | Some(value: T)

  /** A value or an error, as in Go's `(T, error)` returns. */
  datatype Result<+T, +E> = Success(value: T) | Failure(error: E) {
    predicate IsFailure() { Failure? }

    function PropagateFailure<U>(): Result<U, E>
      requires Failure?
    {
      Failure(error)
    }

    function Extract(): T
      requires Success?
    {
      value
    }
  }

  /** No value, possibly an error, as in a Go function returning only `error`. */
  datatype Outcome<+E> = Pass | Fail(error: E)
}
