/** Optional values and results for the adapter. A Python `None` is `None`.
    A raised exception is `Failure`, and `:-` passes it on. */
module Wrappers {

  datatype Option<+T> = None | Some(value: T) {

    /** The held value, or `fallback` when there is none. This is Python's
        `x or fallback` for a value that is never falsy. */
    function ValueOr(fallback: T): T {
      if Some? then value else fallback
    }
  }

  datatype Result<+R, +E> = Success(value: R) | Failure(error: E) {

    predicate IsFailure() {
      Failure?
    }

    function PropagateFailure<U>(): Result<U, E>
      requires Failure?
    {
      Failure(error)
    }

    function Extract(): R
      requires Success?
    {
      value
    }
  }
}
