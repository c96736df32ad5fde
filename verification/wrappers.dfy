/** Result shapes shared by the other modules.
    Option<T> is a Go pointer that may be nil; Result<R, E> is Go's
    `(value, error)` return pair, usable with `:-`.
 */
module Wrappers {

  /** Some(value), or None where the Go code returns nil. */
  datatype Option<+T> = None | Some(value: T)

  /** A value on success, an error otherwise. */
  datatype Result<+R, +E> = Success(value: R) | Failure(error: E) {

    predicate IsFailure() {
      Failure?
    }

    /** The same error, under the value type of the enclosing function. */
    function PropagateFailure<U>(): Result<U, E>
      requires Failure?
    {
      Failure(error)
    }

    function Extract(): R
      requires Success?
    {
      value
    }
  }
}
