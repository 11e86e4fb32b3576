/** Failure-compatible wrappers used throughout the model: an absent dictionary key is `None`,
    a raised Python exception is a `Failure`. */
module Wrappers {

  datatype Option<+T> = None | Some(value: T) {

    /** `dict.get(key, default)`: the stored value, or the default when the key is absent. */
    function GetOr(default: T): T {
      match this
      case Some(v) => v
      case None => default
    }
  }

  datatype Result<+R, +E> = Success(value: R) | Failure(error: E) {

    predicate IsFailure() {
      Failure?
    }

    function PropagateFailure<U>(): Result<U, E>
      requires Failure?
    {
      Failure(error)
    }

    function Extract(): R
      requires Success?
    {
      value
    }
  }
}
