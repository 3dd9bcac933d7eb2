/** Optional values and success/failure results, used where the source has
    `undefined`, a value that may be missing, or a call that may throw. */
module Wrappers {

  datatype Option<+T> = None | Some(value: T) {

    /** The carried value, or `default` when there is none (JavaScript's `x || default`
        for a value that is either an object or `undefined`). */
    function GetOr(default: T): T
    {
      match this
      case Some(v) => v
      case None => default
    }
  }

  datatype Result<+R, +E> = Success(value: R) | Failure(error: E)
}
