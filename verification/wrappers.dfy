/** Optional values and fallible results, used wherever the Swift code has an
    optional (`T?`) or a throwing call. */
module Wrappers {

  /** Swift's `Optional`: `None` is `nil`. */
  datatype Option<+T> = None | Some(value: T) {

    /** The `??` operator: the wrapped value, or `default` when `nil`. */
    function GetOr(default: T): T {
      match this
      case Some(v) => v
      case None => default
    }
  }

  /** The outcome of a call that may throw an error of type `E`. */
  datatype Result<+R, +E> = Success(value: R) | Failure(error: E)
}
