/** Optional values and results, the shapes the source expresses with Swift's
    `Optional` and `Result`. */
module Wrappers {

  /** Swift's `T?`: `None` is `nil`. */
  datatype Option<+T> = None | Some(value: T) {

    /** The `??` operator: the wrapped value, or `default` for `nil`. */
    function GetOr(default: T): (r: T)
      ensures Some? ==> r == value
      ensures None? ==> r == default
    {
      match this
      case Some(v) => v
      case None => default
    }
  }

  /** Swift's `Result<R, E>`, as delivered to a completion handler. */
  datatype Result<+R, +E> = Success(value: R) | Failure(error: E)
}
