/** Optional values, standing in for Kotlin's nullable types (`T?`). */
module Wrappers {

  /** `None` is Kotlin's `null`; `Some(v)` is a present value. */
  datatype Option<+T> = None | Some(value: T) {

    /** The value, or `default` when absent (Kotlin's `?:`). */
    function GetOr(default: T): (r: T)
      ensures Some? ==> r == value
      ensures None? ==> r == default
    {
      match this
      case Some(v) => v
      case None => default
    }
  }
}
