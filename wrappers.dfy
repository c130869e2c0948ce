/** Optional values: Kotlin's nullable types (`String?`, `Int?`) become `Option`. */
module Wrappers {

  datatype Option<+T> = None | Some(value: T) {

    /** The value, or `default` when absent: Kotlin's `x ?: default` and `orEmpty()`. */
    function GetOr(default: T): T {
      match this
      case Some(v) => v
      case None => default
    }
  }
}
