/** The nullable values of the source (`Double?`, `String?`, `Date?`, `Transaction?`). */
module Wrappers {

  datatype Option<T> = None | Some(value: T) {

    /** Kotlin's elvis operator `x ?: default`. */
    function GetOr(default: T): T {
      match this
      case Some(v) => v
      case None => default
    }
  }
}
