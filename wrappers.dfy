/** The optional-value datatype used for Kotlin's nullable types (`T?`). */
module Wrappers {

  datatype Option<+T> = None | Some(value: T) {

    /** Kotlin's `?:` operator: the value when present, otherwise `default`. */
    function GetOr(default: T): T {
      match this
      case Some(v) => v
      case None => default
    }
  }
}
