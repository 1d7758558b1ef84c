/** The optional value of Swift (`T?`): `nil` or a wrapped value. */
module Wrappers {

  datatype Option<+T> = None | Some(value: T) {

    /** Swift's nil-coalescing `self ?? default`. */
    function GetOr(default: T): T {
      match this
      case Some(v) => v
      case None => default
    }
  }
}
