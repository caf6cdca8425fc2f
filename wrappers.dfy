/** Small helper datatypes shared by the other modules. */
module Wrappers {

  /** A value that may be missing: JavaScript's `null` or `undefined`. */
  datatype Option<+T> = None | Some(value: T) {

    /** The value if present, else `default` (JavaScript's `??`). */
    function GetOr(default: T): (r: T)
      ensures Some? ==> r == value
      ensures None? ==> r == default
    {
      match this
      case Some(v) => v
      case None => default
    }
  }
}
