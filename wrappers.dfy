/** Optional values: the model's stand-in for JavaScript's null / undefined. */
module Wrappers {

  datatype Option<+T> = None | Some(value: T) {

    /** The value if present, otherwise the given default (JavaScript's `x || d` on a non-falsy x). */
    function GetOr(default: T): T
    {
      match this
      case Some(v) => v
      case None => default
    }
  }
}
