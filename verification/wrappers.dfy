/** Optional values: the model's stand-in for JavaScript's `undefined`
    and for the falsy values that `x || 0` replaces by a default. */
module Wrappers {

  datatype Option<+T> = None | Some(value: T) {

    /** The value, or `default` when absent (JavaScript's `x || default`). */
    function GetOr(default: T): T
    {
      match this
      case Some(v) => v
      case None => default
    }
  }
}
