/** Optional values: the model's rendering of JavaScript's `null`/`undefined`
    (and of `NaN` where a number may fail to parse). */
module Wrappers {

  datatype Option<+T> = None | Some(value: T) {

    /** The value, or `default` when absent (JavaScript's `x ?? default`). */
    function GetOr(default: T): T {
      match this
      case Some(v) => v
      case None => default
    }
  }
}
