/** Optional values: the model's stand-in for the firmware's NaN floats and
    for JavaScript's null/undefined fields. */
module Wrappers {

  datatype Option<+T> = None | Some(value: T) {

    /** The value, or `default` when absent. */
    function GetOr(default: T): T {
      match this
      case Some(v) => v
      case None => default
    }
  }
}
