/** A value that may be missing: `None` plays the part of JavaScript's `undefined`
    and `null` wherever the dashboard tolerates an absent field. */
module Wrappers {

  datatype Option<+T> = None | Some(value: T) {

    /** Reads the value with a fallback, as JavaScript's `x ?? fallback` does. */
    function GetOr(default: T): T {
      match this
      case Some(v) => v
      case None => default
    }
  }
}
