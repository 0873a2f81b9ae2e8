/** The Option type used for JavaScript's `null` / `undefined` results. */
module Wrappers {

  datatype Option<+T> = None | Some(value: T) {

    /** The value, or `default` when there is none (JavaScript's `x || default` on an absent x). */
    function GetOr(default: T): T {
      if Some? then value else default
    }
  }
}
