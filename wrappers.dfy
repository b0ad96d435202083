/** The conventional absent-or-present value, standing for JavaScript's `null`
    in the typed records of the pages. */
module Wrappers {

  datatype Option<+T> = None | Some(value: T) {

    /** `o ?? d`: the present value, or the default when absent. */
    function GetOr(default: T): T {
      if Some? then value else default
    }
  }
}
