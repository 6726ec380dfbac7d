/** Option, the Go nil-or-value shapes of the plugin (a possibly absent
    stored record, a possibly nil error). */
module Wrappers {

  datatype Option<+T> = None | Some(value: T) {

    /** The stored record, or `default` when nothing is stored. */
    function GetOr(default: T): (r: T)
      ensures Some? ==> r == value
      ensures None? ==> r == default
    {
      match this
      case Some(v) => v
      case None => default
    }
  }
}
