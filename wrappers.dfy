/** The optional value the page code gets from `Array.find`, `URLSearchParams.get`
    and the partially filled room form. */
module Wrappers {

  datatype Option<+T> = None | Some(value: T) {

    /** The value, or `default` when there is none. */
    function GetOr(default: T): T {
      match this
      case Some(v) => v
      case None => default
    }
  }
}
