/** Optional values: Go's nil pointers and absent JSON members. */
module Wrappers {

  datatype Option<+T> = None | Some(value: T) {

    /** The value, or the given default (Go's zero value) when absent. */
    function GetOr(default: T): T {
      match this
      case Some(v) => v
      case None => default
    }
  }
}
