/** The optional-value type used across the model: a device lookup that may
    find nothing, a dequeue that may fail, an option value that may be missing. */
module Wrappers {
  datatype Option<+T> = None | Some(value: T) {
    function GetOr(default: T): T {
      match this
      case Some(v) => v
      case None => default
    }
  }
}
