/** The Option datatype the model uses for Python values that may be absent. */
module Wrappers {

  datatype Option<+T> = None | Some(value: T) {

    /** The contained value, or `default` when there is none (Python's `d.get(k, default)`). */
    function GetOr(default: T): T {
      match this
      case Some(v) => v
      case None => default
    }
  }
}
