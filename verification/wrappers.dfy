/** An optional value: `None` stands for Python's `None`, or for an input that
    Python's `float(...)` conversion rejects. */
module Wrappers {

  datatype Option<+T> = None | Some(value: T) {

    /** The wrapped value, or `default` when there is none. */
    function GetOr(default: T): T {
      match this
      case Some(v) => v
      case None => default
    }
  }
}
