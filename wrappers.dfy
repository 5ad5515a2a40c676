/** The optional value used throughout: a Python value that may be `None`,
    or the result of an operation that may raise. */
module Wrappers {
  datatype Option<+T> = None | Some(value: T) {
    function GetOr(default: T): T {
      match this
      case Some(v) => v
      case None => default
    }
  }
}
