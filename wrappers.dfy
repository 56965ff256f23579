/** The optional value used wherever the worker reads something that may be absent
    (a header, a query parameter) or calls something that may throw. */
module Wrappers {
  datatype Option<+T> = None | Some(value: T) {
    function GetOr(default: T): T {
      match this
      case Some(v) => v
      case None => default
    }
  }
}
