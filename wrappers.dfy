/** Optional values and the outcome of an operation that may hit a storage fault. */
module Wrappers {

  /** A value that may be absent: Go's nil pointer or a missing map entry. */
  datatype Option<+T> = None | Some(value: T) {
    function GetOr(default: T): T {
      match this
      case Some(v) => v
      case None => default
    }
  }

  /** The `(value, error)` pair a store or tool call returns. The error's text is
      only ever logged, so a fault carries no detail. */
  datatype IoResult<+T> = Ok(value: T) | IoError
}
