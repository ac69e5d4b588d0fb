/** Option and Result, the shapes the engine uses for "null" values and for errors it reports. */
module Wrappers {

  /** A value that may be absent; `None` stands for Python's `None`/JSON `null`. */
  datatype Option<+T> = None | Some(value: T) {
    function GetOr(default: T): T {
      match this
      case Some(v) => v
      case None => default
    }
  }

  /** Either a value or the error that was raised instead of it. */
  datatype Result<+R, +E> = Success(value: R) | Failure(error: E)
}
