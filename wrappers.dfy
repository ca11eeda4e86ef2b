/** Option and Result: the error paths of the modelled commands. */
module Wrappers {

  datatype Option<+T> = None | Some(value: T) {
    function GetOr(default: T): T {
      match this
      case Some(v) => v
      case None => default
    }
  }

  datatype Result<+T, +E> = Ok(value: T) | Err(error: E)

  /** `Poll<Option<T>>` of a `Stream`: an item, the end of the stream, or not ready yet. */
  datatype Poll<+T> = Ready(item: Option<T>) | Pending
}
