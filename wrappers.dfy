/** Optional values and results, shared by every module of the model.
    `Result` stands for a call that either returns a value or throws an
    Error whose message is kept. */
module Wrappers {

  datatype Option<+T> = None | Some(value: T) {
    function GetOr(default: T): T {
      match this
      case Some(v) => v
      case None => default
    }
  }

  datatype Result<+T, +E> = Success(value: T) | Failure(error: E) {
    function ToOption(): Option<T> {
      match this
      case Success(v) => Some(v)
      case Failure(_) => None
    }
  }

  /** The value-less result of a call that only succeeds or throws. */
  datatype Unit = Unit
}
