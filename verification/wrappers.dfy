/** Failure-compatible wrappers used throughout the model.
    `Option` stands for a JavaScript value that may be `undefined`/`null`,
    `Result` for a computation that may throw. */
module Wrappers {

  datatype Option<+T> = None | Some(value: T) {

    /** Returns the wrapped value, or `default` when there is none. */
    function GetOr(default: T): T {
      match this
      case Some(v) => v
      case None => default
    }
  }

  /** `Failure(e)` models a thrown error carrying `e`. */
  datatype Result<+R, +E> = Success(value: R) | Failure(error: E)
}
