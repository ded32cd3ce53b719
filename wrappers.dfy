/** Failure-compatible wrappers: `Option` stands for a TypeScript value that may be
    `undefined` or `null`, `Result` for a call that returns or throws. */
module Wrappers {

  datatype Option<+T> = None | Some(value: T) {

    /** The `??` operator: the wrapped value, or `default` when absent. */
    function GetOr(default: T): T {
      match this
      case Some(v) => v
      case None => default
    }
  }

  datatype Result<+R, +E> = Success(value: R) | Failure(error: E)
}
