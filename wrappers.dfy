/** Absent-or-present values and success-or-failure results, shared by every module. */
module Wrappers {

  /** `None` stands for JavaScript's `undefined` or `null`. */
  datatype Option<+T> = None | Some(value: T) {
    function GetOr(default: T): T {
      match this
      case Some(v) => v
      case None => default
    }
  }

  /** The value a node-style callback eventually receives: `callback(null, value)` or `callback(error)`. */
  datatype Result<+T, +E> = Ok(value: T) | Err(error: E)
}
