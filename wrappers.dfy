/** Optional values and the outcome of an operation that may throw. */
module Wrappers {

  /** A value that may be absent: JavaScript's `undefined` / `null`. */
  datatype Option<+T> = None | Some(value: T) {
    function GetOr(default: T): T {
      match this
      case Some(v) => v
      case None => default
    }
  }

  /**
   * One field of `{ ...before, ...patch }` (or `Object.assign`): the value
   * the patch supplies wins, and an absent one keeps the old value.
   */
  ghost predicate Overrides<T>(patch: Option<T>, before: T, after: T)
  {
    match patch
    case Some(v) => after == v
    case None => after == before
  }

  /** The result of a JavaScript expression that either yields a value or throws. */
  datatype Result<+T> = Ok(value: T) | Threw(message: string)
}
