/** Optional values and success-or-error results, used by every other module. */
module Wrappers {

  /** A value that may be absent (TypeScript's `T | null` / `T | undefined`). */
  datatype Option<+T> = None | Some(value: T) {
    function GetOr(default: T): T {
      match this
      case Some(v) => v
      case None => default
    }
  }

  /** The outcome of an operation that either yields a value or throws an error. */
  datatype Result<+T, +E> = Ok(value: T) | Err(error: E)
}
