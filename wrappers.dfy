/** Optional values and pass/fail outcomes, used for the source's missing keys,
    `None` values and raised errors. */
module Wrappers {

  datatype Option<+T> = None | Some(value: T) {
    /** The value, or `default` when absent (Python's `d.get(key, default)`). */
    function GetOr(default: T): T {
      match this
      case Some(v) => v
      case None => default
    }
  }

  /** The result of a check that either passes or raises with a message. */
  datatype Outcome<+E> = Pass | Fail(error: E)
}
