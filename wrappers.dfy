/** Option values: a Python value that may be missing (a dict key that is
    absent) or a text field that did not parse (float()/int() raising
    ValueError); and what a store operation reports. */
module Wrappers {

  datatype Option<+T> = None | Some(value: T) {

    /** The value, or the given default when absent (Python's dict.get(key, default)). */
    function GetOr(default: T): T {
      match this
      case Some(v) => v
      case None => default
    }
  }

  /** What an operation reports: done, no such record, or a field that did
      not parse (the ValueError message box). */
  datatype Outcome = Saved | NotFound | InvalidData
}
