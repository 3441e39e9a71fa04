/** The optional-value datatype used for Python's `Optional[...]` values and
    for the "not found" results of string searches. */
module Wrappers {

  datatype Option<+T> = None | Some(value: T) {

    /** The value, or `default` when there is none (Python's `x or default`
        for values whose only falsy form is `None`). */
    function GetOr(default: T): T {
      match this
      case Some(v) => v
      case None => default
    }
  }
}
