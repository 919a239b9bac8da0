/** The optional value used wherever the source reads a field that may be absent
    (`undefined`, `null`) or a value that may fail to parse (`NaN`). */
module Wrappers {

  datatype Option<+T> = None | Some(value: T) {

    /** The value, or `default` when there is none (JavaScript's `x || default` on arrays). */
    function GetOr(default: T): T {
      match this
      case Some(v) => v
      case None => default
    }
  }
}
