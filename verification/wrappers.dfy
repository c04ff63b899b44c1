// Values that may be missing: a Go nil pointer, an invalid sql.NullTime, or
// sql.ErrNoRows.
module Wrappers {
  datatype Option<+T> = None | Some(value: T) {
    function GetOr(default: T): (r: T) {
      match this
      case Some(v) => v
      case None => default
    }
  }
}
