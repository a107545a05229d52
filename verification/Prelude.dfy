/** Types shared by every module of the project. */
module Prelude {

  /** A value that may be missing: an empty field, a nil pointer or an absent row. */
  datatype Option<+T> = None | Some(value: T) {
    function GetOr(default: T): T {
      match this
      case None => default
      case Some(v) => v
    }
  }
}
