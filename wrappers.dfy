/** A value that may be absent: the model's rendering of a C string pointer
    that can be NULL, or of a definition / property lookup that can fail. */
module Wrappers {

  datatype Option<+T> = None | Some(value: T) {

    /** The held value, or `default` when there is none. */
    function GetOr(default: T): T {
      match this
      case Some(v) => v
      case None => default
    }
  }
}
