/**
 * Optional values. A field that the application reads with a null or
 * undefined check (`x?.y`, `x ?? d`) is an `Option` in this model.
 */
module Wrappers {

  datatype Option<+T> = None | Some(value: T) {

    /** The wrapped value, or `default` when there is none. */
    function GetOr(default: T): T {
      match this
      case Some(v) => v
      case None => default
    }
  }
}
