/** Option, the one failure-compatible wrapper the model needs: an absent
    storage key, an optional target sentence, a regular-expression miss. */
module Wrappers {

  datatype Option<+T> = None | Some(value: T) {

    /** The wrapped value, or `default` when there is none. */
    function GetOr(default: T): T {
      match this
      case Some(v) => v
      case None => default
    }
  }
}
