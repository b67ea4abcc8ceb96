/** The optional value used wherever the application leaves a field or a result undefined. */
module Wrappers {

  /** `None` stands for a JavaScript `undefined` (or `null`) value. */
  datatype Option<+T> = None | Some(value: T) {

    /** The encapsulated value, or `default` when there is none. */
    function GetOr(default: T): T {
      match this
      case Some(v) => v
      case None => default
    }
  }
}
