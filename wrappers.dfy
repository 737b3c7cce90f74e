/** Small failure-carrying datatypes shared by the modules of this model. */
module Wrappers {

  /** An optional value: an absent or `undefined` field of the source. */
  datatype Option<+T> = None | Some(value: T) {

    /** The value, or `default` when there is none. */
    function GetOr(default: T): T {
      match this
      case Some(v) => v
      case None => default
    }
  }
}
