/** The optional value used wherever the source tests a condition and may
    come back with nothing: a record that does not exist, an integer that does
    not parse, a line read at end of input. */
module Wrappers {

  datatype Option<+T> = None | Some(value: T) {

    /** The value held, or `default` when there is none. */
    function GetOr(default: T): T {
      match this
      case Some(v) => v
      case None => default
    }
  }
}
