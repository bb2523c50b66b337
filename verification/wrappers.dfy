/** The optional value used wherever the editor may have "no value": a
    `parseInt` that finds no digits, or a stored record that is absent or
    cannot be parsed. */
module Wrappers {

  datatype Option<+T> = None | Some(value: T) {

    /** The value held in `Some`, or `default` when `None`. */
    function GetOr(default: T): T {
      match this
      case Some(v) => v
      case None => default
    }
  }
}
