/** The outcome of a lookup that may find nothing. */
module Wrappers {

  datatype Option<+T> = None | Some(value: T) {

    function UnwrapOr(default: T): T
    {
      match this
      case Some(v) => v
      case None => default
    }
  }
}
