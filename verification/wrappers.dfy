/** Swift optionals (`T?`), the only failure-carrying type the application uses. */
module Wrappers {

  datatype Option<T> = None | Some(value: T) {

    /** Swift's `x ?? default`. */
    function GetOr(default: T): T {
      match this
      case Some(v) => v
      case None => default
    }
  }
}
