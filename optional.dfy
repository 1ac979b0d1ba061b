/** Options that a caller may leave out, and JavaScript's `??` / destructuring
    default that replaces a missing one. */
module Optional {

  datatype Option<T> = None | Some(value: T) {

    /** `option ?? default`. */
    function GetOr(default: T): T {
      match this
      case None => default
      case Some(v) => v
    }
  }
}
