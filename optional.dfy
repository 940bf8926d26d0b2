/** A value that may be absent: JavaScript's `undefined`/`null` for an optional field or argument. */
module Optional {

  datatype Option<+T> = None | Some(value: T) {

    /** The value, or `default` when absent: a destructured parameter default such as `skip = 0`. */
    function GetOr(default: T): T {
      match this
      case Some(v) => v
      case None => default
    }
  }
}
