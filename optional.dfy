/** The absent-or-present value used wherever the application tests a lookup
    result (`find`, a missing record key) before using it. */
module Optional {

  datatype Option<+T> = None | Some(value: T) {

    /** The value, or `default` when there is none. */
    function GetOr(default: T): T {
      match this
      case Some(v) => v
      case None => default
    }
  }
}
