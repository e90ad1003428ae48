/** A value that may be missing: a JavaScript property that is `undefined`
    (or `null`), or a call that throws instead of returning. */
module Optional {

  datatype Option<+T> = None | Some(value: T) {

    /** The wrapped value, or `default` when there is none (a destructuring default). */
    function GetOr(default: T): T {
      match this
      case Some(v) => v
      case None => default
    }
  }
}
