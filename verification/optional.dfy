/** An optional value: the model's stand-in for a JavaScript field that may be
    `null` or `undefined`. */
module Optional {

  datatype Option<+T> = None | Some(value: T) {

    /** The value, or `default` when absent: the `x ?? default` operator. */
    function GetOr(default: T): T {
      match this
      case Some(v) => v
      case None => default
    }
  }
}
