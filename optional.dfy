/** A value that may be absent: JavaScript's `undefined`/`null` where the model needs it. */
module Optional {

  datatype Option<T> = None | Some(value: T) {

    /** The value, or `default` when absent: the `x || default` idiom on a possibly missing value. */
    function GetOr(default: T): (r: T) {
      match this
      case Some(v) => v
      case None => default
    }
  }
}
