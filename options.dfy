/** The optional value used throughout the model: `None` stands for JavaScript's
    `undefined` (an absent field, an unset environment variable, a failed lookup). */
module Options {

  datatype Option<+T> = None | Some(value: T) {

    /** The contained value, or `default` when there is none. */
    function GetOr(default: T): T {
      match this
      case Some(v) => v
      case None => default
    }
  }
}
