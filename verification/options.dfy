/** The optional value JavaScript expresses with `undefined` or `null`. */
module Options {

  datatype Option<+T> = None | Some(value: T) {

    /** The carried value, or `default` when absent (JavaScript's `x || default`). */
    function GetOr(default: T): T {
      match this
      case Some(v) => v
      case None => default
    }
  }
}
