/** Optional values: JavaScript's `undefined` / `null` / `NaN` form fields and
    the result of a `find` that may come back empty. */
module Options {

  datatype Option<+T> = None | Some(value: T) {

    /** The value, or `default` when there is none (JavaScript's `x ?? default`). */
    function GetOr(default: T): T {
      match this
      case Some(v) => v
      case None => default
    }
  }
}
