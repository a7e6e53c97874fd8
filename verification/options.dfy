/** The optional values of the source: a TypeScript `undefined`/`null`
    (or an absent optional-chained field) is `None`. */
module Options {

  datatype Option<+T> = None | Some(value: T) {

    /** The value inside `Some`, or `default` when `None` (the `x || d`
        idiom on a possibly missing value). */
    function GetOr(default: T): T {
      match this
      case Some(v) => v
      case None => default
    }
  }
}
