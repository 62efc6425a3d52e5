/** An optional value: JavaScript's `undefined`/`null` for fields that may be absent. */
module Optional {

  datatype Option<+T> = None | Some(value: T) {

    /** The value, or `default` when absent: the source's `(v || default)` for non-falsy defaults. */
    function GetOr(default: T): T {
      match this
      case Some(v) => v
      case None => default
    }
  }

  /** JavaScript truthiness of an optional boolean flag: `undefined` and `false` are both falsy. */
  predicate Truthy(flag: Option<bool>) {
    flag == Some(true)
  }
}
