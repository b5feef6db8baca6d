/** Optional values: the source's `None`, `null`, `undefined` and non-finite numbers. */
module Options {
  datatype Option<+T> = None | Some(value: T) {
    function GetOr(fallback: T): T {
      match this
      case Some(v) => v
      case None => fallback
    }
  }
}
