/** Optional values: `None` stands for JavaScript's `undefined`/`null` or Python's `None`. */
module Wrappers {

  datatype Option<T> = None | Some(value: T)
  {
    /** The value, or `default` when there is none (`x ?? default`). */
    function GetOr(default: T): T {
      match this
      case Some(v) => v
      case None => default
    }
  }
}
