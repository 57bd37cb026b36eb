/** Optional values: JavaScript's `undefined` / `null` next to a present value. */
module Wrappers {

  datatype Option<+T> = None | Some(value: T)
  {
    /** The value when present, otherwise `default` (the `x ?? default` of the source). */
    function GetOr(default: T): T
    {
      match this
      case Some(v) => v
      case None => default
    }
  }
}
