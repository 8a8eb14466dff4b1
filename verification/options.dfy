/** Optional configuration values. An absent element of the motor's
    description keeps the default the caller supplies. */
module Options {

  datatype Option<+T> = None | Some(value: T) {

    /** The wrapped value, or `default` when absent. This is how a
        parameter lookup with a fallback value behaves. */
    function GetOr(default: T): (r: T)
      ensures Some? ==> r == value
      ensures None? ==> r == default
    {
      match this
      case Some(v) => v
      case None => default
    }
  }
}
