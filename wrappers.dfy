/** Ruby's `nil` as an optional value. */
module Wrappers {

  datatype Option<+T> = None | Some(value: T) {

    /** The value, or `default` when this is `None`. */
    function GetOr(default: T): (r: T)
      ensures Some? ==> r == value
      ensures None? ==> r == default
    {
      match this
      case Some(v) => v
      case None => default
    }
  }

  /** String interpolation `"#{x}"`: `nil` interpolates as the empty string. */
  function Interpolate(x: Option<string>): (s: string)
    ensures x.None? ==> s == ""
    ensures x.Some? ==> s == x.value
  {
    x.GetOr("")
  }
}
