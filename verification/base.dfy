/** Small shared vocabulary: an optional value, used wherever the source has
    `null`/`undefined` or a Go `(value, err)` pair. */
module Base {

  datatype Option<+T> = None | Some(value: T) {

    /** The carried value, or `default` when there is none (JavaScript `x || d`
        on an object-valued `x`, Go's "on error use the default"). */
    function GetOr(default: T): (r: T)
      ensures Some? ==> r == value
      ensures None? ==> r == default
    {
      match this
      case Some(v) => v
      case None => default
    }
  }

  /** The configured value when positive, otherwise the default: the
      "zero or negative means unset" rule of the Go configuration getters. */
  function PositiveOr(configured: int, default: nat): (r: nat)
    ensures configured > 0 ==> r == configured
    ensures configured <= 0 ==> r == default
  {
    if configured <= 0 then default else configured
  }
}
