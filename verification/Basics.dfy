/** Shared vocabulary: optional values and the instants every module counts time in. */
module Basics {

  datatype Option<+T> = None | Some(value: T) {

    /** The source's `a ?? b` and, on values that are never falsy, `a || b`. */
    function UnwrapOr(default: T): T {
      match this
      case Some(v) => v
      case None => default
    }
  }

  /** Milliseconds since the epoch, as `Date.getTime()` returns them. */
  type Instant = int

  const MS_PER_MINUTE: int := 60_000
  const MS_PER_DAY: int := 86_400_000

  function Min(a: int, b: int): int { if a <= b then a else b }

  function Max(a: int, b: int): int { if a >= b then a else b }
}
