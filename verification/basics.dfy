/** Definitions several of the models need. */
module Basics {
  datatype Option<+T> = None | Some(value: T)

  function Abs(x: real): (y: real)
    ensures y >= 0.0 && y >= x && y >= -x && (y == x || y == -x)
  {
    if x < 0.0 then -x else x
  }

  /** `w` brought into [0, 1]. */
  function Clamp(w: real): (c: real)
    ensures 0.0 <= c <= 1.0
  {
    if w < 0.0 then 0.0 else if w > 1.0 then 1.0 else w
  }

  /** Nothing in [0, 1] is nearer to `w`. */
  lemma ClampIsNearest(w: real, x: real)
    requires 0.0 <= x <= 1.0
    ensures Abs(Clamp(w) - w) <= Abs(x - w)
  {
  }
}
