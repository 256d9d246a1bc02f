/** Scalar helpers the rules are written with: `between`, `sign`, `Math.min`/`max` and the `| 0` truncation. */
module Helpers {

  function Min(a: real, b: real): (r: real)
    ensures r <= a && r <= b && (r == a || r == b)
  {
    if a < b then a else b
  }

  function Max(a: real, b: real): (r: real)
    ensures r >= a && r >= b && (r == a || r == b)
  {
    if a > b then a else b
  }

  function Abs(a: real): (r: real)
    ensures r >= 0.0 && (r == a || r == -a)
  {
    if a < 0.0 then -a else a
  }

  /** `between(lo, hi, x)`: `x` clamped into `[lo, hi]`. */
  function Clamp(lo: real, hi: real, x: real): (r: real)
    requires lo <= hi
    ensures lo <= r <= hi
    ensures lo <= x <= hi ==> r == x
    ensures x < lo ==> r == lo
    ensures x > hi ==> r == hi
  {
    if x < lo then lo else if x > hi then hi else x
  }

  /** `sign(x)` as -1, 0 or 1. */
  function Sign(x: real): (r: int)
    ensures r == -1 || r == 0 || r == 1
    ensures r as real * x == Abs(x)
    ensures (r == 0) == (x == 0.0) && (r == 1) == (x > 0.0)
  {
    if x > 0.0 then 1 else if x < 0.0 then -1 else 0
  }

  /** `x | 0` on a value in the 32-bit range: the integer part, truncated toward zero. */
  function Trunc(x: real): (r: int)
    ensures Abs(x - r as real) < 1.0
    ensures x >= 0.0 ==> 0 <= r && r as real <= x
    ensures x < 0.0 ==> r <= 0 && x <= r as real
  {
    if x >= 0.0 then x.Floor else -((-x).Floor)
  }

  lemma {:induction false} ClampMonotone(lo: real, hi: real, x: real, y: real)
    requires lo <= hi && x <= y
    ensures Clamp(lo, hi, x) <= Clamp(lo, hi, y)
  {
  }
}
