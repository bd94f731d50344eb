/** Real-number helpers shared by the spectrum and the banding. */
module Reals {

  /** Absolute value, Python's `abs` on a number. */
  function Abs(x: real): (a: real)
    ensures a >= 0.0 && (a == x || a == -x)
  {
    if x < 0.0 then -x else x
  }
}
