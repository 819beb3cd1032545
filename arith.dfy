/** `Math.sign` and `Math.abs` on the integers the core passes them. */
module Arith {

  /** `Math.sign`: -1, 0 or 1, with `Sign(v) * v` the magnitude of `v`. */
  function Sign(v: int): (s: int)
    ensures s == -1 || s == 0 || s == 1
    ensures s * v == (if v < 0 then -v else v)
  {
    if v > 0 then 1 else if v < 0 then -1 else 0
  }

  /** `Math.abs`. */
  function Abs(v: int): nat {
    if v < 0 then -v else v
  }
}
