/** Small real-number helpers shared by the transforms. */
module RealMath {

  function Abs(r: real): real {
    if r < 0.0 then -r else r
  }

  /** `Math.min` on two reals. */
  function Min(a: real, b: real): real {
    if a < b then a else b
  }
}
