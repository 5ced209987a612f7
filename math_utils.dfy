/** The numeric helpers the controllers use: JavaScript's `Math.abs`,
    `Math.min`, `Math.max`, and three.js's `MathUtils.clamp` and
    `MathUtils.lerp`, over real numbers (floating point is not modelled). */
module MathUtils {

  function Abs(x: real): real {
    if x < 0.0 then -x else x
  }

  function Min(a: real, b: real): real {
    if a <= b then a else b
  }

  function Max(a: real, b: real): real {
    if a >= b then a else b
  }

  /** `MathUtils.clamp(v, lo, hi)`, which three.js computes as
      `Math.max(lo, Math.min(hi, v))`; when the bounds are inverted the
      lower bound wins. */
  function Clamp(v: real, lo: real, hi: real): (r: real)
    ensures lo <= hi ==> lo <= r <= hi
    ensures lo <= v <= hi ==> r == v
    ensures hi < lo ==> r == lo
  {
    Max(lo, Min(hi, v))
  }

  /** The same clamp on integers, used for lane indices. */
  function ClampInt(v: int, lo: int, hi: int): (r: int)
    ensures lo <= hi ==> lo <= r <= hi
    ensures lo <= v <= hi ==> r == v
    ensures v < lo ==> r == lo
    ensures lo <= hi < v ==> r == hi
  {
    var m := if hi <= v then hi else v;
    if lo >= m then lo else m
  }

  /** `MathUtils.lerp(x, y, t)`: `(1 - t) * x + t * y`. */
  function Lerp(x: real, y: real, t: real): real {
    (1.0 - t) * x + t * y
  }

  /** Interpolating is moving from `x` by the fraction `t` of the way to `y`. */
  lemma LerpIsOffset(x: real, y: real, t: real)
    ensures Lerp(x, y, t) == x + t * (y - x)
  {
    assert (1.0 - t) * x == x - t * x;
    assert t * (y - x) == t * y - t * x;
  }

  /** A fraction of a quantity lies between zero and the quantity. */
  lemma ScaleByFraction(t: real, d: real)
    requires 0.0 <= t <= 1.0
    ensures d >= 0.0 ==> 0.0 <= t * d <= d
    ensures d <= 0.0 ==> d <= t * d <= 0.0
  {
    assert d - t * d == (1.0 - t) * d;
  }

  /** Clamping into an interval never moves a point that starts inside it
      farther than the displacement applied to it. */
  lemma ClampIsNonExpansive(x: real, d: real, lo: real, hi: real)
    requires lo <= x <= hi
    ensures Abs(Clamp(x + d, lo, hi) - x) <= Abs(d)
  {
  }
}
