/**
 * The Java numeric conversions the widget relies on, stated over unbounded
 * integers and exact reals: the `(int)`/`(long)` narrowing of a floating value
 * (truncation toward zero), `Math.round` on a float (round half up) and
 * `Math.abs`.
 */
module JavaNumerics {

  /** `(int) r` / `(long) r` for a finite value in range: truncation toward zero. */
  function Trunc(r: real): (t: int)
    ensures 0.0 <= r ==> 0 <= t && t as real <= r < t as real + 1.0
    ensures r < 0.0 ==> t <= 0 && t as real - 1.0 < r <= t as real
  {
    if r >= 0.0 then r.Floor else -((-r).Floor)
  }

  /** `Math.round(r)`: the integer nearest to r, halves rounded up (floor(r + 1/2)). */
  function Round(r: real): (n: int)
    ensures r - 0.5 < n as real <= r + 0.5
  {
    (r + 0.5).Floor
  }

  /** `Math.abs(r)` */
  function Abs(r: real): (a: real)
    ensures 0.0 <= a
    ensures a == r || a == -r
  {
    if r < 0.0 then -r else r
  }
}
