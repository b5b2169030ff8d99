/**
 * Integer square roots, standing for `int(count ** 0.5)` (floor) and
 * `ceil(sqrt(n))` on the small, exact counts the layouts use.
 */
module IntSqrt {

  /** The largest `r` with `r * r <= n`. */
  function FloorSqrt(n: nat): (r: nat)
    ensures r * r <= n < (r + 1) * (r + 1)
  {
    if n == 0 then 0
    else
      var p := FloorSqrt(n - 1);
      if (p + 1) * (p + 1) <= n then
        assert (p + 2) * (p + 2) == (p + 1) * (p + 1) + 2 * p + 3;
        p + 1
      else p
  }

  /** The smallest `r` with `r * r >= n`. */
  function CeilSqrt(n: nat): (r: nat)
    ensures n <= r * r
    ensures r == 0 || (r - 1) * (r - 1) < n
  {
    var f := FloorSqrt(n);
    if f * f == n then f else f + 1
  }
}
