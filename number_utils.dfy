/**
 * `clamp` and `inRange` of the utility package, over the reals (`NaN` and
 * the infinities are not values of this model).
 */
module NumberUtils {
  import opened Common

  /** `clamp(n, min, max)`, that is `Math.min(Math.max(n, min), max)`. */
  function Clamp(n: real, lo: real, hi: real): (r: real)
    ensures lo <= hi ==> lo <= r <= hi
    ensures lo <= n <= hi ==> r == n
    ensures n < lo && lo <= hi ==> r == lo
    ensures n > hi ==> r == hi
    ensures lo > hi ==> r == hi
  {
    MinReal(MaxReal(n, lo), hi)
  }

  /** Clamping a second time changes nothing. */
  lemma ClampIdempotent(n: real, lo: real, hi: real)
    ensures Clamp(Clamp(n, lo, hi), lo, hi) == Clamp(n, lo, hi)
  {
  }

  /** `inRange(n, start, end)`: the half-open interval between the two bounds, whichever comes first. */
  function InRange(n: real, start: real, end: real): (b: bool)
    ensures start <= end ==> (b <==> start <= n < end)
    ensures end < start ==> (b <==> end <= n < start)
  {
    var s := MinReal(start, end);
    var e := MaxReal(start, end);
    n >= s && n < e
  }

  /** Swapping the bounds gives the same answer, and equal bounds admit nothing. */
  lemma InRangeSymmetric(n: real, start: real, end: real)
    ensures InRange(n, start, end) == InRange(n, end, start)
    ensures !InRange(n, start, start)
  {
  }

  /** Inside the range means the clamp to its closed version leaves `n` alone. */
  lemma InRangeClamped(n: real, start: real, end: real)
    requires start <= end && InRange(n, start, end)
    ensures Clamp(n, start, end) == n
  {
  }
}
