/**
 * `ExponentialBackoffStrategy`: the wait before retry number `attempt` is
 * `base * 2^(attempt-1)` plus a jitter drawn from `[0, base)`, capped at `max`.
 * The jitter (`Math.random() * base`) is an input.
 */
module Retry {
  import opened Common

  datatype Backoff = Backoff(base: real, max: real)

  /** The constructor: `base` defaults to 200 ms and `max` to 8000 ms. */
  function NewBackoff(base: Option<real>, max: Option<real>): (b: Backoff)
    ensures base.None? ==> b.base == 200.0
    ensures max.None? ==> b.max == 8000.0
    ensures base.Some? ==> b.base == base.value
    ensures max.Some? ==> b.max == max.value
  {
    Backoff(if base.Some? then base.value else 200.0, if max.Some? then max.value else 8000.0)
  }

  /** `2 ** e` for any integer exponent. */
  function Pow2(e: int): (r: real)
    ensures r > 0.0
    decreases if e < 0 then -e else e
  {
    if e == 0 then 1.0 else if e > 0 then 2.0 * Pow2(e - 1) else Pow2(e + 1) / 2.0
  }

  /** The un-jittered wait before retry number `attempt`: `base * 2^(attempt-1)`. */
  function Exponential(b: Backoff, attempt: int): real {
    b.base * Pow2(attempt - 1)
  }

  /** `nextDelay(attempt)` with `jitter` standing for `Math.random() * base`. */
  function NextDelay(b: Backoff, attempt: int, jitter: real): (r: real)
    ensures r <= b.max
    ensures r == b.max || r == Exponential(b, attempt) + jitter
  {
    MinReal(Exponential(b, attempt) + jitter, b.max)
  }

  /** With a jitter in `[0, base)` the wait is at least the un-jittered delay (or `max`). */
  lemma NextDelayBounds(b: Backoff, attempt: int, jitter: real)
    requires 0.0 <= jitter < b.base
    ensures MinReal(Exponential(b, attempt), b.max) <= NextDelay(b, attempt, jitter)
    ensures NextDelay(b, attempt, jitter) < MinReal(Exponential(b, attempt), b.max) + b.base
  {
    var x := Exponential(b, attempt);
    var r := NextDelay(b, attempt, jitter);
    assert r == MinReal(x + jitter, b.max);
    if x + jitter <= b.max {
      assert r == x + jitter;
      assert MinReal(x, b.max) == x;
    } else {
      assert r == b.max;
    }
  }

  lemma {:induction false} Pow2Monotone(d: int, e: int)
    requires d <= e
    ensures Pow2(d) <= Pow2(e)
    decreases e - d
  {
    if d < e {
      Pow2Monotone(d, e - 1);
      Pow2Step(e - 1);
    }
  }

  lemma Pow2Step(e: int)
    ensures Pow2(e + 1) == 2.0 * Pow2(e)
    decreases if e < 0 then -e else e
  {
    if e < -1 {
      Pow2Step(e + 1);
    }
  }

  /** For a fixed jitter and a non-negative base the wait never shrinks from one attempt to the next. */
  lemma NextDelayMonotone(b: Backoff, a1: int, a2: int, jitter: real)
    requires b.base >= 0.0 && a1 <= a2
    ensures NextDelay(b, a1, jitter) <= NextDelay(b, a2, jitter)
  {
    ExponentialMonotone(b, a1, a2);
    MinMonotone(Exponential(b, a1) + jitter, Exponential(b, a2) + jitter, b.max);
  }

  lemma ExponentialMonotone(b: Backoff, a1: int, a2: int)
    requires b.base >= 0.0 && a1 <= a2
    ensures Exponential(b, a1) <= Exponential(b, a2)
  {
    Pow2Monotone(a1 - 1, a2 - 1);
    ScaleMonotone(b.base, Pow2(a1 - 1), Pow2(a2 - 1));
  }

  lemma ScaleMonotone(c: real, x: real, y: real)
    requires c >= 0.0 && x <= y
    ensures c * x <= c * y
  {
    assert c * y - c * x == c * (y - x);
  }

  lemma MinMonotone(x: real, y: real, m: real)
    requires x <= y
    ensures MinReal(x, m) <= MinReal(y, m)
  {
  }

  /** Below the cap, each further attempt doubles the un-jittered part. */
  lemma NextDelayDoubles(b: Backoff, attempt: int, jitter: real)
    requires NextDelay(b, attempt + 1, jitter) < b.max
    ensures NextDelay(b, attempt + 1, jitter) - jitter == 2.0 * Exponential(b, attempt)
  {
    Pow2Step(attempt - 1);
    assert Exponential(b, attempt + 1) == b.base * (2.0 * Pow2(attempt - 1));
  }
}
