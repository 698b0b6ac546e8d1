/**
 * `retry` and the `Result` constructors of the utility package. The
 * function being retried is an oracle: call number `i` (from 0) settles
 * with `fn(i)`. The sleeps between attempts are recorded as a list of
 * delays instead of being awaited.
 */
module PromiseUtils {
  import opened Common

  /** How one call of the retried function settles. */
  datatype Attempt<T, E> = Resolved(value: T) | Rejected(error: E)

  /** How `retry` settles; a rejection with `None` is the `undefined` thrown when there was no attempt. */
  datatype Settled<T, E> = Fulfilled(value: T) | Thrown(error: Option<E>)

  /** All calls before `n` were rejected. */
  ghost predicate FailedBefore<T, E>(fn: nat -> Attempt<T, E>, n: nat) {
    forall j :: 0 <= j < n ==> fn(j).Rejected?
  }

  /**
   * `retry(fn, times, delayMs)`: call `fn` until it resolves, at most `times`
   * times, sleeping `delayMs` between two failed calls but not after the last.
   */
  method Retry<T, E>(fn: nat -> Attempt<T, E>, times: int, delayMs: int) returns (r: Settled<T, E>, calls: nat, sleeps: seq<int>)
    ensures calls <= (if times > 0 then times else 0)
    ensures calls == 0 || FailedBefore(fn, calls - 1)
    ensures r.Fulfilled? ==> calls >= 1 && fn(calls - 1) == Resolved(r.value)
    ensures r.Thrown? ==> FailedBefore(fn, calls) && calls == (if times > 0 then times else 0)
    ensures r.Thrown? && times <= 0 ==> r.error == None
    ensures r.Thrown? && times > 0 ==> r.error == Some(fn(times - 1).error)
    ensures |sleeps| == (if calls == 0 then 0 else calls - 1)
    ensures forall k :: 0 <= k < |sleeps| ==> sleeps[k] == delayMs
  {
    var lastErr: Option<E> := None;
    sleeps := [];
    calls := 0;
    var i := 0;
    while i < times
      invariant 0 <= i && (times > 0 ==> i <= times) && (times <= 0 ==> i == 0)
      invariant calls == i
      invariant FailedBefore(fn, i)
      invariant i == 0 ==> lastErr == None
      invariant i > 0 ==> lastErr == Some(fn(i - 1).error)
      invariant |sleeps| == (if i < times then i else if i == 0 then 0 else i - 1)
      invariant forall k :: 0 <= k < |sleeps| ==> sleeps[k] == delayMs
      decreases times - i
    {
      var outcome := fn(i);
      calls := calls + 1;
      if outcome.Resolved? {
        return Fulfilled(outcome.value), calls, sleeps;
      }
      lastErr := Some(outcome.error);
      if i < times - 1 {
        sleeps := sleeps + [delayMs];
      }
      i := i + 1;
    }
    r := Thrown(lastErr);
  }

  /** The default of `times`. */
  const DefaultTimes := 3
  /** The default of `delayMs`. */
  const DefaultDelayMs := 300

  /**
   * `retry(fn, times?, delayMs?)`: an omitted (`undefined`) argument takes its
   * default, so a call with neither makes at most three calls and sleeps
   * 300 ms between them.
   */
  method RetryWithDefaults<T, E>(fn: nat -> Attempt<T, E>, times: Option<int>, delayMs: Option<int>)
    returns (r: Settled<T, E>, calls: nat, sleeps: seq<int>)
    ensures times.None? ==> calls <= DefaultTimes && |sleeps| < DefaultTimes
    ensures times.None? && r.Thrown? ==> calls == DefaultTimes && FailedBefore(fn, DefaultTimes) && r.error == Some(fn(DefaultTimes - 1).error)
    ensures r.Fulfilled? ==> calls >= 1 && fn(calls - 1) == Resolved(r.value) && FailedBefore(fn, calls - 1)
    ensures times.Some? ==> calls <= (if times.value > 0 then times.value else 0)
    ensures forall k :: 0 <= k < |sleeps| ==> sleeps[k] == delayMs.GetOr(DefaultDelayMs)
  {
    r, calls, sleeps := Retry(fn, times.GetOr(DefaultTimes), delayMs.GetOr(DefaultDelayMs));
  }

  // ---- Result ----

  /** `Result<T, E>`: `{ ok: true, value }` or `{ ok: false, error }`. */
  datatype Result<T, E> = Ok(value: T) | Err(error: E) {
    predicate IsOk() { this.Ok? }
  }

  /** `ok(value)`. */
  function MakeOk<T, E>(value: T): (r: Result<T, E>)
    ensures r.IsOk() && r.value == value
  {
    Ok(value)
  }

  /** `err(error)`. */
  function MakeErr<T, E>(error: E): (r: Result<T, E>)
    ensures !r.IsOk() && r.error == error
  {
    Err(error)
  }
}
