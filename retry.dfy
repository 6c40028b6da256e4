/**
 * The start-up back-off schedule of cmd/forwardarr/retry.go. Durations are Go
 * `time.Duration` values: signed 64-bit counts of nanoseconds. Typing them as
 * `Duration` makes the verifier check that the doubling never overflows.
 */
module Retry {

  const MinDuration: int := -0x8000_0000_0000_0000
  const MaxDuration: int := 0x7FFF_FFFF_FFFF_FFFF

  /** Go's `time.Duration`. */
  type Duration = d: int | MinDuration <= d <= MaxDuration

  const Second: Duration := 1_000_000_000

  /** `base` doubled `n` times: base * 2^n. */
  function Doubled(base: int, n: nat): (d: int)
    ensures base > 0 ==> d >= base
  {
    if n == 0 then base else 2 * Doubled(base, n - 1)
  }

  lemma {:induction false} DoubledMonotone(base: int, m: nat, n: nat)
    requires base > 0 && m <= n
    ensures Doubled(base, m) <= Doubled(base, n)
  {
    if m < n {
      DoubledMonotone(base, m, n - 1);
    }
  }

  /**
   * The back-off schedule in closed form: no delay for invalid input; the whole
   * remaining budget once a doubling step (the delays base, 2*base, ...,
   * base * 2^(attempt-2)) has passed half of it; otherwise base * 2^(attempt-1),
   * capped at the budget.
   */
  function BackoffDelay(attempt: int, base: int, remaining: int): (d: int)
  {
    if attempt < 1 || base <= 0 || remaining <= 0 then 0
    else if attempt >= 2 && Doubled(base, attempt - 2) > remaining / 2 then remaining
    else if Doubled(base, attempt - 1) > remaining then remaining
    else Doubled(base, attempt - 1)
  }

  /** `exponentialBackoffDelay`: doubles `base` up to `attempt - 1` times, stopping early at the caps. */
  method ExponentialBackoffDelay(attempt: int, base: Duration, remaining: Duration) returns (d: Duration)
    ensures d == BackoffDelay(attempt, base, remaining)
  {
    if attempt < 1 || base <= 0 || remaining <= 0 {
      return 0;
    }
    var delay: Duration := base;
    for i := 1 to attempt
      invariant delay == Doubled(base, i - 1)
      invariant i >= 2 ==> Doubled(base, i - 2) <= remaining / 2
    {
      if delay >= remaining {
        DoubledMonotone(base, i - 1, attempt - 2);
        return remaining;
      }
      if delay > remaining / 2 {
        DoubledMonotone(base, i - 1, attempt - 2);
        return remaining;
      }
      delay := delay * 2;
    }
    if delay > remaining {
      return remaining;
    }
    return delay;
  }

  /** Invalid input, and only invalid input, yields no delay. */
  lemma BackoffZeroIffInvalid(attempt: int, base: int, remaining: int)
    ensures BackoffDelay(attempt, base, remaining) == 0 <==> attempt < 1 || base <= 0 || remaining <= 0
    ensures BackoffDelay(attempt, base, remaining) >= 0
  {
  }

  /** The delay never exceeds the remaining budget. */
  lemma BackoffWithinBudget(attempt: int, base: int, remaining: int)
    ensures BackoffDelay(attempt, base, remaining) <= if remaining > 0 then remaining else 0
  {
  }

  /**
   * When no cap fires (no step before the last passed half the budget, and the
   * final delay fits in it), the delay is exactly base * 2^(attempt-1).
   */
  lemma BackoffUncapped(attempt: int, base: int, remaining: int)
    requires attempt >= 1 && base > 0 && remaining > 0
    requires attempt >= 2 ==> Doubled(base, attempt - 2) <= remaining / 2
    requires Doubled(base, attempt - 1) <= remaining
    ensures BackoffDelay(attempt, base, remaining) == Doubled(base, attempt - 1)
  {
  }

  /** Once any doubling step has passed half the budget, the result is the whole budget. */
  lemma BackoffHalfCap(attempt: int, base: int, remaining: int, step: int)
    requires base > 0 && remaining > 0 && 1 <= step < attempt
    requires Doubled(base, step - 1) > remaining / 2
    ensures BackoffDelay(attempt, base, remaining) == remaining
  {
    DoubledMonotone(base, step - 1, attempt - 2);
  }

  /** A delay shorter than the budget was not capped, so it is at least the base delay. */
  lemma BackoffShortIsUncapped(attempt: int, base: int, remaining: int)
    requires 0 < BackoffDelay(attempt, base, remaining) < remaining
    ensures BackoffDelay(attempt, base, remaining) == Doubled(base, attempt - 1)
    ensures BackoffDelay(attempt, base, remaining) >= base
  {
    DoubledMonotone(base, 0, attempt - 1);
  }

  /** The values of retry_test.go: 5s, 10s, 20s, 40s in a minute; the two caps; the invalid inputs. */
  lemma BackoffExamples()
    ensures BackoffDelay(1, 5 * Second, 60 * Second) == 5 * Second
    ensures BackoffDelay(2, 5 * Second, 60 * Second) == 10 * Second
    ensures BackoffDelay(3, 5 * Second, 60 * Second) == 20 * Second
    ensures BackoffDelay(4, 5 * Second, 60 * Second) == 40 * Second
    ensures BackoffDelay(3, 5 * Second, 12 * Second) == 12 * Second
    ensures BackoffDelay(1, 5 * Second, 3 * Second) == 3 * Second
    ensures BackoffDelay(0, 5 * Second, 60 * Second) == 0
    ensures BackoffDelay(1, 0, 60 * Second) == 0
    ensures BackoffDelay(1, 5 * Second, 0) == 0
  {
    assert Doubled(5 * Second, 1) == 10 * Second;
    assert Doubled(5 * Second, 2) == 20 * Second;
    assert Doubled(5 * Second, 3) == 40 * Second;
  }

  /** The attempt count that `calculateMaxAttempts` reaches from `attempts` with `remaining` budget left. */
  function MaxAttemptsFrom(attempts: nat, base: int, remaining: int): (n: nat)
    requires attempts >= 1
    ensures n >= attempts
    decreases remaining
  {
    var sleep := BackoffDelay(attempts, base, remaining);
    if sleep <= 0 || sleep >= remaining then attempts
    else MaxAttemptsFrom(attempts + 1, base, remaining - sleep)
  }

  /** The attempts the start-up loop would make if every attempt failed instantly. */
  function MaxAttempts(base: int, timeout: int): (n: nat)
    ensures n >= 1
  {
    if base <= 0 || timeout <= 0 then 1 else MaxAttemptsFrom(1, base, timeout)
  }

  /** `calculateMaxAttempts`: replays the schedule against a shrinking budget. */
  method CalculateMaxAttempts(baseDelay: Duration, timeout: Duration) returns (n: nat)
    ensures n == MaxAttempts(baseDelay, timeout)
    ensures n >= 1
  {
    if baseDelay <= 0 || timeout <= 0 {
      return 1;
    }
    var attempts: nat := 1;
    var remaining: Duration := timeout;
    while true
      invariant attempts >= 1 && remaining > 0
      invariant MaxAttemptsFrom(attempts, baseDelay, remaining) == MaxAttempts(baseDelay, timeout)
      decreases remaining
    {
      var sleep := ExponentialBackoffDelay(attempts, baseDelay, remaining);
      if sleep <= 0 || sleep >= remaining {
        return attempts;
      }
      remaining := remaining - sleep;
      attempts := attempts + 1;
    }
  }

  /** Every counted sleep is at least the base delay and all of them fit in the budget: (n - a) * base < remaining. */
  lemma {:induction false} MaxAttemptsFromBound(attempts: nat, base: int, remaining: int)
    requires attempts >= 1 && base > 0 && remaining > 0
    ensures (MaxAttemptsFrom(attempts, base, remaining) - attempts) * base < remaining
    decreases remaining
  {
    var sleep := BackoffDelay(attempts, base, remaining);
    if 0 < sleep < remaining {
      BackoffShortIsUncapped(attempts, base, remaining);
      var n := MaxAttemptsFrom(attempts + 1, base, remaining - sleep);
      MaxAttemptsFromBound(attempts + 1, base, remaining - sleep);
      BoundStep(n - (attempts + 1), base, remaining, sleep);
    } else {
      assert MaxAttemptsFrom(attempts, base, remaining) - attempts == 0;
    }
  }

  /** One more sleep of at least `base` still fits in the budget it was cut from. */
  lemma BoundStep(k: int, base: int, remaining: int, sleep: int)
    requires base > 0 && sleep >= base && k * base < remaining - sleep
    ensures (k + 1) * base < remaining
  {
  }

  /** The attempt count is at least one, and at most one more than the number of base delays that fit in the timeout. */
  lemma MaxAttemptsBound(base: int, timeout: int)
    requires base > 0 && timeout > 0
    ensures 1 <= MaxAttempts(base, timeout)
    ensures (MaxAttempts(base, timeout) - 1) * base < timeout
  {
    MaxAttemptsFromBound(1, base, timeout);
  }

  /** The values of retry_test.go. */
  lemma MaxAttemptsExamples()
    ensures MaxAttempts(5 * Second, 120 * Second) == 5
    ensures MaxAttempts(5 * Second, 3 * Second) == 1
    ensures MaxAttempts(10 * Second, 15 * Second) == 2
    ensures MaxAttempts(5 * Second, 45 * Second) == 4
    ensures MaxAttempts(0, 60 * Second) == 1
    ensures MaxAttempts(5 * Second, 0) == 1
  {
    var s := Second;
    assert Doubled(5 * s, 1) == 10 * s && Doubled(5 * s, 2) == 20 * s && Doubled(5 * s, 3) == 40 * s;
    assert Doubled(10 * s, 1) == 20 * s;
    assert MaxAttemptsFrom(5, 5 * s, 45 * s) == 5;
    assert MaxAttemptsFrom(4, 5 * s, 85 * s) == 5;
    assert MaxAttemptsFrom(3, 5 * s, 105 * s) == 5;
    assert MaxAttemptsFrom(2, 5 * s, 115 * s) == 5;
    assert MaxAttemptsFrom(2, 10 * s, 5 * s) == 2;
    assert MaxAttemptsFrom(4, 5 * s, 10 * s) == 4;
    assert MaxAttemptsFrom(3, 5 * s, 30 * s) == 4;
    assert MaxAttemptsFrom(2, 5 * s, 40 * s) == 4;
  }
}
