/** Which failures are retried, and the waits before (crates/agent-session/src/retry.rs). */
module RetryPolicies {
  import opened Wrappers

  const U32_MAX := 0xFFFF_FFFF
  const U64_MAX := 0xFFFF_FFFF_FFFF_FFFF
  const NANOS_PER_MILLI := 1_000_000

  /** The longest wait a duration holds, in nanoseconds. */
  const DURATION_MAX := U64_MAX * 1_000_000_000 + 999_999_999

  /** A length of time in nanoseconds. */
  type Duration = nat

  datatype Code = RateLimit | Overloaded | DeviceOffline | ContextLengthExceeded | Filtered | OtherCode

  datatype Failure = Failure(code: Code, retryAfter: Option<Duration>)

  function Least(a: nat, b: nat): nat {
    if a < b then a else b
  }

  function Power(base: nat, exponent: nat): nat {
    if exponent == 0 then 1 else base * Power(base, exponent - 1)
  }

  datatype RetryPolicy = RetryPolicy(maxAttempts: nat, baseDelay: Duration, maxDelay: Duration) {

    /** Whether the failure of an attempt, counted from 1, is retried when all it wrote can be unwound. */
    predicate Retries(attempt: nat, failure: Failure) {
      && attempt < maxAttempts
      && (failure.code.RateLimit? || failure.code.Overloaded? || failure.code.DeviceOffline?)
      && !(failure.retryAfter.Some? && failure.retryAfter.value > maxDelay)
    }

    /** What bounds the random wait after an attempt failed. */
    function Cap(attempt: nat): Duration {
      var doublings := if attempt == 0 then 0 else attempt - 1;
      Least(Least(baseDelay * Least(Power(2, doublings), U32_MAX), DURATION_MAX), maxDelay)
    }

    /** The wait after an attempt failed; `roll` is a random number. */
    function Delay(attempt: nat, retryAfter: Option<Duration>, roll: nat): Duration {
      if retryAfter.Some? then Least(retryAfter.value, maxDelay)
      else
        var capMillis := Least(Cap(attempt) / NANOS_PER_MILLI, U64_MAX);
        if capMillis == 0 then 0 else (roll % capMillis) * NANOS_PER_MILLI
    }
  }

  lemma {:induction false} PowersGrow(exponent: nat)
    ensures 1 <= Power(2, exponent) <= Power(2, exponent + 1)
  {
    if exponent > 0 { PowersGrow(exponent - 1); }
  }

  lemma {:induction false} ScaledIsLess(a: nat, b: nat, total: nat)
    requires b > 0 && a < b && b * NANOS_PER_MILLI <= total
    ensures a * NANOS_PER_MILLI < total
  {
  }

  lemma {:induction false} ARandomWaitIsBelowItsCap(policy: RetryPolicy, attempt: nat, roll: nat)
    ensures policy.Delay(attempt, None, roll) <= policy.Cap(attempt)
    ensures policy.Cap(attempt) >= NANOS_PER_MILLI ==> policy.Delay(attempt, None, roll) < policy.Cap(attempt)
  {
    var cap := policy.Cap(attempt);
    var capMillis := Least(cap / NANOS_PER_MILLI, U64_MAX);
    if capMillis > 0 { ScaledIsLess(roll % capMillis, capMillis, cap); }
  }

  lemma {:induction false} AProductGrows(base: nat, a: nat, b: nat)
    requires a <= b
    ensures base * a <= base * b
  {
  }

  lemma {:induction false} CapsGrow(policy: RetryPolicy, attempt: nat)
    ensures policy.Cap(attempt) <= policy.Cap(attempt + 1) <= policy.maxDelay
  {
    if attempt > 0 {
      PowersGrow(attempt - 1);
      AProductGrows(policy.baseDelay, Least(Power(2, attempt - 1), U32_MAX), Least(Power(2, attempt), U32_MAX));
    }
  }

  /** No wait is longer than the ceiling; a vendor's wait that is retried is kept to the full; a random
      one is below a cap that never shrinks from one attempt to the next. */
  lemma {:induction false} WaitsAreBounded(policy: RetryPolicy, attempt: nat, failure: Failure, roll: nat)
    ensures policy.Delay(attempt, failure.retryAfter, roll) <= policy.maxDelay
    ensures policy.Retries(attempt, failure) && failure.retryAfter.Some? ==>
              policy.Delay(attempt, failure.retryAfter, roll) == failure.retryAfter.value
    ensures failure.retryAfter.None? && policy.Cap(attempt) >= NANOS_PER_MILLI ==>
              policy.Delay(attempt, failure.retryAfter, roll) < policy.Cap(attempt)
    ensures policy.Cap(attempt) <= policy.Cap(attempt + 1) <= policy.maxDelay
  {
    ARandomWaitIsBelowItsCap(policy, attempt, roll);
    CapsGrow(policy, attempt);
  }

  /** As long as no number overflows, the cap is the base wait at first and doubles with each attempt up to the
      ceiling. */
  lemma {:induction false} TheCapDoubles(policy: RetryPolicy, attempt: nat)
    requires 1 <= attempt && Power(2, attempt) <= U32_MAX && policy.baseDelay * Power(2, attempt) <= DURATION_MAX
    ensures policy.Cap(1) == Least(policy.baseDelay, policy.maxDelay)
    ensures policy.Cap(attempt + 1) == Least(2 * policy.Cap(attempt), policy.maxDelay)
  {
    var (power, base) := (Power(2, attempt - 1), policy.baseDelay);
    assert Power(2, attempt) == 2 * power;
    Doubled(base, power);
    PowersGrow(attempt - 1);
    AProductGrows(base, 1, Power(2, attempt));
    AProductGrows(base, power, Power(2, attempt));
  }

  lemma {:induction false} Doubled(base: nat, power: nat)
    ensures base * (2 * power) == 2 * (base * power)
  {
  }

  lemma {:induction false} ASmallRemainder(number: nat, n: nat)
    requires number < n
    ensures number % n == number
  {
  }

  /** Without a wait of the vendor's, every whole number of milliseconds below the cap is one the wait may be. */
  lemma {:induction false} AnyWaitBelowTheCapMayCome(policy: RetryPolicy, attempt: nat, millis: nat)
    requires millis < Least(policy.Cap(attempt) / NANOS_PER_MILLI, U64_MAX)
    ensures policy.Delay(attempt, None, millis) == millis * NANOS_PER_MILLI
  {
    var cap := Least(policy.Cap(attempt) / NANOS_PER_MILLI, U64_MAX);
    ASmallRemainder(millis, cap);
    assert policy.Delay(attempt, None, millis) == (millis % cap) * NANOS_PER_MILLI;
  }
}
