/** Retry delays in 64-bit nanoseconds, and the budget both retry loops live on. */
module Backoff {

  const MAX_INT64 := 0x7fff_ffff_ffff_ffff

  /** Two's complement wrap-around of Go's signed 64-bit arithmetic. */
  function Wrap64(x: int): (r: int)
    ensures -MAX_INT64 - 1 <= r <= MAX_INT64
    ensures -MAX_INT64 - 1 <= x <= MAX_INT64 ==> r == x
  {
    (x + MAX_INT64 + 1) % 0x1_0000_0000_0000_0000 - MAX_INT64 - 1
  }

  function Min(a: int, b: int): int {
    if a < b then a else b
  }

  function NextBackoffDelay(delay: int, maxInterval: int): int {
    if delay <= 0 then 0
    else if maxInterval > 0 && delay > maxInterval then maxInterval
    else
      var next := Wrap64(delay * 2);
      if maxInterval > 0 && next > maxInterval then maxInterval else next
  }

  /** The update at the end of `retryWithBackoff`. */
  function RetryDelay(delay: int, maxInterval: int): int {
    var doubled := Wrap64(delay * 2);
    if doubled > maxInterval then maxInterval else doubled
  }

  /** A positive delay within the limit doubles up to the limit exactly when doubling fits in 64 bits. */
  lemma DoublesUnlessOverflow(delay: int, maxInterval: int)
    requires 0 < delay <= maxInterval <= MAX_INT64
    ensures NextBackoffDelay(delay, maxInterval) == Min(2 * delay, maxInterval) <==> 2 * delay <= MAX_INT64
  {
    if 2 * delay > MAX_INT64 {
      assert Wrap64(delay * 2) == 2 * delay - 0x1_0000_0000_0000_0000;
    }
  }

  /** Beyond that the delay collapses: half the range doubles to the smallest negative value, then to zero. */
  lemma OverflowCollapses()
    ensures NextBackoffDelay(0x4000_0000_0000_0000, MAX_INT64) == -MAX_INT64 - 1
    ensures forall delay, maxInterval :: delay <= 0 ==> NextBackoffDelay(delay, maxInterval) == 0
  {
    assert Wrap64(0x8000_0000_0000_0000) == -MAX_INT64 - 1;
  }

  /** Positive intervals with room for one doubling. */
  predicate Sound(initial: int, maxInterval: int) {
    0 < initial <= MAX_INT64 && 0 < maxInterval <= MAX_INT64 / 2
  }

  /** The delay in front of retry `n`. */
  function Delay(initial: int, maxInterval: int, n: nat): int {
    if n == 0 then initial else NextBackoffDelay(Delay(initial, maxInterval, n - 1), maxInterval)
  }

  function Pow2(n: nat): (r: nat)
    ensures r >= 1
  {
    if n == 0 then 1 else 2 * Pow2(n - 1)
  }

  lemma Grows(initial: int, n: nat)
    requires initial > 0
    ensures initial * Pow2(n) >= initial
    ensures n > 0 ==> initial * Pow2(n) == 2 * (initial * Pow2(n - 1))
  {
    var p := Pow2(n);
    assert initial * p >= initial * 1;
    if n > 0 {
      var q := Pow2(n - 1);
      assert p == 2 * q;
      assert initial * (2 * q) == 2 * (initial * q);
    }
  }

  /** In closed form. The very first delay alone is not cut to the limit. */
  lemma {:induction false} DelayIsClamped(initial: int, maxInterval: int, n: nat)
    requires Sound(initial, maxInterval)
    ensures n >= 1 ==> Delay(initial, maxInterval, n) == Min(initial * Pow2(n), maxInterval)
    ensures Delay(initial, maxInterval, n) >= Min(initial, maxInterval)
    ensures Delay(initial, maxInterval, n) <= if n == 0 then initial else maxInterval
  {
    hide Wrap64, Pow2;
    if n > 0 {
      DelayIsClamped(initial, maxInterval, n - 1);
      var before := Delay(initial, maxInterval, n - 1);
      Grows(initial, n);
      Grows(initial, n - 1);
      if before <= maxInterval {
        DoublesUnlessOverflow(before, maxInterval);
      }
      if n == 1 {
        PowZero();
      }
    }
  }

  lemma PowZero()
    ensures Pow2(0) == 1
  {
  }

  /** The two loops delay alike. */
  lemma LoopsDelayAlike(delay: int, maxInterval: int)
    requires 0 < delay <= MAX_INT64 && 0 < maxInterval <= MAX_INT64 / 2
    ensures delay <= MAX_INT64 / 2 ==> RetryDelay(delay, maxInterval) == NextBackoffDelay(delay, maxInterval)
    ensures delay > MAX_INT64 / 2 ==> RetryDelay(delay, maxInterval) < 0 < NextBackoffDelay(delay, maxInterval)
  {
    if delay > MAX_INT64 / 2 {
      assert Wrap64(delay * 2) == delay * 2 - 0x1_0000_0000_0000_0000;
    }
  }

  /** From half the range on, the second loop's delay turns negative, then zero, and stays zero: it sleeps no more. */
  lemma RetryDelayCollapses(maxInterval: int)
    requires 0 < maxInterval <= MAX_INT64
    ensures RetryDelay(0x4000_0000_0000_0000, maxInterval) == -MAX_INT64 - 1
    ensures RetryDelay(-MAX_INT64 - 1, maxInterval) == 0 && RetryDelay(0, maxInterval) == 0
  {
    assert Wrap64(0x8000_0000_0000_0000) == -MAX_INT64 - 1;
    assert Wrap64(-0x1_0000_0000_0000_0000) == 0;
  }

  /** Requested sleep in front of attempt `n + 1`. */
  function Slept(initial: int, maxInterval: int, n: nat): int {
    if n == 0 then 0 else Slept(initial, maxInterval, n - 1) + Delay(initial, maxInterval, n - 1)
  }

  lemma {:induction false} SleptAtLeast(initial: int, maxInterval: int, n: nat)
    requires Sound(initial, maxInterval)
    ensures Slept(initial, maxInterval, n) >= n * Min(initial, maxInterval)
  {
    hide Delay, Min, Sound, Pow2;
    var unit := Min(initial, maxInterval);
    if n > 0 {
      SleptAtLeast(initial, maxInterval, n - 1);
      DelayIsClamped(initial, maxInterval, n - 1);
      OneMore(n, unit);
    } else {
      assert n * unit == 0;
    }
  }

  lemma OneMore(n: nat, unit: int)
    ensures n * unit == (n - 1) * unit + unit
  {
  }

  /** A budget that covers `n` delays bounds `n`. */
  lemma RetriesAreBounded(initial: int, maxInterval: int, budget: int, n: nat)
    requires Sound(initial, maxInterval) && Slept(initial, maxInterval, n) <= budget
    ensures n <= budget / Min(initial, maxInterval)
  {
    hide Slept;
    SleptAtLeast(initial, maxInterval, n);
    QuotientBound(n, Min(initial, maxInterval), budget);
  }

  lemma QuotientBound(n: nat, unit: int, budget: int)
    requires unit > 0 && n * unit <= budget
    ensures n <= budget / unit
  {
    var q, r := budget / unit, budget % unit;
    assert budget == q * unit + r && r < unit;
    if n >= q + 1 {
      Monotone(q + 1, n, unit);
    }
  }

  lemma Monotone(a: int, b: int, unit: int)
    requires a <= b && unit > 0
    ensures a * unit <= b * unit
  {
    assert (b - a) * unit >= 0;
  }

  datatype RetryPolicy = RetryPolicy(initialInterval: int, maxInterval: int, maxElapsedTime: int)

  /** In front of every retry the budget still covers, the clock has advanced by at least the sleep that was
      requested, and its sum with the next delay fits in 64 bits. */
  ghost predicate Ticks(policy: RetryPolicy, clock: nat -> int) {
    forall n: nat :: Slept(policy.initialInterval, policy.maxInterval, n) <= policy.maxElapsedTime ==>
      && Slept(policy.initialInterval, policy.maxInterval, n) <= clock(n)
      && clock(n) + Delay(policy.initialInterval, policy.maxInterval, n) <= MAX_INT64
  }

  function SleptClock(policy: RetryPolicy): nat -> int {
    (n: nat) => Slept(policy.initialInterval, policy.maxInterval, n)
  }

  /** The clock that counts nothing but the sleep is such a clock, if the configured durations leave room. */
  lemma TicksCanBeMet(policy: RetryPolicy)
    requires Sound(policy.initialInterval, policy.maxInterval)
    requires policy.maxElapsedTime + policy.initialInterval + policy.maxInterval <= MAX_INT64
    ensures Ticks(policy, SleptClock(policy))
  {
    hide Slept, Delay, Min;
    var initial, limit := policy.initialInterval, policy.maxInterval;
    forall n: nat | Slept(initial, limit, n) <= policy.maxElapsedTime
      ensures SleptClock(policy)(n) + Delay(initial, limit, n) <= MAX_INT64
    {
      DelayIsClamped(initial, limit, n);
    }
  }

  /** One more turn of the loop: the time check does not wrap, and the next delay is the closed form's. */
  lemma OneMoreRetry(policy: RetryPolicy, clock: nat -> int, n: nat)
    requires Sound(policy.initialInterval, policy.maxInterval) && Ticks(policy, clock)
    requires Slept(policy.initialInterval, policy.maxInterval, n) <= policy.maxElapsedTime
    ensures var delay := Delay(policy.initialInterval, policy.maxInterval, n);
      && delay > 0 && Wrap64(clock(n) + delay) == clock(n) + delay
      && Slept(policy.initialInterval, policy.maxInterval, n) <= clock(n)
      && Delay(policy.initialInterval, policy.maxInterval, n + 1) == NextBackoffDelay(delay, policy.maxInterval)
      && Slept(policy.initialInterval, policy.maxInterval, n + 1)
         == Slept(policy.initialInterval, policy.maxInterval, n) + delay
      && (policy.initialInterval <= MAX_INT64 / 2 ==>
            RetryDelay(delay, policy.maxInterval) == NextBackoffDelay(delay, policy.maxInterval))
  {
    hide Wrap64, NextBackoffDelay, RetryDelay;
    var delay := Delay(policy.initialInterval, policy.maxInterval, n);
    DelayIsClamped(policy.initialInterval, policy.maxInterval, n);
    SleptAtLeast(policy.initialInterval, policy.maxInterval, n);
    Monotone(0, n, Min(policy.initialInterval, policy.maxInterval));
    assert Slept(policy.initialInterval, policy.maxInterval, n) <= clock(n);
    LoopsDelayAlike(delay, policy.maxInterval);
  }

  /** Where a retry loop stands in front of attempt `attempts`, and where the next delay takes it. */
  lemma NextRetry(policy: RetryPolicy, clock: nat -> int, attempts: nat, delay: int, slept: int)
    requires Sound(policy.initialInterval, policy.maxInterval) && Ticks(policy, clock) && attempts >= 1
    requires delay == Delay(policy.initialInterval, policy.maxInterval, attempts - 1)
    requires slept == Slept(policy.initialInterval, policy.maxInterval, attempts - 1) <= policy.maxElapsedTime
    ensures delay > 0 && slept <= clock(attempts - 1) && Wrap64(clock(attempts - 1) + delay) == clock(attempts - 1) + delay
    ensures NextBackoffDelay(delay, policy.maxInterval) == Delay(policy.initialInterval, policy.maxInterval, attempts)
    ensures slept + delay == Slept(policy.initialInterval, policy.maxInterval, attempts)
    ensures attempts <= 1 + policy.maxElapsedTime / Min(policy.initialInterval, policy.maxInterval)
  {
    hide Wrap64, NextBackoffDelay, RetryDelay, Delay, Slept, Ticks, Min, Sound;
    RetriesAreBounded(policy.initialInterval, policy.maxInterval, policy.maxElapsedTime, attempts - 1);
    OneMoreRetry(policy, clock, attempts - 1);
  }

  datatype AttemptResult = Success | Retry | Fatal

  lemma FirstDelay(initial: int, maxInterval: int)
    ensures Delay(initial, maxInterval, 0) == initial && Slept(initial, maxInterval, 0) == 0
  {
  }

  /** `retryWithBackoff`: `clock(n)` is the time since the start when attempt `n + 1` has failed. */
  method RetryWithBackoff(policy: RetryPolicy, operation: nat -> AttemptResult, clock: nat -> int)
    returns (ok: bool, attempts: nat, slept: int)
    requires Sound(policy.initialInterval, policy.maxInterval) && 0 < policy.maxElapsedTime <= MAX_INT64
    requires policy.initialInterval <= MAX_INT64 / 2 || policy.initialInterval > policy.maxElapsedTime
    requires Ticks(policy, clock)
    ensures attempts >= 1 && slept == Slept(policy.initialInterval, policy.maxInterval, attempts - 1)
    ensures slept <= policy.maxElapsedTime
    ensures attempts <= 1 + policy.maxElapsedTime / Min(policy.initialInterval, policy.maxInterval)
    ensures forall n :: 1 <= n < attempts ==> operation(n) == Retry
    ensures ok <==> operation(attempts) == Success
    ensures operation(attempts) == Retry ==>
      clock(attempts - 1) + Delay(policy.initialInterval, policy.maxInterval, attempts - 1) > policy.maxElapsedTime
  {
    hide Wrap64, NextBackoffDelay, RetryDelay, Delay, Ticks, Min;
    ghost var initial, limit := policy.initialInterval, policy.maxInterval;
    FirstDelay(initial, limit);
    var delay := policy.initialInterval;
    attempts, slept, ok := 1, 0, false;
    while true
      invariant attempts >= 1 && delay == Delay(initial, limit, attempts - 1)
      invariant slept == Slept(initial, limit, attempts - 1) <= policy.maxElapsedTime
      invariant forall n :: 1 <= n < attempts ==> operation(n) == Retry
      invariant attempts > 1 ==> policy.initialInterval <= MAX_INT64 / 2
      decreases policy.maxElapsedTime - slept
    {
      RetriesAreBounded(initial, limit, policy.maxElapsedTime, attempts - 1);
      OneMoreRetry(policy, clock, attempts - 1);
      match operation(attempts) {
        case Success =>
          ok := true;
          return;
        case Fatal =>
          return;
        case Retry =>
      }
      if Wrap64(clock(attempts - 1) + delay) > policy.maxElapsedTime {
        return;
      }
      slept := slept + delay;
      delay := RetryDelay(delay, policy.maxInterval);
      attempts := attempts + 1;
    }
  }
}
