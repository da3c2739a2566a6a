/** When a failed publish is retried, and when the job is given up. */
module RetryPolicy {

  /** The options the policy reads; `Valid` is what start-up validation enforces. */
  datatype Options = Options(maxAttempts: nat, baseMs: nat, maxMs: nat) {
    predicate Valid() {
      0 < maxAttempts && 0 < baseMs <= maxMs
    }
  }

  /** The delay before the cap: base * 2 ** exponent. */
  function Uncapped(o: Options, exponent: nat): (r: nat)
    ensures r >= o.baseMs
  {
    if exponent == 0 then o.baseMs else 2 * Uncapped(o, exponent - 1)
  }

  predicate ShouldMarkDead(o: Options, nextAttemptCount: nat) {
    nextAttemptCount >= o.maxAttempts
  }

  function DelayMs(o: Options, nextAttemptCount: nat): nat {
    var exponential := Uncapped(o, if nextAttemptCount >= 1 then nextAttemptCount - 1 else 0);
    if exponential <= o.maxMs then exponential else o.maxMs
  }

  function NextAttemptAt(o: Options, nextAttemptCount: nat, now: int): int {
    now + DelayMs(o, nextAttemptCount)
  }

  lemma {:induction false} UncappedMonotone(o: Options, a: nat, b: nat)
    requires a <= b
    ensures Uncapped(o, a) <= Uncapped(o, b)
  {
    if a < b {
      UncappedMonotone(o, a, b - 1);
    }
  }

  /** Delays stay between the base and the cap and never shrink from one attempt to a later one. */
  lemma DelaysAreBoundedAndMonotone(o: Options, a: nat, b: nat)
    requires o.Valid() && a <= b
    ensures o.baseMs <= DelayMs(o, a) <= DelayMs(o, b) <= o.maxMs
  {
    UncappedMonotone(o, if a >= 1 then a - 1 else 0, if b >= 1 then b - 1 else 0);
  }

  function Pow2(exponent: nat): nat {
    if exponent == 0 then 1 else 2 * Pow2(exponent - 1)
  }

  lemma {:induction false} UncappedIsGeometric(o: Options, exponent: nat)
    ensures Uncapped(o, exponent) == o.baseMs * Pow2(exponent)
  {
    if exponent == 0 {
    } else {
      UncappedIsGeometric(o, exponent - 1);
    }
  }

  /** The n-th delay is the smaller of the cap and the base doubled n - 1 times. */
  lemma DelayIsCappedDoubling(o: Options, n: nat)
    requires n > 0
    ensures var doubled := o.baseMs * Pow2(n - 1); DelayMs(o, n) == if doubled <= o.maxMs then doubled else o.maxMs
  {
    UncappedIsGeometric(o, n - 1);
  }

  /** The waiting time a job accumulates over its first `retries` failed publishes. */
  function TotalDelay(o: Options, retries: nat): nat {
    if retries == 0 then 0 else TotalDelay(o, retries - 1) + DelayMs(o, retries)
  }

  /**
   A job is retried at most maxAttempts - 1 times, and over `retries` of them waits no longer
   than that many caps, nor than the geometric sum base * (2 ** retries - 1); it waits exactly
   the geometric sum if and only if the last delay is still uncapped.
   */
  lemma {:induction false} LifetimeDelayBound(o: Options, retries: nat)
    requires o.Valid()
    ensures TotalDelay(o, retries) <= retries * o.maxMs
    ensures TotalDelay(o, retries) <= Uncapped(o, retries) - o.baseMs
    ensures TotalDelay(o, retries) == Uncapped(o, retries) - o.baseMs
      <==> retries == 0 || Uncapped(o, retries - 1) <= o.maxMs
  {
    if retries == 0 {
    } else {
      LifetimeDelayBound(o, retries - 1);
      assert retries * o.maxMs == (retries - 1) * o.maxMs + o.maxMs;
    }
  }
}
