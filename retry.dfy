/**
 * Retry and circuit breaking (src/core/retry.py): the backoff delay, the
 * attempt loop of `retry_with_backoff`, the manual `RetryContext`, and the
 * closed / open / half-open circuit breaker. The wrapped call, the clock and
 * the random draw for jitter are parameters: the call as the outcome of its
 * k-th invocation, the time as `now`, the draw as `u` in [0, 1] (what
 * `random.random()` would return inside `random.uniform`).
 */
module Retry {
  import opened Common

  /** An exception, named by its class and all its base classes (what `isinstance` looks at). */
  datatype Exc = Exc(classes: set<string>)

  datatype RetryConfig = RetryConfig(
    maxAttempts: int, baseDelay: real, maxDelay: real, exponentialBase: real,
    jitter: bool, jitterFactor: real, retryable: set<string>)

  /** The defaults of `RetryConfig()`. */
  const DefaultConfig: RetryConfig :=
    RetryConfig(3, 1.0, 60.0, 2.0, true, 0.25, {"ConnectionError", "TimeoutError", "APIError"})

  predicate Retryable(cfg: RetryConfig, e: Exc)
  {
    e.classes * cfg.retryable != {}
  }

  function Pow(b: real, n: nat): real
    decreases n
  {
    if n == 0 then 1.0 else b * Pow(b, n - 1)
  }

  /** The delay before jitter: `base * exp ** attempt`, capped at `max_delay`. */
  function CappedDelay(attempt: nat, cfg: RetryConfig): real
  {
    Min(cfg.baseDelay * Pow(cfg.exponentialBase, attempt), cfg.maxDelay)
  }

  /** The jitter step and the floor at 0 of `calculate_delay`, applied to a capped delay. */
  function Jittered(delay: real, cfg: RetryConfig, u: real): (r: real)
    ensures r >= 0.0
  {
    var delay := if cfg.jitter then
                   var range := delay * cfg.jitterFactor;
                   delay + (-range + 2.0 * range * u)
                 else delay;
    if delay < 0.0 then 0.0 else delay
  }

  /** `calculate_delay`, with `u` the uniform draw used when jitter is on. */
  function CalculateDelay(attempt: nat, cfg: RetryConfig, u: real): (r: real)
    ensures r >= 0.0
  {
    Jittered(CappedDelay(attempt, cfg), cfg, u)
  }

  /**
   * Without jitter the delay is `min(base * exp ** attempt, max_delay)`,
   * floored at 0; with jitter it moves by at most the jitter fraction of
   * that (when the capped delay and the fraction are non-negative), before
   * the floor at 0.
   */
  lemma DelaySpec(attempt: nat, cfg: RetryConfig, u: real)
    requires 0.0 <= u <= 1.0
    ensures var c, r := CappedDelay(attempt, cfg), CalculateDelay(attempt, cfg, u);
            (!cfg.jitter ==> r == Max(0.0, c) && r <= Max(0.0, cfg.maxDelay)) &&
            (cfg.jitter && c >= 0.0 && cfg.jitterFactor >= 0.0 ==>
               Max(0.0, c - c * cfg.jitterFactor) <= r <= c + c * cfg.jitterFactor)
  {
    var c := CappedDelay(attempt, cfg);
    if cfg.jitter && c >= 0.0 && cfg.jitterFactor >= 0.0 {
      var range := c * cfg.jitterFactor;
      assert range >= 0.0 by { MulNonNeg(c, cfg.jitterFactor); }
      JitterWithin(range, u);
      var d := c + (-range + 2.0 * range * u);
      assert c - range <= d <= c + range;
      assert CalculateDelay(attempt, cfg, u) == if d < 0.0 then 0.0 else d;
    }
  }

  lemma MulNonNeg(a: real, b: real)
    requires a >= 0.0 && b >= 0.0
    ensures a * b >= 0.0
  {
  }

  /** A uniform draw in [-range, range]. */
  lemma JitterWithin(range: real, u: real)
    requires range >= 0.0 && 0.0 <= u <= 1.0
    ensures -range <= -range + 2.0 * range * u <= range
  {
    MulNonNeg(range, u);
    MulNonNeg(range, 1.0 - u);
  }

  /** Powers of a base of at least 1 are at least 1 and never decrease. */
  lemma {:induction false} PowGrows(b: real, n: nat)
    requires b >= 1.0
    ensures 1.0 <= Pow(b, n) <= Pow(b, n + 1)
    decreases n
  {
    if n > 0 {
      PowGrows(b, n - 1);
    }
    var p := Pow(b, n);
    assert Pow(b, n + 1) == b * p;
    MulNonNeg(b - 1.0, p);
  }

  /** Without jitter, with a base of at least 1 and a non-negative base delay, later attempts never wait less. */
  lemma DelayNonDecreasing(attempt: nat, cfg: RetryConfig, u: real)
    requires !cfg.jitter && cfg.exponentialBase >= 1.0 && cfg.baseDelay >= 0.0
    ensures CalculateDelay(attempt, cfg, u) <= CalculateDelay(attempt + 1, cfg, u)
  {
    PowGrows(cfg.exponentialBase, attempt);
    var p, q := Pow(cfg.exponentialBase, attempt), Pow(cfg.exponentialBase, attempt + 1);
    MulNonNeg(cfg.baseDelay, q - p);
  }

  /** How one call of the wrapped function ended. */
  datatype CallOutcome = Return(value: int) | Raise(exc: Exc)

  /** What the wrapper does: return, raise, or (with no attempt allowed) return None without calling. */
  datatype RetryResult = Returned(value: int) | Raised(exc: Exc) | ReturnedNone

  predicate RetryableFailure(cfg: RetryConfig, o: CallOutcome)
  {
    o.Raise? && Retryable(cfg, o.exc)
  }

  function ResultOf(o: CallOutcome): RetryResult
  {
    match o
    case Return(v) => Returned(v)
    case Raise(e) => Raised(e)
  }

  /** The delays slept after the first `k` attempts. */
  function Delays(cfg: RetryConfig, u: nat -> real, k: nat): (r: seq<real>)
    ensures |r| == k && forall j :: 0 <= j < k ==> r[j] == CalculateDelay(j, cfg, u(j))
    decreases k
  {
    if k == 0 then [] else Delays(cfg, u, k - 1) + [CalculateDelay(k - 1, cfg, u(k - 1))]
  }

  /**
   * The loop of `retry_with_backoff`'s wrapper: `call(k)` is how the k-th
   * call ends and `u(k)` the jitter draw after it. It answers the result,
   * the number of calls made and the delays slept.
   *
   * At most `max_attempts` calls are made, and none when it is below 1 (the
   * wrapper then returns None). Every call but the last ended in a
   * retryable exception, and the last is the first that returned or raised
   * a non-retryable exception, or the last allowed call; the result is that
   * call's outcome. A sleep separates each pair of consecutive calls and
   * nothing else: the j-th sleep is `calculate_delay(j)`.
   */
  method RetryWithBackoff(cfg: RetryConfig, call: nat -> CallOutcome, u: nat -> real)
    returns (result: RetryResult, calls: nat, sleeps: seq<real>)
    ensures calls == 0 <==> cfg.maxAttempts <= 0
    ensures calls == 0 ==> result == ReturnedNone && sleeps == []
    ensures calls <= cfg.maxAttempts || calls == 0
    ensures calls > 0 ==> result == ResultOf(call(calls - 1)) && sleeps == Delays(cfg, u, calls - 1)
    ensures forall j :: 0 <= j < calls - 1 ==> RetryableFailure(cfg, call(j))
    ensures 0 < calls < cfg.maxAttempts ==> !RetryableFailure(cfg, call(calls - 1))
  {
    sleeps := [];
    var lastException: Option<Exc> := None;
    var attempt := 0;
    while attempt < cfg.maxAttempts
      invariant 0 <= attempt && (attempt <= cfg.maxAttempts || attempt == 0)
      invariant forall j :: 0 <= j < attempt ==> RetryableFailure(cfg, call(j))
      invariant attempt == 0 ==> lastException == None
      invariant attempt > 0 ==> lastException == Some(call(attempt - 1).exc)
      invariant sleeps == Delays(cfg, u, if attempt > 0 && attempt == cfg.maxAttempts then attempt - 1 else attempt)
    {
      var outcome := call(attempt);
      if outcome.Return? {
        return Returned(outcome.value), attempt + 1, sleeps;
      }
      if !Retryable(cfg, outcome.exc) {
        return Raised(outcome.exc), attempt + 1, sleeps;
      }
      lastException := Some(outcome.exc);
      if attempt < cfg.maxAttempts - 1 {
        sleeps := sleeps + [CalculateDelay(attempt, cfg, u(attempt))];
      }
      attempt := attempt + 1;
    }
    calls := attempt;
    if lastException.Some? {
      result := Raised(lastException.value);
    } else {
      result := ReturnedNone;
    }
  }

  /**
   * The delay `RetryContext.wait` sleeps after `attempt` counted failures:
   * `calculate_delay(attempt - 1)`, so after k failures the same delay
   * `retry_with_backoff` sleeps after its k-th call. With no failure counted
   * the exponent is -1 and the delay `base / exp`, an error when exp is 0.
   */
  function WaitDelay(attempt: nat, cfg: RetryConfig, u: real): (r: Option<real>)
    ensures r.None? <==> attempt == 0 && cfg.exponentialBase == 0.0
    ensures r.Some? ==> r.value >= 0.0
    ensures attempt >= 1 ==> r == Some(CalculateDelay(attempt - 1, cfg, u))
  {
    if attempt >= 1 then Some(CalculateDelay(attempt - 1, cfg, u))
    else if cfg.exponentialBase == 0.0 then None
    else Some(Jittered(Min(cfg.baseDelay / cfg.exponentialBase, cfg.maxDelay), cfg, u))
  }

  /** After k counted failures, the manual context waits what the decorator's k-th sleep is. */
  lemma WaitMatchesBackoff(cfg: RetryConfig, u: nat -> real, k: nat)
    requires k >= 1
    ensures WaitDelay(k, cfg, u(k - 1)) == Some(Delays(cfg, u, k)[k - 1])
  {
  }

  /** Manual retry control: counts the retryable failures seen. */
  class RetryContext {
    const config: RetryConfig
    var attempt: nat
    var lastException: Option<Exc>
    var totalDelay: real

    constructor(config: RetryConfig)
      ensures this.config == config && attempt == 0 && lastException == None && totalDelay == 0.0
    {
      this.config := config;
      attempt := 0;
      lastException := None;
      totalDelay := 0.0;
    }

    /**
     * `wait`: sleeps the delay of the attempt before the current one and adds
     * it to the total. Before any failure is counted that is attempt -1,
     * whose delay `base / exp` raises ZeroDivisionError (None, nothing added)
     * when the exponential base is 0.
     */
    method Wait(u: real) returns (delay: Option<real>)
      modifies this`totalDelay
      ensures delay == WaitDelay(attempt, config, u)
      ensures totalDelay == old(totalDelay) + (if delay.Some? then delay.value else 0.0)
      ensures totalDelay >= old(totalDelay)
    {
      delay := WaitDelay(attempt, config, u);
      if delay.Some? {
        totalDelay := totalDelay + delay.value;
      }
    }

    /**
     * `should_retry`: a non-retryable exception answers false and changes
     * nothing; a retryable one is recorded, counted, and answers whether
     * attempts remain.
     */
    method ShouldRetry(e: Exc) returns (retry: bool)
      modifies this`attempt, this`lastException
      ensures !Retryable(config, e) ==> !retry && attempt == old(attempt) && lastException == old(lastException)
      ensures Retryable(config, e) ==>
                attempt == old(attempt) + 1 && lastException == Some(e) && retry == (attempt < config.maxAttempts)
    {
      if !Retryable(config, e) {
        return false;
      }
      lastException := Some(e);
      attempt := attempt + 1;
      retry := attempt < config.maxAttempts;
    }
  }

  // ---------------------------------------------------------------- CircuitBreaker

  datatype Phase = Closed | Open | HalfOpen

  /** The breaker's mutable state, as a value. */
  datatype Breaker = Breaker(failures: int, successes: int, phase: Phase, lastFailure: Option<real>)

  /** `self._last_failure_time and ...`: a recorded time of 0.0 counts as none. */
  predicate HasFailureTime(b: Breaker)
  {
    b.lastFailure.Some? && b.lastFailure.value != 0.0
  }

  /** The `state` property: an open breaker whose timeout has passed becomes half-open when looked at. */
  function Observe(b: Breaker, now: real, timeout: real): (r: Breaker)
    ensures r.phase == (if b.phase == Open && HasFailureTime(b) && now - b.lastFailure.value > timeout
                        then HalfOpen else b.phase)
    ensures r == b.(phase := r.phase)
  {
    if b.phase == Open && HasFailureTime(b) && now - b.lastFailure.value > timeout then b.(phase := HalfOpen) else b
  }

  /**
   * `record_success`, which reads the stored phase, not the observed one.
   * While half-open it closes the breaker, with both counts reset, exactly
   * when the successes reach the threshold; in any other stored phase, open
   * included, it only clears the failures.
   */
  function AfterSuccess(b: Breaker, successThreshold: int): (r: Breaker)
    ensures b.phase == HalfOpen ==> (r.phase == Closed <==> b.successes + 1 >= successThreshold)
    ensures b.phase == HalfOpen && r.phase == Closed ==> r.failures == 0 && r.successes == 0
    ensures b.phase == HalfOpen && r.phase != Closed ==> r == b.(successes := b.successes + 1)
    ensures b.phase != HalfOpen ==> r == b.(failures := 0)
  {
    if b.phase == HalfOpen then
      if b.successes + 1 >= successThreshold then b.(phase := Closed, failures := 0, successes := 0)
      else b.(successes := b.successes + 1)
    else b.(failures := 0)
  }

  /**
   * `record_failure` at time `now`: the failure count grows by one,
   * successes reset and the failure time is `now`. A half-open breaker
   * reopens at once, whatever the count; a closed one opens exactly when the
   * count reaches the threshold; an open one stays open.
   */
  function AfterFailure(b: Breaker, now: real, failureThreshold: int): (r: Breaker)
    ensures r.failures == b.failures + 1 && r.successes == 0 && r.lastFailure == Some(now)
    ensures b.phase == Closed ==> (r.phase == Open <==> b.failures + 1 >= failureThreshold)
    ensures b.phase == HalfOpen ==> r.phase == Open
    ensures b.phase == Open ==> r.phase == Open
  {
    var phase := if b.phase == HalfOpen || b.failures + 1 >= failureThreshold then Open else b.phase;
    Breaker(b.failures + 1, 0, phase, Some(now))
  }

  /**
   * What every reachable state satisfies: a closed breaker with failures
   * has fewer than the threshold; only a half-open breaker counts
   * successes, and fewer than its threshold; an open breaker has a failure
   * time; counts are never negative.
   */
  predicate BreakerInv(b: Breaker, failureThreshold: int, successThreshold: int)
  {
    b.failures >= 0 && b.successes >= 0 &&
    (b.phase == Closed && b.failures > 0 ==> b.failures < failureThreshold) &&
    (b.phase != HalfOpen ==> b.successes == 0) &&
    (b.phase == HalfOpen && b.successes > 0 ==> b.successes < successThreshold) &&
    (b.phase == Open ==> b.lastFailure.Some?)
  }

  const Fresh: Breaker := Breaker(0, 0, Closed, None)

  /** The three transitions keep the invariant, which holds at the start. */
  lemma BreakerInvPreserved(b: Breaker, ft: int, st: int, now: real, timeout: real)
    requires BreakerInv(b, ft, st)
    ensures BreakerInv(Fresh, ft, st)
    ensures BreakerInv(Observe(b, now, timeout), ft, st)
    ensures BreakerInv(AfterSuccess(b, st), ft, st)
    ensures BreakerInv(AfterFailure(b, now, ft), ft, st)
  {
  }

  /** `n` failures in a row from the given state. */
  function Failures(b: Breaker, now: real, ft: int, n: nat): Breaker
    decreases n
  {
    if n == 0 then b else AfterFailure(Failures(b, now, ft, n - 1), now, ft)
  }

  /** From a fresh breaker, the first `failure_threshold` straight failures leave it closed until the last opens it. */
  lemma {:induction false} ConsecutiveFailuresOpen(now: real, ft: int, n: nat)
    ensures Failures(Fresh, now, ft, n).failures == n
    ensures Failures(Fresh, now, ft, n).phase == (if n > 0 && n >= ft then Open else Closed)
    decreases n
  {
    if n > 0 {
      ConsecutiveFailuresOpen(now, ft, n - 1);
    }
  }

  /** The breaker of `CircuitBreaker`, state held in fields. */
  class CircuitBreaker {
    const failureThreshold: int
    const successThreshold: int
    const timeout: real
    var failures: int
    var successes: int
    var phase: Phase
    var lastFailureTime: Option<real>

    function Snapshot(): Breaker
      reads this
    {
      Breaker(failures, successes, phase, lastFailureTime)
    }

    predicate Valid()
      reads this
    {
      BreakerInv(Snapshot(), failureThreshold, successThreshold)
    }

    constructor(failureThreshold: int, successThreshold: int, timeout: real)
      ensures Valid() && Snapshot() == Fresh
      ensures this.failureThreshold == failureThreshold && this.successThreshold == successThreshold
      ensures this.timeout == timeout
    {
      this.failureThreshold := failureThreshold;
      this.successThreshold := successThreshold;
      this.timeout := timeout;
      failures, successes, phase, lastFailureTime := 0, 0, Closed, None;
    }

    /** The `state` property at time `now`. */
    method State(now: real) returns (s: Phase)
      requires Valid()
      modifies this
      ensures Valid() && Snapshot() == Observe(old(Snapshot()), now, timeout) && s == phase
    {
      if phase == Open && lastFailureTime.Some? && lastFailureTime.value != 0.0 &&
         now - lastFailureTime.value > timeout {
        phase := HalfOpen;
      }
      s := phase;
      BreakerInvPreserved(old(Snapshot()), failureThreshold, successThreshold, now, timeout);
    }

    /** `can_execute`: false only when the observed state is open. */
    method CanExecute(now: real) returns (ok: bool)
      requires Valid()
      modifies this
      ensures Valid() && Snapshot() == Observe(old(Snapshot()), now, timeout) && ok == (phase != Open)
    {
      var s := State(now);
      ok := s == Closed || s == HalfOpen;
    }

    method RecordSuccess()
      requires Valid()
      modifies this
      ensures Valid() && Snapshot() == AfterSuccess(old(Snapshot()), successThreshold)
    {
      if phase == HalfOpen {
        successes := successes + 1;
        if successes >= successThreshold {
          phase, failures, successes := Closed, 0, 0;
        }
      } else {
        failures := 0;
      }
      BreakerInvPreserved(old(Snapshot()), failureThreshold, successThreshold, 0.0, timeout);
    }

    method RecordFailure(now: real)
      requires Valid()
      modifies this
      ensures Valid() && Snapshot() == AfterFailure(old(Snapshot()), now, failureThreshold)
    {
      failures := failures + 1;
      successes := 0;
      lastFailureTime := Some(now);
      if phase == HalfOpen {
        phase := Open;
      } else if failures >= failureThreshold {
        phase := Open;
      }
      BreakerInvPreserved(old(Snapshot()), failureThreshold, successThreshold, now, timeout);
    }
  }
}
