/** Retry backoff and the circuit breaker. Seconds are reals. */
module Reliability {
  import opened Outcomes

  datatype RetryPolicy = RetryPolicy(
    maxAttempts: int,
    initial: real,
    maximum: real,
    multiplier: real,
    jitterRatio: real,
    retryableStatus: set<int>)

  /** `RetryPolicy.__post_init__` */
  predicate ValidPolicy(p: RetryPolicy)
  {
    p.maxAttempts >= 1 && 0.0 <= p.initial <= p.maximum && p.multiplier >= 1.0 && p.jitterRatio >= 0.0
  }

  function Pow(x: real, n: nat): real
  {
    if n == 0 then 1.0 else x * Pow(x, n - 1)
  }

  function Exponent(attempt: nat): nat
  {
    if attempt <= 1 then 0 else attempt - 1
  }

  function BaseDelay(p: RetryPolicy, attempt: nat): real
  {
    var grown := p.initial * Pow(p.multiplier, Exponent(attempt));
    if grown < p.maximum then grown else p.maximum
  }

  /** `delay_for_attempt`; `draw` is the uniform draw from between minus and plus the jitter. */
  function Delay(p: RetryPolicy, attempt: nat, draw: real): real
  {
    var base := BaseDelay(p, attempt);
    if base <= 0.0 || p.jitterRatio == 0.0 then base
    else if base + draw < 0.0 then 0.0 else base + draw
  }

  /** The least power a double cannot hold, rounding included: 2^1024 less half the spacing below it. */
  const FLOAT_OVERFLOW: real := Pow(2.0, 1024) - Pow(2.0, 970)

  /** The least number of seconds whose nanoseconds do not fit the platform's 64-bit clock. */
  const SLEEP_OVERFLOW: real := 9223372036.854775808

  /** Waiting raises an `OverflowError`: the power of the backoff overflows, before it is capped, or the delay is no valid sleep. */
  predicate CannotWait(p: RetryPolicy, attempt: nat, draw: real)
  {
    Pow(p.multiplier, Exponent(attempt)) >= FLOAT_OVERFLOW || Delay(p, attempt, draw) >= SLEEP_OVERFLOW
  }

  predicate FairDraw(p: RetryPolicy, attempt: nat, draw: real)
  {
    -(BaseDelay(p, attempt) * p.jitterRatio) <= draw <= BaseDelay(p, attempt) * p.jitterRatio
  }

  lemma {:induction false} PowGrows(x: real, n: nat)
    requires x >= 1.0
    ensures 1.0 <= Pow(x, n) <= Pow(x, n + 1)
  {
    if n > 0 {
      PowGrows(x, n - 1);
    }
  }

  lemma BaseGrows(p: RetryPolicy, i: nat)
    requires ValidPolicy(p)
    ensures 0.0 <= BaseDelay(p, i) <= BaseDelay(p, i + 1)
  {
    var x, y := Pow(p.multiplier, Exponent(i)), Pow(p.multiplier, Exponent(i + 1));
    PowGrows(p.multiplier, Exponent(i));
  }

  /** Backoff bases do not decrease from one retry to the next, and never exceed the cap. */
  lemma {:induction false} BaseIsMonotoneAndCapped(p: RetryPolicy, i: nat, j: nat)
    requires ValidPolicy(p) && i <= j
    ensures 0.0 <= BaseDelay(p, i) <= BaseDelay(p, j) <= p.maximum
    decreases j - i
  {
    BaseGrows(p, i);
    if i < j {
      BaseIsMonotoneAndCapped(p, i + 1, j);
    }
  }

  /** The first base is the initial delay, and each further one the multiplier times the one before, up to the cap. */
  lemma BaseIsMultiplied(p: RetryPolicy, n: nat)
    requires ValidPolicy(p) && n >= 1
    ensures BaseDelay(p, 1) == p.initial
    ensures BaseDelay(p, n + 1) == var grown := BaseDelay(p, n) * p.multiplier; if grown < p.maximum then grown else p.maximum
  {
    var power := Pow(p.multiplier, Exponent(n));
    assert Pow(p.multiplier, Exponent(n + 1)) == p.multiplier * power;
    Regrouped(p.initial, p.multiplier, power);
    if p.initial * power >= p.maximum {
      CapStays(p.maximum, p.multiplier);
      CapStays(p.initial * power, p.multiplier);
    }
  }

  lemma Regrouped(a: real, b: real, c: real)
    ensures a * (b * c) == (a * c) * b
  {
  }

  lemma CapStays(x: real, m: real)
    requires x >= 0.0 && m >= 1.0
    ensures x * m >= x
  {
  }

  /** A delay lies within the jitter around its base, and is never negative; it is base and draw together unless that is negative. */
  lemma DelayIsBounded(p: RetryPolicy, attempt: nat, draw: real)
    requires ValidPolicy(p) && FairDraw(p, attempt, draw)
    ensures var base := BaseDelay(p, attempt);
            && Delay(p, attempt, draw) >= 0.0
            && base * (1.0 - p.jitterRatio) <= Delay(p, attempt, draw) <= base * (1.0 + p.jitterRatio)
            && Delay(p, attempt, draw) <= p.maximum * (1.0 + p.jitterRatio)
            && (base + draw >= 0.0 ==> Delay(p, attempt, draw) == base + draw)
  {
    var base := BaseDelay(p, attempt);
    BaseIsMonotoneAndCapped(p, attempt, attempt);
    assert base * (1.0 + p.jitterRatio) == base + base * p.jitterRatio;
    assert base * (1.0 - p.jitterRatio) == base - base * p.jitterRatio;
  }

  /** The breaker's two fields. */
  datatype BreakerState = BreakerState(failureCount: nat, openedAt: Option<real>)

  datatype BreakerConfig = BreakerConfig(threshold: int, recovery: real)

  predicate ValidConfig(c: BreakerConfig)
  {
    c.threshold >= 1 && c.recovery >= 0.0
  }

  /** `before_call` lets the call through. */
  predicate Admits(c: BreakerConfig, b: BreakerState, now: real)
  {
    b.openedAt.Some? ==> now - b.openedAt.value >= c.recovery
  }

  function AfterSuccess(b: BreakerState): BreakerState
  {
    BreakerState(0, None)
  }

  function AfterFailure(c: BreakerConfig, b: BreakerState, now: real): BreakerState
  {
    var n := b.failureCount + 1;
    BreakerState(n, if n >= c.threshold then Some(now) else b.openedAt)
  }

  /** What is recorded at a breaker. */
  datatype Record = Succeeded | FailedAt(time: real)

  class CircuitBreaker {
    const config: BreakerConfig
    var failureCount: nat
    var openedAt: Option<real>
    /** Everything recorded so far, oldest first. */
    ghost var records: seq<Record>

    constructor (config: BreakerConfig)
      ensures this.config == config && State() == BreakerState(0, None) && records == []
    {
      this.config := config;
      failureCount, openedAt, records := 0, None, [];
    }

    function State(): BreakerState
      reads this
    {
      BreakerState(failureCount, openedAt)
    }

    method BeforeCall(now: real) returns (r: Result<()>)
      ensures r == if Admits(config, State(), now) then Ok(()) else Err(RateLimited)
    {
      if openedAt.None? {
        return Ok(());
      }
      var elapsed := now - openedAt.value;
      if elapsed >= config.recovery {
        return Ok(());
      }
      r := Err(RateLimited);
    }

    method RecordSuccess()
      modifies this
      ensures State() == AfterSuccess(old(State())) && records == old(records) + [Succeeded]
    {
      records := records + [Succeeded];
      failureCount := 0;
      openedAt := None;
    }

    method RecordFailure(now: real)
      modifies this
      ensures State() == AfterFailure(config, old(State()), now) && records == old(records) + [FailedAt(now)]
    {
      records := records + [FailedAt(now)];
      failureCount := failureCount + 1;
      if failureCount >= config.threshold {
        openedAt := Some(now);
      }
    }
  }
}
