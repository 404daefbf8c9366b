/** The closed / open / half-open breaker (internal/service/circuit_breaker.go).

    `beforeCall` and `afterCall` are two separate locked sections, each reading the clock inside the
    lock; any other calls may come between them. The functions are the specification of the class. */
module CircuitBreaker {
  import opened Domain

  datatype Config = Config(threshold: int, timeout: Time) {
    predicate Valid() {
      threshold >= 1 && timeout >= 1
    }
  }

  /** `openUntil == None` is the zero time: the breaker is not open. */
  datatype Breaker = Breaker(failures: int, openUntil: Option<Time>, halfOpenCall: bool)

  const CLOSED := Breaker(0, None, false)

  predicate Admits(b: Breaker, now: Time) {
    b.openUntil.None? || (now >= b.openUntil.value && !b.halfOpenCall)
  }

  function Before(b: Breaker, now: Time): Breaker {
    if b.openUntil.Some? && Admits(b, now) then b.(halfOpenCall := true) else b
  }

  function After(c: Config, b: Breaker, now: Time, failed: bool): Breaker {
    if !failed then CLOSED
    else
      Breaker(
        b.failures + 1,
        if b.failures + 1 >= c.threshold then Some(now + c.timeout) else b.openUntil,
        false)
  }

  class CircuitBreaker {
    const enabled: bool
    const config: Config
    var failures: int
    var openUntil: Option<Time>
    var halfOpenCall: bool

    ghost function Abstract(): Breaker
      reads this
    {
      Breaker(failures, openUntil, halfOpenCall)
    }

    /** Non-positive settings fall back to 5 failures and 30 seconds; times are in nanoseconds. */
    constructor (enabled: bool, threshold: int, timeout: Time)
      ensures this.enabled == enabled && config.Valid() && Abstract() == CLOSED
      ensures config.threshold == (if threshold <= 0 then 5 else threshold)
      ensures config.timeout == (if timeout <= 0 then 30_000_000_000 else timeout)
    {
      this.enabled := enabled;
      config := Config(if threshold <= 0 then 5 else threshold, if timeout <= 0 then 30_000_000_000 else timeout);
      failures, openUntil, halfOpenCall := 0, None, false;
    }

    method BeforeCall(now: Time) returns (admitted: bool)
      modifies this
      ensures admitted == Admits(old(Abstract()), now)
      ensures Abstract() == Before(old(Abstract()), now)
    {
      if openUntil.None? {
        return true;
      }
      if now < openUntil.value {
        return false;
      }
      if halfOpenCall {
        return false;
      }
      halfOpenCall := true;
      return true;
    }

    method AfterCall(now: Time, failed: bool)
      modifies this
      ensures Abstract() == After(config, old(Abstract()), now, failed)
    {
      if !failed {
        failures := 0;
        openUntil := None;
        halfOpenCall := false;
        return;
      }
      halfOpenCall := false;
      failures := failures + 1;
      if failures >= config.threshold {
        openUntil := Some(now + config.timeout);
      }
    }
  }
}
