/** The per-client token bucket with lazy eviction (internal/http/rate_limit.go).

    Times and durations are real seconds, keys are opaque. `Allow` is one locked section: its
    timestamp was read before the lock was taken, so timestamps may run backwards from one
    section to the next. The pure functions at the top are the specification of the class below;
    with `evict == false` they describe the reference limiter that never forgets a bucket. */
module RateLimiter {

  type Key = string

  datatype Config = Config(rate: real, burst: nat, ttl: real, interval: real) {
    predicate Valid() {
      rate > 0.0 && burst >= 1 && ttl > 0.0 && interval > 0.0
    }

    function Capacity(): real {
      burst as real
    }
  }

  datatype Bucket = Bucket(tokens: real, last: real, lastSeen: real)

  datatype State = State(buckets: map<Key, Bucket>, lastCleanup: real)

  function Init(start: real): State {
    State(map[], start)
  }

  predicate Stale(c: Config, b: Bucket, now: real) {
    now - b.lastSeen >= c.ttl
  }

  function Evict(c: Config, s: State, now: real): State {
    State(map k | k in s.buckets && !Stale(c, s.buckets[k], now) :: s.buckets[k], now)
  }

  /** The lazy cleanup at the head of every call. */
  function Prepare(c: Config, evict: bool, s: State, now: real): State {
    if evict && now - s.lastCleanup >= c.interval then Evict(c, s, now) else s
  }

  /** What flows in at `rate` over `span` seconds. */
  function Flow(rate: real, span: real): real {
    rate * span
  }

  /** A bucket after the time up to `now` has been credited to it. */
  function Refill(c: Config, b: Bucket, now: real): Bucket {
    if now - b.last > 0.0 then
      var filled := b.tokens + Flow(c.rate, now - b.last);
      Bucket(if filled > c.Capacity() then c.Capacity() else filled, now, now)
    else
      b.(lastSeen := now)
  }

  /** The decision for `key`, and the state it leaves, once the cleanup is done. */
  function Decide(c: Config, s: State, key: Key, now: real): (State, bool) {
    if key !in s.buckets then
      (s.(buckets := s.buckets[key := Bucket(c.Capacity() - 1.0, now, now)]), true)
    else
      var b := Refill(c, s.buckets[key], now);
      if b.tokens < 1.0 then
        (s.(buckets := s.buckets[key := b]), false)
      else
        (s.(buckets := s.buckets[key := b.(tokens := b.tokens - 1.0)]), true)
  }

  function Serve(c: Config, evict: bool, s: State, key: Key, now: real): (State, bool) {
    Decide(c, Prepare(c, evict, s, now), key, now)
  }

  class RateLimiter {
    const config: Config
    var lastCleanup: real
    var buckets: map<Key, Bucket>

    ghost function Abstract(): State
      reads this
    {
      State(buckets, lastCleanup)
    }

    /** Non-positive settings fall back to the defaults, so every limiter is valid. */
    constructor (rate: real, burst: int, ttl: real, interval: real, now: real)
      ensures config.Valid()
      ensures rate <= 0.0 ==> config.rate == 1.0
      ensures burst <= 0 ==> config.burst == 1
      ensures ttl <= 0.0 ==> config.ttl == 300.0
      ensures interval <= 0.0 ==> config.interval == 60.0
      ensures rate > 0.0 ==> config.rate == rate
      ensures burst > 0 ==> config.burst == burst
      ensures ttl > 0.0 ==> config.ttl == ttl
      ensures interval > 0.0 ==> config.interval == interval
      ensures Abstract() == Init(now)
    {
      config := Config(
        if rate <= 0.0 then 1.0 else rate,
        if burst <= 0 then 1 else burst,
        if ttl <= 0.0 then 300.0 else ttl,
        if interval <= 0.0 then 60.0 else interval);
      lastCleanup := now;
      buckets := map[];
    }

    method Allow(key: Key, now: real) returns (ok: bool)
      modifies this
      ensures (Abstract(), ok) == Serve(config, true, old(Abstract()), key, now)
    {
      if now - lastCleanup >= config.interval {
        Cleanup(now);
      }
      if key !in buckets {
        buckets := buckets[key := Bucket(config.Capacity() - 1.0, now, now)];
        return true;
      }
      var bucket := buckets[key];
      var elapsed := now - bucket.last;
      if elapsed > 0.0 {
        bucket := bucket.(tokens := bucket.tokens + elapsed * config.rate);
        if bucket.tokens > config.Capacity() {
          bucket := bucket.(tokens := config.Capacity());
        }
        bucket := bucket.(last := now);
      }
      bucket := bucket.(lastSeen := now);
      assert bucket == Refill(config, buckets[key], now);
      if bucket.tokens < 1.0 {
        buckets := buckets[key := bucket];
        return false;
      }
      buckets := buckets[key := bucket.(tokens := bucket.tokens - 1.0)];
      return true;
    }

    /** Visits the resident keys in an arbitrary order and deletes the stale ones. */
    method Cleanup(now: real)
      modifies this
      ensures Abstract() == Evict(config, old(Abstract()), now)
    {
      var pending := buckets.Keys;
      while pending != {}
        invariant pending <= buckets.Keys <= old(buckets).Keys
        invariant forall k :: k in buckets ==> buckets[k] == old(buckets)[k]
        invariant forall k :: k in old(buckets) && k !in pending ==>
                    (k in buckets <==> !Stale(config, old(buckets)[k], now))
        invariant lastCleanup == old(lastCleanup)
        decreases pending
      {
        var key :| key in pending;
        pending := pending - {key};
        if now - buckets[key].lastSeen >= config.ttl {
          buckets := buckets - {key};
        }
      }
      lastCleanup := now;
    }
  }
}
