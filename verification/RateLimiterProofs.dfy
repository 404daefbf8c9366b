/** Properties of whole call sequences against the token bucket: when forgetting idle buckets is
    unobservable, what bound on admissions survives when it is not, and how long buckets stay. */
module RateLimiterProofs {
  import opened RateLimiter

  /** One `allow` section, in lock order. */
  datatype Call = Call(key: Key, now: real)

  function Run(c: Config, evict: bool, s: State, calls: seq<Call>): State
    decreases calls
  {
    if calls == [] then s
    else Run(c, evict, Serve(c, evict, s, calls[0].key, calls[0].now).0, calls[1..])
  }

  function Answers(c: Config, evict: bool, s: State, calls: seq<Call>): (r: seq<bool>)
    ensures |r| == |calls|
    decreases calls
  {
    if calls == [] then []
    else
      var (s', ok) := Serve(c, evict, s, calls[0].key, calls[0].now);
      [ok] + Answers(c, evict, s', calls[1..])
  }

  /** Every timestamp is at most `d` below the largest one before it in lock order, the reading
      taken at construction included. `d == 0.0` is a monotone clock. */
  ghost predicate WithinSkew(d: real, start: real, calls: seq<Call>) {
    && (forall j :: 0 <= j < |calls| ==> calls[j].now >= start - d)
    && (forall i, j :: 0 <= i < j < |calls| ==> calls[j].now >= calls[i].now - d)
  }

  function Max(x: real, y: real): real {
    if x >= y then x else y
  }

  // The only facts about products the proofs below use; they keep `Flow` itself hidden.

  lemma FlowMono(r: real, x: real, y: real)
    requires r >= 0.0 && x <= y
    ensures Flow(r, x) <= Flow(r, y)
  {
    assert r * (y - x) >= 0.0;
  }

  lemma FlowZero(r: real)
    ensures Flow(r, 0.0) == 0.0
  {
  }

  lemma FlowSum(r: real, x: real, y: real)
    ensures Flow(r, x + y) == Flow(r, x) + Flow(r, y)
  {
  }

  lemma FlowFaster(r: real, r': real, x: real)
    requires r <= r' && x >= 0.0
    ensures Flow(r, x) <= Flow(r', x)
  {
    assert (r' - r) * x >= 0.0;
  }

  lemma RunConcat(c: Config, evict: bool, s: State, a: seq<Call>, b: seq<Call>)
    ensures Run(c, evict, s, a + b) == Run(c, evict, Run(c, evict, s, a), b)
    ensures Answers(c, evict, s, a + b) == Answers(c, evict, s, a) + Answers(c, evict, Run(c, evict, s, a), b)
    decreases a
  {
    if a == [] {
      assert a + b == b;
    } else {
      assert (a + b)[1..] == a[1..] + b;
      RunConcat(c, evict, Serve(c, evict, s, a[0].key, a[0].now).0, a[1..], b);
    }
  }

  // ---------------------------------------------------------------------------------------
  // Eviction is unobservable exactly when an evicted bucket must have been able to refill
  // ---------------------------------------------------------------------------------------

  /** What holds of a bucket when `high` is the largest timestamp so far and skew is at most `d`. */
  ghost predicate Sound(c: Config, d: real, high: real, b: Bucket) {
    && 0.0 <= b.tokens <= c.Capacity()
    && b.lastSeen <= b.last <= b.lastSeen + d
    && b.last <= high
  }

  /** The bucket will be full at the next timestamp that can reach it. */
  ghost predicate WillBeFull(c: Config, d: real, high: real, b: Bucket) {
    Flow(c.rate, high - d - b.last) >= c.Capacity()
  }

  /** The simulation: the evicting limiter holds a part of the buckets the other one holds, and
      those it has forgotten have refilled. */
  ghost predicate Simulates(c: Config, d: real, high: real, e: State, k: State) {
    && (forall x :: x in e.buckets ==> x in k.buckets && k.buckets[x] == e.buckets[x])
    && (forall x :: x in k.buckets ==> Sound(c, d, high, k.buckets[x]))
    && (forall x :: x in k.buckets && x !in e.buckets ==> WillBeFull(c, d, high, k.buckets[x]))
  }

  lemma FullRefill(c: Config, b: Bucket, now: real)
    requires c.Valid() && b.tokens >= 0.0 && Flow(c.rate, now - b.last) >= c.Capacity()
    ensures Refill(c, b, now) == Bucket(c.Capacity(), now, now)
  {
    hide Flow;
    if now - b.last <= 0.0 {
      FlowMono(c.rate, now - b.last, 0.0);
      FlowZero(c.rate);
    }
  }

  lemma RefillSound(c: Config, d: real, high: real, b: Bucket, now: real)
    requires c.Valid() && d >= 0.0 && Sound(c, d, high, b) && now >= high - d
    ensures Sound(c, d, Max(high, now), Refill(c, b, now))
    ensures WillBeFull(c, d, high, b) ==> Refill(c, b, now) == Bucket(c.Capacity(), now, now)
  {
    hide Flow;
    if now - b.last > 0.0 {
      FlowMono(c.rate, 0.0, now - b.last);
      FlowZero(c.rate);
    }
    if WillBeFull(c, d, high, b) {
      FlowMono(c.rate, high - d - b.last, now - b.last);
      FullRefill(c, b, now);
    }
  }

  lemma StaysFull(c: Config, d: real, high: real, high': real, b: Bucket)
    requires c.Valid() && high <= high' && WillBeFull(c, d, high, b)
    ensures WillBeFull(c, d, high', b)
  {
    hide Flow;
    FlowMono(c.rate, high - d - b.last, high' - d - b.last);
  }

  lemma EvictedIsFull(c: Config, d: real, b: Bucket, high: real, now: real)
    requires c.Valid() && Flow(c.rate, c.ttl - 2.0 * d) >= c.Capacity()
    requires Sound(c, d, high, b) && Stale(c, b, now)
    ensures WillBeFull(c, d, Max(high, now), b)
  {
    hide Flow;
    FlowMono(c.rate, c.ttl - 2.0 * d, Max(high, now) - d - b.last);
  }

  lemma PrepareSimulates(c: Config, d: real, high: real, e: State, k: State, now: real)
    requires c.Valid() && d >= 0.0 && Flow(c.rate, c.ttl - 2.0 * d) >= c.Capacity()
    requires Simulates(c, d, high, e, k)
    ensures var e' := Prepare(c, true, e, now);
            && (forall x :: x in e'.buckets ==> x in k.buckets && k.buckets[x] == e'.buckets[x])
            && (forall x :: x in k.buckets && x !in e'.buckets ==> WillBeFull(c, d, Max(high, now), k.buckets[x]))
  {
    hide Flow;
    var e' := Prepare(c, true, e, now);
    forall x | x in k.buckets && x !in e'.buckets
      ensures WillBeFull(c, d, Max(high, now), k.buckets[x])
    {
      if x in e.buckets {
        EvictedIsFull(c, d, k.buckets[x], high, now);
      } else {
        StaysFull(c, d, high, Max(high, now), k.buckets[x]);
      }
    }
  }

  /** The decisions of two limiters agree if they are taken on equal buckets, or the one that has been
      forgotten is full. */
  lemma DecisionsAgree(c: Config, e: State, k: State, key: Key, now: real)
    requires c.Valid()
    requires key in e.buckets ==> key in k.buckets && k.buckets[key] == e.buckets[key]
    requires key in k.buckets && key !in e.buckets ==> Refill(c, k.buckets[key], now) == Bucket(c.Capacity(), now, now)
    ensures Decide(c, e, key, now).1 == Decide(c, k, key, now).1
    ensures Decide(c, e, key, now).0.buckets[key] == Decide(c, k, key, now).0.buckets[key]
  {
    assert c.Capacity() >= 1.0;
    hide Refill;
  }

  lemma DecideChangesKey(c: Config, s: State, key: Key, now: real)
    ensures var s' := Decide(c, s, key, now).0;
            key in s'.buckets && s' == s.(buckets := s.buckets[key := s'.buckets[key]])
  {
    hide Refill;
  }

  lemma DecideSound(c: Config, d: real, high: real, s: State, key: Key, now: real)
    requires c.Valid() && d >= 0.0 && now >= high - d && (key in s.buckets ==> Sound(c, d, high, s.buckets[key]))
    ensures Sound(c, d, Max(high, now), Decide(c, s, key, now).0.buckets[key])
  {
    assert c.Capacity() >= 1.0;
    if key in s.buckets {
      RefillSound(c, d, high, s.buckets[key], now);
    }
    hide Refill, Flow;
  }

  /** Both limiters get the same bucket. */
  lemma SimulatesNext(c: Config, d: real, high: real, high': real, e: State, k: State, key: Key, b: Bucket)
    requires high <= high' && Sound(c, d, high', b)
    requires forall x :: x in e.buckets ==> x in k.buckets && k.buckets[x] == e.buckets[x]
    requires forall x :: x in k.buckets ==> Sound(c, d, high, k.buckets[x])
    requires forall x :: x in k.buckets && x !in e.buckets ==> WillBeFull(c, d, high', k.buckets[x])
    ensures Simulates(c, d, high', e.(buckets := e.buckets[key := b]), k.(buckets := k.buckets[key := b]))
  {
    assert forall x :: x in k.buckets ==> Sound(c, d, high', k.buckets[x]);
    hide Sound, WillBeFull;
  }

  lemma ServeSimulates(c: Config, d: real, high: real, e: State, k: State, key: Key, now: real)
    requires c.Valid() && d >= 0.0 && Flow(c.rate, c.ttl - 2.0 * d) >= c.Capacity()
    requires Simulates(c, d, high, e, k) && now >= high - d
    ensures Serve(c, true, e, key, now).1 == Serve(c, false, k, key, now).1
    ensures Simulates(c, d, Max(high, now), Serve(c, true, e, key, now).0, Serve(c, false, k, key, now).0)
  {
    var p := Prepare(c, true, e, now);
    assert forall x :: x in k.buckets ==> Sound(c, d, high, k.buckets[x]);
    PrepareSimulates(c, d, high, e, k, now);
    if key in k.buckets && key !in p.buckets {
      ForgottenRefills(c, d, high, e, k, key, now);
    }
    assert Prepare(c, false, k, now) == k;
    hide Flow, Decide, Prepare, Sound, WillBeFull, Refill, Simulates;
    DecisionsAgree(c, p, k, key, now);
    DecideSound(c, d, high, k, key, now);
    DecideChangesKey(c, p, key, now);
    DecideChangesKey(c, k, key, now);
    SimulatesNext(c, d, high, Max(high, now), p, k, key, Decide(c, k, key, now).0.buckets[key]);
  }

  /** A bucket missing from the evicting limiter is full in the other one when it is next used. */
  lemma ForgottenRefills(c: Config, d: real, high: real, e: State, k: State, key: Key, now: real)
    requires c.Valid() && d >= 0.0 && Flow(c.rate, c.ttl - 2.0 * d) >= c.Capacity()
    requires Simulates(c, d, high, e, k) && now >= high - d
    requires key in k.buckets && key !in Prepare(c, true, e, now).buckets
    ensures Refill(c, k.buckets[key], now) == Bucket(c.Capacity(), now, now)
  {
    hide Flow;
    var b := k.buckets[key];
    if key in e.buckets {
      FlowMono(c.rate, c.ttl - 2.0 * d, now - b.last);
      FullRefill(c, b, now);
    } else {
      RefillSound(c, d, high, b, now);
    }
  }

  lemma {:induction false} SameAnswers(c: Config, d: real, high: real, e: State, k: State, calls: seq<Call>)
    requires c.Valid() && d >= 0.0 && Flow(c.rate, c.ttl - 2.0 * d) >= c.Capacity()
    requires Simulates(c, d, high, e, k) && WithinSkew(d, high, calls)
    ensures Answers(c, true, e, calls) == Answers(c, false, k, calls)
    decreases calls
  {
    if calls == [] {
    } else {
      var key, now := calls[0].key, calls[0].now;
      ServeSimulates(c, d, high, e, k, key, now);
      assert forall j :: 0 <= j < |calls[1..]| ==> calls[1..][j] == calls[j + 1];
      SameAnswers(c, d, Max(high, now), Serve(c, true, e, key, now).0, Serve(c, false, k, key, now).0, calls[1..]);
    }
  }

  function Repeat(call: Call, n: nat): (r: seq<Call>)
    ensures |r| == n && forall i :: 0 <= i < n ==> r[i] == call
  {
    seq(n, i => call)
  }

  /** `n` calls at the instant of the last refill take `n` tokens, if there are that many. */
  lemma {:induction false} DrainTokens(c: Config, evict: bool, s: State, key: Key, now: real, n: nat)
    requires c.Valid() && now - s.lastCleanup < c.interval
    requires key in s.buckets && s.buckets[key].last == now && s.buckets[key].tokens >= n as real
    requires s.buckets[key].lastSeen == now
    ensures Run(c, evict, s, Repeat(Call(key, now), n)) ==
            s.(buckets := s.buckets[key := s.buckets[key].(tokens := s.buckets[key].tokens - n as real)])
    ensures false !in Answers(c, evict, s, Repeat(Call(key, now), n))
    decreases n
  {
    var b := s.buckets[key];
    if n == 0 {
      assert s.buckets[key := b.(tokens := b.tokens - 0.0)] == s.buckets;
    } else {
      var s' := Serve(c, evict, s, key, now).0;
      assert s' == s.(buckets := s.buckets[key := b.(tokens := b.tokens - 1.0)]);
      assert Repeat(Call(key, now), n)[1..] == Repeat(Call(key, now), n - 1);
      DrainTokens(c, evict, s', key, now, n - 1);
      var b' := b.(tokens := b.tokens - n as real);
      assert s'.buckets[key := b'] == s.buckets[key := b'];
    }
  }

  /** A fresh key can spend its whole burst at once and is then empty. */
  lemma DrainFresh(c: Config, evict: bool, s: State, key: Key, now: real)
    requires c.Valid() && key !in s.buckets && now - s.lastCleanup < c.interval
    ensures Run(c, evict, s, Repeat(Call(key, now), c.burst)) ==
            s.(buckets := s.buckets[key := Bucket(0.0, now, now)])
    ensures false !in Answers(c, evict, s, Repeat(Call(key, now), c.burst))
  {
    var s' := Serve(c, evict, s, key, now).0;
    assert Repeat(Call(key, now), c.burst)[1..] == Repeat(Call(key, now), c.burst - 1);
    DrainTokens(c, evict, s', key, now, c.burst - 1);
    assert s'.buckets[key := Bucket(0.0, now, now)] == s.buckets[key := Bucket(0.0, now, now)];
  }

  /** The limiter that keeps its buckets cannot allow more calls at one instant than it has tokens. */
  lemma {:induction false} TokensBound(c: Config, s: State, key: Key, now: real, n: nat)
    requires key in s.buckets && s.buckets[key].last >= now
    requires false !in Answers(c, false, s, Repeat(Call(key, now), n))
    ensures n > 0 ==> s.buckets[key].tokens >= n as real
    decreases n
  {
    if n == 0 {
    } else {
      var s' := Serve(c, false, s, key, now).0;
      assert Repeat(Call(key, now), n)[1..] == Repeat(Call(key, now), n - 1);
      var all := Answers(c, false, s, Repeat(Call(key, now), n));
      assert all[0] in all;
      assert all[1..] == Answers(c, false, s', Repeat(Call(key, now), n - 1));
      TokensBound(c, s', key, now, n - 1);
    }
  }

  /** Spend the burst, be seen once more as early as the skew allows, let another key trigger the
      cleanup as early as it can forget the first, and come back as early as the skew allows. */
  function Gap(c: Config, d: real): real {
    if c.ttl > d then c.ttl - d else d
  }

  function Spend(c: Config, d: real, start: real): real {
    start + Max(0.0, c.interval - Gap(c, d))
  }

  function Prelude(c: Config, d: real, start: real): seq<Call> {
    var t := Spend(c, d, start);
    Repeat(Call("a", t), c.burst) + [Call("a", t - d), Call("b", t + Gap(c, d))]
  }

  function Telltale(c: Config, d: real, start: real): seq<Call> {
    Prelude(c, d, start) + Repeat(Call("a", Spend(c, d, start) + Gap(c, d) - d), c.burst)
  }

  lemma TelltaleWithinSkew(c: Config, d: real, start: real)
    requires c.Valid() && d >= 0.0
    ensures WithinSkew(d, start, Telltale(c, d, start))
  {
  }

  /** The two calls after the burst: one that is seen early, and one that triggers the cleanup. */
  lemma AfterBurst(c: Config, evict: bool, d: real, start: real)
    requires c.Valid() && d >= 0.0
    ensures var (t, w) := (Spend(c, d, start), Gap(c, d));
            var b := Bucket(c.Capacity() - 1.0, t + w, t + w);
            Run(c, evict, State(map["a" := Bucket(0.0, t, t)], start), [Call("a", t - d), Call("b", t + w)]) ==
            if evict then State(map["b" := b], t + w)
            else State(map["a" := Bucket(0.0, t, t - d), "b" := b], start)
  {
    var t, w := Spend(c, d, start), Gap(c, d);
    var s1 := State(map["a" := Bucket(0.0, t, t)], start);
    var s2 := State(map["a" := Bucket(0.0, t, t - d)], start);
    assert Serve(c, evict, s1, "a", t - d).0.buckets == s2.buckets;
    assert [Call("a", t - d), Call("b", t + w)][1..] == [Call("b", t + w)];
    assert Run(c, evict, s2, [Call("b", t + w)]) == Serve(c, evict, s2, "b", t + w).0;
    if evict {
      assert Evict(c, s2, t + w).buckets == map[];
    }
  }

  lemma AfterPrelude(c: Config, evict: bool, d: real, start: real)
    requires c.Valid() && d >= 0.0
    ensures var t := Spend(c, d, start);
            var b := Bucket(c.Capacity() - 1.0, t + Gap(c, d), t + Gap(c, d));
            Run(c, evict, Init(start), Prelude(c, d, start)) ==
            if evict then State(map["b" := b], t + Gap(c, d))
            else State(map["a" := Bucket(0.0, t, t - d), "b" := b], start)
  {
    var t, w := Spend(c, d, start), Gap(c, d);
    var calls := Repeat(Call("a", t), c.burst);
    DrainFresh(c, evict, Init(start), "a", t);
    hide Run, Spend, Gap, Repeat;
    RunConcat(c, evict, Init(start), calls, [Call("a", t - d), Call("b", t + w)]);
    assert Run(c, evict, Init(start), calls).buckets == map["a" := Bucket(0.0, t, t)];
    AfterBurst(c, evict, d, start);
  }

  /** What follows a common part decides. */
  lemma EndsDiffer(one: seq<bool>, two: seq<bool>, oneEnd: seq<bool>, twoEnd: seq<bool>)
    requires |one| == |two| && oneEnd != twoEnd
    ensures one + oneEnd != two + twoEnd
  {
    assert (one + oneEnd)[|one|..] == oneEnd;
    assert (two + twoEnd)[|two|..] == twoEnd;
  }

  /** If a forgotten bucket need not have refilled, these calls are answered differently. */
  lemma EvictionObserved(c: Config, d: real, start: real)
    requires c.Valid() && d >= 0.0 && Flow(c.rate, c.ttl - 2.0 * d) < c.Capacity()
    ensures Answers(c, true, Init(start), Telltale(c, d, start)) !=
            Answers(c, false, Init(start), Telltale(c, d, start))
  {
    var t, w := Spend(c, d, start), Gap(c, d);
    var pre, rest := Prelude(c, d, start), Repeat(Call("a", t + w - d), c.burst);
    AfterPrelude(c, true, d, start);
    AfterPrelude(c, false, d, start);
    hide Flow, Run, Answers, Spend, Gap, Prelude, Repeat;
    RunConcat(c, true, Init(start), pre, rest);
    RunConcat(c, false, Init(start), pre, rest);
    var e, k := Run(c, true, Init(start), pre), Run(c, false, Init(start), pre);
    DrainFresh(c, true, e, "a", t + w - d);
    KeeperDenies(c, k, d, t, w);
    EndsDiffer(Answers(c, true, Init(start), pre), Answers(c, false, Init(start), pre),
               Answers(c, true, e, rest), Answers(c, false, k, rest));
  }

  lemma KeeperDenies(c: Config, k: State, d: real, t: real, w: real)
    requires c.Valid() && d >= 0.0 && Flow(c.rate, c.ttl - 2.0 * d) < c.Capacity() && w == Gap(c, d)
    requires "a" in k.buckets && k.buckets["a"] == Bucket(0.0, t, t - d)
    ensures false in Answers(c, false, k, Repeat(Call("a", t + w - d), c.burst))
  {
    var now := t + w - d;
    var rest := Repeat(Call("a", now), c.burst);
    var all := Answers(c, false, k, rest);
    if false !in all {
      assert all[0] in all;
      var k' := Serve(c, false, k, "a", now).0;
      assert rest[1..] == Repeat(Call("a", now), c.burst - 1);
      assert all[1..] == Answers(c, false, k', rest[1..]);
      TokensBound(c, k', "a", now, c.burst - 1);
      assert false;
    }
  }

  lemma InitSimulates(c: Config, d: real, start: real)
    ensures Simulates(c, d, start, Init(start), Init(start))
  {
  }

  /** Forgetting idle buckets never changes an answer, on any sequence of calls over any keys whose
      timestamps run back at most `d`, if and only if rate * (TTL - 2d) >= burst. */
  lemma EvictionUnobservable(c: Config, d: real, start: real)
    requires c.Valid() && d >= 0.0
    ensures (forall calls :: WithinSkew(d, start, calls) ==>
               Answers(c, true, Init(start), calls) == Answers(c, false, Init(start), calls))
            <==> c.rate * (c.ttl - 2.0 * d) >= c.burst as real
  {
    assert Flow(c.rate, c.ttl - 2.0 * d) == c.rate * (c.ttl - 2.0 * d);
    hide Flow, WithinSkew, Answers;
    if Flow(c.rate, c.ttl - 2.0 * d) >= c.Capacity() {
      InitSimulates(c, d, start);
      forall calls | WithinSkew(d, start, calls)
        ensures Answers(c, true, Init(start), calls) == Answers(c, false, Init(start), calls)
      {
        SameAnswers(c, d, start, Init(start), Init(start), calls);
      }
    } else {
      TelltaleWithinSkew(c, d, start);
      EvictionObserved(c, d, start);
    }
  }
}
