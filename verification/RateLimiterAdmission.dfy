/** What the limiter admits when forgetting a bucket can be observed, and how long it keeps one.

    A credit bounds what a key can still be granted. Every call pays for its grant out of the credit,
    the tokens that flow in, and, if a cleanup forgot the key's bucket, the time since the cleanup
    before. */
module RateLimiterAdmission {
  import opened RateLimiter
  import opened RateLimiterProofs

  /** Calls for `key` that were allowed. */
  function Admitted(key: Key, calls: seq<Call>, answers: seq<bool>): nat
    requires |calls| == |answers|
  {
    if calls == [] then 0
    else (if calls[0].key == key && answers[0] then 1 else 0) + Admitted(key, calls[1..], answers[1..])
  }

  /** The largest timestamp among `high` and the calls. */
  function HighWater(high: real, calls: seq<Call>): real
    decreases calls
  {
    if calls == [] then high else HighWater(Max(high, calls[0].now), calls[1..])
  }

  ghost predicate AllSound(c: Config, d: real, high: real, s: State) {
    forall k :: k in s.buckets ==> Sound(c, d, high, s.buckets[k])
  }

  /** The rate at which a client can be admitted when it may also win by being forgotten. */
  function Refresh(c: Config, d: real): real
    requires c.ttl - 2.0 * d > 0.0
  {
    Max(c.rate, c.Capacity() / (c.ttl - 2.0 * d))
  }

  /** An upper bound on what `key` can still be granted at time `high`, were tokens to flow at `r`. */
  function Credit(c: Config, d: real, r: real, s: State, key: Key, high: real): real {
    var cap := c.Capacity() + Flow(r, d);
    if key !in s.buckets then cap
    else
      var b := s.buckets[key];
      var accrued := b.tokens + Flow(r, high - b.last);
      if accrued > cap then cap else accrued
  }

  /** `r` pays for a refill; and a bucket a cleanup forgets is paid for by `r`, since it has been idle
      for so long, or else by `q`, since the cleanup before. */
  ghost predicate Pays(c: Config, d: real, r: real, q: real) {
    && r >= c.rate && q >= 0.0
    && (Flow(r, c.ttl - 2.0 * d) >= c.Capacity() || Flow(q, c.interval) >= c.Capacity() + Flow(r, d))
  }

  lemma RefreshPays(c: Config, d: real)
    requires c.Valid() && d >= 0.0 && c.ttl - 2.0 * d > 0.0
    ensures Pays(c, d, Refresh(c, d), 0.0)
  {
    var r, span := Refresh(c, d), c.ttl - 2.0 * d;
    FlowFaster(c.Capacity() / span, r, span);
    assert span * (c.Capacity() / span) == c.Capacity();
  }

  /** A full credit for every interval between cleanups. */
  function Regrant(c: Config, d: real): real
    requires c.Valid()
  {
    (c.Capacity() + Flow(c.rate, d)) / c.interval
  }

  lemma RegrantPays(c: Config, d: real)
    requires c.Valid() && d >= 0.0
    ensures Pays(c, d, c.rate, Regrant(c, d))
    ensures Flow(Regrant(c, d), c.interval) == c.Capacity() + Flow(c.rate, d)
  {
    var cap := c.Capacity() + Flow(c.rate, d);
    FlowZero(c.rate);
    FlowMono(c.rate, 0.0, d);
    hide Flow;
    QuotientFlows(cap, c.interval);
  }

  lemma QuotientFlows(cap: real, interval: real)
    requires cap >= 0.0 && interval > 0.0
    ensures cap / interval >= 0.0 && Flow(cap / interval, interval) == cap
  {
    var q := cap / interval;
    assert q * interval == cap;
    if q < 0.0 {
      FlowMono(interval, q, 0.0);
    }
  }

  /** A bucket that can be forgotten has a full credit already, if `r` pays for that. */
  lemma StaleHasFullCredit(c: Config, d: real, r: real, b: Bucket, high: real, now: real)
    requires c.Valid() && d >= 0.0 && r >= c.rate && Flow(r, c.ttl - 2.0 * d) >= c.Capacity()
    requires Sound(c, d, high, b) && Stale(c, b, now)
    ensures b.tokens + Flow(r, Max(high, now) - b.last) >= c.Capacity() + Flow(r, d)
  {
    hide Flow;
    FlowMono(r, c.ttl - 2.0 * d + d, Max(high, now) - b.last);
    FlowSum(r, c.ttl - 2.0 * d, d);
  }

  /** A cleanup comes at least the interval after the one before. */
  lemma CleanupPaid(c: Config, d: real, r: real, q: real, s: State, key: Key, high: real, now: real)
    requires c.Valid() && d >= 0.0 && Pays(c, d, r, q) && AllSound(c, d, high, s)
    ensures var (p, high') := (Prepare(c, true, s, now), Max(high, now));
            Credit(c, d, r, p, key, high')
            <= Credit(c, d, r, s, key, high') + (Flow(q, p.lastCleanup) - Flow(q, s.lastCleanup))
  {
    var p := Prepare(c, true, s, now);
    CreditNotNegative(c, d, r, s, key, high, Max(high, now));
    hide Flow, Sound;
    if now - s.lastCleanup >= c.interval {
      FlowMono(q, s.lastCleanup, now);
      FlowMono(q, c.interval, now - s.lastCleanup);
      FlowSum(q, now - s.lastCleanup, s.lastCleanup);
      assert (now - s.lastCleanup) + s.lastCleanup == now;
      if key in s.buckets && Stale(c, s.buckets[key], now) && Flow(r, c.ttl - 2.0 * d) >= c.Capacity() {
        StaleHasFullCredit(c, d, r, s.buckets[key], high, now);
      }
    }
  }

  /** A refill credits no more than the time it covers, and leaves no more than a full bucket. */
  lemma RefillWithinCredit(c: Config, d: real, r: real, b: Bucket, high: real, now: real)
    requires c.Valid() && d >= 0.0 && r >= c.rate
    requires Sound(c, d, high, b) && now >= high - d
    ensures var (b', high') := (Refill(c, b, now), Max(high, now));
            && b'.tokens + Flow(r, high' - b'.last) <= b.tokens + Flow(r, high' - b.last)
            && b'.tokens + Flow(r, high' - b'.last) <= c.Capacity() + Flow(r, d)
  {
    hide Flow;
    var b', high' := Refill(c, b, now), Max(high, now);
    FlowMono(r, high' - b'.last, d);
    if now - b.last > 0.0 {
      FlowFaster(c.rate, r, now - b.last);
      FlowSum(r, high' - now, now - b.last);
      assert high' - b.last == (high' - now) + (now - b.last);
    }
  }

  /** One if the call granted `key` a request. */
  function Grant(key: Key, call: Call, ok: bool): nat {
    if call.key == key && ok then 1 else 0
  }

  /** A decision pays for what it grants out of the credit, whichever key it is for. */
  lemma DecideSpendsCredit(c: Config, d: real, r: real, p: State, key: Key, high: real, call: Call)
    requires c.Valid() && d >= 0.0 && r >= c.rate
    requires AllSound(c, d, high, p) && call.now >= high - d
    ensures var high' := Max(high, call.now);
            var (s', ok) := Decide(c, p, call.key, call.now);
            && AllSound(c, d, high', s')
            && Credit(c, d, r, s', key, high') + Grant(key, call, ok) as real <= Credit(c, d, r, p, key, high')
  {
    hide Flow;
    var high' := Max(high, call.now);
    if call.key in p.buckets {
      RefillSound(c, d, high, p.buckets[call.key], call.now);
      RefillWithinCredit(c, d, r, p.buckets[call.key], high, call.now);
    } else {
      FlowMono(r, high' - call.now, d);
    }
  }

  lemma PrepareKeepsSound(c: Config, d: real, high: real, s: State, now: real)
    requires AllSound(c, d, high, s)
    ensures AllSound(c, d, high, Prepare(c, true, s, now))
  {
    hide Sound;
  }

  lemma ServeSpendsCredit(c: Config, d: real, r: real, q: real, s: State, key: Key, high: real, call: Call)
    requires c.Valid() && d >= 0.0 && Pays(c, d, r, q)
    requires AllSound(c, d, high, s) && call.now >= high - d
    ensures var high' := Max(high, call.now);
            var (s', ok) := Serve(c, true, s, call.key, call.now);
            && AllSound(c, d, high', s')
            && Credit(c, d, r, s', key, high') + Grant(key, call, ok) as real
               <= Credit(c, d, r, s, key, high) + (Flow(r, high') - Flow(r, high))
                  + (Flow(q, s'.lastCleanup) - Flow(q, s.lastCleanup))
  {
    hide Flow, Credit, Prepare, AllSound;
    CleanupPaid(c, d, r, q, s, key, high, call.now);
    PrepareKeepsSound(c, d, high, s, call.now);
    DecideSpendsCredit(c, d, r, Prepare(c, true, s, call.now), key, high, call);
    CreditGrows(c, d, r, s, key, high, Max(high, call.now));
  }

  lemma CreditGrows(c: Config, d: real, r: real, s: State, key: Key, high: real, high': real)
    requires r >= 0.0 && high <= high'
    ensures Credit(c, d, r, s, key, high') <= Credit(c, d, r, s, key, high) + (Flow(r, high') - Flow(r, high))
  {
    hide Flow;
    FlowMono(r, high, high');
    if key in s.buckets {
      var b := s.buckets[key];
      FlowSum(r, high' - b.last, b.last);
      FlowSum(r, high - b.last, b.last);
      assert (high' - b.last) + b.last == high' && (high - b.last) + b.last == high;
    }
  }

  lemma CreditNotNegative(c: Config, d: real, r: real, s: State, key: Key, high: real, high': real)
    requires c.Valid() && d >= 0.0 && r >= c.rate && AllSound(c, d, high, s) && high <= high'
    ensures Credit(c, d, r, s, key, high') >= 0.0
  {
    hide Flow;
    FlowZero(r);
    FlowMono(r, 0.0, d);
    if key in s.buckets {
      FlowMono(r, 0.0, high' - s.buckets[key].last);
    }
  }

  /** The states, and the largest timestamps, before each call and after the last. */
  function States(c: Config, s: State, calls: seq<Call>): (r: seq<State>)
    ensures |r| == |calls| + 1 && r[0] == s && r[|calls|] == Run(c, true, s, calls)
    ensures forall i :: 0 <= i < |calls| ==>
              (r[i + 1], Answers(c, true, s, calls)[i]) == Serve(c, true, r[i], calls[i].key, calls[i].now)
    decreases calls
  {
    if calls == [] then [s] else [s] + States(c, Serve(c, true, s, calls[0].key, calls[0].now).0, calls[1..])
  }

  function Highs(high: real, calls: seq<Call>): (r: seq<real>)
    ensures |r| == |calls| + 1 && r[0] == high && r[|calls|] == HighWater(high, calls)
    ensures forall i :: 0 <= i < |calls| ==> r[i + 1] == Max(r[i], calls[i].now)
    decreases calls
  {
    if calls == [] then [high] else [high] + Highs(Max(high, calls[0].now), calls[1..])
  }

  lemma {:induction false} HighsWithinSkew(d: real, high: real, calls: seq<Call>)
    requires WithinSkew(d, high, calls)
    ensures forall i :: 0 <= i < |calls| ==> calls[i].now >= Highs(high, calls)[i] - d
    decreases calls
  {
    if calls == [] {
    } else {
      TailWithinSkew(d, high, calls);
      HighsWithinSkew(d, Max(high, calls[0].now), calls[1..]);
      assert forall i :: 0 < i < |calls| ==> Highs(high, calls)[i] == Highs(Max(high, calls[0].now), calls[1..])[i - 1];
    }
  }

  lemma TailWithinSkew(d: real, high: real, calls: seq<Call>)
    requires WithinSkew(d, high, calls) && |calls| > 0
    ensures WithinSkew(d, Max(high, calls[0].now), calls[1..])
  {
    assert forall j :: 0 <= j < |calls[1..]| ==> calls[1..][j] == calls[j + 1];
  }

  /** If every call pays for its grant out of its credit and what it earned, so do all of them. */
  lemma {:induction false} Telescope(key: Key, calls: seq<Call>, answers: seq<bool>, credit: seq<real>,
      earned: seq<real>)
    requires |credit| == |earned| == |calls| + 1 && |answers| == |calls|
    requires forall i :: 0 <= i < |calls| ==>
               credit[i + 1] + Grant(key, calls[i], answers[i]) as real <= credit[i] + (earned[i + 1] - earned[i])
    ensures Admitted(key, calls, answers) as real
            <= credit[0] - credit[|calls|] + (earned[|calls|] - earned[0])
    decreases calls
  {
    if calls == [] {
    } else {
      Telescope(key, calls[1..], answers[1..], credit[1..], earned[1..]);
      assert credit[0 + 1] + Grant(key, calls[0], answers[0]) as real <= credit[0] + (earned[0 + 1] - earned[0]);
    }
  }

  lemma {:induction false} StaysSound(c: Config, d: real, s: State, high: real, calls: seq<Call>)
    requires c.Valid() && d >= 0.0 && AllSound(c, d, high, s) && WithinSkew(d, high, calls)
    ensures forall i :: 0 <= i <= |calls| ==> AllSound(c, d, Highs(high, calls)[i], States(c, s, calls)[i])
    decreases calls
  {
    if calls == [] {
    } else {
      var high' := Max(high, calls[0].now);
      var s' := Serve(c, true, s, calls[0].key, calls[0].now).0;
      ServeStaysSound(c, d, s, high, calls[0]);
      TailWithinSkew(d, high, calls);
      StaysSound(c, d, s', high', calls[1..]);
      assert forall i :: 0 < i <= |calls| ==> Highs(high, calls)[i] == Highs(high', calls[1..])[i - 1];
      assert forall i :: 0 < i <= |calls| ==> States(c, s, calls)[i] == States(c, s', calls[1..])[i - 1];
    }
  }

  lemma ServeStaysSound(c: Config, d: real, s: State, high: real, call: Call)
    requires c.Valid() && d >= 0.0 && AllSound(c, d, high, s) && call.now >= high - d
    ensures AllSound(c, d, Max(high, call.now), Serve(c, true, s, call.key, call.now).0)
  {
    assert c.Capacity() >= 1.0;
    if call.key in s.buckets {
      RefillSound(c, d, high, s.buckets[call.key], call.now);
    }
  }

  lemma AdmissionsWithinCredit(c: Config, d: real, r: real, q: real, s: State, key: Key, high: real, calls: seq<Call>)
    requires c.Valid() && d >= 0.0 && Pays(c, d, r, q)
    requires AllSound(c, d, high, s) && WithinSkew(d, high, calls)
    ensures Admitted(key, calls, Answers(c, true, s, calls)) as real
            <= Credit(c, d, r, s, key, high) + (Flow(r, HighWater(high, calls)) - Flow(r, high))
               + (Flow(q, Run(c, true, s, calls).lastCleanup) - Flow(q, s.lastCleanup))
  {
    hide Flow, Serve, Credit, Run, HighWater, AllSound, Sound, Pays;
    var states, highs, answers := States(c, s, calls), Highs(high, calls), Answers(c, true, s, calls);
    var n := |calls|;
    var credit := seq(n + 1, i requires 0 <= i < n + 1 => Credit(c, d, r, states[i], key, highs[i]));
    var earned := seq(n + 1, i requires 0 <= i < n + 1 => Flow(r, highs[i]) + Flow(q, states[i].lastCleanup));
    StaysSound(c, d, s, high, calls);
    HighsWithinSkew(d, high, calls);
    forall i | 0 <= i < n
      ensures credit[i + 1] + Grant(key, calls[i], answers[i]) as real <= credit[i] + (earned[i + 1] - earned[i])
    {
      ServeSpendsCredit(c, d, r, q, states[i], key, highs[i], calls[i]);
    }
    Telescope(key, calls, answers, credit, earned);
    PaysForRefill(c, d, r, q);
    CreditNotNegative(c, d, r, states[n], key, highs[n], highs[n]);
  }

  lemma PaysForRefill(c: Config, d: real, r: real, q: real)
    requires Pays(c, d, r, q)
    ensures r >= c.rate && q >= 0.0
  {
  }

  lemma {:induction false} HighWaterOf(high: real, calls: seq<Call>)
    ensures HighWater(high, calls) >= high
    ensures forall i :: 0 <= i < |calls| ==> calls[i].now <= HighWater(high, calls)
    ensures HighWater(high, calls) == high || exists i :: 0 <= i < |calls| && calls[i].now == HighWater(high, calls)
    decreases calls
  {
    if calls == [] {
    } else {
      HighWaterOf(Max(high, calls[0].now), calls[1..]);
      assert forall i :: 0 < i < |calls| ==> calls[i] == calls[1..][i - 1];
    }
  }

  /** The first call of a window leaves at most a full bucket, whatever came before, and its cleanup
      cannot be overdue. */
  lemma FirstCall(c: Config, d: real, r: real, s: State, key: Key, high: real, call: Call)
    requires c.Valid() && d >= 0.0 && r >= c.rate
    requires AllSound(c, d, high, s) && call.now >= high - d
    ensures var high' := Max(high, call.now);
            var (s', ok) := Serve(c, true, s, call.key, call.now);
            && AllSound(c, d, high', s')
            && Credit(c, d, r, s', key, high') + Grant(key, call, ok) as real <= c.Capacity() + Flow(r, d)
            && s'.lastCleanup > call.now - c.interval
  {
    hide Flow;
    PrepareKeepsSound(c, d, high, s, call.now);
    DecideSpendsCredit(c, d, r, Prepare(c, true, s, call.now), key, high, call);
    hide Sound, AllSound;
  }

  /** A cleanup is never later than the last call. */
  lemma {:induction false} CleanupInWindow(c: Config, s: State, calls: seq<Call>, last: real)
    requires forall i :: 0 <= i < |calls| ==> calls[i].now <= last
    ensures var end := Run(c, true, s, calls).lastCleanup; end == s.lastCleanup || end <= last
    decreases calls
  {
    if calls == [] {
    } else {
      CleanupInWindow(c, Serve(c, true, s, calls[0].key, calls[0].now).0, calls[1..], last);
    }
  }

  /** A window of calls from any sound state spends at most one full credit, what flows in, and what
      pays for the cleanups in it. */
  lemma WindowBound(c: Config, d: real, r: real, q: real, s: State, key: Key, high: real, window: seq<Call>, last: real)
    requires c.Valid() && d >= 0.0 && Pays(c, d, r, q) && AllSound(c, d, high, s)
    requires WithinSkew(d, high, window) && |window| > 0 && forall i :: 0 <= i < |window| ==> window[i].now <= last
    ensures Admitted(key, window, Answers(c, true, s, window)) as real
            <= c.Capacity() + Flow(r, d) + Flow(r, last - window[0].now) + Flow(q, last - window[0].now + c.interval)
  {
    hide Flow, Serve, Credit, AllSound, Sound, Pays;
    var (s', ok) := Serve(c, true, s, window[0].key, window[0].now);
    PaysForRefill(c, d, r, q);
    FirstCall(c, d, r, s, key, high, window[0]);
    TailWithinSkew(d, high, window);
    AdmissionsWithinCredit(c, d, r, q, s', key, Max(high, window[0].now), window[1..]);
    assert Answers(c, true, s, window)[1..] == Answers(c, true, s', window[1..]);
    FlowBound(r, high, window, last);
    var end := Run(c, true, s', window[1..]).lastCleanup;
    CleanupInWindow(c, s', window[1..], last);
    FlowSum(q, end - s'.lastCleanup, s'.lastCleanup);
    assert (end - s'.lastCleanup) + s'.lastCleanup == end;
    FlowMono(q, end - s'.lastCleanup, last - window[0].now + c.interval);
  }

  lemma SplitSkew(d: real, start: real, before: seq<Call>, window: seq<Call>)
    requires d >= 0.0 && WithinSkew(d, start, before + window)
    ensures WithinSkew(d, start, before)
    ensures WithinSkew(d, HighWater(start, before), window)
  {
    var all := before + window;
    assert forall j :: 0 <= j < |before| ==> before[j] == all[j];
    assert forall j :: 0 <= j < |window| ==> window[j] == all[|before| + j];
    HighWaterOf(start, before);
  }

  /** The state a window starts from. */
  lemma BeforeWindow(c: Config, d: real, start: real, before: seq<Call>, window: seq<Call>)
    requires c.Valid() && d >= 0.0 && WithinSkew(d, start, before + window)
    ensures AllSound(c, d, HighWater(start, before), Run(c, true, Init(start), before))
    ensures WithinSkew(d, HighWater(start, before), window)
  {
    hide Flow, Serve, Run, HighWater;
    SplitSkew(d, start, before, window);
    StaysSound(c, d, Init(start), start, before);
    assert Highs(start, before)[|before|] == HighWater(start, before);
    assert States(c, Init(start), before)[|before|] == Run(c, true, Init(start), before);
  }

  /** In any window of calls, after any earlier calls, with timestamps running back at most `d`, one
      key is allowed at most burst + r*d + r*(last - first) requests, where r is the larger of the
      rate and burst / (TTL - 2d), and `last` is any time no call of the window exceeds. */
  lemma AdmissionBound(c: Config, d: real, start: real, before: seq<Call>, window: seq<Call>, key: Key, last: real)
    requires c.Valid() && d >= 0.0 && c.ttl - 2.0 * d > 0.0
    requires WithinSkew(d, start, before + window) && |window| > 0
    requires forall i :: 0 <= i < |window| ==> window[i].now <= last
    ensures Admitted(key, window, Answers(c, true, Run(c, true, Init(start), before), window)) as real
            <= c.Capacity() + Flow(Refresh(c, d), d) + Flow(Refresh(c, d), last - window[0].now)
  {
    var r := Refresh(c, d);
    RefreshPays(c, d);
    BeforeWindow(c, d, start, before, window);
    assert Flow(0.0, last - window[0].now + c.interval) == 0.0;
    hide Flow, Serve, HighWater, Admitted, Run, Refresh, Pays, AllSound;
    WindowBound(c, d, r, 0.0, Run(c, true, Init(start), before), key, HighWater(start, before), window, last);
  }

  /** Whatever the TTL, and however far timestamps run back: a key is forgotten at most once for each
      cleanup, and cleanups are at least the interval apart. So in any window of calls one key is
      allowed at most full + (full/interval)*(last - first + interval) + rate*(last - first) requests,
      where full = burst + rate*d. */
  lemma AdmissionBoundAnyTtl(c: Config, d: real, start: real, before: seq<Call>, window: seq<Call>, key: Key,
      last: real)
    requires c.Valid() && d >= 0.0
    requires WithinSkew(d, start, before + window) && |window| > 0
    requires forall i :: 0 <= i < |window| ==> window[i].now <= last
    ensures var (full, span) := (c.Capacity() + Flow(c.rate, d), last - window[0].now);
            Admitted(key, window, Answers(c, true, Run(c, true, Init(start), before), window)) as real
            <= 2.0 * full + Flow(full / c.interval, span) + Flow(c.rate, span)
  {
    var q, span := Regrant(c, d), last - window[0].now;
    RegrantPays(c, d);
    BeforeWindow(c, d, start, before, window);
    FlowSum(q, span, c.interval);
    hide Flow, Serve, HighWater, Admitted, Run, Pays, AllSound;
    WindowBound(c, d, c.rate, q, Run(c, true, Init(start), before), key, HighWater(start, before), window, last);
  }

  lemma FlowBound(r: real, high: real, window: seq<Call>, last: real)
    requires r >= 0.0 && |window| > 0 && forall i :: 0 <= i < |window| ==> window[i].now <= last
    ensures Flow(r, HighWater(high, window)) - Flow(r, Max(high, window[0].now)) <= Flow(r, last - window[0].now)
  {
    hide Flow;
    var first := Max(high, window[0].now);
    HighWaterOf(first, window[1..]);
    FlowMono(r, HighWater(high, window) - first, last - window[0].now);
    FlowSum(r, HighWater(high, window) - first, first);
    assert (HighWater(high, window) - first) + first == HighWater(high, window);
  }

  /** The monotone case: at most burst + max(rate, burst/TTL) * (last time - first time). */
  lemma AdmissionBoundMonotone(c: Config, start: real, before: seq<Call>, window: seq<Call>, key: Key)
    requires c.Valid() && WithinSkew(0.0, start, before + window) && |window| > 0
    ensures Admitted(key, window, Answers(c, true, Run(c, true, Init(start), before), window)) as real
            <= c.Capacity() + Flow(Max(c.rate, c.Capacity() / c.ttl), window[|window| - 1].now - window[0].now)
  {
    hide Flow, Serve, HighWater, Admitted, Run;
    SplitSkew(0.0, start, before, window);
    assert c.ttl - 2.0 * 0.0 == c.ttl;
    FlowZero(Refresh(c, 0.0));
    AdmissionBound(c, 0.0, start, before, window, key, window[|window| - 1].now);
  }

  // ---------------------------------------------------------------------------------------
  // How long an idle bucket stays resident
  // ---------------------------------------------------------------------------------------

  /** The keys called less than `span` before `now`. */
  function RecentKeys(calls: seq<Call>, now: real, span: real): set<Key> {
    set i | 0 <= i < |calls| && now - calls[i].now < span :: calls[i].key
  }

  /** What every state reached by `calls`, the last one at `now`, satisfies under a monotone clock. */
  ghost predicate Tidy(c: Config, s: State, calls: seq<Call>, now: real) {
    && 0.0 <= now - s.lastCleanup < c.interval
    && forall k :: k in s.buckets ==>
         && s.buckets[k].lastSeen <= now
         && s.lastCleanup - s.buckets[k].lastSeen < c.ttl
         && Call(k, s.buckets[k].lastSeen) in calls
  }

  lemma ServeIsTidy(c: Config, s: State, calls: seq<Call>, was: real, call: Call)
    requires c.Valid() && Tidy(c, s, calls, was) && call.now >= was
    ensures Tidy(c, Serve(c, true, s, call.key, call.now).0, calls + [call], call.now)
  {
    assert call in calls + [call] && call == Call(call.key, call.now);
  }

  lemma {:induction false} RunIsTidy(c: Config, s: State, past: seq<Call>, was: real, calls: seq<Call>)
    requires c.Valid() && Tidy(c, s, past, was) && WithinSkew(0.0, was, calls)
    ensures Tidy(c, Run(c, true, s, calls), past + calls, if calls == [] then was else calls[|calls| - 1].now)
    decreases calls
  {
    if calls == [] {
      assert past + calls == past;
    } else {
      var s' := Serve(c, true, s, calls[0].key, calls[0].now).0;
      ServeIsTidy(c, s, past, was, calls[0]);
      TailWithinSkew(0.0, was, calls);
      RunIsTidy(c, s', past + [calls[0]], calls[0].now, calls[1..]);
      assert past + [calls[0]] + calls[1..] == past + calls;
    }
  }

  /** Under a monotone clock every bucket resident after a call was used less than TTL + interval
      before it, so there are no more buckets than keys called in that trailing window. */
  lemma BucketRetention(c: Config, start: real, calls: seq<Call>)
    requires c.Valid() && WithinSkew(0.0, start, calls) && |calls| > 0
    ensures var s := Run(c, true, Init(start), calls);
            var now := calls[|calls| - 1].now;
            && (forall k :: k in s.buckets ==> now - s.buckets[k].lastSeen < c.ttl + c.interval)
            && s.buckets.Keys <= RecentKeys(calls, now, c.ttl + c.interval)
            && |s.buckets| <= |RecentKeys(calls, now, c.ttl + c.interval)|
  {
    var s := Run(c, true, Init(start), calls);
    var now := calls[|calls| - 1].now;
    RunIsTidy(c, Init(start), [], start, calls);
    assert [] + calls == calls;
    var recent := RecentKeys(calls, now, c.ttl + c.interval);
    forall k | k in s.buckets
      ensures k in recent
    {
      var i :| 0 <= i < |calls| && calls[i] == Call(k, s.buckets[k].lastSeen);
      assert calls[i].key in recent;
    }
    SubsetSize(s.buckets.Keys, recent);
    assert |s.buckets| == |s.buckets.Keys|;
  }

  /** A key is resident from each of its calls on, until a cleanup at least the TTL after the last. */
  ghost predicate Kept(c: Config, s: State, calls: seq<Call>) {
    forall i :: 0 <= i < |calls| ==>
      var key := calls[i].key;
      if key in s.buckets then s.buckets[key].lastSeen >= calls[i].now
      else s.lastCleanup - calls[i].now >= c.ttl
  }

  lemma ServeKeeps(c: Config, s: State, calls: seq<Call>, was: real, call: Call)
    requires c.Valid() && Kept(c, s, calls) && Tidy(c, s, calls, was) && call.now >= was
    requires forall i :: 0 <= i < |calls| ==> calls[i].now <= was
    ensures Kept(c, Serve(c, true, s, call.key, call.now).0, calls + [call])
  {
    hide Flow;
  }

  lemma {:induction false} RunKeepsRecent(c: Config, s: State, past: seq<Call>, was: real, calls: seq<Call>)
    requires c.Valid() && Kept(c, s, past) && Tidy(c, s, past, was) && WithinSkew(0.0, was, calls)
    requires forall i :: 0 <= i < |past| ==> past[i].now <= was
    ensures Kept(c, Run(c, true, s, calls), past + calls)
    decreases calls
  {
    if calls == [] {
      assert past + calls == past;
    } else {
      var s' := Serve(c, true, s, calls[0].key, calls[0].now).0;
      ServeKeeps(c, s, past, was, calls[0]);
      ServeIsTidy(c, s, past, was, calls[0]);
      TailWithinSkew(0.0, was, calls);
      hide Kept, Tidy, Serve;
      RunKeepsRecent(c, s', past + [calls[0]], calls[0].now, calls[1..]);
      assert past + [calls[0]] + calls[1..] == past + calls;
    }
  }

  /** Under a monotone clock a bucket is not forgotten while its key is in use: after a call, every key
      called less than the TTL before it has its bucket still. */
  lemma RecentKept(c: Config, start: real, calls: seq<Call>)
    requires c.Valid() && WithinSkew(0.0, start, calls) && |calls| > 0
    ensures RecentKeys(calls, calls[|calls| - 1].now, c.ttl) <= Run(c, true, Init(start), calls).buckets.Keys
  {
    var s, now := Run(c, true, Init(start), calls), calls[|calls| - 1].now;
    RunIsTidy(c, Init(start), [], start, calls);
    RunKeepsRecent(c, Init(start), [], start, calls);
    assert [] + calls == calls;
    assert s.lastCleanup <= now;
    hide Run;
  }

  lemma {:induction false} SubsetSize<T>(a: set<T>, b: set<T>)
    requires a <= b
    ensures |a| <= |b|
    decreases a
  {
    if a == {} {
    } else {
      var x :| x in a;
      SubsetSize(a - {x}, b - {x});
    }
  }
}
