/** When the limiter denies: only if the calls admitted since some earlier call of the key have used up
    the burst and all that has flowed in since. This is the converse of the admission bound. */
module RateLimiterDenials {
  import opened RateLimiter
  import opened RateLimiterProofs
  import opened RateLimiterAdmission

  /** Allowing call `n` would make it more than burst + rate * elapsed since call `m` of the same key,
      `m` included. */
  predicate Spent(c: Config, calls: seq<Call>, answers: seq<bool>, m: nat, n: nat)
    requires m < n < |calls| && |answers| >= n
  {
    var key := calls[n].key;
    && calls[m].key == key
    && Admitted(key, calls[m..n], answers[m..n]) as real + 1.0
       > c.burst as real + c.rate * (calls[n].now - calls[m].now)
  }

  /** The bucket was full when call `m` came, and has lost a token for every grant since. */
  ghost predicate FullAt(c: Config, key: Key, calls: seq<Call>, answers: seq<bool>, b: Bucket, m: nat)
    requires |answers| == |calls|
  {
    && m < |calls| && calls[m].key == key
    && b.tokens
       == c.Capacity() + Flow(c.rate, b.last - calls[m].now) - Admitted(key, calls[m..], answers[m..]) as real
  }

  ghost predicate Accounted(c: Config, s: State, calls: seq<Call>, answers: seq<bool>)
    requires |answers| == |calls|
  {
    forall key :: key in s.buckets ==> exists m: nat :: FullAt(c, key, calls, answers, s.buckets[key], m)
  }

  lemma {:induction false} AdmittedNext(key: Key, calls: seq<Call>, answers: seq<bool>, call: Call, ok: bool)
    requires |answers| == |calls|
    ensures Admitted(key, calls + [call], answers + [ok]) == Admitted(key, calls, answers) + Grant(key, call, ok)
    decreases calls
  {
    if calls == [] {
    } else {
      AdmittedNext(key, calls[1..], answers[1..], call, ok);
      assert (calls + [call])[1..] == calls[1..] + [call] && (answers + [ok])[1..] == answers[1..] + [ok];
    }
  }

  lemma AdmittedSince(key: Key, calls: seq<Call>, answers: seq<bool>, call: Call, ok: bool, m: nat)
    requires |answers| == |calls| && m <= |calls|
    ensures Admitted(key, (calls + [call])[m..], (answers + [ok])[m..])
            == Admitted(key, calls[m..], answers[m..]) + Grant(key, call, ok)
  {
    assert (calls + [call])[m..] == calls[m..] + [call] && (answers + [ok])[m..] == answers[m..] + [ok];
    AdmittedNext(key, calls[m..], answers[m..], call, ok);
  }

  /** A call that finds no bucket, or fills it, is the new start of the account. */
  lemma StartsAccount(c: Config, key: Key, calls: seq<Call>, answers: seq<bool>, call: Call)
    requires |answers| == |calls| && call.key == key
    ensures FullAt(c, key, calls + [call], answers + [true], Bucket(c.Capacity() - 1.0, call.now, call.now), |calls|)
  {
    AdmittedSince(key, calls, answers, call, true, |calls|);
    FlowZero(c.rate);
    hide Flow;
  }

  /** A refill that does not fill the bucket credits all the time since the last. */
  lemma RefillAccounts(c: Config, b: Bucket, now: real, from: real)
    requires c.Valid() && b.tokens >= 0.0
    ensures var b' := Refill(c, b, now);
            || b' == Bucket(c.Capacity(), now, now)
            || b'.tokens == b.tokens + (Flow(c.rate, b'.last - from) - Flow(c.rate, b.last - from))
  {
    FlowSum(c.rate, now - b.last, b.last - from);
    assert (now - b.last) + (b.last - from) == now - from;
    hide Flow;
  }

  /** What a decision makes of a bucket that it does not fill. */
  lemma RefilledAccounts(c: Config, b: Bucket, calls: seq<Call>, answers: seq<bool>, call: Call, m: nat)
    requires c.Valid() && |answers| == |calls| && FullAt(c, call.key, calls, answers, b, m) && b.tokens >= 0.0
    requires Refill(c, b, call.now) != Bucket(c.Capacity(), call.now, call.now)
    ensures var (b', ok) := (Refill(c, b, call.now), Refill(c, b, call.now).tokens >= 1.0);
            FullAt(c, call.key, calls + [call], answers + [ok],
                   b'.(tokens := if ok then b'.tokens - 1.0 else b'.tokens), m)
  {
    RefillAccounts(c, b, call.now, calls[m].now);
    AdmittedSince(call.key, calls, answers, call, Refill(c, b, call.now).tokens >= 1.0, m);
    hide Flow, Admitted, Refill;
  }

  /** The caller's bucket after a decision. */
  lemma DecideAccounts(c: Config, s: State, calls: seq<Call>, answers: seq<bool>, call: Call)
    requires c.Valid() && |answers| == |calls| && Accounted(c, s, calls, answers)
    requires call.key in s.buckets ==> s.buckets[call.key].tokens >= 0.0
    ensures call.key in Decide(c, s, call.key, call.now).0.buckets
    ensures var (s', ok) := Decide(c, s, call.key, call.now);
            exists m: nat :: FullAt(c, call.key, calls + [call], answers + [ok], s'.buckets[call.key], m)
  {
    var key := call.key;
    StartsAccount(c, key, calls, answers, call);
    hide FullAt, Refill;
    assert c.Capacity() >= 1.0;
    if key in s.buckets && Refill(c, s.buckets[key], call.now) != Bucket(c.Capacity(), call.now, call.now) {
      var m: nat :| FullAt(c, key, calls, answers, s.buckets[key], m);
      RefilledAccounts(c, s.buckets[key], calls, answers, call, m);
    }
  }

  /** A bucket that is not the caller's. */
  lemma OtherAccounts(c: Config, key: Key, b: Bucket, calls: seq<Call>, answers: seq<bool>, call: Call, ok: bool,
      m: nat)
    requires |answers| == |calls| && FullAt(c, key, calls, answers, b, m) && key != call.key
    ensures FullAt(c, key, calls + [call], answers + [ok], b, m)
  {
    AdmittedSince(key, calls, answers, call, ok, m);
    hide Flow, Admitted;
  }

  /** A decision changes the caller's bucket only, and a cleanup changes none. */
  lemma OthersAsBefore(c: Config, s: State, call: Call, key: Key)
    requires key != call.key && key in Serve(c, true, s, call.key, call.now).0.buckets
    ensures key in s.buckets && Serve(c, true, s, call.key, call.now).0.buckets[key] == s.buckets[key]
  {
  }

  lemma PrepareAccounts(c: Config, s: State, calls: seq<Call>, answers: seq<bool>, now: real)
    requires |answers| == |calls| && Accounted(c, s, calls, answers)
    ensures Accounted(c, Prepare(c, true, s, now), calls, answers)
  {
    hide FullAt;
  }

  lemma ServeAccounts(c: Config, s: State, calls: seq<Call>, answers: seq<bool>, call: Call)
    requires c.Valid() && |answers| == |calls| && Accounted(c, s, calls, answers) && Credited(s, calls)
    ensures var (s', ok) := Serve(c, true, s, call.key, call.now);
            Accounted(c, s', calls + [call], answers + [ok])
  {
    var p := Prepare(c, true, s, call.now);
    var (s', ok) := Serve(c, true, s, call.key, call.now);
    PrepareAccounts(c, s, calls, answers, call.now);
    assert call.key in p.buckets ==> p.buckets[call.key].tokens >= 0.0;
    hide FullAt, Prepare, Decide, Credited;
    DecideAccounts(c, p, calls, answers, call);
    forall key | key in s'.buckets
      ensures exists m: nat :: FullAt(c, key, calls + [call], answers + [ok], s'.buckets[key], m)
    {
      if key != call.key {
        OthersAsBefore(c, s, call, key);
        var m: nat :| FullAt(c, key, calls, answers, s.buckets[key], m);
        OtherAccounts(c, key, s.buckets[key], calls, answers, call, ok, m);
      }
    }
  }

  /** No bucket is overdrawn, and each was last credited at a call of its key. */
  ghost predicate Credited(s: State, calls: seq<Call>) {
    forall key :: key in s.buckets ==>
      s.buckets[key].tokens >= 0.0 && Call(key, s.buckets[key].last) in calls
  }

  lemma ServeCredits(c: Config, s: State, calls: seq<Call>, call: Call)
    requires c.Valid() && Credited(s, calls)
    ensures Credited(Serve(c, true, s, call.key, call.now).0, calls + [call])
  {
    if call.key in s.buckets && call.now - s.buckets[call.key].last > 0.0 {
      FlowZero(c.rate);
      FlowMono(c.rate, 0.0, call.now - s.buckets[call.key].last);
    }
    hide Flow;
    assert call == Call(call.key, call.now) && call in calls + [call];
  }

  /** The last call of a run, after the ones before it. */
  lemma LastCall(c: Config, s: State, calls: seq<Call>)
    requires calls != []
    ensures var n := |calls| - 1;
            var (s', ok) := Serve(c, true, Run(c, true, s, calls[..n]), calls[n].key, calls[n].now);
            && Run(c, true, s, calls) == s'
            && Answers(c, true, s, calls) == Answers(c, true, s, calls[..n]) + [ok]
  {
    var n := |calls| - 1;
    assert calls == calls[..n] + [calls[n]];
    RunConcat(c, true, s, calls[..n], [calls[n]]);
    assert [calls[n]][1..] == [];
    hide Serve;
  }

  lemma {:induction false} RunAccounts(c: Config, start: real, calls: seq<Call>)
    requires c.Valid()
    ensures Accounted(c, Run(c, true, Init(start), calls), calls, Answers(c, true, Init(start), calls))
    ensures Credited(Run(c, true, Init(start), calls), calls)
  {
    if calls == [] {
      hide FullAt;
    } else {
      hide *;
      var n := |calls| - 1;
      var s := Run(c, true, Init(start), calls[..n]);
      RunAccounts(c, start, calls[..n]);
      LastCall(c, Init(start), calls);
      ServeAccounts(c, s, calls[..n], Answers(c, true, Init(start), calls[..n]), calls[n]);
      ServeCredits(c, s, calls[..n], calls[n]);
      assert calls == calls[..n] + [calls[n]];
    }
  }

  lemma {:induction false} AnswersOfPrefix(c: Config, s: State, calls: seq<Call>, n: nat)
    requires n < |calls|
    ensures Answers(c, true, s, calls)[..n] == Answers(c, true, s, calls[..n])
    ensures Answers(c, true, s, calls)[n]
            == Serve(c, true, Run(c, true, s, calls[..n]), calls[n].key, calls[n].now).1
  {
    assert calls == calls[..n] + calls[n..];
    RunConcat(c, true, s, calls[..n], calls[n..]);
    hide Serve;
  }

  lemma DeniedBucket(c: Config, s: State, calls: seq<Call>, answers: seq<bool>, call: Call) returns (m: nat)
    requires c.Valid() && |answers| == |calls| && Accounted(c, s, calls, answers)
    requires Credited(s, calls)
    requires !Serve(c, true, s, call.key, call.now).1
    ensures m < |calls| && calls[m].key == call.key
    ensures Admitted(call.key, calls[m..], answers[m..]) as real + 1.0
            > c.Capacity() + Flow(c.rate, call.now - calls[m].now)
  {
    assert call.key in s.buckets;
    var b := s.buckets[call.key];
    m :| FullAt(c, call.key, calls, answers, b, m);
    RefillAccounts(c, b, call.now, calls[m].now);
    if call.now <= b.last {
      FlowMono(c.rate, call.now - calls[m].now, b.last - calls[m].now);
    }
    hide Flow, Admitted;
  }

  /** Whatever the TTL and the timestamps: a call is denied only if the calls of its key admitted since
      an earlier one, and this one, are more than burst + rate * (time since then). */
  lemma DeniedOnlyIfSpent(c: Config, start: real, calls: seq<Call>, n: nat) returns (m: nat)
    requires c.Valid() && n < |calls| && !Answers(c, true, Init(start), calls)[n]
    ensures m < n && Spent(c, calls, Answers(c, true, Init(start), calls), m, n)
  {
    hide *;
    var answers := Answers(c, true, Init(start), calls);
    RunAccounts(c, start, calls[..n]);
    AnswersOfPrefix(c, Init(start), calls, n);
    m := DeniedBucket(c, Run(c, true, Init(start), calls[..n]), calls[..n], answers[..n], calls[n]);
    PrefixSpent(c, calls, answers, m, n);
  }

  lemma PrefixSpent(c: Config, calls: seq<Call>, answers: seq<bool>, m: nat, n: nat)
    requires m < n < |calls| && |answers| >= n && calls[..n][m].key == calls[n].key
    requires Admitted(calls[n].key, calls[..n][m..], answers[..n][m..]) as real + 1.0
             > c.Capacity() + Flow(c.rate, calls[n].now - calls[..n][m].now)
    ensures Spent(c, calls, answers, m, n)
  {
    assert calls[..n][m..] == calls[m..n] && answers[..n][m..] == answers[m..n];
    assert Flow(c.rate, calls[n].now - calls[m].now) == c.rate * (calls[n].now - calls[m].now);
    hide Admitted, Flow;
  }

  lemma FlowStrict(r: real, r': real, x: real)
    requires r < r' && x > 0.0
    ensures Flow(r, x) < Flow(r', x)
  {
    assert (r' - r) * x > 0.0;
  }

  /** The slowest refill that forgetting can add, when forgetting is unobservable. */
  lemma RefreshIsRate(c: Config)
    requires c.Valid() && c.rate * c.ttl >= c.burst as real
    ensures Max(c.rate, c.Capacity() / c.ttl) == c.rate
  {
    assert c.ttl * (c.Capacity() / c.ttl) == c.Capacity();
    if c.Capacity() / c.ttl > c.rate {
      FlowStrict(c.rate, c.Capacity() / c.ttl, c.ttl);
    }
  }

  /** The answers to a part of the calls. */
  lemma AnswersOfWindow(c: Config, s: State, calls: seq<Call>, m: nat, n: nat)
    requires m <= n <= |calls|
    ensures Answers(c, true, Run(c, true, s, calls[..m]), calls[m..n]) == Answers(c, true, s, calls)[m..n]
  {
    assert calls == calls[..m] + (calls[m..n] + calls[n..]);
    RunConcat(c, true, s, calls[..m], calls[m..n] + calls[n..]);
    RunConcat(c, true, Run(c, true, s, calls[..m]), calls[m..n], calls[n..]);
    hide Run, Answers, Serve;
  }

  /** A window within the admission bound has no room for a call that would exceed it. */
  lemma SpentIsDenied(c: Config, start: real, calls: seq<Call>, m: nat, n: nat)
    requires c.Valid() && c.rate * c.ttl >= c.burst as real && WithinSkew(0.0, start, calls)
    requires m < n < |calls| && Spent(c, calls, Answers(c, true, Init(start), calls), m, n)
    ensures !Answers(c, true, Init(start), calls)[n]
  {
    hide *;
    var answers := Answers(c, true, Init(start), calls);
    RefreshIsRate(c);
    AnswersOfWindow(c, Init(start), calls, m, n + 1);
    WindowWithinSkew(start, calls, m, n + 1);
    AdmissionBoundMonotone(c, start, calls[..m], calls[m..n + 1], calls[n].key);
    RoomLeft(c, calls, answers, m, n);
  }

  lemma WindowWithinSkew(start: real, calls: seq<Call>, m: nat, n: nat)
    requires WithinSkew(0.0, start, calls) && m <= n <= |calls|
    ensures WithinSkew(0.0, start, calls[..m] + calls[m..n])
  {
    assert calls[..m] + calls[m..n] == calls[..n];
  }

  lemma RoomLeft(c: Config, calls: seq<Call>, answers: seq<bool>, m: nat, n: nat)
    requires m < n < |calls| && |answers| == |calls| && Spent(c, calls, answers, m, n)
    requires Admitted(calls[n].key, calls[m..n + 1], answers[m..n + 1]) as real
             <= c.Capacity() + Flow(c.rate, calls[m..n + 1][n - m].now - calls[m..n + 1][0].now)
    ensures !answers[n]
  {
    assert calls[m..n + 1] == calls[m..n] + [calls[n]] && answers[m..n + 1] == answers[m..n] + [answers[n]];
    AdmittedNext(calls[n].key, calls[m..n], answers[m..n], calls[n], answers[n]);
    assert Flow(c.rate, calls[n].now - calls[m].now) == c.rate * (calls[n].now - calls[m].now);
    hide Admitted, Flow;
  }

  /** Under a monotone clock, and where forgetting is unobservable, the limiter grants as much as the
      bound lets it: a call is denied iff it and the calls of its key admitted since an earlier one are
      more than burst + rate * (time since then). */
  lemma DeniedExactly(c: Config, start: real, calls: seq<Call>, n: nat)
    requires c.Valid() && c.rate * c.ttl >= c.burst as real && WithinSkew(0.0, start, calls) && n < |calls|
    ensures var answers := Answers(c, true, Init(start), calls);
            !answers[n] <==> exists m: nat :: m < n && Spent(c, calls, answers, m, n)
  {
    var answers := Answers(c, true, Init(start), calls);
    hide *;
    if !answers[n] {
      var m := DeniedOnlyIfSpent(c, start, calls, n);
    } else if m: nat :| m < n && Spent(c, calls, answers, m, n) {
      SpentIsDenied(c, start, calls, m, n);
    }
  }

  /** The call comes at least 1/rate after each of these calls of its key. */
  ghost predicate Rested(c: Config, calls: seq<Call>, call: Call) {
    forall i :: 0 <= i < |calls| && calls[i].key == call.key ==> c.rate * (call.now - calls[i].now) >= 1.0
  }

  lemma RestedBucket(c: Config, s: State, calls: seq<Call>, call: Call)
    requires c.Valid() && Credited(s, calls) && Rested(c, calls, call)
    ensures Serve(c, true, s, call.key, call.now).1
  {
    if call.key in s.buckets {
      var i :| 0 <= i < |calls| && calls[i] == Call(call.key, s.buckets[call.key].last);
      assert Flow(c.rate, call.now - calls[i].now) == c.rate * (call.now - calls[i].now);
      if call.now - calls[i].now <= 0.0 {
        FlowMono(c.rate, call.now - calls[i].now, 0.0);
        FlowZero(c.rate);
      }
      assert c.Capacity() >= 1.0;
    }
    hide Flow;
  }

  /** A call that comes at least 1/rate after every earlier call of its key is allowed, whatever the
      settings of the cleanup, however many calls came before, and whatever other clients do. */
  lemma RestedNeverDenied(c: Config, start: real, calls: seq<Call>, n: nat)
    requires c.Valid() && n < |calls| && Rested(c, calls[..n], calls[n])
    ensures Answers(c, true, Init(start), calls)[n]
  {
    hide *;
    RunAccounts(c, start, calls[..n]);
    AnswersOfPrefix(c, Init(start), calls, n);
    RestedBucket(c, Run(c, true, Init(start), calls[..n]), calls[..n], calls[n]);
  }
}
