/** A dependency behind a breaker (internal/service/dependency_guards.go): every guarded method runs
    one call of the wrapped repository, storage or broker through `CircuitBreaker.Execute`.

    A dependency is any function from its state and a request to its next state and a reply; the
    wrappers of the program differ only in the request. */
module Guards {
  import opened Domain
  import opened CircuitBreaker

  /** What the wrappers return: the captured results, and the error. */
  datatype Reply<R, E> = Reply(value: R, err: Option<E>)

  /** `blank` is what a method's named results hold when its call was never made; `open` is
      ErrCircuitOpen; `exempt` are the errors that do not count as failures of the dependency. */
  datatype Setup<!W, !Op, R, !E> = Setup(
    apply: (W, Op) -> (W, Reply<R, E>),
    blank: R,
    open: E,
    exempt: E -> bool)

  function IsFailure<W, Op, R, E>(s: Setup<W, Op, R, E>, err: Option<E>): bool {
    err.Some? && !s.exempt(err.value)
  }

  /** When a call asks to be admitted, and when it reports back. */
  datatype Times = Times(before: Time, after: Time)

  function Guarded<W, Op, R, E>(s: Setup<W, Op, R, E>, c: Config, b: Breaker, w: W, op: Op, t: Times)
    : (Breaker, W, Reply<R, E>)
  {
    if !Admits(b, t.before) then (b, w, Reply(s.blank, Some(s.open)))
    else
      var (w', reply) := s.apply(w, op);
      (After(c, Before(b, t.before), t.after, IsFailure(s, reply.err)), w', reply)
  }

  /** A call rejected as open never reaches the dependency and leaves the breaker as it was. */
  lemma RejectedChangesNothing<W, Op, R, E>(s: Setup<W, Op, R, E>, c: Config, b: Breaker, w: W, op: Op, t: Times)
    requires s.apply(w, op).1.err != Some(s.open)
    ensures var (b', w', reply) := Guarded(s, c, b, w, op, t);
            reply.err == Some(s.open) <==> !Admits(b, t.before)
    ensures var (b', w', reply) := Guarded(s, c, b, w, op, t);
            reply.err == Some(s.open) ==> b' == b && w' == w && reply.value == s.blank
  {
  }

  /** The wrapped dependency and its breaker, as one mutable object. */
  class Guard<W, Op, R, E> {
    const setup: Setup<W, Op, R, E>
    const breaker: CircuitBreaker
    var next: W

    constructor (setup: Setup<W, Op, R, E>, next: W, breaker: CircuitBreaker)
      ensures this.setup == setup && this.next == next && this.breaker == breaker
    {
      this.setup, this.next, this.breaker := setup, next, breaker;
    }

    /** A disabled breaker is bypassed. */
    method Execute(op: Op, t: Times) returns (reply: Reply<R, E>)
      modifies this, breaker
      ensures breaker.enabled ==>
                (breaker.Abstract(), next, reply) ==
                Guarded(setup, breaker.config, old(breaker.Abstract()), old(next), op, t)
      ensures !breaker.enabled ==>
                (next, reply) == setup.apply(old(next), op) && breaker.Abstract() == old(breaker.Abstract())
      ensures setup.apply(old(next), op).1.err != Some(setup.open) ==>
                && (reply.err == Some(setup.open) <==> breaker.enabled && !Admits(old(breaker.Abstract()), t.before))
                && (reply.err == Some(setup.open) ==>
                      next == old(next) && breaker.Abstract() == old(breaker.Abstract()) && reply.value == setup.blank)
    {
      if setup.apply(next, op).1.err != Some(setup.open) {
        RejectedChangesNothing(setup, breaker.config, breaker.Abstract(), next, op, t);
      }
      if breaker.enabled {
        var admitted := breaker.BeforeCall(t.before);
        if !admitted {
          return Reply(setup.blank, Some(setup.open));
        }
      }
      var result := setup.apply(next, op);
      next, reply := result.0, result.1;
      if breaker.enabled {
        breaker.AfterCall(t.after, IsFailure(setup, reply.err));
      }
    }
  }

  // Sequences of calls, with and without the guard

  function PlainRun<W, Op, R, E>(s: Setup<W, Op, R, E>, w: W, ops: seq<Op>): (run: (W, seq<Reply<R, E>>))
    ensures |run.1| == |ops|
  {
    if ops == [] then (w, [])
    else
      var n := |ops| - 1;
      var (before, replies) := PlainRun(s, w, ops[..n]);
      var (after, reply) := s.apply(before, ops[n]);
      (after, replies + [reply])
  }

  function GuardedRun<W, Op, R, E>(s: Setup<W, Op, R, E>, c: Config, w: W, ops: seq<Op>, times: seq<Times>)
    : (run: (Breaker, W, seq<Reply<R, E>>))
    requires |times| >= |ops|
    ensures |run.2| == |ops|
  {
    if ops == [] then (CLOSED, w, [])
    else
      var n := |ops| - 1;
      var (b, before, replies) := GuardedRun(s, c, w, ops[..n], times);
      var (b', after, reply) := Guarded(s, c, b, before, ops[n], times[n]);
      (b', after, replies + [reply])
  }

  /** The guard cannot be told from the dependency: same replies, same state. */
  ghost predicate Unnoticed<W, Op, R, E>(s: Setup<W, Op, R, E>, c: Config, w: W, ops: seq<Op>, times: seq<Times>)
    requires |times| >= |ops|
  {
    var (_, last, replies) := GuardedRun(s, c, w, ops, times);
    (last, replies) == PlainRun(s, w, ops)
  }

  /** One call after another, on a clock that does not run backwards. */
  ghost predicate Sequential(times: seq<Times>) {
    && (forall i :: 0 <= i < |times| ==> times[i].before <= times[i].after)
    && (forall i, j :: 0 <= i < j < |times| ==> times[i].after <= times[j].before)
  }

  /** The failures at the end of `replies`, after the last call that did not fail. */
  function TrailingFailures<W, Op, R, E>(s: Setup<W, Op, R, E>, replies: seq<Reply<R, E>>): nat {
    if replies == [] || !IsFailure(s, replies[|replies| - 1].err) then 0
    else TrailingFailures(s, replies[..|replies| - 1]) + 1
  }

  /** The `n` replies from position `i` on are failures, and there is a further one. */
  predicate RowAt<W, Op, R, E>(s: Setup<W, Op, R, E>, replies: seq<Reply<R, E>>, i: nat, n: int) {
    i + n < |replies| && forall j :: i <= j < i + n ==> IsFailure(s, replies[j].err)
  }

  /** The dependency fails `n` times in a row and is called again. */
  ghost predicate FailsInARow<W, Op, R, E>(s: Setup<W, Op, R, E>, replies: seq<Reply<R, E>>, n: int) {
    exists i: nat :: RowAt(s, replies, i, n)
  }

  /** The call at position `i` comes when the breaker is open: after `threshold` failures in a row and
      less than the timeout after the last of them. */
  predicate TooEarly<W, Op, R, E>(s: Setup<W, Op, R, E>, c: Config, replies: seq<Reply<R, E>>, times: seq<Times>,
      i: nat)
    requires |times| >= |replies|
  {
    && 0 < i < |replies|
    && TrailingFailures(s, replies[..i]) >= c.threshold
    && times[i].before < times[i - 1].after + c.timeout
  }

  lemma {:induction false} TrailingIsRow<W, Op, R, E>(s: Setup<W, Op, R, E>, replies: seq<Reply<R, E>>, n: nat)
    ensures TrailingFailures(s, replies) >= n <==>
            |replies| >= n && forall j :: |replies| - n <= j < |replies| ==> IsFailure(s, replies[j].err)
  {
    if n == 0 || replies == [] {
    } else {
      var m := |replies| - 1;
      TrailingIsRow(s, replies[..m], n - 1);
      if IsFailure(s, replies[m].err) {
        assert forall j :: 0 <= j < m ==> replies[..m][j] == replies[j];
      }
    }
  }

  // When the guard cannot be told from the dependency

  /** The breaker stands where `f` failures in a row, the last one reported at `last`, have brought it. */
  predicate Stands(c: Config, b: Breaker, f: nat, last: Time) {
    && b.failures == f && !b.halfOpenCall
    && b.openUntil == if f < c.threshold then None else Some(last + c.timeout)
  }

  lemma StandsNext(c: Config, b: Breaker, f: nat, last: Time, t: Times, failed: bool)
    requires c.Valid() && Stands(c, b, f, last)
    ensures Admits(b, t.before) <==> f < c.threshold || t.before >= last + c.timeout
    ensures Stands(c, After(c, Before(b, t.before), t.after, failed), if failed then f + 1 else 0, t.after)
  {
  }

  /** Nothing replies with the breaker's own error. */
  ghost predicate Distinguishable<W, Op, R, E>(s: Setup<W, Op, R, E>, replies: seq<Reply<R, E>>) {
    forall i :: 0 <= i < |replies| ==> replies[i].err != Some(s.open)
  }

  /** The time of the last report of the first `n` calls. */
  function LastReport(times: seq<Times>, n: nat): Time
    requires n <= |times|
  {
    if n == 0 then 0 else times[n - 1].after
  }

  /** Both runs agree iff no call was too early; then the breaker is where the failures have brought it. */
  lemma {:induction false} AgreeUnlessTooEarly<W, Op, R, E>(
      s: Setup<W, Op, R, E>, c: Config, w: W, ops: seq<Op>, times: seq<Times>)
    requires c.Valid() && |times| >= |ops| && Distinguishable(s, PlainRun(s, w, ops).1)
    ensures var (b, last, guarded) := GuardedRun(s, c, w, ops, times);
            var (end, plain) := PlainRun(s, w, ops);
            && (guarded == plain ==>
                  last == end && Stands(c, b, TrailingFailures(s, plain), LastReport(times, |ops|)))
            && (guarded == plain <==> forall i: nat :: !TooEarly(s, c, plain, times, i))
  {
    if ops == [] {
    } else {
      var n := |ops| - 1;
      var (b, last, guarded) := GuardedRun(s, c, w, ops[..n], times);
      var (end, plain) := PlainRun(s, w, ops[..n]);
      var (end', reply) := s.apply(end, ops[n]);
      var (b', last', answer) := Guarded(s, c, b, last, ops[n], times[n]);
      var all := plain + [reply];
      assert Distinguishable(s, plain) by {
        assert forall i :: 0 <= i < n ==> plain[i] == all[i];
      }
      AgreeUnlessTooEarly(s, c, w, ops[..n], times);
      EarlierTooEarly(s, c, plain, reply, times);
      assert all[n].err != Some(s.open) && all[..n] == plain && (guarded + [answer])[..n] == guarded;
      hide TooEarly, Stands, Guarded, Distinguishable, LastReport, PlainRun, GuardedRun;
      if guarded == plain {
        LastCallAgrees(s, c, b, plain, end, ops[n], times);
        assert guarded + [answer] == all <==> answer == reply;
      } else {
        assert guarded + [answer] != all;
      }
    }
  }

  /** The same for the last call alone. */
  lemma LastCallAgrees<W, Op, R, E>(
      s: Setup<W, Op, R, E>, c: Config, b: Breaker, replies: seq<Reply<R, E>>, w: W, op: Op, times: seq<Times>)
    requires c.Valid() && |times| > |replies| && s.apply(w, op).1.err != Some(s.open)
    requires Stands(c, b, TrailingFailures(s, replies), LastReport(times, |replies|))
    ensures var n := |replies|;
            var (b', after, answer) := Guarded(s, c, b, w, op, times[n]);
            var (w', reply) := s.apply(w, op);
            && (answer == reply <==> !TooEarly(s, c, replies + [reply], times, n))
            && (answer == reply ==>
                  && after == w'
                  && Stands(c, b', TrailingFailures(s, replies + [reply]), LastReport(times, n + 1)))
  {
    var n := |replies|;
    var reply := s.apply(w, op).1;
    assert (replies + [reply])[..n] == replies;
    StandsNext(c, b, TrailingFailures(s, replies), LastReport(times, n), times[n], IsFailure(s, reply.err));
    hide Stands;
  }

  /** Too early for the run so far, or with the last call. */
  lemma EarlierTooEarly<W, Op, R, E>(s: Setup<W, Op, R, E>, c: Config, replies: seq<Reply<R, E>>, reply: Reply<R, E>,
      times: seq<Times>)
    requires |times| > |replies|
    ensures forall i: nat :: i < |replies| ==>
              (TooEarly(s, c, replies + [reply], times, i) <==> TooEarly(s, c, replies, times, i))
    ensures forall i: nat :: i > |replies| ==> !TooEarly(s, c, replies + [reply], times, i)
  {
    forall i: nat | i < |replies|
      ensures TooEarly(s, c, replies + [reply], times, i) <==> TooEarly(s, c, replies, times, i)
    {
      assert (replies + [reply])[..i] == replies[..i];
    }
  }

  /** For the times at which the calls were made: the guard goes unnoticed iff every call that follows
      `threshold` or more failures in a row starts no earlier than the timeout after the last of them. */
  lemma UnnoticedUnlessTooEarly<W, Op, R, E>(
      s: Setup<W, Op, R, E>, c: Config, w: W, ops: seq<Op>, times: seq<Times>)
    requires c.Valid() && |times| == |ops| && Distinguishable(s, PlainRun(s, w, ops).1)
    ensures Unnoticed(s, c, w, ops, times) <==>
            forall i: nat :: !TooEarly(s, c, PlainRun(s, w, ops).1, times, i)
  {
    AgreeUnlessTooEarly(s, c, w, ops, times);
    hide GuardedRun, PlainRun, TooEarly, Stands;
  }

  /** All calls in one instant. */
  function Frozen(n: nat): (r: seq<Times>)
    ensures |r| == n && Sequential(r) && forall i :: 0 <= i < n ==> r[i] == Times(0, 0)
  {
    seq(n, _ => Times(0, 0))
  }

  /** A list of calls, one after another, gets the same replies and leaves the same state behind the
      guard as without it, whenever they are made, if and only if the dependency by itself never
      fails `threshold` times in a row before a further call. (A dependency that itself replies
      with the breaker's error could not be told apart.) */
  lemma GuardTransparent<W, Op, R, E>(s: Setup<W, Op, R, E>, c: Config, w: W, ops: seq<Op>)
    requires c.Valid() && Distinguishable(s, PlainRun(s, w, ops).1)
    ensures (forall times :: |times| == |ops| && Sequential(times) ==> Unnoticed(s, c, w, ops, times))
            <==> !FailsInARow(s, PlainRun(s, w, ops).1, c.threshold)
  {
    var replies := PlainRun(s, w, ops).1;
    hide PlainRun, GuardedRun, Unnoticed, Distinguishable, Sequential, Frozen;
    if FailsInARow(s, replies, c.threshold) {
      var i: nat :| RowAt(s, replies, i, c.threshold);
      var times, j := Frozen(|ops|), i + c.threshold;
      TrailingIsRow(s, replies[..j], c.threshold);
      assert TooEarly(s, c, replies, times, j);
      UnnoticedUnlessTooEarly(s, c, w, ops, times);
    } else {
      forall times | |times| == |ops| && Sequential(times)
        ensures Unnoticed(s, c, w, ops, times)
      {
        forall i: nat
          ensures !TooEarly(s, c, replies, times, i)
        {
          NeverTooEarly(s, c, replies, times, i);
        }
        UnnoticedUnlessTooEarly(s, c, w, ops, times);
      }
    }
  }

  lemma NeverTooEarly<W, Op, R, E>(s: Setup<W, Op, R, E>, c: Config, replies: seq<Reply<R, E>>, times: seq<Times>,
      i: nat)
    requires c.Valid() && |times| >= |replies| && !FailsInARow(s, replies, c.threshold)
    ensures !TooEarly(s, c, replies, times, i)
  {
    if TooEarly(s, c, replies, times, i) {
      TrailingIsRow(s, replies[..i], c.threshold);
      assert RowAt(s, replies, i - c.threshold, c.threshold);
    }
  }
}
