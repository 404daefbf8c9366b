/** The breaker over every interleaving of calls: its fields are a function of what it admitted and
    what completed, and that bounds how often and how many calls get through while it is open. */
module BreakerHistory {
  import opened Domain
  import opened CircuitBreaker

  /** Locked sections in lock order. A call is `Admitted`, runs, and is `Finished`. */
  datatype Event =
    | Admitted(call: nat, now: Time)
    | Rejected(now: Time)
    | Finished(call: nat, now: Time, failed: bool)

  type History = seq<Event>

  function StateAfter(c: Config, h: History): Breaker {
    if h == [] then CLOSED
    else
      var b := StateAfter(c, h[..|h| - 1]);
      match h[|h| - 1]
      case Admitted(_, now) => Before(b, now)
      case Rejected(now) => Before(b, now)
      case Finished(_, now, failed) => After(c, b, now, failed)
  }

  /** The calls admitted and not finished. */
  function InFlight(h: History): set<nat> {
    if h == [] then {}
    else
      var s := InFlight(h[..|h| - 1]);
      match h[|h| - 1]
      case Admitted(call, _) => s + {call}
      case Rejected(_) => s
      case Finished(call, _, _) => s - {call}
  }

  /** The breaker takes the decision its state calls for; a call is admitted under a new number and
      finishes at most once. */
  predicate LegalNext(c: Config, h: History, e: Event) {
    match e
    case Admitted(call, now) => Admits(StateAfter(c, h), now) && call !in InFlight(h)
    case Rejected(now) => !Admits(StateAfter(c, h), now)
    case Finished(call, _, _) => call in InFlight(h)
  }

  ghost predicate Legal(c: Config, h: History) {
    forall i :: 0 <= i < |h| ==> LegalNext(c, h[..i], h[i])
  }

  ghost predicate Monotone(h: History) {
    forall i, j :: 0 <= i <= j < |h| ==> h[i].now <= h[j].now
  }

  // The same history, read without running the breaker

  /** No completion from position `i` on. */
  predicate NoCompletionFrom(h: History, i: nat) {
    forall j :: i <= j < |h| ==> !h[j].Finished?
  }

  predicate LastCompletion(h: History, i: nat) {
    i < |h| && h[i].Finished? && NoCompletionFrom(h, i + 1)
  }

  /** The outcomes of the completions, in order: did the call fail? */
  function Outcomes(h: History): seq<bool> {
    if h == [] then []
    else Outcomes(h[..|h| - 1]) + if h[|h| - 1].Finished? then [h[|h| - 1].failed] else []
  }

  /** The last `n` completions failed, and the one before them did not. */
  ghost predicate TrailingFailures(h: History, n: int) {
    var o := Outcomes(h);
    && 0 <= n <= |o|
    && (forall i :: |o| - n <= i < |o| ==> o[i])
    && (n < |o| ==> !o[|o| - n - 1])
  }

  /** A call was admitted since the last completion. */
  ghost predicate AdmittedSinceCompletion(h: History) {
    exists i :: 0 <= i < |h| && h[i].Admitted? && NoCompletionFrom(h, i)
  }

  lemma TrailingFailuresUnique(h: History, n: int, m: int)
    requires TrailingFailures(h, n) && TrailingFailures(h, m)
    ensures n == m
  {
  }

  lemma LastCompletionUnique(h: History, i: nat, j: nat)
    requires LastCompletion(h, i) && LastCompletion(h, j)
    ensures i == j
  {
  }

  /** The breaker's fields are exactly a fold of its history, in every interleaving: `failures` is
      the length of the trailing run of failures; it is open iff that run has reached the threshold,
      until the timeout after the last of them; `halfOpenCall` holds iff it is open and has admitted
      a call since the last completion. */
  ghost predicate FieldsMatch(c: Config, h: History, b: Breaker) {
    && TrailingFailures(h, b.failures)
    && (b.openUntil.Some? <==> b.failures >= c.threshold)
    && (b.openUntil.Some? ==> exists i: nat :: LastCompletion(h, i) && b.openUntil.value == h[i].now + c.timeout)
    && (b.halfOpenCall <==> b.openUntil.Some? && AdmittedSinceCompletion(h))
  }

  lemma {:induction false} FieldsAreFoldOfHistory(c: Config, h: History)
    requires c.Valid() && Legal(c, h)
    ensures FieldsMatch(c, h, StateAfter(c, h))
  {
    if h == [] {
    } else {
      var n := |h| - 1;
      var h', e := h[..n], h[n];
      assert forall i :: 0 <= i < n ==> h'[i] == h[i] && h'[..i] == h[..i];
      FieldsAreFoldOfHistory(c, h');
      EventKeepsMatch(c, h', e);
      assert h == h' + [e];
    }
  }

  lemma EventKeepsMatch(c: Config, h: History, e: Event)
    requires c.Valid() && FieldsMatch(c, h, StateAfter(c, h)) && LegalNext(c, h, e)
    ensures FieldsMatch(c, h + [e], StateAfter(c, h + [e]))
  {
    var h' := h + [e];
    assert h'[..|h|] == h;
    var b, b' := StateAfter(c, h), StateAfter(c, h');
    var o, o' := Outcomes(h), Outcomes(h');
    if e.Finished? {
      assert o' == o + [e.failed];
      assert LastCompletion(h', |h|);
      assert !AdmittedSinceCompletion(h');
    } else {
      assert o' == o;
      if b.openUntil.Some? {
        var i: nat :| LastCompletion(h, i) && b.openUntil.value == h[i].now + c.timeout;
        assert LastCompletion(h', i);
      }
      if AdmittedSinceCompletion(h) {
        var i :| 0 <= i < |h| && h[i].Admitted? && NoCompletionFrom(h, i);
        assert h'[i].Admitted? && NoCompletionFrom(h', i);
      }
      if e.Admitted? {
        assert h'[|h|].Admitted? && NoCompletionFrom(h', |h|);
      } else if AdmittedSinceCompletion(h') {
        var i :| 0 <= i < |h'| && h'[i].Admitted? && NoCompletionFrom(h', i);
        assert h[i].Admitted? && NoCompletionFrom(h, i);
      }
    }
  }

  /** A call is admitted iff the trailing run of failures is below the threshold, or the timeout
      after the last of them is over and no call was admitted since. */
  lemma AdmissionFromHistory(c: Config, h: History, n: int, last: nat, now: Time)
    requires c.Valid() && Legal(c, h) && TrailingFailures(h, n)
    requires n >= c.threshold ==> LastCompletion(h, last)
    ensures Admits(StateAfter(c, h), now) <==>
            n < c.threshold || (now >= h[last].now + c.timeout && !AdmittedSinceCompletion(h))
  {
    var b := StateAfter(c, h);
    FieldsAreFoldOfHistory(c, h);
    TrailingFailuresUnique(h, n, b.failures);
    hide StateAfter, Outcomes, TrailingFailures, Legal, AdmittedSinceCompletion, LastCompletion;
    if n >= c.threshold {
      var i: nat :| LastCompletion(h, i) && b.openUntil.value == h[i].now + c.timeout;
      LastCompletionUnique(h, i, last);
    }
  }

  // How often calls get through

  /** Calls admitted at positions `from` and later. */
  function AdmittedFrom(h: History, from: nat): nat
    requires from <= |h|
  {
    if from == |h| then 0
    else AdmittedFrom(h[..|h| - 1], from) + if h[|h| - 1].Admitted? then 1 else 0
  }

  /** The time `n` timeouts after `start`. */
  function Due(c: Config, start: Time, n: nat): Time {
    start + n * c.timeout
  }

  lemma DueNext(c: Config, start: Time, n: nat)
    ensures Due(c, start, n + 1) == Due(c, start, n) + c.timeout
  {
  }

  /** The breaker has stayed open since `start`; the clock stands at `now` and `n` calls were let
      through. */
  ghost predicate OpenSince(c: Config, b: Breaker, start: Time, now: Time, n: nat) {
    && b.openUntil.Some? && b.failures >= c.threshold
    && now >= Due(c, start, n)
    && (!b.halfOpenCall ==> b.openUntil.value >= Due(c, start, n + 1))
  }

  lemma StaysOpen(c: Config, h: History, e: Event, start: Time, now: Time, n: nat)
    requires c.Valid() && LegalNext(c, h, e) && e.now >= now && (e.Finished? ==> e.failed)
    requires OpenSince(c, StateAfter(c, h), start, now, n)
    ensures OpenSince(c, StateAfter(c, h + [e]), start, e.now, if e.Admitted? then n + 1 else n)
  {
    assert (h + [e])[..|h|] == h;
    DueNext(c, start, n);
    DueNext(c, start, n + 1);
    hide Due;
  }

  lemma {:induction false} OpenUntilGrows(c: Config, h: History, trip: nat)
    requires c.Valid() && Legal(c, h) && Monotone(h)
    requires trip < |h| && h[trip].Finished? && StateAfter(c, h[..trip + 1]).openUntil.Some?
    requires forall j :: trip < j < |h| && h[j].Finished? ==> h[j].failed
    ensures OpenSince(c, StateAfter(c, h), h[trip].now, h[|h| - 1].now, AdmittedFrom(h, trip + 1))
    decreases |h|
  {
    hide StateAfter, OpenSince, LegalNext, AdmittedFrom;
    var n := |h| - 1;
    var h', e := h[..n], h[n];
    assert h == h' + [e];
    PrefixLegal(c, h, n);
    if trip == n {
      assert h[..trip + 1] == h;
      hide Legal, Monotone;
      JustOpened(c, h', e);
      NoneAdmittedYet(h);
    } else {
      assert h'[..trip + 1] == h[..trip + 1];
      OpenUntilGrows(c, h', trip);
      assert e.now >= h'[n - 1].now;
      hide Legal, Monotone;
      StaysOpen(c, h', e, h[trip].now, h'[n - 1].now, AdmittedFrom(h', trip + 1));
      AdmittedFromNext(h', e, trip + 1);
    }
  }

  lemma AdmittedFromNext(h: History, e: Event, from: nat)
    requires from <= |h|
    ensures AdmittedFrom(h + [e], from) == AdmittedFrom(h, from) + if e.Admitted? then 1 else 0
  {
    assert (h + [e])[..|h|] == h;
  }

  lemma NoneAdmittedYet(h: History)
    ensures AdmittedFrom(h, |h|) == 0
  {
  }

  lemma JustOpened(c: Config, h: History, e: Event)
    requires c.Valid() && Legal(c, h) && e.Finished? && StateAfter(c, h + [e]).openUntil.Some?
    ensures OpenSince(c, StateAfter(c, h + [e]), e.now, e.now, 0)
  {
    assert (h + [e])[..|h|] == h;
    FieldsAreFoldOfHistory(c, h);
    hide TrailingFailures, LastCompletion, AdmittedSinceCompletion;
  }

  lemma PrefixLegal(c: Config, h: History, n: nat)
    requires Legal(c, h) && n <= |h|
    ensures Legal(c, h[..n])
    ensures Monotone(h) ==> Monotone(h[..n])
    ensures n < |h| ==> LegalNext(c, h[..n], h[n])
  {
    forall i | 0 <= i < n
      ensures LegalNext(c, h[..n][..i], h[..n][i])
    {
      assert h[..n][..i] == h[..i];
    }
  }

  /** With a monotone clock, the n-th call admitted since a failure left the breaker open, with no
      success since, is admitted no earlier than n timeouts after that failure. Calls admitted before
      may finish at any time. */
  lemma ProbeRate(c: Config, h: History, trip: nat, probe: nat)
    requires c.Valid() && Legal(c, h) && Monotone(h)
    requires trip < probe < |h| && h[trip].Finished? && StateAfter(c, h[..trip + 1]).openUntil.Some?
    requires forall j :: trip < j < probe && h[j].Finished? ==> h[j].failed
    requires h[probe].Admitted?
    ensures h[probe].now >= Due(c, h[trip].now, AdmittedFrom(h[..probe + 1], trip + 1))
  {
    hide StateAfter, Due, AdmittedFrom, Legal, LegalNext, Monotone;
    var h' := h[..probe + 1];
    PrefixLegal(c, h, probe + 1);
    assert h'[..trip + 1] == h[..trip + 1];
    LatestDue(c, h', trip);
  }

  lemma LatestDue(c: Config, h: History, trip: nat)
    requires c.Valid() && Legal(c, h) && Monotone(h)
    requires trip < |h| && h[trip].Finished? && StateAfter(c, h[..trip + 1]).openUntil.Some?
    requires forall j :: trip < j < |h| && h[j].Finished? ==> h[j].failed
    ensures h[|h| - 1].now >= Due(c, h[trip].now, AdmittedFrom(h, trip + 1))
  {
    hide StateAfter, Due, AdmittedFrom, Legal, Monotone;
    OpenUntilGrows(c, h, trip);
  }

  // How many calls get through

  /** `halfOpenCall` means that a call admitted since the last completion is still running. */
  lemma {:induction false} HalfOpenHasProbe(c: Config, h: History)
    requires c.Valid() && Legal(c, h) && StateAfter(c, h).halfOpenCall
    ensures exists i :: 0 <= i < |h| && h[i].Admitted? && NoCompletionFrom(h, i) && h[i].call in InFlight(h)
  {
    FieldsAreFoldOfHistory(c, h);
    var i :| 0 <= i < |h| && h[i].Admitted? && NoCompletionFrom(h, i);
    StillInFlight(h, i);
  }

  lemma {:induction false} StillInFlight(h: History, i: nat)
    requires i < |h| && h[i].Admitted? && NoCompletionFrom(h, i)
    ensures h[i].call in InFlight(h)
  {
    if i == |h| - 1 {
    } else {
      var h' := h[..|h| - 1];
      assert h'[i] == h[i];
      StillInFlight(h', i);
    }
  }

  /** The breaker cannot wedge: with nothing in flight, and the timeout over, the next call is
      admitted. */
  lemma NoWedging(c: Config, h: History, now: Time)
    requires c.Valid() && Legal(c, h) && InFlight(h) == {}
    requires StateAfter(c, h).openUntil.Some? ==> now >= StateAfter(c, h).openUntil.value
    ensures Admits(StateAfter(c, h), now)
  {
    if StateAfter(c, h).halfOpenCall {
      HalfOpenHasProbe(c, h);
    }
  }

  /** The breaker is open, and no more than the probe it has let through is in flight. */
  ghost predicate Guarded(c: Config, b: Breaker, inFlight: set<nat>) {
    && b.openUntil.Some? && b.failures >= c.threshold
    && |inFlight| <= 1
    && (inFlight != {} ==> b.halfOpenCall)
  }

  lemma StaysGuarded(c: Config, h: History, e: Event)
    requires LegalNext(c, h, e) && (e.Finished? ==> e.failed)
    requires Guarded(c, StateAfter(c, h), InFlight(h))
    ensures Guarded(c, StateAfter(c, h + [e]), InFlight(h + [e]))
  {
    assert (h + [e])[..|h|] == h;
    if e.Finished? {
      assert |InFlight(h) - {e.call}| == |InFlight(h)| - 1;
    }
  }

  lemma IdleGuarded(c: Config, h: History)
    requires c.Valid() && Legal(c, h) && StateAfter(c, h).openUntil.Some? && InFlight(h) == {}
    ensures Guarded(c, StateAfter(c, h), InFlight(h))
  {
    FieldsAreFoldOfHistory(c, h);
    hide StateAfter, InFlight, Legal, TrailingFailures, LastCompletion, AdmittedSinceCompletion;
  }

  /** Once an open breaker has no call in flight, at most one call is in flight until it closes. */
  lemma {:induction false} HalfOpenExclusive(c: Config, h: History, idle: nat)
    requires c.Valid() && Legal(c, h) && idle <= |h|
    requires StateAfter(c, h[..idle]).openUntil.Some? && InFlight(h[..idle]) == {}
    requires forall j :: idle <= j < |h| && h[j].Finished? ==> h[j].failed
    ensures Guarded(c, StateAfter(c, h), InFlight(h))
    decreases |h|
  {
    hide StateAfter, InFlight, LegalNext, Legal, Guarded;
    if idle == |h| {
      assert h[..idle] == h;
      IdleGuarded(c, h);
    } else {
      var n := |h| - 1;
      assert h[..n][..idle] == h[..idle] && h == h[..n] + [h[n]];
      PrefixLegal(c, h, n);
      HalfOpenExclusive(c, h[..n], idle);
      StaysGuarded(c, h[..n], h[n]);
    }
  }
}
