/** Every interleaving of counted requests, with the locked sections and the gauge calls as separate
    steps, and the returned function called any number of times. */
module InflightProofs {
  import opened Inflight

  type Rid = nat

  /** `Start`; count (locked); look up and increment; serve; then once: look up and decrement;
      uncount and, if that was the last reference, delete the series, all under the lock. */
  datatype Pc =
    | Start
    | Counted
    | ToInc(child: Child)
    | Serving
    | Closing
    | ToDec(child: Child)
    | ToUncount
    | Deleting
    | Finished

  /** One call of IncHTTPInflight together with the calls of the function it returns. */
  datatype Request = Request(series: Series, pc: Pc)

  datatype State = State(g: Gauges, locked: bool, requests: map<Rid, Request>)

  datatype Step = Arrive(r: Rid, series: Series) | Next(r: Rid) | Done(r: Rid)

  function Init(): State {
    State(Gauges(map[], map[], []), false, map[])
  }

  /** The function that ends the request has been handed out. */
  predicate InService(pc: Pc) {
    pc.Serving? || pc.Closing? || pc.ToDec? || pc.ToUncount? || pc.Deleting? || pc.Finished?
  }

  /** `Next` takes the next step of a request. `Done` calls the returned function; sync.Once lets only
      the first call through. */
  predicate Enabled(s: State, step: Step) {
    match step
    case Arrive(r, _) => r !in s.requests
    case Next(r) =>
      r in s.requests &&
      var pc := s.requests[r].pc;
      !pc.Serving? && !pc.Finished? && (pc.Start? || pc.ToUncount? ==> !s.locked)
    case Done(r) => r in s.requests && InService(s.requests[r].pc)
  }

  function Goto(s: State, r: Rid, x: Series, pc: Pc): State {
    s.(requests := s.requests[r := Request(x, pc)])
  }

  function Do(s: State, step: Step): State
    requires Enabled(s, step)
  {
    match step
    case Arrive(r, x) => Goto(s, r, x, Start)
    case Done(r) => if s.requests[r].pc.Serving? then Goto(s, r, s.requests[r].series, Closing) else s
    case Next(r) =>
      var x := s.requests[r].series;
      (match s.requests[r].pc
       case Start => Goto(s.(g := Ref(s.g, x)), r, x, Counted)
       case Counted => var (g, child) := Lookup(s.g, x); Goto(s.(g := g), r, x, ToInc(child))
       case ToInc(child) => Goto(s.(g := Add(s.g, child, 1)), r, x, Serving)
       case Closing => var (g, child) := Lookup(s.g, x); Goto(s.(g := g), r, x, ToDec(child))
       case ToDec(child) => Goto(s.(g := Add(s.g, child, -1)), r, x, ToUncount)
       case ToUncount =>
         var (g, last) := Unref(s.g, x);
         Goto(s.(g := g, locked := last), r, x, if last then Deleting else Finished)
       case Deleting => Goto(s.(g := Drop(s.g, x), locked := false), r, x, Finished)
       case _ => s)
  }

  // What the counts mean

  /** Between counting and uncounting. */
  predicate Referenced(q: Request, x: Series) {
    q.series == x && !q.pc.Start? && !q.pc.Deleting? && !q.pc.Finished?
  }

  /** Between Inc and Dec. */
  predicate Gauged(q: Request, x: Series) {
    q.series == x && (q.pc.Serving? || q.pc.Closing? || q.pc.ToDec?)
  }

  function References(requests: map<Rid, Request>, x: Series): set<Rid> {
    set r | r in requests && Referenced(requests[r], x)
  }

  function InGauge(requests: map<Rid, Request>, x: Series): set<Rid> {
    set r | r in requests && Gauged(requests[r], x)
  }

  /** The series of such a request has a child. */
  predicate NeedsChild(pc: Pc) {
    pc.ToInc? || pc.Serving? || pc.Closing? || pc.ToDec? || pc.ToUncount?
  }

  ghost predicate RefsOk(s: State) {
    forall x :: Count(s.g.refs, x) == |References(s.requests, x)| && (x in s.g.refs ==> s.g.refs[x] > 0)
  }

  ghost predicate ValuesOk(s: State) {
    && (forall x :: Reported(s.g, x) == |InGauge(s.requests, x)|)
    && (forall x :: x in s.g.children ==> s.g.children[x] < |s.g.values|)
    && (forall x, y :: x in s.g.children && y in s.g.children && s.g.children[x] == s.g.children[y] ==> x == y)
  }

  ghost predicate RequestOk(s: State, q: Request) {
    && (NeedsChild(q.pc) ==> q.series in s.g.children)
    && (q.pc.ToInc? || q.pc.ToDec? ==> q.series in s.g.children && s.g.children[q.series] == q.pc.child)
    && (q.pc.Deleting? ==> s.locked && q.series !in s.g.refs)
  }

  /** A child without references is about to be deleted. */
  ghost predicate ChildrenOk(s: State) {
    forall x :: x in s.g.children && x !in s.g.refs ==>
      exists r :: r in s.requests && s.requests[r] == Request(x, Deleting)
  }

  ghost predicate Inv(s: State) {
    && RefsOk(s)
    && ValuesOk(s)
    && ChildrenOk(s)
    && (forall r :: r in s.requests ==> RequestOk(s, s.requests[r]))
    && (forall r, q ::
          r in s.requests && q in s.requests && s.requests[r].pc.Deleting? && s.requests[q].pc.Deleting? ==> r == q)
  }

  function One(b: bool): int {
    if b then 1 else 0
  }

  lemma CardinalAfter(a: set<Rid>, r: Rid, b: bool)
    ensures |a - {r} + if b then {r} else {}| == |a| - One(r in a) + One(b)
  {
    if r in a {
      assert a == (a - {r}) + {r};
    } else {
      assert a - {r} == a;
    }
  }

  lemma ReferencesAfter(m: map<Rid, Request>, r: Rid, q: Request, x: Series)
    ensures References(m[r := q], x) == References(m, x) - {r} + if Referenced(q, x) then {r} else {}
    ensures r in References(m, x) <==> r in m && Referenced(m[r], x)
  {
    hide Referenced;
  }

  lemma InGaugeAfter(m: map<Rid, Request>, r: Rid, q: Request, x: Series)
    ensures InGauge(m[r := q], x) == InGauge(m, x) - {r} + if Gauged(q, x) then {r} else {}
    ensures r in InGauge(m, x) <==> r in m && Gauged(m[r], x)
  {
    hide Gauged;
  }

  /** How the counts change when one request moves. */
  lemma CountsAfter(m: map<Rid, Request>, r: Rid, q: Request, x: Series)
    ensures |References(m[r := q], x)| ==
            |References(m, x)| - One(r in m && Referenced(m[r], x)) + One(Referenced(q, x))
    ensures |InGauge(m[r := q], x)| == |InGauge(m, x)| - One(r in m && Gauged(m[r], x)) + One(Gauged(q, x))
  {
    hide References, InGauge, Referenced, Gauged;
    ReferencesAfter(m, r, q, x);
    InGaugeAfter(m, r, q, x);
    CardinalAfter(References(m, x), r, Referenced(q, x));
    CardinalAfter(InGauge(m, x), r, Gauged(q, x));
  }

  /** Every step moves one request, or none. */
  lemma StepMoves(s: State, step: Step)
    requires Enabled(s, step)
    ensures var s' := Do(s, step); step.r in s'.requests && s'.requests == s.requests[step.r := s'.requests[step.r]]
    ensures step.r in s.requests ==> Do(s, step).requests[step.r].series == s.requests[step.r].series
  {
  }

  lemma RefsStay(s: State, step: Step)
    requires Inv(s) && Enabled(s, step)
    ensures RefsOk(Do(s, step))
  {
    hide References, InGauge, ValuesOk, ChildrenOk, RequestOk;
    var s' := Do(s, step);
    StepMoves(s, step);
    forall x
      ensures Count(s'.g.refs, x) == |References(s'.requests, x)| && (x in s'.g.refs ==> s'.g.refs[x] > 0)
    {
      CountsAfter(s.requests, step.r, s'.requests[step.r], x);
    }
  }

  lemma LookupKeeps(g: Gauges, x: Series)
    requires forall y :: y in g.children ==> g.children[y] < |g.values|
    requires forall y, z :: y in g.children && z in g.children && g.children[y] == g.children[z] ==> y == z
    ensures var (g', child) := Lookup(g, x);
            && g'.refs == g.refs
            && g'.children == g.children[x := child] && child < |g'.values|
            && (forall y :: y in g'.children ==> g'.children[y] < |g'.values|)
            && (forall y, z :: y in g'.children && z in g'.children && g'.children[y] == g'.children[z] ==> y == z)
            && (forall y :: Reported(g', y) == Reported(g, y))
            && (forall y :: y in g.children ==> y in g'.children && g'.children[y] == g.children[y])
  {
  }

  /** Every child has a value of its own. */
  ghost predicate Proper(g: Gauges) {
    && (forall x :: x in g.children ==> g.children[x] < |g.values|)
    && (forall x, y :: x in g.children && y in g.children && g.children[x] == g.children[y] ==> x == y)
  }

  lemma DropKeeps(g: Gauges, x: Series)
    requires Proper(g) && Reported(g, x) == 0
    ensures Proper(Drop(g, x)) && forall y :: Reported(Drop(g, x), y) == Reported(g, y)
  {
  }

  predicate Adds(s: State, step: Step) {
    step.Next? && step.r in s.requests && (s.requests[step.r].pc.ToInc? || s.requests[step.r].pc.ToDec?)
  }

  /** What a step does to the gauges, if it does not add to one. */
  lemma GaugesStay(s: State, step: Step)
    requires Enabled(s, step) && !Adds(s, step) && Proper(s.g)
    requires step.Next? && s.requests[step.r].pc.Deleting? ==> Reported(s.g, s.requests[step.r].series) == 0
    ensures Proper(Do(s, step).g) && forall x :: Reported(Do(s, step).g, x) == Reported(s.g, x)
  {
    if step.Next? {
      var q := s.requests[step.r];
      LookupKeeps(s.g, q.series);
      if q.pc.Deleting? {
        DropKeeps(s.g, q.series);
      }
    }
    hide Lookup, Drop;
  }

  lemma InGaugeStays(s: State, step: Step, x: Series)
    requires Enabled(s, step) && !Adds(s, step)
    ensures |InGauge(Do(s, step).requests, x)| == |InGauge(s.requests, x)|
  {
    var s' := Do(s, step);
    StepMoves(s, step);
    CountsAfter(s.requests, step.r, s'.requests[step.r], x);
    hide InGauge, References, Lookup, Drop, Unref, Ref;
  }

  /** A step that looks up or drops a child reports the same values. */
  lemma ValuesStay(s: State, step: Step)
    requires Inv(s) && Enabled(s, step) && !Adds(s, step)
    ensures ValuesOk(Do(s, step))
  {
    if step.Next? {
      var q := s.requests[step.r];
      assert RequestOk(s, q);
      if q.pc.Deleting? {
        NothingInGauge(s, q.series);
      }
    }
    GaugesStay(s, step);
    hide Do, InGauge, RefsOk, ChildrenOk, RequestOk, Reported;
    forall x
      ensures Reported(Do(s, step).g, x) == |InGauge(Do(s, step).requests, x)|
    {
      InGaugeStays(s, step, x);
    }
  }

  /** An increment or decrement lands on the child its series reports. */
  lemma ValuesMove(s: State, step: Step)
    requires Inv(s) && Enabled(s, step)
    requires Adds(s, step)
    ensures ValuesOk(Do(s, step))
  {
    var s', q := Do(s, step), s.requests[step.r];
    StepMoves(s, step);
    assert RequestOk(s, q);
    hide InGauge, References, RefsOk, ChildrenOk, RequestOk;
    forall x
      ensures Reported(s'.g, x) == |InGauge(s'.requests, x)|
    {
      CountsAfter(s.requests, step.r, s'.requests[step.r], x);
    }
  }

  /** Without references, nothing is between Inc and Dec. */
  lemma NothingInGauge(s: State, x: Series)
    requires RefsOk(s) && x !in s.g.refs
    ensures InGauge(s.requests, x) == {}
  {
    assert |References(s.requests, x)| == 0;
    assert InGauge(s.requests, x) <= References(s.requests, x);
  }

  /** A request that is counted keeps its series counted. */
  lemma ReferencedIsCounted(s: State, r: Rid)
    requires RefsOk(s) && r in s.requests && Referenced(s.requests[r], s.requests[r].series)
    ensures s.requests[r].series in s.g.refs
  {
    assert r in References(s.requests, s.requests[r].series);
  }

  /** A step never moves the child a series has, and removes it only with the last reference. */
  ghost predicate ChildrenMove(s: State, s': State, step: Step) {
    forall x :: x in s.g.children ==>
      || (x in s'.g.children && s'.g.children[x] == s.g.children[x])
      || (step.Next? && step.r in s.requests && s.requests[step.r] == Request(x, Deleting))
  }

  lemma StepMovesChildren(s: State, step: Step)
    requires Enabled(s, step)
    ensures ChildrenMove(s, Do(s, step), step)
  {
  }

  /** Only the lock's holder unlocks, and no other request is deleting meanwhile. */
  lemma StepMovesLock(s: State, step: Step)
    requires Enabled(s, step) && s.locked
    ensures Do(s, step).locked || (step.Next? && s.requests[step.r].pc.Deleting?)
    ensures Do(s, step).g.refs == s.g.refs
  {
    hide Lookup;
    if step.Next? {
      LookupKeepsRefs(s.g, s.requests[step.r].series);
    }
  }

  lemma LookupKeepsRefs(g: Gauges, x: Series)
    ensures Lookup(g, x).0.refs == g.refs
  {
  }

  lemma RequestsStay(s: State, step: Step, p: Rid)
    requires Inv(s) && Enabled(s, step) && p in s.requests && p != step.r
    ensures RequestOk(Do(s, step), s.requests[p])
  {
    var q := s.requests[p];
    assert RequestOk(s, q);
    if Referenced(q, q.series) {
      ReferencedIsCounted(s, p);
    }
    if step.Next? {
      assert RequestOk(s, s.requests[step.r]);
    }
    StepMovesChildren(s, step);
    if q.pc.Deleting? {
      StepMovesLock(s, step);
    }
    hide References, InGauge, RefsOk, ValuesOk, ChildrenOk, Do, Enabled;
  }

  lemma LookupFinds(g: Gauges, x: Series)
    ensures var (g', child) := Lookup(g, x); x in g'.children && g'.children[x] == child
  {
  }

  lemma MoverOk(s: State, step: Step)
    requires Inv(s) && Enabled(s, step)
    ensures RequestOk(Do(s, step), Do(s, step).requests[step.r])
  {
    if step.r in s.requests {
      assert RequestOk(s, s.requests[step.r]);
      LookupFinds(s.g, s.requests[step.r].series);
    }
    hide Inv, Lookup, Reported, Drop, Add;
  }

  /** A child that is without references after a step, and was not before, has just lost the last one. */
  lemma JustUnreferenced(s: State, step: Step, x: Series)
    requires Enabled(s, step)
    requires step.Next? && Referenced(s.requests[step.r], s.requests[step.r].series) ==>
               s.requests[step.r].series in s.g.refs
    requires x in Do(s, step).g.children && x !in Do(s, step).g.refs && !(x in s.g.children && x !in s.g.refs)
    ensures Do(s, step).requests[step.r] == Request(x, Deleting)
  {
    hide Reported;
  }

  lemma ChildrenStay(s: State, step: Step)
    requires Inv(s) && Enabled(s, step)
    ensures ChildrenOk(Do(s, step))
  {
    var s' := Do(s, step);
    StepMoves(s, step);
    if step.Next? && Referenced(s.requests[step.r], s.requests[step.r].series) {
      ReferencedIsCounted(s, step.r);
    }
    assert ChildrenOk(s);
    hide Inv, Reported, Add, Referenced, Lookup;
    forall x | x in s'.g.children && x !in s'.g.refs
      ensures exists r :: r in s'.requests && s'.requests[r] == Request(x, Deleting)
    {
      if x in s.g.children && x !in s.g.refs {
        var r :| r in s.requests && s.requests[r] == Request(x, Deleting);
        assert s'.requests[r] == Request(x, Deleting);
      } else {
        JustUnreferenced(s, step, x);
        assert s'.requests[step.r] == Request(x, Deleting);
      }
    }
  }

  lemma DoKeeps(s: State, step: Step)
    requires Inv(s) && Enabled(s, step)
    ensures Inv(Do(s, step))
  {
    var s' := Do(s, step);
    StepMoves(s, step);
    RefsStay(s, step);
    if Adds(s, step) {
      ValuesMove(s, step);
    } else {
      ValuesStay(s, step);
    }
    ChildrenStay(s, step);
    MoverOk(s, step);
    forall p | p in s.requests && p != step.r
      ensures RequestOk(s', s.requests[p])
    {
      RequestsStay(s, step, p);
    }
    OneDeleting(s, step);
    hide RefsOk, ValuesOk, ChildrenOk, RequestOk, Do;
  }

  /** The lock admits one deletion at a time. */
  lemma OneDeleting(s: State, step: Step)
    requires Inv(s) && Enabled(s, step)
    ensures var m := Do(s, step).requests;
            forall r, q :: r in m && q in m && m[r].pc.Deleting? && m[q].pc.Deleting? ==> r == q
  {
    StepMoves(s, step);
    if s.locked {
      OnlyUnlockedDeletes(s, step);
    }
    forall r | r in s.requests && s.requests[r].pc.Deleting?
      ensures s.locked
    {
      assert RequestOk(s, s.requests[r]);
    }
    hide RefsOk, ValuesOk, ChildrenOk, RequestOk, Do, Enabled;
  }

  lemma OnlyUnlockedDeletes(s: State, step: Step)
    requires Enabled(s, step) && s.locked
    ensures Do(s, step).requests[step.r].pc.Deleting? ==> step.r in s.requests && s.requests[step.r].pc.Deleting?
  {
    hide Lookup, Add, Drop, Ref;
  }

  ghost predicate IsRun(states: seq<State>, steps: seq<Step>) {
    && |states| == |steps| + 1
    && states[0] == Init()
    && forall i {:trigger steps[i]} :: 0 <= i < |steps| ==>
         Enabled(states[i], steps[i]) && states[i + 1] == Do(states[i], steps[i])
  }

  lemma InitOk()
    ensures Inv(Init())
  {
    assert forall x :: References(Init().requests, x) == {} && InGauge(Init().requests, x) == {};
  }

  lemma {:induction false} RunKeeps(states: seq<State>, steps: seq<Step>, i: nat)
    requires IsRun(states, steps) && i <= |steps|
    ensures Inv(states[i])
  {
    if i == 0 {
      InitOk();
    } else {
      RunKeeps(states, steps, i - 1);
      hide Inv;
      DoKeeps(states[i - 1], steps[i - 1]);
    }
  }

  /** In every interleaving the reference count of a series is the number of requests between counting
      and uncounting, and the gauge reports the number between increment and decrement, however often
      the returned functions are called. */
  lemma GaugeIsSound(states: seq<State>, steps: seq<Step>, i: nat, x: Series)
    requires IsRun(states, steps) && i <= |steps|
    ensures Count(states[i].g.refs, x) == |References(states[i].requests, x)|
    ensures Reported(states[i].g, x) == |InGauge(states[i].requests, x)|
  {
    RunKeeps(states, steps, i);
  }

  /** No update is lost: the child a request adds to is the one its series leads to. */
  lemma NoUpdateLost(states: seq<State>, steps: seq<Step>, i: nat, r: Rid)
    requires IsRun(states, steps) && i <= |steps| && r in states[i].requests
    requires states[i].requests[r].pc.ToInc? || states[i].requests[r].pc.ToDec?
    ensures var (g, q) := (states[i].g, states[i].requests[r]);
            q.series in g.children && g.children[q.series] == q.pc.child && q.pc.child < |g.values|
  {
    RunKeeps(states, steps, i);
    assert RequestOk(states[i], states[i].requests[r]);
  }

  /** A series is deleted only when its gauge stands at 0 and no request is counted under it. */
  lemma DeletedAtZero(states: seq<State>, steps: seq<Step>, i: nat, x: Series)
    requires IsRun(states, steps) && i < |steps|
    requires x in states[i].g.children && x !in states[i + 1].g.children
    ensures Reported(states[i].g, x) == 0 && References(states[i].requests, x) == {}
  {
    RunKeeps(states, steps, i);
    var s, step := states[i], steps[i];
    assert RequestOk(s, s.requests[step.r]);
    NothingInGauge(s, x);
  }

  /** When all its requests are over, a series is gone from the counts and from the gauge. */
  lemma AbsentWhenFinished(states: seq<State>, steps: seq<Step>, i: nat, x: Series)
    requires IsRun(states, steps) && i <= |steps|
    requires forall r :: r in states[i].requests && states[i].requests[r].series == x ==>
               states[i].requests[r].pc.Finished?
    ensures x !in states[i].g.refs && x !in states[i].g.children
  {
    RunKeeps(states, steps, i);
    assert References(states[i].requests, x) == {};
  }
}
