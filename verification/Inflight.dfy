/** The in-flight request gauge (IncHTTPInflight in internal/observability/metrics.go).

    The reference counts change under a lock; the gauge is changed outside it, in two steps: look up
    the child of the series, creating it if need be, then add to that child. A child whose series has
    been deleted meanwhile would swallow the update. */
module Inflight {

  /** The method and route a request is counted under. */
  type Series = string
  type Child = nat

  /** `children` is the gauge vector; `values` also keeps the children no series leads to any more. */
  datatype Gauges = Gauges(refs: map<Series, int>, children: map<Series, Child>, values: seq<int>)

  function Count(refs: map<Series, int>, x: Series): int {
    if x in refs then refs[x] else 0
  }

  function Ref(g: Gauges, x: Series): Gauges {
    g.(refs := g.refs[x := Count(g.refs, x) + 1])
  }

  /** WithLabelValues. */
  function Lookup(g: Gauges, x: Series): (Gauges, Child) {
    if x in g.children then (g, g.children[x])
    else (g.(children := g.children[x := |g.values|], values := g.values + [0]), |g.values|)
  }

  function Add(g: Gauges, child: Child, delta: int): Gauges {
    if child < |g.values| then g.(values := g.values[child := g.values[child] + delta]) else g
  }

  /** The count of the locked section that gives a reference back; true if it was the last. */
  function Unref(g: Gauges, x: Series): (Gauges, bool) {
    var n := Count(g.refs, x) - 1;
    if n <= 0 then (g.(refs := g.refs - {x}), true) else (g.(refs := g.refs[x := n]), false)
  }

  /** DeleteLabelValues. */
  function Drop(g: Gauges, x: Series): Gauges {
    g.(children := g.children - {x})
  }

  /** What the gauge reports for a series; an absent series reports nothing, read as 0. */
  function Reported(g: Gauges, x: Series): int {
    if x in g.children && g.children[x] < |g.values| then g.values[g.children[x]] else 0
  }

  lemma AddUndone(g: Gauges, child: Child)
    ensures Add(Add(g, child, 1), child, -1) == g
  {
  }

  lemma RefUndone(g: Gauges, x: Series)
    requires forall y :: y in g.refs ==> g.refs[y] > 0
    ensures Unref(Ref(g, x), x) == (g, x !in g.refs)
  {
    if x in g.refs {
      assert g.refs[x := g.refs[x] + 1][x := g.refs[x]] == g.refs;
    } else {
      assert g.refs[x := 1] - {x} == g.refs;
    }
  }

  /** Looking up a child twice finds it again, whatever has been added to it. */
  lemma LookupTwice(g: Gauges, x: Series, delta: int)
    requires forall y :: y in g.children ==> g.children[y] < |g.values|
    ensures var (g', child) := Lookup(g, x);
            && child < |g'.values|
            && Lookup(Add(g', child, delta), x) == (Add(g', child, delta), child)
  {
  }

  /** Looking up a child, or dropping it at 0, changes no reported value. */
  lemma ReportedStays(g: Gauges, x: Series, y: Series)
    requires forall z :: z in g.children ==> g.children[z] < |g.values|
    ensures Reported(Lookup(g, x).0, y) == Reported(g, y)
    ensures Reported(g, x) == 0 ==> Reported(Drop(g, x), y) == Reported(g, y)
  {
  }

  /** Counting, looking up and uncounting leave the counts and the reported values as they were. */
  lemma RequestUndone(g: Gauges, x: Series)
    requires forall y :: y in g.children ==> g.children[y] < |g.values|
    requires forall y :: y in g.refs ==> g.refs[y] > 0
    requires x !in g.refs ==> Reported(g, x) == 0
    ensures var (unref, last) := Unref(Lookup(Ref(g, x), x).0, x);
            var end := if last then Drop(unref, x) else unref;
            end.refs == g.refs && forall y :: Reported(end, y) == Reported(g, y)
  {
    RefUndone(g, x);
    var looked := Lookup(g, x).0;
    assert Lookup(Ref(g, x), x).0 == looked.(refs := Ref(g, x).refs);
    assert Unref(Lookup(Ref(g, x), x).0, x) == (looked, x !in g.refs);
    hide Ref, Unref, Lookup, Drop;
    forall y
      ensures Reported(looked, y) == Reported(g, y)
      ensures x !in g.refs ==> Reported(Drop(looked, x), y) == Reported(g, y)
    {
      ReportedStays(g, x, y);
      ReportedStays(g, x, x);
      LookupValid(g, x);
      ReportedStays(looked, x, y);
    }
    DropKeepsRefs(looked, x);
    hide Reported;
  }

  lemma LookupValid(g: Gauges, x: Series)
    requires forall y :: y in g.children ==> g.children[y] < |g.values|
    ensures var looked := Lookup(g, x).0;
            looked.refs == g.refs && forall y :: y in looked.children ==> looked.children[y] < |looked.values|
  {
  }

  lemma DropKeepsRefs(g: Gauges, x: Series)
    ensures Drop(g, x).refs == g.refs
  {
  }

  class InflightGauge {
    var refs: map<Series, int>
    var children: map<Series, Child>
    var values: seq<int>

    ghost function Abstract(): Gauges
      reads this
    {
      Gauges(refs, children, values)
    }

    constructor ()
      ensures Abstract() == Gauges(map[], map[], [])
    {
      refs, children, values := map[], map[], [];
    }

    method WithLabelValues(x: Series) returns (child: Child)
      modifies this
      ensures (Abstract(), child) == Lookup(old(Abstract()), x)
    {
      if x !in children {
        children := children[x := |values|];
        values := values + [0];
      }
      child := children[x];
    }

    method AddTo(child: Child, delta: int)
      requires child < |values|
      modifies this
      ensures Abstract() == Add(old(Abstract()), child, delta)
    {
      values := values[child := values[child] + delta];
    }

    /** The locked section at the start of a request. */
    method Acquire(x: Series)
      modifies this
      ensures Abstract() == Ref(old(Abstract()), x)
    {
      refs := refs[x := (if x in refs then refs[x] else 0) + 1];
    }

    /** The locked section at its end. */
    method Release(x: Series)
      modifies this
      ensures var (g, last) := Unref(old(Abstract()), x); Abstract() == if last then Drop(g, x) else g
    {
      refs := refs[x := (if x in refs then refs[x] else 0) - 1];
      if refs[x] <= 0 {
        refs := refs - {x};
        children := children - {x};
      }
    }

    /** A whole request with nothing in between leaves every count and every reported value as it
        found them, provided no child has a value without a reference. */
    method CountRequest(x: Series)
      requires forall y :: y in children ==> children[y] < |values|
      requires forall y :: y in refs ==> refs[y] > 0
      requires x !in refs ==> Reported(Abstract(), x) == 0
      modifies this
      ensures refs == old(refs)
      ensures forall y :: Reported(Abstract(), y) == old(Reported(Abstract(), y))
    {
      ghost var g := Abstract();
      Acquire(x);
      ghost var counted := Abstract();
      var child := WithLabelValues(x);
      ghost var looked := Abstract();
      LookupTwice(counted, x, 1);
      AddTo(child, 1);
      child := WithLabelValues(x);
      AddUndone(looked, child);
      AddTo(child, -1);
      assert Abstract() == looked;
      Release(x);
      RequestUndone(g, x);
    }
  }
}
