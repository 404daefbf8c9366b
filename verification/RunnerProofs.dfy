/** What the answers of the runner (internal/worker/runner.go) do to the queues: a delivery leaves its
    queue iff it is acknowledged. */
module RunnerProofs {
  import opened Domain
  import opened Store
  import opened Protocol
  import opened Sequential
  import opened Worker

  // The answers

  lemma {:induction false} ServedPrefix(c: Config, db: Db, ds: seq<Delivery>, os: nat -> Outcomes, k: nat)
    requires k < |ds|
    ensures var (after, err) := Handled(c, Served(c, db, ds[..k], os).0, ds[k], os(k));
            Served(c, db, ds[..k + 1], os).0 == after && Served(c, db, ds, os).1[k] == err.None?
    decreases |ds|
  {
    var n := |ds| - 1;
    hide Handled;
    if k == n {
      assert ds[..k + 1] == ds;
    } else {
      ServedPrefix(c, db, ds[..n], os, k);
      assert ds[..n][..k] == ds[..k] && ds[..n][..k + 1] == ds[..k + 1];
    }
  }

  /** Every answer, in terms of the stores as the delivery finds them: an unreadable body is sent back and
      an unknown routing key acknowledged, neither touching a store; a handled event is acknowledged iff
      its handler succeeds. */
  lemma AnswerAt(c: Config, db: Db, ds: seq<Delivery>, os: nat -> Outcomes, k: nat)
    requires k < |ds|
    ensures var (before, after) := (Served(c, db, ds[..k], os).0, Served(c, db, ds[..k + 1], os).0);
            var ack := Served(c, db, ds, os).1[k];
            && (ds[k].Malformed? ==> !ack && after == before)
            && (ds[k].Unknown? ==> ack && after == before)
            && (ds[k].Uploaded? ==>
                  var (db', err) := Solo(c, before, UhGet(ds[k].id), os(k), 0); after == db' && (ack <==> err.None?))
            && (ds[k].DeleteRequested? ==>
                  var (db', err) := Solo(c, before, DhGet(ds[k].id), os(k), 0); after == db' && (ack <==> err.None?))
  {
    ServedPrefix(c, db, ds, os, k);
    hide Solo, Served;
  }

  function EachFine(k: nat): Outcomes { AllFine }

  /** With stores that do not fail, an upload event is acknowledged iff its avatar needs no work or its
      thumbnails could be made, and a delete event always. */
  lemma FineAnswers(c: Config, db: Db, ds: seq<Delivery>, k: nat)
    requires k < |ds|
    ensures var (before, ack) := (Served(c, db, ds[..k], EachFine).0, Served(c, db, ds, EachFine).1[k]);
            && (ds[k].Uploaded? ==>
                  var id := ds[k].id;
                  ack <==>
                  NeedsWork(before, id) ==>
                    var key := before.avatars[id].originalKey;
                    key in before.objects && Thumbnailable(c, before.objects[key].data))
            && (ds[k].DeleteRequested? ==> ack)
  {
    AnswerAt(c, db, ds, EachFine, k);
    var before := Served(c, db, ds[..k], EachFine).0;
    assert EachFine(k) == AllFine;
    hide Solo, Served;
    match ds[k]
    case Uploaded(id) => UploadHandled(c, before, id);
    case DeleteRequested(id) => DeleteHandled(c, before, id);
    case _ =>
  }

  // The queues

  /** No call of a handler reads or writes a queue. */
  lemma HandlerIgnoresQueues(c: Config, db: Db, pc: Pc, ch: Choice, uploads: multiset<Id>, deletes: multiset<Id>)
    requires pc.Handler()
    ensures var (db', next) := Micro(c, db, pc, ch);
            && Micro(c, db.(uploads := uploads, deletes := deletes), pc, ch) ==
               (db'.(uploads := uploads, deletes := deletes), next)
            && db'.uploads == db.uploads && db'.deletes == db.deletes
            && (next.Go? ==> next.pc.Handler())
  {
  }

  lemma {:induction false} SoloIgnoresQueues(c: Config, db: Db, pc: Pc, os: Outcomes, n: nat, uploads: multiset<Id>,
      deletes: multiset<Id>)
    requires pc.Handler()
    ensures var (db', err) := Solo(c, db, pc, os, n);
            && Solo(c, db.(uploads := uploads, deletes := deletes), pc, os, n) ==
               (db'.(uploads := uploads, deletes := deletes), err)
            && db'.uploads == db.uploads && db'.deletes == db.deletes
    decreases Stage(pc), Remaining(pc)
  {
    var ch := Choice(os(n), []);
    var (db', next) := Micro(c, db, pc, ch);
    CallProgresses(c, db, pc, ch);
    HandlerIgnoresQueues(c, db, pc, ch, uploads, deletes);
    SoloStep(c, db, pc, os, n);
    SoloStep(c, db.(uploads := uploads, deletes := deletes), pc, os, n);
    hide Micro, Solo;
    if next.Go? {
      SoloIgnoresQueues(c, db', next.pc, os, n + 1, uploads, deletes);
    }
  }

  /** The upload and the delete events among the deliveries. */
  function UploadsOf(ds: seq<Delivery>): multiset<Id> {
    if ds == [] then multiset{}
    else
      var d := ds[|ds| - 1];
      UploadsOf(ds[..|ds| - 1]) + if d.Uploaded? then multiset{d.id} else multiset{}
  }

  function DeletesOf(ds: seq<Delivery>): multiset<Id> {
    if ds == [] then multiset{}
    else
      var d := ds[|ds| - 1];
      DeletesOf(ds[..|ds| - 1]) + if d.DeleteRequested? then multiset{d.id} else multiset{}
  }

  /** The deliveries answered with true. */
  function Acked(ds: seq<Delivery>, acks: seq<bool>): seq<Delivery>
    requires |ds| == |acks|
  {
    if ds == [] then []
    else
      var n := |ds| - 1;
      Acked(ds[..n], acks[..n]) + if acks[n] then [ds[n]] else []
  }

  /** The broker handing the events over, in their order. */
  function Deliveries(pid: Pid, ds: seq<Delivery>): seq<Step> {
    if ds == [] then []
    else
      var d := ds[|ds| - 1];
      Deliveries(pid, ds[..|ds| - 1])
      + (if d.Uploaded? then [DeliverUpload(pid, d.id)] else if d.DeleteRequested? then [DeliverDelete(pid, d.id)]
         else [])
  }

  /** The steps that are no calls. */
  function NoCalls(steps: seq<Step>): seq<Step> {
    if steps == [] then []
    else
      var step := steps[|steps| - 1];
      NoCalls(steps[..|steps| - 1]) + if step.Advance? then [] else [step]
  }

  lemma {:induction false} NoCallsConcat(a: seq<Step>, b: seq<Step>)
    ensures NoCalls(a + b) == NoCalls(a) + NoCalls(b)
  {
    if b == [] {
      assert a + b == a;
    } else {
      assert (a + b)[..|a + b| - 1] == a + b[..|b| - 1];
      NoCallsConcat(a, b[..|b| - 1]);
    }
  }

  lemma {:induction false} OnlyCalls(steps: seq<Step>)
    requires forall step :: step in steps ==> step.Advance?
    ensures NoCalls(steps) == []
  {
    if steps == [] {
    } else {
      OnlyCalls(steps[..|steps| - 1]);
      assert steps[|steps| - 1] in steps;
    }
  }

  lemma {:induction false} PathConcat(c: Config, s: State, a: seq<Step>, s': State, b: seq<Step>, s'': State)
    requires Path(c, s, a, s') && Path(c, s', b, s'')
    ensures Path(c, s, a + b, s'')
    decreases a
  {
    hide Do, Enabled;
    if a == [] {
      assert a + b == b;
    } else {
      assert (a + b)[0] == a[0] && (a + b)[1..] == a[1..] + b;
      PathConcat(c, Do(c, s, a[0]), a[1..], s', b, s'');
    }
  }

  /** The queues once a delivery has been answered. */
  function Settled(db: Db, d: Delivery, ack: bool): Db {
    if !ack then db
    else if d.Uploaded? then db.(uploads := db.uploads - multiset{d.id})
    else if d.DeleteRequested? then db.(deletes := db.deletes - multiset{d.id})
    else db
  }

  lemma UploadTaken(c: Config, s: State, pid: Pid, id: Id, os: Outcomes) returns (steps: seq<Step>)
    requires pid !in s.procs && id in s.db.uploads
    ensures var (db, err) := Solo(c, s.db, UhGet(id), os, 0);
            Path(c, s, steps, State(Settled(db, Uploaded(id), err.None?), s.procs))
    ensures NoCalls(steps) == [DeliverUpload(pid, id)]
  {
    var step := DeliverUpload(pid, id);
    var s' := Do(c, s, step);
    SoloIgnoresQueues(c, s.db, UhGet(id), os, 0, s'.db.uploads, s'.db.deletes);
    var calls := SoloIsInterleaving(c, s', pid, os, 0);
    assert s'.procs - {pid} == s.procs;
    assert s.db.uploads - multiset{id} + multiset{id} == s.db.uploads;
    steps := [step] + calls;
    assert steps[1..] == calls && Enabled(s, step);
    hide Solo, Micro;
    OnlyCalls(calls);
    NoCallsConcat([step], calls);
    assert [step][..0] == [];
  }

  lemma DeleteTaken(c: Config, s: State, pid: Pid, id: Id, os: Outcomes) returns (steps: seq<Step>)
    requires pid !in s.procs && id in s.db.deletes
    ensures var (db, err) := Solo(c, s.db, DhGet(id), os, 0);
            Path(c, s, steps, State(Settled(db, DeleteRequested(id), err.None?), s.procs))
    ensures NoCalls(steps) == [DeliverDelete(pid, id)]
  {
    var step := DeliverDelete(pid, id);
    var s' := Do(c, s, step);
    SoloIgnoresQueues(c, s.db, DhGet(id), os, 0, s'.db.uploads, s'.db.deletes);
    var calls := SoloIsInterleaving(c, s', pid, os, 0);
    assert s'.procs - {pid} == s.procs;
    assert s.db.deletes - multiset{id} + multiset{id} == s.db.deletes;
    steps := [step] + calls;
    assert steps[1..] == calls && Enabled(s, step);
    hide Solo, Micro;
    OnlyCalls(calls);
    NoCallsConcat([step], calls);
    assert [step][..0] == [];
  }

  /** A delivery in its queue, handled without interruption, is a path of the protocol: it is out of the
      queue afterwards if it is acknowledged, and back in it if not. */
  lemma HandledIsPath(c: Config, s: State, pid: Pid, d: Delivery, os: Outcomes) returns (steps: seq<Step>)
    requires pid !in s.procs
    requires (d.Uploaded? ==> d.id in s.db.uploads) && (d.DeleteRequested? ==> d.id in s.db.deletes)
    ensures var (db, err) := Handled(c, s.db, d, os); Path(c, s, steps, State(Settled(db, d, err.None?), s.procs))
    ensures NoCalls(steps) == Deliveries(pid, [d])
  {
    hide Solo;
    assert [d][..0] == [];
    match d
    case Uploaded(id) => steps := UploadTaken(c, s, pid, id, os);
    case DeleteRequested(id) => steps := DeleteTaken(c, s, pid, id, os);
    case _ => steps := [];
  }

  /** The stores as the runner sees them, and the queues it leaves. */
  function Left(s: State, db: Db, acked: seq<Delivery>): State {
    State(db.(uploads := s.db.uploads - UploadsOf(acked), deletes := s.db.deletes - DeletesOf(acked)), s.procs)
  }

  lemma EventsNext(ds: seq<Delivery>, d: Delivery)
    ensures UploadsOf(ds + [d]) == UploadsOf(ds) + if d.Uploaded? then multiset{d.id} else multiset{}
    ensures DeletesOf(ds + [d]) == DeletesOf(ds) + if d.DeleteRequested? then multiset{d.id} else multiset{}
  {
    assert (ds + [d])[..|ds|] == ds;
  }

  lemma {:induction false} AckedWithin(ds: seq<Delivery>, acks: seq<bool>)
    requires |ds| == |acks|
    ensures UploadsOf(Acked(ds, acks)) <= UploadsOf(ds) && DeletesOf(Acked(ds, acks)) <= DeletesOf(ds)
  {
    if ds == [] {
    } else {
      var n := |ds| - 1;
      AckedWithin(ds[..n], acks[..n]);
      var acked := Acked(ds[..n], acks[..n]);
      assert Acked(ds, acks) == if acks[n] then acked + [ds[n]] else acked + [];
      assert acked + [] == acked && ds[..n] + [ds[n]] == ds;
      hide UploadsOf, DeletesOf, Acked;
      EventsNext(acked, ds[n]);
      EventsNext(ds[..n], ds[n]);
    }
  }

  /** What a delivery does to the stores does not depend on the queues. */
  lemma HandledIgnoresQueues(c: Config, db: Db, d: Delivery, os: Outcomes, uploads: multiset<Id>, deletes: multiset<Id>)
    ensures var (db', err) := Handled(c, db, d, os);
            && Handled(c, db.(uploads := uploads, deletes := deletes), d, os) ==
               (db'.(uploads := uploads, deletes := deletes), err)
            && db'.uploads == db.uploads && db'.deletes == db.deletes
  {
    if d.Uploaded? {
      SoloIgnoresQueues(c, db, UhGet(d.id), os, 0, uploads, deletes);
    } else if d.DeleteRequested? {
      SoloIgnoresQueues(c, db, DhGet(d.id), os, 0, uploads, deletes);
    }
    hide Solo;
  }

  lemma TakenTwice(m: multiset<Id>, a: multiset<Id>, b: multiset<Id>)
    ensures m - a - b == m - (a + b)
  {
  }

  lemma SettledAck(s: State, db: Db, acked: seq<Delivery>, d: Delivery)
    ensures State(Settled(Left(s, db, acked).db, d, true), s.procs) == Left(s, db, acked + [d])
  {
    EventsNext(acked, d);
    hide UploadsOf, DeletesOf;
    if d.Uploaded? {
      TakenTwice(s.db.uploads, UploadsOf(acked), multiset{d.id});
    } else if d.DeleteRequested? {
      TakenTwice(s.db.deletes, DeletesOf(acked), multiset{d.id});
    }
  }

  lemma SettledNext(s: State, db: Db, acked: seq<Delivery>, d: Delivery, ack: bool)
    ensures State(Settled(Left(s, db, acked).db, d, ack), s.procs) == Left(s, db, acked + if ack then [d] else [])
  {
    hide UploadsOf, DeletesOf;
    if ack {
      SettledAck(s, db, acked, d);
    } else {
      assert acked + [] == acked;
    }
  }

  lemma NextIsQueued(s: State, ds: seq<Delivery>, d: Delivery, acked: seq<Delivery>)
    requires UploadsOf(ds + [d]) <= s.db.uploads && DeletesOf(ds + [d]) <= s.db.deletes
    requires UploadsOf(acked) <= UploadsOf(ds) && DeletesOf(acked) <= DeletesOf(ds)
    ensures d.Uploaded? ==> d.id in s.db.uploads - UploadsOf(acked)
    ensures d.DeleteRequested? ==> d.id in s.db.deletes - DeletesOf(acked)
  {
    EventsNext(ds, d);
    hide UploadsOf, DeletesOf;
  }

  lemma NextIsPath(c: Config, s: State, pid: Pid, first: seq<Step>, before: Db, acked: seq<Delivery>, d: Delivery,
      os: Outcomes) returns (steps: seq<Step>)
    requires pid !in s.procs && Path(c, s, first, Left(s, before, acked))
    requires d.Uploaded? ==> d.id in s.db.uploads - UploadsOf(acked)
    requires d.DeleteRequested? ==> d.id in s.db.deletes - DeletesOf(acked)
    ensures var (db, err) := Handled(c, before, d, os);
            Path(c, s, steps, Left(s, db, acked + if err.None? then [d] else []))
    ensures NoCalls(steps) == NoCalls(first) + Deliveries(pid, [d])
  {
    var s' := Left(s, before, acked);
    hide Path, Handled, Settled, UploadsOf, DeletesOf, NoCalls, Deliveries;
    var (db, err) := Handled(c, before, d, os);
    var last := HandledIsPath(c, s', pid, d, os);
    steps := first + last;
    HandledIgnoresQueues(c, before, d, os, s'.db.uploads, s'.db.deletes);
    SettledNext(s, db, acked, d, err.None?);
    PathConcat(c, s, first, s', last, State(Settled(Left(s, db, acked).db, d, err.None?), s.procs));
    NoCallsConcat(first, last);
  }

  lemma ServedNext(c: Config, db: Db, ds: seq<Delivery>, os: nat -> Outcomes, pid: Pid)
    requires ds != []
    ensures var n := |ds| - 1;
            var (before, acks) := Served(c, db, ds[..n], os);
            var (after, err) := Handled(c, before, ds[n], os(n));
            && Served(c, db, ds, os) == (after, acks + [err.None?])
            && Acked(ds, acks + [err.None?]) == Acked(ds[..n], acks) + (if err.None? then [ds[n]] else [])
            && Deliveries(pid, ds) == Deliveries(pid, ds[..n]) + Deliveries(pid, [ds[n]])
  {
    var n := |ds| - 1;
    var (before, acks) := Served(c, db, ds[..n], os);
    assert forall ok: bool :: (acks + [ok])[..n] == acks;
    assert [ds[n]][..0] == [];
    hide Handled;
  }

  /** A list of deliveries from the queues, one after the other, is a path of the protocol that takes them
      in their order: just those answered with true are gone from the queues at its end. */
  lemma {:induction false} ServedIsPath(c: Config, s: State, pid: Pid, ds: seq<Delivery>, os: nat -> Outcomes)
    returns (steps: seq<Step>)
    requires pid !in s.procs && UploadsOf(ds) <= s.db.uploads && DeletesOf(ds) <= s.db.deletes
    ensures var (db, acks) := Served(c, s.db, ds, os); Path(c, s, steps, Left(s, db, Acked(ds, acks)))
    ensures NoCalls(steps) == Deliveries(pid, ds)
  {
    if ds == [] {
      steps := [];
    } else {
      hide *;
      var n := |ds| - 1;
      var (before, acks) := Served(c, s.db, ds[..n], os);
      var acked := Acked(ds[..n], acks);
      assert ds[..n] + [ds[n]] == ds;
      EventsNext(ds[..n], ds[n]);
      AckedWithin(ds[..n], acks);
      NextIsQueued(s, ds[..n], ds[n], acked);
      var first := ServedIsPath(c, s, pid, ds[..n], os);
      steps := NextIsPath(c, s, pid, first, before, acked, ds[n], os(n));
      ServedNext(c, s.db, ds, os, pid);
    }
  }
}
