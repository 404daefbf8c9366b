/** The safety theorems: what holds of every state, and of every step, of every run. */
module ProtocolTheorems {
  import opened Domain
  import opened Store
  import opened Protocol
  import opened ProtocolSafety

  /** A live avatar is never dangling or stale: its original is stored, and each thumbnail its
      record promises is stored and is the thumbnail of that original. */
  ghost predicate Fresh(c: Config, db: Db, a: Avatar) {
    && a.originalAvailable && a.originalKey in db.objects
    && forall size :: (size == Size100 || size == Size300) && a.VariantKey(size).1 ==>
         && a.VariantKey(size).0 in db.objects
         && c.thumbnail(db.objects[a.originalKey].data, size) == Some(db.objects[a.VariantKey(size).0].data)
         && db.objects[a.VariantKey(size).0].mime == JpegMime()
  }

  lemma InvFresh(c: Config, s: State, id: Id)
    requires Inv(c, s) && LiveIn(s.db.avatars, id)
    ensures Fresh(c, s.db, s.db.avatars[id])
    ensures id in s.db.history.inputs
    ensures var (a, input) := (s.db.avatars[id], s.db.history.inputs[id]);
            a.user == input.user && s.db.objects[a.originalKey] == Object(input.content, input.mime)
  {
    var a, objects := s.db.avatars[id], s.db.objects;
    assert RecordOk(s.db.history.inputs, id, a) && Backed(a, objects);
    forall k | k in objects
      ensures ObjectOk(c, s.db.history.inputs, k, objects[k])
    {
    }
    hide DbInv, ProcsInv;
  }

  /** In every interleaving of uploads, deletes, any number of workers, redeliveries, failing calls
      and crashes, the live avatars are fresh, and their original is what was uploaded. */
  lemma LiveDataIsFresh(c: Config, states: seq<State>, steps: seq<Step>, i: nat, id: Id)
    requires IsRun(c, states, steps) && i <= |steps| && LiveIn(states[i].db.avatars, id)
    ensures var db := states[i].db;
            && Fresh(c, db, db.avatars[id])
            && id in db.history.inputs
            && db.objects[db.avatars[id].originalKey] ==
               Object(db.history.inputs[id].content, db.history.inputs[id].mime)
  {
    RunKeeps(c, states, steps, i);
    InvFresh(c, states[i], id);
  }

  /** At any time at most one process works on an upload, and at most one is to announce a deletion. */
  lemma TasksAreExclusive(c: Config, states: seq<State>, steps: seq<Step>, i: nat, p: Pid, q: Pid)
    requires IsRun(c, states, steps) && i <= |steps|
    requires p in states[i].procs && q in states[i].procs && p != q
    ensures !SameTask(states[i].procs[p], states[i].procs[q])
  {
    RunKeeps(c, states, steps, i);
    hide DbInv, PcInv, SameTask, IsRun;
  }

  /** The keys ever stored never collide as strings. */
  lemma StoredKeysAreDistinct(c: Config, states: seq<State>, steps: seq<Step>, i: nat, k: Key, l: Key)
    requires IsRun(c, states, steps) && i <= |steps|
    requires k in states[i].db.objects && l in states[i].db.objects && k.Render() == l.Render()
    ensures k == l
  {
    RunKeeps(c, states, steps, i);
    var db := states[i].db;
    assert ObjectOk(c, db.history.inputs, k, db.objects[k]) && ObjectOk(c, db.history.inputs, l, db.objects[l]);
    RenderInjective(k, l);
  }

  // Along a run

  lemma RequeueQueues(db: Db, pc: Pc)
    ensures Requeue(db, pc) == db.(uploads := Requeue(db, pc).uploads, deletes := Requeue(db, pc).deletes)
  {
  }

  lemma OtherStepEffect(c: Config, s: State, step: Step)
    requires Enabled(s, step) && !step.Advance?
    ensures var (db, db') := (s.db, Do(c, s, step).db);
            && db'.avatars == db.avatars && db'.objects == db.objects
            && db'.history.succeeded == db.history.succeeded
  {
    hide Micro, Requeue;
    if step.Redeliver? || step.Crash? {
      RequeueQueues(s.db, s.procs[step.pid]);
    }
  }

  /** Only a process's own call changes the records, the objects and the tallies. */
  lemma StepEffect(c: Config, s: State, step: Step)
    requires Enabled(s, step)
    ensures var (db, db') := (s.db, Do(c, s, step).db);
            var after := if step.Advance? then Micro(c, db, s.procs[step.pid], step.choice).0 else db;
            && db'.avatars == after.avatars && db'.objects == after.objects
            && db'.history.succeeded == after.history.succeeded
  {
    hide Micro, Do, Requeue;
    if step.Advance? {
      AdvanceShape(c, s, step.pid, step.choice, step.ackLost);
      RequeueQueues(Micro(c, s.db, s.procs[step.pid], step.choice).0, s.procs[step.pid]);
    } else {
      OtherStepEffect(c, s, step);
    }
  }

  lemma StepGuarantee(c: Config, s: State, step: Step)
    requires Inv(c, s) && Enabled(s, step)
    ensures var db' := Do(c, s, step).db;
            && (forall id :: id in s.db.avatars ==>
                  id in db'.avatars && SameIdentity(s.db.avatars[id], db'.avatars[id]))
            && (forall k :: k in s.db.objects && k !in db'.objects ==>
                  && step.Advance? && s.procs[step.pid].DhDel?
                  && k.OwnedBy(s.procs[step.pid].id) && Deleted(s.db.avatars, k.id))
  {
    StepEffect(c, s, step);
    if step.Advance? {
      MicroKeeps(c, s.db, s.procs[step.pid], step.choice);
    }
    hide Micro, Inv, Do, DbInv, PcInv;
  }

  predicate Persists(m: Avatars, m': Avatars, id: Id) {
    id in m ==> id in m' && SameIdentity(m[id], m'[id])
  }

  lemma StepPersists(c: Config, states: seq<State>, steps: seq<Step>, j: nat, id: Id)
    requires IsRun(c, states, steps) && j < |steps|
    ensures Persists(states[j].db.avatars, states[j + 1].db.avatars, id)
  {
    RunKeeps(c, states, steps, j);
    hide Inv, Do, Enabled;
    StepGuarantee(c, states[j], steps[j]);
    hide IsRun;
  }

  lemma {:induction false} RecordsPersist(c: Config, states: seq<State>, steps: seq<Step>, i: nat, j: nat, id: Id)
    requires IsRun(c, states, steps) && i <= j <= |steps| && id in states[i].db.avatars
    ensures id in states[j].db.avatars && SameIdentity(states[i].db.avatars[id], states[j].db.avatars[id])
    decreases j
  {
    if i == j {
    } else {
      RecordsPersist(c, states, steps, i, j - 1, id);
      StepPersists(c, states, steps, j - 1, id);
      hide IsRun;
    }
  }

  /** `id` is named by a delete event that is queued, or that some handler works on. */
  predicate DeleteEventFor(s: State, id: Id) {
    id in s.db.deletes || exists p :: p in s.procs && s.procs[p].DeleteHandler() && s.procs[p].id == id
  }

  /** Physical deletion happens only after the soft delete: a delete event names a record that is
      soft-deleted already and stays so, and an object that disappears belonged to the one avatar
      whose delete handler removed it. */
  lemma PhysicalDeleteAfterSoftDelete(c: Config, states: seq<State>, steps: seq<Step>, i: nat)
    requires IsRun(c, states, steps) && i < |steps|
    ensures forall id, j :: DeleteEventFor(states[i], id) && i <= j <= |steps| ==> Deleted(states[j].db.avatars, id)
    ensures forall k :: k in states[i].db.objects && k !in states[i + 1].db.objects ==>
              && steps[i].Advance? && states[i].procs[steps[i].pid].DhDel?
              && k.OwnedBy(states[i].procs[steps[i].pid].id)
              && DeleteEventFor(states[i], k.id)
              && Deleted(states[i].db.avatars, k.id)
  {
    RunKeeps(c, states, steps, i);
    StepGuarantee(c, states[i], steps[i]);
    forall id, j | DeleteEventFor(states[i], id) && i <= j <= |steps|
      ensures Deleted(states[j].db.avatars, id)
    {
      EventNamesDeleted(c, states[i], id);
      RecordsPersist(c, states, steps, i, j, id);
    }
  }

  lemma EventNamesDeleted(c: Config, s: State, id: Id)
    requires Inv(c, s) && DeleteEventFor(s, id)
    ensures Deleted(s.db.avatars, id)
  {
    hide RecordsOk, ObjectsOk, LiveBacked, Tallied, SlashFree, SameTask;
    if id !in s.db.deletes {
      var p :| p in s.procs && s.procs[p].DeleteHandler() && s.procs[p].id == id;
      assert PcInv(c, s.db, s.procs[p]);
    }
  }

  /** Of all calls to delete an avatar, in any interleaving, at most one succeeds, and at most one
      delete event is announced. */
  lemma SoftDeleteOnce(c: Config, states: seq<State>, steps: seq<Step>, i: nat, id: Id)
    requires IsRun(c, states, steps) && i <= |steps|
    ensures var h := states[i].db.history; h.announced[id] <= h.succeeded[id] <= 1
  {
    RunKeeps(c, states, steps, i);
    var db := states[i].db;
    assert TallyOk(db.avatars, db.history.succeeded, db.history.announced, id);
  }

  /** Once an avatar is deleted its deletion time never changes. */
  lemma DeletionTimeIsFixed(c: Config, states: seq<State>, steps: seq<Step>, i: nat, j: nat, id: Id)
    requires IsRun(c, states, steps) && i <= j <= |steps| && Deleted(states[i].db.avatars, id)
    ensures Deleted(states[j].db.avatars, id)
    ensures states[j].db.avatars[id].deletedAt == states[i].db.avatars[id].deletedAt
  {
    RecordsPersist(c, states, steps, i, j, id);
  }

  lemma MicroSucceeds(c: Config, db: Db, pc: Pc, ch: Choice, id: Id)
    requires PcInv(c, db, pc)
    requires Micro(c, db, pc, ch).0.history.succeeded[id] != db.history.succeeded[id]
    ensures pc.DelSoft? && pc.id == id && LiveIn(db.avatars, id) && pc.owner == db.avatars[id].user
    ensures Micro(c, db, pc, ch).0.avatars == db.avatars[id := db.avatars[id].(deletedAt := Some(pc.now))]
  {
  }

  /** The deletion counted by a step is that of a live record, by a caller who owned it when it was
      uploaded and owns it still. */
  lemma OnlyOwnerDeletes(c: Config, states: seq<State>, steps: seq<Step>, i: nat, id: Id)
    requires IsRun(c, states, steps) && i < |steps|
    requires states[i].db.history.succeeded[id] != states[i + 1].db.history.succeeded[id]
    ensures var db := states[i].db;
            && LiveIn(db.avatars, id)
            && steps[i].Advance? && states[i].procs[steps[i].pid].DelSoft?
            && states[i].procs[steps[i].pid].owner == db.avatars[id].user
            && id in db.history.inputs && db.avatars[id].user == db.history.inputs[id].user
            && id in states[i + 1].db.avatars
            && states[i + 1].db.avatars[id].deletedAt == Some(states[i].procs[steps[i].pid].now)
  {
    RunKeeps(c, states, steps, i);
    var s, step := states[i], steps[i];
    StepEffect(c, s, step);
    MicroSucceeds(c, s.db, s.procs[step.pid], step.choice, id);
    assert RecordOk(s.db.history.inputs, id, s.db.avatars[id]);
  }
}
