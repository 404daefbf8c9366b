/** What becomes of an avatar's status when its upload event is not published. All of this holds in
    every interleaving: any number of runners, any failing calls, redeliveries and crashes. */
module ProtocolPublished {
  import opened Domain
  import opened Store
  import opened Protocol
  import opened ProtocolSafety

  predicate IsCompleted(m: Avatars, id: Id) {
    id in m && m[id].status == Completed
  }

  predicate IsFailed(m: Avatars, id: Id) {
    id in m && m[id].status == Failed
  }

  /** The calls that set the status of a record. */
  predicate Restates(pc: Pc, id: Id) {
    (pc.UpMark? || pc.UhUpdate? || pc.UhFail?) && pc.id == id
  }

  /** What a call does to the statuses and to the set of published identifiers. */
  ghost predicate StatusStep(db: Db, db': Db, mover: Pc) {
    && (forall id :: id in db.history.published ==> id in db'.history.published)
    && (forall id :: id in db'.history.published && id !in db.history.published ==> mover == UpPublish(id))
    && (forall id :: id in db.avatars ==>
          id in db'.avatars && (db'.avatars[id].status == db.avatars[id].status || Restates(mover, id)))
    && (forall id :: IsCompleted(db'.avatars, id) && !IsCompleted(db.avatars, id) ==> mover == UhUpdate(id))
  }

  /** An upload event exists only for what was published. */
  ghost predicate QueuesPublished(db: Db) {
    && (forall id :: id in db.uploads ==> id in db.history.published)
    && (forall id :: id in db.history.published ==> id in db.history.inputs)
  }

  /** An upload that has not got to its publish is not published; from then on there is a record, which is
      `processing` unless the event was queued; an upload event is handled only if it was. */
  predicate PcPublished(db: Db, pc: Pc) {
    && (pc.UpPut? || pc.UpCreate? || pc.UpPublish? ==> pc.id !in db.history.published)
    && (pc.UpPublish? || pc.UpMark? ==>
          && pc.id in db.avatars
          && (pc.id !in db.history.published ==> db.avatars[pc.id].status == Processing))
    && (pc.UploadHandler() ==> pc.id in db.history.published)
  }

  ghost predicate PublishedInv(c: Config, s: State) {
    && Inv(c, s)
    && QueuesPublished(s.db)
    && forall p :: p in s.procs ==> PcPublished(s.db, s.procs[p])
  }

  ghost predicate KeepsPublished(c: Config, db: Db, pc: Pc, ch: Choice) {
    var (db', next) := Micro(c, db, pc, ch);
    && StatusStep(db, db', pc)
    && QueuesPublished(db')
    && (next.Go? ==> PcPublished(db', next.pc))
  }

  // One call

  /** A call that leaves records, upload events and history alone. */
  lemma QuietCallKeeps(db: Db, db': Db, pc: Pc)
    requires QueuesPublished(db) && db'.avatars == db.avatars && db'.uploads == db.uploads
    requires db'.history.published == db.history.published && db'.history.inputs == db.history.inputs
    ensures StatusStep(db, db', pc) && QueuesPublished(db')
  {
  }

  lemma PutPublished(c: Config, db: Db, pc: Pc, ch: Choice)
    requires QueuesPublished(db) && PcPublished(db, pc) && (pc.UpPut? || pc.UhPut100? || pc.UhPut300?)
    ensures KeepsPublished(c, db, pc, ch)
  {
    QuietCallKeeps(db, Micro(c, db, pc, ch).0, pc);
    hide QueuesPublished, StatusStep;
  }

  lemma CreatePublished(c: Config, db: Db, pc: Pc, ch: Choice)
    requires PcInv(c, db, pc) && QueuesPublished(db) && PcPublished(db, pc) && pc.UpCreate?
    ensures KeepsPublished(c, db, pc, ch)
  {
  }

  lemma PublishPublished(c: Config, db: Db, pc: Pc, ch: Choice)
    requires PcInv(c, db, pc) && QueuesPublished(db) && PcPublished(db, pc) && pc.UpPublish?
    ensures KeepsPublished(c, db, pc, ch)
  {
  }

  lemma MarkPublished(c: Config, db: Db, pc: Pc, ch: Choice)
    requires QueuesPublished(db) && PcPublished(db, pc) && pc.UpMark?
    ensures KeepsPublished(c, db, pc, ch)
  {
  }

  lemma SoftDeletePublished(c: Config, db: Db, pc: Pc, ch: Choice)
    requires QueuesPublished(db) && pc.DelSoft?
    ensures KeepsPublished(c, db, pc, ch)
  {
  }

  /** What neither uploads, nor handles an upload, nor soft-deletes changes no record. */
  lemma ServerIsQuiet(c: Config, db: Db, pc: Pc, ch: Choice)
    requires pc.CurList? || pc.CurScan? || pc.DelGet? || pc.DelPublish? || pc.DeleteHandler()
    ensures var (db', next) := Micro(c, db, pc, ch);
            && db'.avatars == db.avatars && db'.uploads == db.uploads
            && db'.history.published == db.history.published && db'.history.inputs == db.history.inputs
            && (next.Go? ==> !next.pc.Uploading() && !next.pc.UploadHandler())
  {
    hide KeysOf;
  }

  lemma ServerPublished(c: Config, db: Db, pc: Pc, ch: Choice)
    requires QueuesPublished(db)
    requires pc.CurList? || pc.CurScan? || pc.DelGet? || pc.DelPublish? || pc.DeleteHandler()
    ensures KeepsPublished(c, db, pc, ch)
  {
    ServerIsQuiet(c, db, pc, ch);
    hide Micro, QueuesPublished, StatusStep;
    QuietCallKeeps(db, Micro(c, db, pc, ch).0, pc);
  }

  lemma ReadPublished(c: Config, db: Db, pc: Pc, ch: Choice)
    requires QueuesPublished(db) && PcPublished(db, pc) && (pc.UhGet? || pc.UhRead?)
    ensures KeepsPublished(c, db, pc, ch)
  {
    QuietCallKeeps(db, Micro(c, db, pc, ch).0, pc);
    hide QueuesPublished, StatusStep;
  }

  lemma UpdatePublished(c: Config, db: Db, pc: Pc, ch: Choice)
    requires QueuesPublished(db) && pc.UhUpdate?
    ensures KeepsPublished(c, db, pc, ch)
  {
  }

  lemma FailPublished(c: Config, db: Db, pc: Pc, ch: Choice)
    requires QueuesPublished(db) && pc.UhFail?
    ensures KeepsPublished(c, db, pc, ch)
  {
  }

  lemma MicroPublished(c: Config, db: Db, pc: Pc, ch: Choice)
    requires PcInv(c, db, pc) && QueuesPublished(db) && PcPublished(db, pc)
    ensures KeepsPublished(c, db, pc, ch)
  {
    hide PcInv, QueuesPublished, PcPublished, KeepsPublished;
    match pc
    case UpPut(_, _, _) => PutPublished(c, db, pc, ch);
    case UpCreate(_, _, _) => CreatePublished(c, db, pc, ch);
    case UpPublish(_) => PublishPublished(c, db, pc, ch);
    case UpMark(_) => MarkPublished(c, db, pc, ch);
    case DelSoft(_, _, _) => SoftDeletePublished(c, db, pc, ch);
    case UhGet(_) => ReadPublished(c, db, pc, ch);
    case UhRead(_, _) => ReadPublished(c, db, pc, ch);
    case UhPut100(_, _, _) => PutPublished(c, db, pc, ch);
    case UhPut300(_, _) => PutPublished(c, db, pc, ch);
    case UhUpdate(_) => UpdatePublished(c, db, pc, ch);
    case UhFail(_, _) => FailPublished(c, db, pc, ch);
    case _ => ServerPublished(c, db, pc, ch);
  }

  /** What one process relies on survives the calls of the others. */
  lemma PublishedStable(db: Db, db': Db, mover: Pc, pc: Pc)
    requires StatusStep(db, db', mover) && PcPublished(db, mover) && PcPublished(db, pc) && !SameTask(mover, pc)
    ensures PcPublished(db', pc)
  {
  }

  // One step

  /** A process at its beginning, and what it takes to start it. */
  predicate Startable(db: Db, pc: Pc) {
    || (pc.UpPut? && pc.id !in db.history.inputs)
    || pc.DelGet? || pc.CurList?
    || (pc.UhGet? && pc.id in db.uploads)
    || (pc.DhGet? && pc.id in db.deletes)
  }

  /** What a step does that is no call: nothing happens to records, objects or what was published; an
      upload event is queued only by a handler that holds it; and if a process starts, it is at its
      beginning. */
  ghost predicate QuietStep(s: State, s': State) {
    && s'.db.avatars == s.db.avatars && s'.db.objects == s.db.objects
    && s'.db.history.published == s.db.history.published
    && (forall id :: id in s.db.history.inputs ==> id in s'.db.history.inputs)
    && (forall id :: id in s'.db.uploads ==>
          id in s.db.uploads || exists p :: p in s.procs && s.procs[p].UploadHandler() && s.procs[p].id == id)
    && (forall p :: p in s'.procs ==> if p in s.procs then s'.procs[p] == s.procs[p] else Startable(s.db, s'.procs[p]))
  }

  lemma StartIsQuiet(c: Config, s: State, step: Step)
    requires Enabled(s, step) && (step.StartUpload? || step.StartDelete? || step.StartDeleteCurrent?)
    ensures QuietStep(s, Do(c, s, step))
  {
    assert Do(c, s, step).db.uploads == s.db.uploads;
  }

  lemma DeliveryIsQuiet(c: Config, s: State, step: Step)
    requires Enabled(s, step) && (step.DeliverUpload? || step.DeliverDelete?)
    ensures QuietStep(s, Do(c, s, step))
  {
    assert forall id :: id in Do(c, s, step).db.uploads ==> id in s.db.uploads;
  }

  lemma RequeueIsQuiet(s: State, pid: Pid, procs: map<Pid, Pc>)
    requires pid in s.procs && (procs == s.procs || procs == s.procs - {pid})
    ensures QuietStep(s, State(Requeue(s.db, s.procs[pid]), procs))
  {
    var pc := s.procs[pid];
    forall id | id in Requeue(s.db, pc).uploads
      ensures id in s.db.uploads || exists p :: p in s.procs && s.procs[p].UploadHandler() && s.procs[p].id == id
    {
      if id !in s.db.uploads {
        assert pc.UploadHandler() && pc.id == id;
      }
    }
  }

  lemma OtherIsQuiet(c: Config, s: State, step: Step)
    requires Enabled(s, step) && !step.Advance?
    ensures QuietStep(s, Do(c, s, step))
  {
    hide QuietStep, Requeue;
    match step
    case DeliverUpload(_, _) => DeliveryIsQuiet(c, s, step);
    case DeliverDelete(_, _) => DeliveryIsQuiet(c, s, step);
    case Redeliver(pid) => RequeueIsQuiet(s, pid, s.procs);
    case Crash(pid) => RequeueIsQuiet(s, pid, s.procs - {pid});
    case _ => StartIsQuiet(c, s, step);
  }

  lemma QuietKeepsPublished(s: State, s': State)
    requires QuietStep(s, s') && QueuesPublished(s.db)
    requires forall p :: p in s.procs ==> PcPublished(s.db, s.procs[p])
    ensures QueuesPublished(s'.db) && forall p :: p in s'.procs ==> PcPublished(s'.db, s'.procs[p])
  {
    forall id | id in s'.db.uploads
      ensures id in s'.db.history.published
    {
      if p :| p in s.procs && s.procs[p].UploadHandler() && s.procs[p].id == id {
        assert PcPublished(s.db, s.procs[p]);
      }
    }
    forall p | p in s'.procs
      ensures PcPublished(s'.db, s'.procs[p])
    {
      if p in s.procs {
        assert PcPublished(s.db, s.procs[p]);
      }
    }
    hide PcPublished;
  }

  lemma RequeuePublished(db: Db, pc: Pc)
    requires QueuesPublished(db) && (pc.UploadHandler() ==> pc.id in db.history.published)
    ensures QueuesPublished(Requeue(db, pc))
    ensures Requeue(db, pc).avatars == db.avatars && Requeue(db, pc).history == db.history
  {
  }

  /** All this is about records and history only. */
  lemma QueuesDoNotMatter(db: Db, db': Db, requeued: Db, mover: Pc, next: Option<Pc>)
    requires StatusStep(db, db', mover) && (next.Some? ==> PcPublished(db', next.value))
    requires requeued.avatars == db'.avatars && requeued.history == db'.history
    ensures StatusStep(db, requeued, mover) && (next.Some? ==> PcPublished(requeued, next.value))
  {
  }

  lemma OtherPublished(c: Config, s: State, pid: Pid, p: Pid, db': Db)
    requires PublishedInv(c, s) && pid in s.procs && p in s.procs && p != pid && StatusStep(s.db, db', s.procs[pid])
    ensures PcPublished(db', s.procs[p])
  {
    assert !SameTask(s.procs[pid], s.procs[p]);
    assert PcPublished(s.db, s.procs[pid]) && PcPublished(s.db, s.procs[p]);
    hide Inv, PcPublished, StatusStep, QueuesPublished;
    PublishedStable(s.db, db', s.procs[pid], s.procs[p]);
  }

  lemma AdvanceKeepsPublished(c: Config, s: State, step: Step)
    requires PublishedInv(c, s) && Enabled(s, step) && step.Advance?
    ensures var s' := Do(c, s, step);
            && QueuesPublished(s'.db)
            && (forall p :: p in s'.procs ==> PcPublished(s'.db, s'.procs[p]))
            && StatusStep(s.db, s'.db, s.procs[step.pid])
  {
    var pid, pc, s' := step.pid, s.procs[step.pid], Do(c, s, step);
    var (db', n) := Micro(c, s.db, pc, step.choice);
    var next := if n.Go? then Some(n.pc) else None;
    AdvanceShape(c, s, pid, step.choice, step.ackLost);
    assert PcInv(c, s.db, pc) && PcPublished(s.db, pc);
    hide Do, Micro, Inv, QueuesPublished, PcInv, Requeue, Enabled, PcPublished, StatusStep;
    MicroPublished(c, s.db, pc, step.choice);
    PublishedStays(s.db, db', pc);
    RequeuePublished(db', pc);
    QueuesDoNotMatter(s.db, db', s'.db, pc, next);
    forall p | p in s.procs && p != pid
      ensures PcPublished(s'.db, s.procs[p])
    {
      OtherPublished(c, s, pid, p, s'.db);
    }
  }

  /** A handler's own event stays published. */
  lemma PublishedStays(db: Db, db': Db, pc: Pc)
    requires StatusStep(db, db', pc) && PcPublished(db, pc)
    ensures pc.UploadHandler() ==> pc.id in db'.history.published
  {
  }

  lemma DoKeepsPublished(c: Config, s: State, step: Step)
    requires PublishedInv(c, s) && Enabled(s, step)
    ensures PublishedInv(c, Do(c, s, step))
  {
    DoKeeps(c, s, step);
    hide Do, Inv, Enabled, QueuesPublished, PcPublished, QuietStep;
    if step.Advance? {
      AdvanceKeepsPublished(c, s, step);
    } else {
      OtherIsQuiet(c, s, step);
      QuietKeepsPublished(s, Do(c, s, step));
    }
  }

  lemma {:induction false} RunKeepsPublished(c: Config, states: seq<State>, steps: seq<Step>, i: nat)
    requires IsRun(c, states, steps) && i <= |steps|
    ensures PublishedInv(c, states[i])
  {
    hide Do, Enabled;
    if i == 0 {
      RunKeeps(c, states, steps, 0);
      hide Inv;
    } else {
      hide PublishedInv;
      RunKeepsPublished(c, states, steps, i - 1);
      DoKeepsPublished(c, states[i - 1], steps[i - 1]);
    }
  }

  // An upload whose event was not published

  /** No event for `id` exists or will, its upload is over, and its record has this status. */
  ghost predicate Frozen(s: State, id: Id, status: Status) {
    && id in s.db.avatars && s.db.avatars[id].status == status
    && id !in s.db.history.published
    && forall p :: p in s.procs && s.procs[p].Uploading() ==> s.procs[p].id != id
  }

  /** Going on, an upload stays the same upload, and nothing else becomes one. */
  lemma UploadGoesOn(c: Config, db: Db, pc: Pc, ch: Choice)
    ensures var next := Micro(c, db, pc, ch).1;
            next.Go? && next.pc.Uploading() ==> pc.Uploading() && next.pc.id == pc.id
  {
  }

  /** What a call leaves alone. */
  lemma FrozenThroughCall(db: Db, db': Db, pc: Pc, id: Id)
    requires StatusStep(db, db', pc) && PcPublished(db, pc) && id in db.avatars && id !in db.history.published
    requires pc.Uploading() ==> pc.id != id
    ensures id in db'.avatars && db'.avatars[id].status == db.avatars[id].status && id !in db'.history.published
  {
  }

  lemma CallKeepsFrozen(c: Config, s: State, step: Step, id: Id, status: Status)
    requires PublishedInv(c, s) && Enabled(s, step) && step.Advance? && Frozen(s, id, status)
    ensures Frozen(Do(c, s, step), id, status)
  {
    var pc := s.procs[step.pid];
    assert PcPublished(s.db, pc);
    hide Do, Micro, Enabled, PcPublished, StatusStep, PublishedInv;
    AdvanceKeepsPublished(c, s, step);
    OnlyCallerMoves(c, s, step);
    UploadGoesOn(c, s.db, pc, step.choice);
    FrozenThroughCall(s.db, Do(c, s, step).db, pc, id);
  }

  lemma QuietKeepsFrozen(c: Config, s: State, s': State, id: Id, status: Status)
    requires PublishedInv(c, s) && QuietStep(s, s') && Frozen(s, id, status)
    ensures Frozen(s', id, status)
  {
    assert RecordOk(s.db.history.inputs, id, s.db.avatars[id]);
    hide Inv, QueuesPublished, PcPublished;
  }

  lemma DoKeepsFrozen(c: Config, s: State, step: Step, id: Id, status: Status)
    requires PublishedInv(c, s) && Enabled(s, step) && Frozen(s, id, status)
    ensures Frozen(Do(c, s, step), id, status)
  {
    hide PublishedInv, Do, Enabled, Frozen, QuietStep;
    if step.Advance? {
      CallKeepsFrozen(c, s, step, id, status);
    } else {
      OtherIsQuiet(c, s, step);
      QuietKeepsFrozen(c, s, Do(c, s, step), id, status);
    }
  }

  lemma {:induction false} RunKeepsFrozen(
    c: Config, states: seq<State>, steps: seq<Step>, i: nat, j: nat, id: Id, status: Status)
    requires IsRun(c, states, steps) && i <= j <= |steps| && Frozen(states[i], id, status)
    ensures Frozen(states[j], id, status)
    decreases j
  {
    hide Do, Enabled, Frozen, PublishedInv;
    if i == j {
    } else {
      RunKeepsFrozen(c, states, steps, i, j - 1, id, status);
      RunKeepsPublished(c, states, steps, j - 1);
      DoKeepsFrozen(c, states[j - 1], steps[j - 1], id, status);
    }
  }

  /** The call of MarkPublishFailed ends the upload and freezes the status. */
  lemma MarkFreezes(c: Config, s: State, step: Step, id: Id)
    requires PublishedInv(c, s) && Enabled(s, step) && step.Advance?
    requires s.procs[step.pid] == UpMark(id) && id !in s.db.history.published
    ensures Frozen(Do(c, s, step), id, if step.choice.outcome.Lost? then Processing else Failed)
  {
    var pid, s' := step.pid, Do(c, s, step);
    assert PcPublished(s.db, UpMark(id));
    assert forall p :: p in s.procs && p != pid ==> !SameTask(s.procs[pid], s.procs[p]);
    assert s'.procs == s.procs - {pid} && s'.db.history == s.db.history;
    assert s'.db.avatars == Micro(c, s.db, UpMark(id), step.choice).0.avatars;
    hide Do, Inv, Enabled, QueuesPublished, PcPublished;
  }

  /** When the event of an upload was not published: from the call of MarkPublishFailed on, the record is
      `failed` for good if the call reached the repository, and `processing` for good if it did not. */
  lemma StatusAfterMark(c: Config, states: seq<State>, steps: seq<Step>, i: nat, j: nat, id: Id)
    requires IsRun(c, states, steps) && i < j <= |steps|
    requires steps[i].Advance? && states[i].procs[steps[i].pid] == UpMark(id)
    requires id !in states[i].db.history.published
    ensures id in states[j].db.avatars
    ensures states[j].db.avatars[id].status == if steps[i].choice.outcome.Lost? then Processing else Failed
  {
    hide *;
    RunKeepsPublished(c, states, steps, i);
    RunStep(c, states, steps, i);
    var status := if steps[i].choice.outcome.Lost? then Processing else Failed;
    MarkFreezes(c, states[i], steps[i], id);
    RunKeepsFrozen(c, states, steps, i + 1, j, id, status);
    FrozenStatus(states[j], id, status);
  }

  lemma FrozenStatus(s: State, id: Id, status: Status)
    requires Frozen(s, id, status)
    ensures id in s.db.avatars && s.db.avatars[id].status == status
  {
  }

  // A failed publish leaves the avatar failed

  /** What a run may be asked to keep to.
      `honest`: a publish that reports an error has not queued the event. `marked`: the call of
      MarkPublishFailed reaches the repository. `alive`: no process crashes before it. */
  datatype MarkConditions = MarkConditions(honest: bool, marked: bool, alive: bool)

  const ALL_MARK := MarkConditions(true, true, true)

  ghost predicate MeetsMark(k: MarkConditions, s: State, step: Step) {
    && (step.Advance? && step.pid in s.procs ==>
          var (pc, o) := (s.procs[step.pid], step.choice.outcome);
          && (k.honest && pc.UpPublish? ==> !o.Applied?)
          && (k.marked && pc.UpMark? ==> !o.Lost?))
    && (k.alive && step.Crash? && step.pid in s.procs ==> !s.procs[step.pid].UpMark?)
  }

  /** The publish of `id` reports an error in this step. */
  predicate PublishFails(s: State, step: Step, id: Id) {
    step.Advance? && step.pid in s.procs && s.procs[step.pid] == UpPublish(id) && !step.choice.outcome.Fine?
  }

  /** Nobody uploads `id`. */
  ghost predicate UploadOver(s: State, id: Id) {
    forall p :: p in s.procs && s.procs[p].Uploading() ==> s.procs[p].id != id
  }

  /** The mark is still to come, or has been made for good. */
  ghost predicate Marking(s: State, id: Id) {
    || Frozen(s, id, Failed)
    || (id !in s.db.history.published && exists p :: p in s.procs && s.procs[p] == UpMark(id))
  }

  lemma PublishFailureMarks(c: Config, s: State, step: Step, id: Id)
    requires PublishedInv(c, s) && Enabled(s, step) && PublishFails(s, step, id) && step.choice.outcome.Lost?
    ensures Marking(Do(c, s, step), id)
  {
    assert PcPublished(s.db, UpPublish(id));
    assert Do(c, s, step).procs == s.procs[step.pid := UpMark(id)];
    assert Do(c, s, step).procs[step.pid] == UpMark(id);
    assert Do(c, s, step).db.history.published == s.db.history.published;
    hide Inv, Do, QueuesPublished, PcPublished, Frozen;
  }

  /** Another process moves. */
  lemma OthersKeepMark(c: Config, s: State, step: Step, id: Id, p: Pid)
    requires PublishedInv(c, s) && Enabled(s, step) && p in s.procs && s.procs[p] == UpMark(id)
    requires id !in s.db.history.published && step.Advance? && step.pid != p
    ensures Marking(Do(c, s, step), id)
  {
    var s', mover := Do(c, s, step), s.procs[step.pid];
    NotItsPublish(c, s, step.pid, p, id);
    hide Do, Micro, Enabled, Frozen, PublishedInv, StatusStep;
    AdvanceKeepsPublished(c, s, step);
    OnlyCallerMoves(c, s, step);
    StillUnpublished(s.db, s'.db, mover, id);
    assert s'.procs[p] == UpMark(id);
  }

  lemma NotItsPublish(c: Config, s: State, pid: Pid, p: Pid, id: Id)
    requires PublishedInv(c, s) && pid in s.procs && p in s.procs && pid != p && s.procs[p] == UpMark(id)
    ensures s.procs[pid] != UpPublish(id)
  {
    assert !SameTask(s.procs[pid], s.procs[p]);
    hide PublishedInv;
  }

  lemma StillUnpublished(db: Db, db': Db, mover: Pc, id: Id)
    requires StatusStep(db, db', mover) && id !in db.history.published && mover != UpPublish(id)
    ensures id !in db'.history.published
  {
  }

  lemma DoKeepsMarking(c: Config, s: State, step: Step, id: Id)
    requires PublishedInv(c, s) && Enabled(s, step) && MeetsMark(ALL_MARK, s, step) && Marking(s, id)
    ensures Marking(Do(c, s, step), id)
  {
    if Frozen(s, id, Failed) {
      hide *;
      DoKeepsFrozen(c, s, step, id, Failed);
      FrozenIsMarking(Do(c, s, step), id);
    } else {
      var p :| p in s.procs && s.procs[p] == UpMark(id);
      hide PublishedInv, Frozen, Do;
      if step.Advance? && step.pid == p {
        MarkFreezes(c, s, step, id);
      } else if step.Advance? {
        OthersKeepMark(c, s, step, id, p);
      } else {
        QuietKeepsMark(c, s, step, id, p);
      }
    }
  }

  lemma FrozenIsMarking(s: State, id: Id)
    requires Frozen(s, id, Failed)
    ensures Marking(s, id)
  {
  }

  lemma QuietKeepsMark(c: Config, s: State, step: Step, id: Id, p: Pid)
    requires Enabled(s, step) && !step.Advance? && MeetsMark(ALL_MARK, s, step)
    requires p in s.procs && s.procs[p] == UpMark(id) && id !in s.db.history.published
    ensures Marking(Do(c, s, step), id)
  {
    OtherIsQuiet(c, s, step);
    assert p in Do(c, s, step).procs;
    hide Do, Enabled, Frozen;
    assert Do(c, s, step).procs[p] == UpMark(id);
  }

  lemma {:induction false} RunKeepsMarking(c: Config, states: seq<State>, steps: seq<Step>, i: nat, j: nat, id: Id)
    requires IsRun(c, states, steps) && i <= j <= |steps| && Marking(states[i], id)
    requires forall m {:trigger steps[m]} :: 0 <= m < |steps| ==> MeetsMark(ALL_MARK, states[m], steps[m])
    ensures Marking(states[j], id)
    decreases j
  {
    hide Do, Enabled, Marking, PublishedInv, MeetsMark;
    if i == j {
    } else {
      RunKeepsMarking(c, states, steps, i, j - 1, id);
      RunKeepsPublished(c, states, steps, j - 1);
      assert MeetsMark(ALL_MARK, states[j - 1], steps[j - 1]);
      DoKeepsMarking(c, states[j - 1], steps[j - 1], id);
    }
  }

  /** A publish that reports an error leaves the avatar `failed` for good, from the end of the upload on. */
  lemma FailedPublishShows(c: Config, states: seq<State>, steps: seq<Step>, i: nat, j: nat, id: Id)
    requires IsRun(c, states, steps) && i < j <= |steps|
    requires forall m {:trigger steps[m]} :: 0 <= m < |steps| ==> MeetsMark(ALL_MARK, states[m], steps[m])
    requires PublishFails(states[i], steps[i], id) && UploadOver(states[j], id)
    ensures IsFailed(states[j].db.avatars, id)
  {
    hide *;
    RunKeepsPublished(c, states, steps, i);
    RunStep(c, states, steps, i);
    assert MeetsMark(ALL_MARK, states[i], steps[i]);
    HonestFailureIsLost(states[i], steps[i], id);
    PublishFailureMarks(c, states[i], steps[i], id);
    RunKeepsMarking(c, states, steps, i + 1, j, id);
    MarkingIsOver(states[j], id);
  }

  lemma HonestFailureIsLost(s: State, step: Step, id: Id)
    requires PublishFails(s, step, id) && MeetsMark(ALL_MARK, s, step)
    ensures step.Advance? && step.choice.outcome.Lost?
  {
  }

  lemma MarkingIsOver(s: State, id: Id)
    requires Marking(s, id) && UploadOver(s, id)
    ensures IsFailed(s.db.avatars, id)
  {
  }
}
