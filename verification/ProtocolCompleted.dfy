/** `completed` is final when no two handlers of the same upload event run at a time, and a publish that
    reports an error has not reached the broker. Any number of runners, redeliveries, lost
    acknowledgements, crashes and failing stores are all allowed. */
module ProtocolCompleted {
  import opened Domain
  import opened Store
  import opened Protocol
  import opened ProtocolSafety
  import opened ProtocolPublished

  /** An upload event is taken only when no other handler of that avatar's upload event runs. */
  ghost predicate UploadsApart(s: State, step: Step) {
    step.DeliverUpload? ==> forall p :: p in s.procs && s.procs[p].UploadHandler() ==> s.procs[p].id != step.id
  }

  /** A publish that reports an error did not enqueue the upload event. */
  predicate HonestPublish(pc: Pc, ch: Choice) {
    pc.UpPublish? ==> ch.outcome != Applied
  }

  /** The two conditions, as far as they are asked for. */
  ghost predicate Respects(apart: bool, honest: bool, s: State, step: Step) {
    && (apart ==> UploadsApart(s, step))
    && (honest && step.Advance? && step.pid in s.procs ==> HonestPublish(s.procs[step.pid], step.choice))
  }

  ghost predicate Allowed(s: State, step: Step) {
    Respects(true, true, s, step)
  }

  predicate PastCheck(pc: Pc) {
    pc.UploadHandler() && !pc.UhGet?
  }

  /** What is marked was not published; a handler past its check works on an avatar that is not completed. */
  predicate PcCompleted(db: Db, pc: Pc) {
    && (pc.UpMark? ==> pc.id !in db.history.published)
    && (PastCheck(pc) ==> !IsCompleted(db.avatars, pc.id))
  }

  ghost predicate OneUploadHandler(procs: map<Pid, Pc>) {
    forall p, q :: p in procs && q in procs && p != q && procs[p].UploadHandler() && procs[q].UploadHandler() ==>
      procs[p].id != procs[q].id
  }

  /** Only what was published is ever completed. */
  ghost predicate CompletedPublished(db: Db) {
    forall id :: IsCompleted(db.avatars, id) ==> id in db.history.published
  }

  ghost predicate CompletedInv(c: Config, s: State) {
    && PublishedInv(c, s)
    && CompletedPublished(s.db)
    && (forall p :: p in s.procs ==> PcCompleted(s.db, s.procs[p]))
    && OneUploadHandler(s.procs)
  }

  // One call

  lemma CheckShape(c: Config, db: Db, pc: Pc, ch: Choice)
    requires pc.UhGet?
    ensures var (db', next) := Micro(c, db, pc, ch);
            && db' == db
            && (next.Go? ==>
                  && LiveIn(db.avatars, pc.id)
                  && next.pc == UhRead(pc.id, db.avatars[pc.id].originalKey)
                  && var a := db.avatars[pc.id]; !(a.status == Completed && a.thumb100Available && a.thumb300Available))
  {
  }

  /** A handler gets past its check only if the avatar is not completed. */
  lemma CheckCompleted(c: Config, db: Db, pc: Pc, ch: Choice)
    requires DbInv(c, db) && pc.UhGet?
    ensures var (db', next) := Micro(c, db, pc, ch); next.Go? ==> PcCompleted(db', next.pc)
  {
    CheckShape(c, db, pc, ch);
    hide Micro;
    assert pc.id in db.avatars ==> RecordOk(db.history.inputs, pc.id, db.avatars[pc.id]);
    hide DbInv;
  }

  /** Until its last call, a handler touches no record, and remains a handler of its event. */
  lemma HandlerGoesOn(c: Config, db: Db, pc: Pc, ch: Choice)
    requires PastCheck(pc)
    ensures var (db', next) := Micro(c, db, pc, ch);
            next.Go? ==> db'.avatars == db.avatars && PastCheck(next.pc) && next.pc.id == pc.id
  {
  }

  /** Nothing else becomes a handler, and only a failed publish leads to a mark. */
  lemma OthersGoOn(c: Config, db: Db, pc: Pc, ch: Choice)
    requires !pc.UploadHandler()
    ensures var next := Micro(c, db, pc, ch).1;
            next.Go? ==> !next.pc.UploadHandler() && (next.pc.UpMark? ==> pc.UpPublish?)
  {
    hide KeysOf;
  }

  lemma FailedPublish(c: Config, db: Db, pc: Pc, ch: Choice)
    requires pc.UpPublish? && PcPublished(db, pc) && HonestPublish(pc, ch)
    ensures var (db', next) := Micro(c, db, pc, ch);
            next.Go? ==> next.pc == UpMark(pc.id) && pc.id !in db'.history.published
  {
  }

  lemma CallCompleted(c: Config, db: Db, pc: Pc, ch: Choice)
    requires DbInv(c, db) && PcPublished(db, pc) && PcCompleted(db, pc) && HonestPublish(pc, ch)
    ensures var (db', next) := Micro(c, db, pc, ch);
            next.Go? ==>
              && PcCompleted(db', next.pc)
              && next.pc.UploadHandler() == pc.UploadHandler()
              && (pc.UploadHandler() ==> next.pc.id == pc.id)
  {
    hide DbInv, PcPublished, HonestPublish;
    if pc.UhGet? {
      CheckShape(c, db, pc, ch);
      CheckCompleted(c, db, pc, ch);
    } else if pc.UploadHandler() {
      HandlerGoesOn(c, db, pc, ch);
    } else {
      OthersGoOn(c, db, pc, ch);
      if pc.UpPublish? {
        FailedPublish(c, db, pc, ch);
      }
    }
    hide Micro;
  }

  /** A call takes nothing out of completed, completes only what was published, and invalidates nothing
      that another process relies on. */
  lemma StatusesCompleted(db: Db, db': Db, mover: Pc)
    requires StatusStep(db, db', mover) && PcPublished(db, mover) && PcCompleted(db, mover) && CompletedPublished(db)
    ensures forall id :: IsCompleted(db.avatars, id) ==> IsCompleted(db'.avatars, id)
    ensures CompletedPublished(db')
  {
  }

  lemma CompletedStable(db: Db, db': Db, mover: Pc, pc: Pc)
    requires StatusStep(db, db', mover) && PcCompleted(db, pc) && !SameTask(mover, pc)
    requires mover.UploadHandler() && pc.UploadHandler() ==> mover.id != pc.id
    ensures PcCompleted(db', pc)
  {
  }

  // One step

  lemma OtherCompleted(c: Config, s: State, pid: Pid, p: Pid, db': Db)
    requires CompletedInv(c, s) && pid in s.procs && p in s.procs && p != pid && StatusStep(s.db, db', s.procs[pid])
    ensures PcCompleted(db', s.procs[p])
  {
    assert !SameTask(s.procs[pid], s.procs[p]) && PcCompleted(s.db, s.procs[p]);
    hide PublishedInv, PcCompleted, StatusStep, SameTask, CompletedPublished;
    CompletedStable(s.db, db', s.procs[pid], s.procs[p]);
  }

  lemma CallerKnows(c: Config, s: State, pid: Pid)
    requires CompletedInv(c, s) && pid in s.procs
    ensures DbInv(c, s.db) && PcPublished(s.db, s.procs[pid]) && PcCompleted(s.db, s.procs[pid])
  {
    hide DbInv, PcPublished, PcCompleted, QueuesPublished, CompletedPublished, OneUploadHandler;
  }

  lemma OneUploadHandlerStays(procs: map<Pid, Pc>, procs': map<Pid, Pc>, pid: Pid)
    requires OneUploadHandler(procs) && pid in procs
    requires forall p :: p in procs' && p != pid ==> p in procs && procs'[p] == procs[p]
    requires pid in procs' && procs'[pid].UploadHandler() ==>
               procs[pid].UploadHandler() && procs'[pid].id == procs[pid].id
    ensures OneUploadHandler(procs')
  {
  }

  lemma AdvanceKeepsCompleted(c: Config, s: State, step: Step)
    requires CompletedInv(c, s) && Enabled(s, step) && Allowed(s, step) && step.Advance?
    ensures var s' := Do(c, s, step);
            && CompletedPublished(s'.db)
            && (forall p :: p in s'.procs ==> PcCompleted(s'.db, s'.procs[p]))
            && OneUploadHandler(s'.procs)
            && (forall id :: IsCompleted(s.db.avatars, id) ==> IsCompleted(s'.db.avatars, id))
  {
    var pid, pc, s' := step.pid, s.procs[step.pid], Do(c, s, step);
    hide Do, Micro, Enabled, PublishedInv, DbInv, PcPublished, PcCompleted, StatusStep, CompletedPublished;
    hide UploadsApart;
    CallerKnows(c, s, pid);
    AdvanceKeepsPublished(c, s, step);
    CallCompleted(c, s.db, pc, step.choice);
    StatusesCompleted(s.db, s'.db, pc);
    OnlyCallerMoves(c, s, step);
    CallerStays(c, s, step);
    forall p | p in s.procs && p != pid
      ensures PcCompleted(s'.db, s.procs[p])
    {
      OtherCompleted(c, s, pid, p, s'.db);
    }
    hide CompletedInv;
    assert OneUploadHandler(s.procs);
    OneUploadHandlerStays(s.procs, s'.procs, pid);
  }

  /** Queueing a delivery again changes nothing the caller relies on. */
  lemma CallerStays(c: Config, s: State, step: Step)
    requires Enabled(s, step) && step.Advance?
    ensures var (db', next) := Micro(c, s.db, s.procs[step.pid], step.choice);
            next.Go? ==> (PcCompleted(db', next.pc) <==> PcCompleted(Do(c, s, step).db, next.pc))
  {
    AdvanceShape(c, s, step.pid, step.choice, step.ackLost);
    hide Do, Micro, PcCompleted;
  }

  lemma QuietKeepsCompleted(c: Config, s: State, s': State)
    requires CompletedInv(c, s) && QuietStep(s, s') && OneUploadHandler(s'.procs)
    ensures CompletedPublished(s'.db) && forall p :: p in s'.procs ==> PcCompleted(s'.db, s'.procs[p])
  {
    hide PublishedInv, OneUploadHandler;
    forall p | p in s'.procs
      ensures PcCompleted(s'.db, s'.procs[p])
    {
      if p in s.procs {
        assert PcCompleted(s.db, s.procs[p]);
      }
    }
    hide PcCompleted;
  }

  /** A delivery is the only step that adds a handler. */
  lemma OtherKeepsApart(c: Config, s: State, step: Step)
    requires OneUploadHandler(s.procs) && Enabled(s, step) && UploadsApart(s, step) && !step.Advance?
    ensures OneUploadHandler(Do(c, s, step).procs)
  {
    hide Requeue;
  }

  lemma DoKeepsCompleted(c: Config, s: State, step: Step)
    requires CompletedInv(c, s) && Enabled(s, step) && Allowed(s, step)
    ensures CompletedInv(c, Do(c, s, step))
    ensures forall id :: IsCompleted(s.db.avatars, id) ==> IsCompleted(Do(c, s, step).db.avatars, id)
  {
    assert PublishedInv(c, s) && OneUploadHandler(s.procs) && UploadsApart(s, step);
    DoKeepsPublished(c, s, step);
    if step.Advance? {
      hide Do, Enabled, PublishedInv, PcCompleted, CompletedPublished, OneUploadHandler, Allowed;
      AdvanceKeepsCompleted(c, s, step);
    } else {
      OtherIsQuiet(c, s, step);
      OtherKeepsApart(c, s, step);
      hide Do, Enabled, PublishedInv, PcCompleted, CompletedPublished, OneUploadHandler, Allowed, UploadsApart;
      QuietKeepsCompleted(c, s, Do(c, s, step));
    }
  }

  lemma {:induction false} RunKeepsCompleted(c: Config, states: seq<State>, steps: seq<Step>, i: nat)
    requires IsRun(c, states, steps) && i <= |steps|
    requires forall j {:trigger steps[j]} :: 0 <= j < |steps| ==> Allowed(states[j], steps[j])
    ensures CompletedInv(c, states[i])
  {
    hide Do, Enabled, PublishedInv;
    if i == 0 {
      RunKeepsPublished(c, states, steps, 0);
    } else {
      hide CompletedInv, Allowed;
      RunKeepsCompleted(c, states, steps, i - 1);
      assert Allowed(states[i - 1], steps[i - 1]);
      DoKeepsCompleted(c, states[i - 1], steps[i - 1]);
    }
  }

  /** No step of an allowed run takes an avatar out of `completed`. */
  lemma CompletedIsAbsorbing(c: Config, states: seq<State>, steps: seq<Step>, i: nat, id: Id)
    requires IsRun(c, states, steps) && i < |steps|
    requires forall j {:trigger steps[j]} :: 0 <= j < |steps| ==> Allowed(states[j], steps[j])
    requires IsCompleted(states[i].db.avatars, id)
    ensures IsCompleted(states[i + 1].db.avatars, id)
  {
    hide *;
    RunKeepsCompleted(c, states, steps, i);
    RunStep(c, states, steps, i);
    assert Allowed(states[i], steps[i]);
    DoKeepsCompleted(c, states[i], steps[i]);
  }
}
