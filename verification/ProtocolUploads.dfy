/** No upload is lost: the event of a live avatar is queued, or being handled, until the avatar is
    completed. Any number of runners, redeliveries, lost acknowledgements, failing calls and crashes; only
    a publish must not report an error after it has queued the event. */
module ProtocolUploads {
  import opened Domain
  import opened Store
  import opened Protocol
  import opened ProtocolSafety
  import opened ProtocolTheorems
  import opened ProtocolPublished
  import opened ProtocolCompleted

  /** The upload event of `id` is queued, or some handler works on it. */
  ghost predicate Pending(s: State, id: Id) {
    id in s.db.uploads || exists p :: p in s.procs && s.procs[p].UploadHandler() && s.procs[p].id == id
  }

  /** What was published and is live is completed, or its event is still there. */
  ghost predicate Cared(s: State, id: Id) {
    id in s.db.history.published && LiveIn(s.db.avatars, id) ==> IsCompleted(s.db.avatars, id) || Pending(s, id)
  }

  ghost predicate MarksUnpublished(s: State) {
    forall p :: p in s.procs && s.procs[p].UpMark? ==> s.procs[p].id !in s.db.history.published
  }

  ghost predicate UploadsInv(c: Config, s: State) {
    && PublishedInv(c, s)
    && MarksUnpublished(s)
    && forall id :: Cared(s, id)
  }

  // One call

  /** A handler that succeeds leaves its avatar completed or gone; one that goes on has its event still. */
  lemma HandlerEnds(c: Config, db: Db, pc: Pc, ch: Choice)
    requires DbInv(c, db) && PcInv(c, db, pc) && pc.UploadHandler()
    ensures var (db', next) := Micro(c, db, pc, ch);
            if next.Go? then next.pc.UploadHandler() && next.pc.id == pc.id
            else next.err.None? ==> !LiveIn(db'.avatars, pc.id) || IsCompleted(db'.avatars, pc.id)
  {
    hide DbInv;
  }

  /** Publishing queues the event; no call takes one from the queue. */
  lemma CallQueues(c: Config, db: Db, pc: Pc, ch: Choice, id: Id)
    ensures var db' := Micro(c, db, pc, ch).0;
            && (id in db.uploads ==> id in db'.uploads)
            && (id in db'.history.published && id !in db.history.published ==> id in db'.uploads)
            && (LiveIn(db'.avatars, id) ==> LiveIn(db.avatars, id) || (pc.UpCreate? && pc.id == id))
  {
    hide KeysOf;
  }

  lemma MarkAfterPublish(c: Config, db: Db, pc: Pc, ch: Choice)
    requires PcPublished(db, pc) && HonestPublish(pc, ch)
    ensures var (db', next) := Micro(c, db, pc, ch);
            next.Go? && next.pc.UpMark? ==> next.pc.id !in db'.history.published
  {
    hide KeysOf;
  }

  // One step

  ghost predicate Made(c: Config, s: State, step: Step, db': Db, next: Next, s': State) {
    && Enabled(s, step) && step.Advance? && s' == Do(c, s, step)
    && (db', next) == Micro(c, s.db, s.procs[step.pid], step.choice)
    && s'.db == db'.(uploads := s'.db.uploads, deletes := s'.db.deletes)
    && (forall id :: id in db'.uploads ==> id in s'.db.uploads)
    && (next.Return? && next.err.Some? && s.procs[step.pid].UploadHandler() ==>
          s.procs[step.pid].id in s'.db.uploads)
    && (next.Go? ==> step.pid in s'.procs && s'.procs[step.pid] == next.pc)
    && (forall p :: p in s.procs && p != step.pid ==> p in s'.procs && s'.procs[p] == s.procs[p])
    && (forall p :: p in s'.procs && p != step.pid ==> p in s.procs && s'.procs[p] == s.procs[p])
    && (next.Return? ==> step.pid !in s'.procs)
  }

  lemma AdvanceMakes(c: Config, s: State, step: Step) returns (db': Db, next: Next)
    requires Enabled(s, step) && step.Advance?
    ensures Made(c, s, step, db', next, Do(c, s, step))
  {
    AdvanceShape(c, s, step.pid, step.choice, step.ackLost);
    db', next := Micro(c, s.db, s.procs[step.pid], step.choice).0, Micro(c, s.db, s.procs[step.pid], step.choice).1;
    hide Micro, Do;
  }

  /** The handler of `id` moves. */
  lemma HandlerCares(c: Config, s: State, step: Step, db': Db, next: Next, s': State)
    requires Inv(c, s) && Made(c, s, step, db', next, s') && s.procs[step.pid].UploadHandler()
    ensures Cared(s', s.procs[step.pid].id)
  {
    var pc := s.procs[step.pid];
    assert DbInv(c, s.db) && PcInv(c, s.db, pc);
    hide Inv, DbInv, PcInv, Micro, Do, Enabled;
    HandlerEnds(c, s.db, pc, step.choice);
    if next.Go? {
      assert s'.procs[step.pid].UploadHandler();
    }
  }

  /** Another process moves. */
  lemma OthersCare(c: Config, s: State, step: Step, db': Db, next: Next, s': State, id: Id)
    requires UploadsInv(c, s) && Made(c, s, step, db', next, s') && StatusStep(s.db, s'.db, s.procs[step.pid])
    requires !(s.procs[step.pid].UploadHandler() && s.procs[step.pid].id == id)
    ensures Cared(s', id)
  {
    var pc := s.procs[step.pid];
    assert Cared(s, id) && PcPublished(s.db, pc) && MarksUnpublished(s);
    hide UploadsInv, PublishedInv, Micro, Do, Enabled;
    CallQueues(c, s.db, pc, step.choice, id);
    if id in s.db.history.published && id !in s.db.uploads {
      if p :| p in s.procs && s.procs[p].UploadHandler() && s.procs[p].id == id {
        assert s'.procs[p] == s.procs[p];
      }
    }
  }

  lemma AdvanceKeepsUploads(c: Config, s: State, step: Step)
    requires UploadsInv(c, s) && Enabled(s, step) && step.Advance? && HonestPublish(s.procs[step.pid], step.choice)
    ensures MarksUnpublished(Do(c, s, step)) && forall id :: Cared(Do(c, s, step), id)
  {
    var pc, s' := s.procs[step.pid], Do(c, s, step);
    var db', next := AdvanceMakes(c, s, step);
    assert Inv(c, s) && PcPublished(s.db, pc);
    hide Do, Micro, Enabled, PublishedInv, Inv, Cared, StatusStep, PcPublished, HonestPublish;
    AdvanceKeepsPublished(c, s, step);
    forall id
      ensures Cared(s', id)
    {
      if pc.UploadHandler() && pc.id == id {
        HandlerCares(c, s, step, db', next, s');
      } else {
        OthersCare(c, s, step, db', next, s', id);
      }
    }
    MarksStay(c, s, step, db', next, s');
  }

  lemma MarksStay(c: Config, s: State, step: Step, db': Db, next: Next, s': State)
    requires PublishedInv(c, s) && MarksUnpublished(s) && Made(c, s, step, db', next, s')
    requires StatusStep(s.db, s'.db, s.procs[step.pid]) && HonestPublish(s.procs[step.pid], step.choice)
    ensures MarksUnpublished(s')
  {
    var pc := s.procs[step.pid];
    assert PcPublished(s.db, pc);
    MarkAfterPublish(c, s.db, pc, step.choice);
    forall p | p in s'.procs && p != step.pid && s'.procs[p].UpMark?
      ensures s'.procs[p].id !in s'.db.history.published
    {
      NotItsPublish(c, s, step.pid, p, s.procs[p].id);
    }
    hide PublishedInv, Micro, Do, Enabled, PcPublished, HonestPublish;
  }

  /** No event goes away without being handled. */
  lemma OtherKeepsPending(c: Config, s: State, step: Step, id: Id)
    requires Enabled(s, step) && !step.Advance? && Pending(s, id)
    ensures Pending(Do(c, s, step), id)
  {
    var s' := Do(c, s, step);
    if id in s.db.uploads {
      if step.DeliverUpload? && step.id == id {
        assert s'.procs[step.pid] == UhGet(id);
      }
    } else {
      var p :| p in s.procs && s.procs[p].UploadHandler() && s.procs[p].id == id;
      if !(step.Crash? && step.pid == p) {
        assert s'.procs[p] == s.procs[p];
      }
    }
  }

  lemma OtherKeepsUploads(c: Config, s: State, step: Step)
    requires UploadsInv(c, s) && Enabled(s, step) && !step.Advance?
    ensures MarksUnpublished(Do(c, s, step)) && forall id :: Cared(Do(c, s, step), id)
  {
    OtherIsQuiet(c, s, step);
    hide Do, Enabled, PublishedInv, Pending, IsCompleted, LiveIn;
    forall id
      ensures Cared(Do(c, s, step), id)
    {
      assert Cared(s, id);
      if Pending(s, id) {
        OtherKeepsPending(c, s, step, id);
      }
    }
  }

  lemma DoKeepsUploads(c: Config, s: State, step: Step)
    requires UploadsInv(c, s) && Enabled(s, step) && Respects(false, true, s, step)
    ensures UploadsInv(c, Do(c, s, step))
  {
    assert step.Advance? ==> HonestPublish(s.procs[step.pid], step.choice);
    DoKeepsPublished(c, s, step);
    hide Do, Enabled, PublishedInv, MarksUnpublished, Cared, Respects, HonestPublish;
    if step.Advance? {
      AdvanceKeepsUploads(c, s, step);
    } else {
      OtherKeepsUploads(c, s, step);
    }
  }

  // Over runs

  lemma StartsCared(c: Config, states: seq<State>, steps: seq<Step>)
    requires IsRun(c, states, steps) && PublishedInv(c, states[0])
    ensures UploadsInv(c, states[0])
  {
    assert states[0] == Init();
    hide IsRun, PublishedInv;
  }

  lemma {:induction false} RunKeepsUploads(c: Config, states: seq<State>, steps: seq<Step>, i: nat)
    requires IsRun(c, states, steps) && i <= |steps|
    requires forall j {:trigger steps[j]} :: 0 <= j < |steps| ==> Respects(false, true, states[j], steps[j])
    ensures UploadsInv(c, states[i])
  {
    hide *;
    if i == 0 {
      RunKeepsPublished(c, states, steps, 0);
      StartsCared(c, states, steps);
    } else {
      RunKeepsUploads(c, states, steps, i - 1);
      RunStep(c, states, steps, i - 1);
      assert Respects(false, true, states[i - 1], steps[i - 1]);
      DoKeepsUploads(c, states[i - 1], steps[i - 1]);
    }
  }

  /** Nothing runs and no upload event is queued. */
  predicate Handled(s: State) {
    s.procs == map[] && s.db.uploads == multiset{}
  }

  /** A live avatar whose event was published is not completed. */
  ghost predicate Unfinished(db: Db) {
    exists id :: id in db.history.published && LiveIn(db.avatars, id) && !IsCompleted(db.avatars, id)
  }

  /** When nothing runs and no upload event is queued, every live avatar whose event was published is
      completed, and both its thumbnails are stored and are those of what was uploaded. */
  lemma NoUploadLost(c: Config, states: seq<State>, steps: seq<Step>, i: nat, id: Id)
    requires IsRun(c, states, steps) && i <= |steps|
    requires forall j {:trigger steps[j]} :: 0 <= j < |steps| ==> Respects(false, true, states[j], steps[j])
    requires Handled(states[i]) && id in states[i].db.history.published && LiveIn(states[i].db.avatars, id)
    ensures IsCompleted(states[i].db.avatars, id) && id in states[i].db.history.inputs
    ensures var (objects, input) := (states[i].db.objects, states[i].db.history.inputs[id]);
            && Thumb100(id) in objects && c.thumbnail(input.content, Size100) == Some(objects[Thumb100(id)].data)
            && Thumb300(id) in objects && c.thumbnail(input.content, Size300) == Some(objects[Thumb300(id)].data)
  {
    RunKeepsUploads(c, states, steps, i);
    LiveDataIsFresh(c, states, steps, i, id);
    RunKeeps(c, states, steps, i);
    assert Cared(states[i], id);
    assert RecordOk(states[i].db.history.inputs, id, states[i].db.avatars[id]);
    hide IsRun, Inv, PublishedInv, Respects;
    var a := states[i].db.avatars[id];
    assert a.VariantKey(Size100) == (Thumb100(id), true) && a.VariantKey(Size300) == (Thumb300(id), true);
  }
}
