/** Why the protocol's theorems ask for what they ask: runs of the code as it is, for every upload, in
    which one thing goes wrong, besides what it leads to, and the conclusion fails. */
module Witness {
  import opened Domain
  import opened Store
  import opened Protocol
  import opened ProtocolSafety
  import opened ProtocolPublished
  import opened ProtocolCompleted
  import opened ProtocolOrphans
  import opened ProtocolUploads
  import opened Runs

  /** Every identifier, user and content the service accepts. */
  predicate Acceptable(id: Id, input: UploadInput) {
    '/' !in id && ValidUserID(input.user)
  }

  /** The run ends with a soft-deleted avatar that has an object, nothing running, and no delete event
      left that could lead to its removal. */
  ghost predicate LeavesOrphan(c: Config, faults: seq<Fault>) {
    exists s :: Reached(c, s, faults) && Drained(s) && Orphaned(s.db)
  }

  lemma Orphan(c: Config, db: Db, faults: seq<Fault>, id: Id, k: Key)
    requires Reached(c, Idle(db), faults) && db.deletes == multiset{}
    requires Deleted(db.avatars, id) && k.OwnedBy(id) && k in db.objects
    ensures LeavesOrphan(c, faults)
  {
    hide Reached;
    assert Drained(Idle(db)) && Orphaned(Idle(db).db);
  }

  lemma UploadedFacts(id: Id, input: UploadInput, now: Time)
    ensures var db := Uploaded(id, input, now);
            && FindActive(db.avatars, id).Ok? && db.avatars[id] == NewAvatar(id, input, now)
            && db.avatars[id].user == input.user && db.avatars[id].originalKey == OriginalKeyOf(id, input)
            && db.avatars[id].thumb100Key == db.avatars[id].thumb300Key == NoKey && db.avatars[id].status == Processing
            && OriginalKeyOf(id, input).OwnedBy(id)
            && OriginalKeyOf(id, input) in db.objects && db.objects[OriginalKeyOf(id, input)].data == input.content
            && db.uploads == multiset{id} && db.deletes == multiset{}
  {
  }

  /** Where an uploaded avatar has been deleted and its event is about to be handled. */
  lemma ReachLookup(c: Config, id: Id, input: UploadInput, now: Time, later: Time) returns (db: Db)
    requires c.broker && Acceptable(id, input)
    ensures Reached(c, Sys(db, None, Some(DhGet(id))), [])
    ensures Deleted(db.avatars, id) && OriginalKeyOf(id, input) in db.objects && db.deletes == multiset{}
  {
    var up := Uploaded(id, input, now);
    var deleted := Deletion(up, id, later);
    ReachUploaded(c, id, input, now);
    UploadedFacts(id, input, now);
    hide Reached, Sys, Uploaded, ValidUserID, OriginalKeyOf, NewAvatar;
    Deletes(c, up, None, [], id, input.user, later);
    DeleteDelivered(c, deleted, None, [], id);
    db := DeleteTaken(deleted, id);
  }

  /** A delete handler takes any failure of its lookup for a duplicate event and succeeds, so the
      event is acknowledged. One failing lookup, and nothing else going wrong, loses the deletion. */
  lemma LostLookupLeavesOrphan(c: Config, id: Id, input: UploadInput, now: Time, later: Time)
    requires c.broker && Acceptable(id, input)
    ensures exists at: State ::
              && at.procs == map[1 := DhGet(id)]
              && LeavesOrphan(c, [Fault(at, Call(1, Lost))])
  {
    var db := ReachLookup(c, id, input, now, later);
    var at := Sys(db, None, Some(DhGet(id)));
    assert at.procs == map[1 := DhGet(id)];
    assert Calls(c, db, DhGet(id), Lost, db, None);
    hide Reached, Sys, OriginalKeyOf, LeavesOrphan, Acceptable, Calls;
    SecondFaults(c, db, None, DhGet(id), [], Lost, db, None);
    assert [] + [Fault(at, Call(1, Lost))] == [Fault(at, Call(1, Lost))];
    Orphan(c, db, [Fault(at, Call(1, Lost))], id, OriginalKeyOf(id, input));
  }

  /** The error of a delete event that could not be published is ignored. One lost publish loses the
      deletion. */
  lemma LostPublishLeavesOrphan(c: Config, id: Id, input: UploadInput, now: Time, later: Time)
    requires c.broker && Acceptable(id, input)
    ensures exists at: State ::
              && at.procs == map[1 := DelPublish(id)]
              && LeavesOrphan(c, [Fault(at, Call(1, Lost))])
  {
    var up := Uploaded(id, input, now);
    var db := SoftDeletion(up, id, later);
    ReachUploaded(c, id, input, now);
    UploadedFacts(id, input, now);
    var at := Sys(db, None, Some(DelPublish(id)));
    var lost := db.(history := db.history.(announced := db.history.announced + multiset{id}));
    assert at.procs == map[1 := DelPublish(id)];
    assert Calls(c, db, DelPublish(id), Lost, lost, None);
    hide Reached, Sys, Uploaded, ValidUserID, OriginalKeyOf, NewAvatar, LeavesOrphan, Calls;
    SoftDeletes(c, up, None, [], id, input.user, later);
    SecondFaults(c, db, None, DelPublish(id), [], Lost, lost, None);
    assert [] + [Fault(at, Call(1, Lost))] == [Fault(at, Call(1, Lost))];
    Orphan(c, lost, [Fault(at, Call(1, Lost))], id, OriginalKeyOf(id, input));
  }

  /** Where an upload handler has read its original. */
  lemma ReachWriting(c: Config, id: Id, input: UploadInput, now: Time) returns (db: Db)
    requires c.broker && Acceptable(id, input) && Thumbnailable(c, input.content)
    ensures Reached(c, Sys(db, Some(Writing(c, id, input.content)), None), [])
    ensures db == Taken(Uploaded(id, input, now), id)
  {
    var up := Uploaded(id, input, now);
    db := Taken(up, id);
    ReachUploaded(c, id, input, now);
    UploadedFacts(id, input, now);
    assert Ready(c, db, id) by { hide Reached, Sys; }
    assert db.objects[db.avatars[id].originalKey].data == input.content;
    hide Reached, Sys, Uploaded, ValidUserID, OriginalKeyOf, NewAvatar, Writing, Ready;
    UploadDelivered(c, up, None, [], id);
    OriginalRead(c, db, None, [], id);
  }

  lemma PutsLead(c: Config, db: Db, pc: Pc)
    requires pc.UhPut100?
    ensures var (half, last) := (Half(db, pc), UhPut300(pc.id, pc.thumb300));
            && Calls(c, db, pc, Fine, half, Some(last))
            && Calls(c, half, last, Lost, half, Some(UhFail(pc.id, Dependency)))
  {
  }

  /** Where an upload handler has failed with half of its work done. */
  lemma ReachHalf(c: Config, up: Db, pc: Pc) returns (at: State)
    requires pc.UhPut100? && Reached(c, Sys(up, Some(pc), None), [])
    ensures at.procs == map[0 := UhPut300(pc.id, pc.thumb300)]
    ensures Reached(c, Sys(Half(up, pc), Some(UhFail(pc.id, Dependency)), None), [Fault(at, Call(0, Lost))])
  {
    var half, last := Half(up, pc), UhPut300(pc.id, pc.thumb300);
    at := Sys(half, Some(last), None);
    assert at.procs == map[0 := last];
    PutsLead(c, up, pc);
    hide Reached, Sys, Calls;
    FirstCalls(c, up, pc, None, [], half, Some(last));
    FirstFaults(c, half, last, None, [], Lost, half, Some(UhFail(pc.id, Dependency)));
    assert [] + [Fault(at, Call(0, Lost))] == [Fault(at, Call(0, Lost))];
  }

  /** An upload handler that fails after storing the small thumbnail clears both keys of the record, and
      no delete handler will know of it. */
  lemma HalfStoredLeavesOrphan(c: Config, id: Id, input: UploadInput, now: Time, later: Time)
    requires c.broker && Acceptable(id, input) && Thumbnailable(c, input.content)
    ensures exists at: State, next: State ::
              && (exists t300 :: at.procs == map[0 := UhPut300(id, t300)])
              && next.procs == map[0 := UhFail(id, Dependency)]
              && LeavesOrphan(c, [Fault(at, Call(0, Lost)), Fault(next, Call(0, Fine))])
  {
    var up := ReachWriting(c, id, input, now);
    var pc := Writing(c, id, input.content);
    var half := Half(up, pc);
    var at := ReachHalf(c, up, pc);
    var next := Sys(half, Some(UhFail(id, Dependency)), None);
    assert next.procs == map[0 := UhFail(id, Dependency)];
    HalfFacts(half, up, pc, id, input, now);
    hide Reached, Sys, Acceptable, LeavesOrphan, Writing, Uploaded, NewAvatar, Half;
    var faults := [Fault(at, Call(0, Lost)), Fault(next, Call(0, Fine))];
    FailsBack(c, half, [Fault(at, Call(0, Lost))], id);
    assert [Fault(at, Call(0, Lost))] + [Fault(next, Call(0, Fine))] == faults;
    DeletedAfterFailure(c, FailedBack(half, id), faults, id, input, later);
  }

  lemma HalfFacts(half: Db, up: Db, pc: Pc, id: Id, input: UploadInput, now: Time)
    requires up == Taken(Uploaded(id, input, now), id) && pc.UhPut100? && pc.id == id && half == Half(up, pc)
    ensures var db := FailedBack(half, id);
            && db.deletes == multiset{} && FindActive(db.avatars, id).Ok? && Thumb100(id) in db.objects
            && db.avatars[id].user == input.user && db.avatars[id].originalKey == OriginalKeyOf(id, input)
            && db.avatars[id].thumb100Key == db.avatars[id].thumb300Key == NoKey
  {
    UploadedFacts(id, input, now);
    hide Uploaded, NewAvatar, OriginalKeyOf;
  }

  function FailedBack(db: Db, id: Id): Db {
    db.(avatars := Processed(db.avatars, id, NoKey, NoKey).0, uploads := db.uploads + multiset{id})
  }

  /** A failed handler reports the error, and its delivery is queued again. */
  lemma FailsBack(c: Config, db: Db, faults: seq<Fault>, id: Id)
    requires Reached(c, Sys(db, Some(UhFail(id, Dependency)), None), faults)
    ensures var s := Sys(db, Some(UhFail(id, Dependency)), None);
            Reached(c, Idle(FailedBack(db, id)), faults + [Fault(s, Call(0, Fine))])
  {
    hide Reached;
    var s := Sys(db, Some(UhFail(id, Dependency)), None);
    assert 0 in s.procs && s.procs - {0} == Idle(db).procs;
    ReachedFault(c, s, faults, Call(0, Fine), Idle(FailedBack(db, id)));
  }

  lemma DeletedAfterFailure(c: Config, db: Db, faults: seq<Fault>, id: Id, input: UploadInput, later: Time)
    requires c.broker && Reached(c, Idle(db), faults) && Acceptable(id, input) && db.deletes == multiset{}
    requires FindActive(db.avatars, id).Ok? && Thumb100(id) in db.objects
    requires var a := db.avatars[id];
             && a.user == input.user && a.originalKey == OriginalKeyOf(id, input)
             && a.thumb100Key == a.thumb300Key == NoKey
    ensures LeavesOrphan(c, faults)
  {
    hide Reached, ValidUserID, LeavesOrphan;
    var deleted := Deletion(db, id, later);
    Deletes(c, db, None, faults, id, input.user, later);
    DeleteDelivered(c, deleted, None, faults, id);
    var taken := DeleteTaken(deleted, id);
    OriginalRemoved(c, taken, None, faults, id);
    Orphan(c, taken.(objects := taken.objects - {OriginalKeyOf(id, input)}), faults, id, Thumb100(id));
  }

  /** An upload handler past its check stores thumbnails even of an avatar that has been deleted
      meanwhile. With a second runner, the delete handler can be done by then. */
  lemma SecondRunnerLeavesOrphan(c: Config, id: Id, input: UploadInput, now: Time, later: Time)
    requires c.broker && Acceptable(id, input) && Thumbnailable(c, input.content)
    ensures exists at: State ::
              && at.procs == map[0 := Writing(c, id, input.content)]
              && LeavesOrphan(c, [Fault(at, DeliverDelete(1, id))])
  {
    var up := ReachWriting(c, id, input, now);
    UploadedFacts(id, input, now);
    var pc := Writing(c, id, input.content);
    var deleted := Deletion(up, id, later);
    var at := Sys(deleted, Some(pc), None);
    assert at.procs == map[0 := pc] && pc.UhPut100? && pc.id == id;
    var taken := DeleteTaken(deleted, id);
    DeletionFacts(up, id, later);
    assert up.avatars[id].user == input.user && FindActive(up.avatars, id).Ok?;
    hide Reached, Sys, Uploaded, ValidUserID, OriginalKeyOf, NewAvatar, LeavesOrphan, Writing, Deletion, DeleteTaken;
    Deletes(c, up, Some(pc), [], id, input.user, later);
    SecondDelivered(c, deleted, pc, DeliverDelete(1, id), taken, DhGet(id));
    WrittenAfterRemoval(c, taken, pc, [Fault(at, DeliverDelete(1, id))]);
  }

  lemma DeletionFacts(db: Db, id: Id, now: Time)
    requires FindActive(db.avatars, id).Ok? && db.deletes == multiset{}
    ensures var (deleted, taken) := (Deletion(db, id, now), DeleteTaken(Deletion(db, id, now), id));
            && id in deleted.deletes
            && Deleted(taken.avatars, id) && taken.deletes == multiset{}
            && taken.avatars[id] == db.avatars[id].(deletedAt := Some(now))
  {
  }

  lemma WrittenAfterRemoval(c: Config, db: Db, pc: Pc, faults: seq<Fault>)
    requires pc.UhPut100? && Reached(c, Sys(db, Some(pc), Some(DhGet(pc.id))), faults)
    requires Deleted(db.avatars, pc.id) && db.deletes == multiset{}
    requires var a := db.avatars[pc.id]; a.thumb100Key == a.thumb300Key == NoKey && a.originalKey != NoKey
    ensures LeavesOrphan(c, faults)
  {
    hide Reached, Sys, LeavesOrphan;
    var removed := db.(objects := db.objects - {db.avatars[pc.id].originalKey});
    OriginalRemoved(c, db, Some(pc), faults, pc.id);
    Finishes(c, removed, pc, None, faults);
    Orphan(c, Finished(removed, pc), faults, pc.id, Thumb100(pc.id));
  }

  // Completed is not final

  /** A run with these faults, and then one more call, which succeeds, takes an avatar out of completed. */
  ghost predicate UndoesCompleted(c: Config, faults: seq<Fault>, call: Step) {
    exists s, id ::
      && Reached(c, s, faults) && Enabled(s, call) && call.Advance? && call.choice.outcome.Fine?
      && IsCompleted(s.db.avatars, id) && !IsCompleted(Do(c, s, call).db.avatars, id)
  }

  /** Where two handlers of one event are at work, one of them past its check. */
  lemma ReachTwoHandlers(c: Config, id: Id, input: UploadInput, now: Time) returns (at: State, db: Db)
    requires c.broker && Acceptable(id, input) && Thumbnailable(c, input.content)
    ensures at.procs == map[0 := UhGet(id)] && db == Taken(Uploaded(id, input, now), id)
    ensures Reached(c, Sys(db, Some(UhGet(id)), Some(UhRead(id, OriginalKeyOf(id, input)))),
                    [Fault(at, DeliverUpload(1, id))])
  {
    hide Reached, ValidUserID;
    var up := Uploaded(id, input, now);
    db := Taken(up, id);
    at := Sys(up, Some(UhGet(id)), None);
    assert at.procs == map[0 := UhGet(id)];
    ReachUploaded(c, id, input, now);
    UploadedFacts(id, input, now);
    var other := UhRead(id, OriginalKeyOf(id, input));
    assert Calls(c, db, UhGet(id), Fine, db, Some(other)) by { hide Sys; }
    assert db.(uploads := db.uploads + multiset{id}) == up;
    hide Sys, Uploaded, OriginalKeyOf, NewAvatar, Calls;
    UploadDelivered(c, up, None, [], id);
    Redelivered(c, db, id);
    SecondDelivered(c, up, UhGet(id), DeliverUpload(1, id), db, UhGet(id));
    SecondCalls(c, db, Some(UhGet(id)), UhGet(id), [Fault(at, DeliverUpload(1, id))], db, Some(other));
  }

  /** With a second runner and one failing read, one of two handlers of the same event marks as failed
      what the other has completed. */
  lemma SecondRunnerUndoesCompleted(c: Config, id: Id, input: UploadInput, now: Time)
    requires c.broker && Acceptable(id, input) && Thumbnailable(c, input.content)
    ensures exists at: State, next: State ::
              && at.procs == map[0 := UhGet(id)] && next.procs == map[1 := UhRead(id, OriginalKeyOf(id, input))]
              && UndoesCompleted(c, [Fault(at, DeliverUpload(1, id)), Fault(next, Call(1, Lost))], Call(1, Fine))
  {
    var at, db := ReachTwoHandlers(c, id, input, now);
    UploadedFacts(id, input, now);
    var pc, other := Writing(c, id, input.content), UhRead(id, OriginalKeyOf(id, input));
    assert pc.UhPut100? && pc.id == id && Ready(c, db, id);
    var faults := [Fault(at, DeliverUpload(1, id))];
    hide Reached, Sys, Uploaded, Acceptable, OriginalKeyOf, NewAvatar, UndoesCompleted, Writing, Ready;
    OriginalRead(c, db, Some(other), faults, id);
    Finishes(c, db, pc, Some(other), faults);
    var next := ReadLostUndoes(c, Finished(db, pc), faults, id, other.key);
    assert faults + [Fault(next, Call(1, Lost))] == [Fault(at, DeliverUpload(1, id)), Fault(next, Call(1, Lost))];
  }

  /** The broker queues a delivery again while its handler runs. */
  lemma Redelivered(c: Config, db: Db, id: Id)
    requires Reached(c, Sys(db, Some(UhGet(id)), None), [])
    ensures Reached(c, Sys(db.(uploads := db.uploads + multiset{id}), Some(UhGet(id)), None), [])
  {
    hide Reached;
    var s := Sys(db, Some(UhGet(id)), None);
    assert 0 in s.procs && s.procs[0] == UhGet(id);
    ReachedFine(c, s, [], Redeliver(0), Sys(db.(uploads := db.uploads + multiset{id}), Some(UhGet(id)), None));
  }

  lemma ReadLostUndoes(c: Config, db: Db, faults: seq<Fault>, id: Id, key: Key) returns (next: State)
    requires Reached(c, Sys(db, None, Some(UhRead(id, key))), faults) && IsCompleted(db.avatars, id)
    ensures next.procs == map[1 := UhRead(id, key)]
    ensures UndoesCompleted(c, faults + [Fault(next, Call(1, Lost))], Call(1, Fine))
  {
    var failing := Sys(db, None, Some(UhFail(id, Dependency)));
    next := Sys(db, None, Some(UhRead(id, key)));
    assert next.procs == map[1 := UhRead(id, key)] && failing.procs == map[1 := UhFail(id, Dependency)];
    assert next.procs[1 := UhFail(id, Dependency)] == failing.procs;
    assert Calls(c, db, UhRead(id, key), Lost, db, Some(UhFail(id, Dependency)));
    hide Reached, Calls, Do, FaultFree, UndoesCompleted;
    CallLeads(c, next, 1, Lost, db, Some(UhFail(id, Dependency)));
    ReachedStep(c, next, faults, Call(1, Lost));
    FailUndoes(c, failing, faults + [Fault(next, Call(1, Lost))], id);
  }

  lemma FailUndoes(c: Config, s: State, faults: seq<Fault>, id: Id)
    requires s.procs == map[1 := UhFail(id, Dependency)] && Reached(c, s, faults) && IsCompleted(s.db.avatars, id)
    ensures UndoesCompleted(c, faults, Call(1, Fine))
  {
    hide Reached;
    assert Enabled(s, Call(1, Fine));
    assert !IsCompleted(Do(c, s, Call(1, Fine)).db.avatars, id);
  }

  /** Where an upload has been queued and reported as not published. */
  lemma ReachMark(c: Config, id: Id, input: UploadInput, now: Time) returns (at: State)
    requires c.broker && Acceptable(id, input)
    ensures at.procs == map[1 := UpPublish(id)]
    ensures Reached(c, Sys(Uploaded(id, input, now), None, Some(UpMark(id))), [Fault(at, Call(1, Applied))])
  {
    var created, up := Created(id, input, now), Uploaded(id, input, now);
    at := Sys(created, None, Some(UpPublish(id)));
    assert at.procs == map[1 := UpPublish(id)];
    ReachCreated(c, id, input, now);
    hide Reached, Sys, NewAvatar, OriginalKeyOf, Acceptable;
    assert multiset{} + multiset{id} == multiset{id} && {} + {id} == {id};
    SecondFaults(c, created, None, UpPublish(id), [], Applied, up, Some(UpMark(id)));
    assert [] + [Fault(at, Call(1, Applied))] == [Fault(at, Call(1, Applied))];
  }

  /** A publish reports an error although the event was queued. Deliveries taken one at a time, the upload
      is completed, and then marked as failed by the process that published it. */
  lemma UntruePublishUndoesCompleted(c: Config, id: Id, input: UploadInput, now: Time)
    requires c.broker && Acceptable(id, input) && Thumbnailable(c, input.content)
    ensures exists at: State ::
              && at.procs == map[1 := UpPublish(id)]
              && UndoesCompleted(c, [Fault(at, Call(1, Applied))], Call(1, Fine))
  {
    var up := Uploaded(id, input, now);
    var at := ReachMark(c, id, input, now);
    UploadedFacts(id, input, now);
    var faults, pc := [Fault(at, Call(1, Applied))], Writing(c, id, input.content);
    assert up.avatars[id].originalKey in up.objects && up.objects[up.avatars[id].originalKey].data == input.content;
    assert Ready(c, up, id) && id in up.uploads && pc.UhPut100? && pc.id == id;
    hide Reached, Sys, Uploaded, Acceptable, OriginalKeyOf, NewAvatar, UndoesCompleted, Writing;
    HandledAlone(c, up, Some(UpMark(id)), faults, id);
    MarkUndoes(c, Finished(Taken(up, id), pc), faults, id);
  }

  /** Besides a process that is no handler, an upload event is handled without a failure. */
  lemma HandledAlone(c: Config, db: Db, q: Option<Pc>, faults: seq<Fault>, id: Id)
    requires Reached(c, Sys(db, None, q), faults) && id in db.uploads && Ready(c, db, id)
    requires q.Some? ==> !q.value.Handler()
    ensures var data := db.objects[db.avatars[id].originalKey].data;
            Reached(c, Sys(Finished(Taken(db, id), Writing(c, id, data)), None, q), faults)
  {
    var pc := Writing(c, id, db.objects[db.avatars[id].originalKey].data);
    assert pc.UhPut100? && pc.id == id && Ready(c, Taken(db, id), id);
    hide Reached, Sys, Writing;
    UploadDelivered(c, db, q, faults, id);
    OriginalRead(c, Taken(db, id), q, faults, id);
    Finishes(c, Taken(db, id), pc, q, faults);
  }

  lemma MarkUndoes(c: Config, db: Db, faults: seq<Fault>, id: Id)
    requires Reached(c, Sys(db, None, Some(UpMark(id))), faults) && IsCompleted(db.avatars, id)
    ensures UndoesCompleted(c, faults, Call(1, Fine))
  {
    hide Reached;
    var s := Sys(db, None, Some(UpMark(id)));
    assert s.procs == map[1 := UpMark(id)];
    assert Enabled(s, Call(1, Fine));
    assert !IsCompleted(Do(c, s, Call(1, Fine)).db.avatars, id);
  }

  // An upload is lost

  /** The run ends with a live avatar that is not completed, although its event was published, and with
      nothing running and no upload event left that could lead to it. */
  ghost predicate LosesUpload(c: Config, faults: seq<Fault>) {
    exists s :: Reached(c, s, faults) && Handled(s) && Unfinished(s.db)
  }

  lemma Loses(c: Config, db: Db, faults: seq<Fault>, id: Id)
    requires Reached(c, Idle(db), faults) && db.uploads == multiset{} && id in db.history.published
    requires LiveIn(db.avatars, id) && db.avatars[id].status == Failed
    ensures LosesUpload(c, faults)
  {
    hide Reached;
    assert Handled(Idle(db)) && Unfinished(Idle(db).db);
  }

  /** What completing an upload and then marking it as failed leaves. */
  lemma MarkedFacts(db: Db, pc: Pc, id: Id)
    requires pc.UhPut100? && pc.id == id && id in db.avatars && db.avatars[id].Live() && db.uploads == multiset{id}
    ensures var done := Finished(Taken(db, id), pc);
            var marked := done.(avatars := MarkedFailed(done.avatars, id).0);
            && marked.uploads == multiset{} && marked.history == db.history
            && LiveIn(marked.avatars, id) && marked.avatars[id].status == Failed
  {
  }

  /** A publish reports an error although the event was queued. The upload is completed, its event
      acknowledged, and only then is it marked as failed. */
  lemma UntruePublishLosesUpload(c: Config, id: Id, input: UploadInput, now: Time)
    requires c.broker && Acceptable(id, input) && Thumbnailable(c, input.content)
    ensures exists at: State ::
              at.procs == map[1 := UpPublish(id)] && LosesUpload(c, [Fault(at, Call(1, Applied))])
  {
    var up := Uploaded(id, input, now);
    var at := ReachMark(c, id, input, now);
    UploadedFacts(id, input, now);
    var faults, pc := [Fault(at, Call(1, Applied))], Writing(c, id, input.content);
    assert up.avatars[id].originalKey in up.objects && up.objects[up.avatars[id].originalKey].data == input.content;
    assert Ready(c, up, id) && id in up.uploads && pc.UhPut100? && pc.id == id && id in up.history.published;
    MarkedFacts(up, pc, id);
    var done := Finished(Taken(up, id), pc);
    var marked := done.(avatars := MarkedFailed(done.avatars, id).0);
    assert Calls(c, done, UpMark(id), Fine, marked, None) by { hide Reached, Sys; }
    hide Reached, Sys, Uploaded, Acceptable, OriginalKeyOf, NewAvatar, LosesUpload, Writing, Finished, Calls;
    HandledAlone(c, up, Some(UpMark(id)), faults, id);
    SecondCalls(c, done, None, UpMark(id), faults, marked, None);
    Loses(c, marked, faults, id);
  }

  // A failed publish does not show

  /** The run ends with nothing running and the record in this status. */
  ghost predicate EndsAs(c: Config, faults: seq<Fault>, id: Id, status: Status) {
    exists s :: Reached(c, s, faults) && s.procs == map[] && id in s.db.avatars && s.db.avatars[id].status == status
  }

  lemma Ends(c: Config, db: Db, faults: seq<Fault>, id: Id, status: Status)
    requires Reached(c, Idle(db), faults) && id in db.avatars && db.avatars[id].status == status
    ensures EndsAs(c, faults, id, status)
  {
    hide Reached;
    assert Idle(db).procs == map[];
  }

  /** A publish reports an error although the event was queued, and the mark reaches the repository. The
      event is handled afterwards, and the avatar ends up as completed. */
  lemma UntruePublishIsCompleted(c: Config, id: Id, input: UploadInput, now: Time)
    requires c.broker && Acceptable(id, input) && Thumbnailable(c, input.content)
    ensures exists at: State ::
              && at.procs == map[1 := UpPublish(id)]
              && EndsAs(c, [Fault(at, Call(1, Applied))], id, Completed)
  {
    var up := Uploaded(id, input, now);
    var at := ReachMark(c, id, input, now);
    UploadedFacts(id, input, now);
    var faults, pc := [Fault(at, Call(1, Applied))], Writing(c, id, input.content);
    var db := up.(avatars := MarkedFailed(up.avatars, id).0);
    assert Calls(c, up, UpMark(id), Fine, db, None);
    assert db.avatars[id].originalKey in db.objects && db.objects[db.avatars[id].originalKey].data == input.content;
    assert Ready(c, db, id) && id in db.uploads && pc.UhPut100? && pc.id == id;
    hide Reached, Sys, Uploaded, Acceptable, OriginalKeyOf, NewAvatar, EndsAs, Writing, Calls;
    SecondCalls(c, up, None, UpMark(id), faults, db, None);
    HandledAlone(c, db, None, faults, id);
    Ends(c, Finished(Taken(db, id), pc), faults, id, Completed);
  }

  /** Where a publish was lost and is about to be marked. */
  lemma ReachLost(c: Config, id: Id, input: UploadInput, now: Time) returns (at: State)
    requires c.broker && Acceptable(id, input)
    ensures at.procs == map[1 := UpPublish(id)]
    ensures Reached(c, Sys(Created(id, input, now), None, Some(UpMark(id))), [Fault(at, Call(1, Lost))])
  {
    var created := Created(id, input, now);
    at := Sys(created, None, Some(UpPublish(id)));
    assert at.procs == map[1 := UpPublish(id)];
    ReachCreated(c, id, input, now);
    hide Reached, Sys, NewAvatar, OriginalKeyOf, Acceptable;
    SecondFaults(c, created, None, UpPublish(id), [], Lost, created, Some(UpMark(id)));
    assert [] + [Fault(at, Call(1, Lost))] == [Fault(at, Call(1, Lost))];
  }

  lemma CreatedFacts(id: Id, input: UploadInput, now: Time)
    ensures var db := Created(id, input, now); id in db.avatars && db.avatars[id].status == Processing
  {
  }

  /** The publish and then the mark are lost, and the record stays `processing`. */
  lemma LostMarkStaysProcessing(c: Config, id: Id, input: UploadInput, now: Time)
    requires c.broker && Acceptable(id, input)
    ensures exists at: State, next: State ::
              && at.procs == map[1 := UpPublish(id)] && next.procs == map[1 := UpMark(id)]
              && EndsAs(c, [Fault(at, Call(1, Lost)), Fault(next, Call(1, Lost))], id, Processing)
  {
    var created := Created(id, input, now);
    var at := ReachLost(c, id, input, now);
    var next := Sys(created, None, Some(UpMark(id)));
    assert next.procs == map[1 := UpMark(id)];
    CreatedFacts(id, input, now);
    assert Calls(c, created, UpMark(id), Lost, created, None);
    hide Reached, Sys, Created, Acceptable, EndsAs, Calls;
    SecondFaults(c, created, None, UpMark(id), [Fault(at, Call(1, Lost))], Lost, created, None);
    var faults := [Fault(at, Call(1, Lost)), Fault(next, Call(1, Lost))];
    assert [Fault(at, Call(1, Lost))] + [Fault(next, Call(1, Lost))] == faults;
    Ends(c, created, faults, id, Processing);
  }

  lemma CrashesBeforeMark(c: Config, db: Db, faults: seq<Fault>, id: Id)
    requires Reached(c, Sys(db, None, Some(UpMark(id))), faults)
    ensures Reached(c, Idle(db), faults + [Fault(Sys(db, None, Some(UpMark(id))), Crash(1))])
  {
    hide Reached;
    var s := Sys(db, None, Some(UpMark(id)));
    assert 1 in s.procs && s.procs[1] == UpMark(id) && s.procs - {1} == Idle(db).procs;
    ReachedFault(c, s, faults, Crash(1), Idle(db));
  }

  /** The publish is lost, the process crashes before its mark, and the record stays `processing`. */
  lemma CrashStaysProcessing(c: Config, id: Id, input: UploadInput, now: Time)
    requires c.broker && Acceptable(id, input)
    ensures exists at: State, next: State ::
              && at.procs == map[1 := UpPublish(id)] && next.procs == map[1 := UpMark(id)]
              && EndsAs(c, [Fault(at, Call(1, Lost)), Fault(next, Crash(1))], id, Processing)
  {
    var created := Created(id, input, now);
    var at := ReachLost(c, id, input, now);
    var next := Sys(created, None, Some(UpMark(id)));
    assert next.procs == map[1 := UpMark(id)];
    CreatedFacts(id, input, now);
    hide Reached, Sys, Created, Acceptable, EndsAs;
    CrashesBeforeMark(c, created, [Fault(at, Call(1, Lost))], id);
    var faults := [Fault(at, Call(1, Lost)), Fault(next, Crash(1))];
    assert [Fault(at, Call(1, Lost))] + [Fault(next, Crash(1))] == faults;
    Ends(c, created, faults, id, Processing);
  }
}
