/** Building runs step by step, with a record of everything that goes wrong in them. */
module Runs {
  import opened Domain
  import opened Store
  import opened Protocol
  import opened ProtocolCompleted
  import opened ProtocolOrphans

  /** Nothing goes wrong: deliveries are taken apart, every call succeeds, no handler reports a failed
      call, nothing crashes. Deliveries may be repeated, and acknowledgements lost. */
  ghost predicate FaultFree(s: State, step: Step) {
    && UploadsApart(s, step)
    && DeletesApart(s, step)
    && !step.Crash?
    && (step.Advance? && step.pid in s.procs ==> !GivesUp(s.procs[step.pid], step.choice.outcome))
  }

  /** A step that went wrong, and where. */
  datatype Fault = Fault(at: State, step: Step)

  /** What went wrong, in order. */
  ghost function Faults(states: seq<State>, steps: seq<Step>): seq<Fault>
    requires |states| >= |steps|
  {
    if steps == [] then []
    else
      var n := |steps| - 1;
      Faults(states, steps[..n]) + if FaultFree(states[n], steps[n]) then [] else [Fault(states[n], steps[n])]
  }

  /** Some run ends in `s`, and only `faults` went wrong in it. */
  ghost predicate Reached(c: Config, s: State, faults: seq<Fault>) {
    exists states: seq<State>, steps: seq<Step> ::
      IsRun(c, states, steps) && states[|steps|] == s && Faults(states, steps) == faults
  }

  lemma {:induction false} FaultsPrefix(states: seq<State>, more: seq<State>, steps: seq<Step>)
    requires |states| >= |steps| && |more| >= |steps|
    requires forall i :: 0 <= i < |steps| ==> states[i] == more[i]
    ensures Faults(states, steps) == Faults(more, steps)
  {
    if steps == [] {
    } else {
      FaultsPrefix(states, more, steps[..|steps| - 1]);
    }
  }

  /** Every step of a run is fault-free or among the faults. */
  lemma {:induction false} FaultsComplete(states: seq<State>, steps: seq<Step>, j: nat)
    requires |states| >= |steps| && j < |steps|
    ensures FaultFree(states[j], steps[j]) || Fault(states[j], steps[j]) in Faults(states, steps)
  {
    var n := |steps| - 1;
    hide FaultFree;
    if j == n {
    } else {
      FaultsComplete(states, steps[..n], j);
    }
  }

  /** Every fault is a step of the run. */
  lemma {:induction false} FaultHappens(states: seq<State>, steps: seq<Step>, f: Fault) returns (i: nat)
    requires |states| >= |steps| && f in Faults(states, steps)
    ensures i < |steps| && states[i] == f.at && steps[i] == f.step
  {
    var n := |steps| - 1;
    hide FaultFree;
    if f == Fault(states[n], steps[n]) {
      i := n;
    } else {
      i := FaultHappens(states, steps[..n], f);
    }
  }

  lemma RunOf(c: Config, s: State, faults: seq<Fault>) returns (states: seq<State>, steps: seq<Step>)
    requires Reached(c, s, faults)
    ensures IsRun(c, states, steps) && |states| == |steps| + 1
    ensures states[|steps|] == s && Faults(states, steps) == faults
  {
    hide Do, Enabled, FaultFree;
    states, steps :| IsRun(c, states, steps) && states[|steps|] == s && Faults(states, steps) == faults;
  }

  lemma ReachedStart(c: Config)
    ensures Reached(c, Init(), [])
  {
    assert IsRun(c, [Init()], []);
  }

  lemma Extended(c: Config, states: seq<State>, steps: seq<Step>, step: Step)
    requires IsRun(c, states, steps) && Enabled(states[|steps|], step)
    ensures IsRun(c, states + [Do(c, states[|steps|], step)], steps + [step])
  {
    hide Do, Enabled;
    var states', steps' := states + [Do(c, states[|steps|], step)], steps + [step];
    forall i {:trigger steps'[i]} | 0 <= i < |steps'|
      ensures Enabled(states'[i], steps'[i]) && states'[i + 1] == Do(c, states'[i], steps'[i])
    {
      if i < |steps| {
        assert steps'[i] == steps[i];
      }
    }
  }

  lemma ReachedStep(c: Config, s: State, faults: seq<Fault>, step: Step)
    requires Reached(c, s, faults) && Enabled(s, step)
    ensures Reached(c, Do(c, s, step), faults + if FaultFree(s, step) then [] else [Fault(s, step)])
  {
    hide Do, Enabled, FaultFree;
    var states, steps :| IsRun(c, states, steps) && states[|steps|] == s && Faults(states, steps) == faults;
    Extended(c, states, steps, step);
    var states', steps' := states + [Do(c, s, step)], steps + [step];
    assert |states| == |steps| + 1;
    hide IsRun;
    FaultsPrefix(states, states', steps);
    assert steps'[..|steps|] == steps;
    assert Faults(states', steps') == faults + if FaultFree(s, step) then [] else [Fault(s, step)];
    assert IsRun(c, states', steps') && states'[|steps'|] == Do(c, s, step);
  }

  lemma ReachedFine(c: Config, s: State, faults: seq<Fault>, step: Step, s': State)
    requires Reached(c, s, faults) && Enabled(s, step) && FaultFree(s, step) && s' == Do(c, s, step)
    ensures Reached(c, s', faults)
  {
    ReachedStep(c, s, faults, step);
    assert faults + [] == faults;
  }

  lemma ReachedFault(c: Config, s: State, faults: seq<Fault>, step: Step, s': State)
    requires Reached(c, s, faults) && Enabled(s, step) && !FaultFree(s, step) && s' == Do(c, s, step)
    ensures Reached(c, s', faults + [Fault(s, step)])
  {
    ReachedStep(c, s, faults, step);
  }

  // Two places for processes: uploads, deletions and delete handlers run in place 1, upload handlers in place 0

  function Place(pid: Pid, pc: Option<Pc>): map<Pid, Pc> {
    if pc.Some? then map[pid := pc.value] else map[]
  }

  function Sys(db: Db, p: Option<Pc>, q: Option<Pc>): State {
    State(db, Place(0, p) + Place(1, q))
  }

  function Idle(db: Db): State {
    Sys(db, None, None)
  }

  lemma FirstMoves(pc: Pc, q: Option<Pc>, next: Option<Pc>)
    ensures var procs := Place(0, Some(pc)) + Place(1, q);
            Place(0, next) + Place(1, q) == if next.Some? then procs[0 := next.value] else procs - {0}
  {
  }

  lemma SecondMoves(p: Option<Pc>, pc: Pc, next: Option<Pc>)
    ensures var procs := Place(0, p) + Place(1, Some(pc));
            Place(0, p) + Place(1, next) == if next.Some? then procs[1 := next.value] else procs - {1}
  {
  }

  /** The call of a process that ends as `o` says. */
  function Call(pid: Pid, o: Outcome): Step {
    Advance(pid, Choice(o, []), false)
  }

  /** One call takes a process from `pc` to `next`; if it ends there, it succeeds. */
  predicate Calls(c: Config, db: Db, pc: Pc, o: Outcome, db': Db, next: Option<Pc>) {
    && !pc.CurList?
    && Micro(c, db, pc, Choice(o, [])) == (db', if next.Some? then Go(next.value) else Return(None))
  }

  lemma CallLeads(c: Config, s: State, pid: Pid, o: Outcome, db': Db, next: Option<Pc>)
    requires pid in s.procs && Calls(c, s.db, s.procs[pid], o, db', next)
    ensures Enabled(s, Call(pid, o))
    ensures Do(c, s, Call(pid, o)) == State(db', if next.Some? then s.procs[pid := next.value] else s.procs - {pid})
    ensures FaultFree(s, Call(pid, o)) <==> !GivesUp(s.procs[pid], o)
  {
    hide Micro, Requeue;
  }

  lemma FirstCalls(c: Config, db: Db, pc: Pc, q: Option<Pc>, faults: seq<Fault>, db': Db, next: Option<Pc>)
    requires Reached(c, Sys(db, Some(pc), q), faults) && Calls(c, db, pc, Fine, db', next) && !GivesUp(pc, Fine)
    ensures Reached(c, Sys(db', next, q), faults)
  {
    var s := Sys(db, Some(pc), q);
    assert 0 in s.procs && s.procs[0] == pc;
    hide Reached, Calls, Do, Enabled, FaultFree, GivesUp;
    CallLeads(c, s, 0, Fine, db', next);
    FirstMoves(pc, q, next);
    ReachedFine(c, s, faults, Call(0, Fine), Sys(db', next, q));
  }

  lemma SecondCalls(c: Config, db: Db, p: Option<Pc>, pc: Pc, faults: seq<Fault>, db': Db, next: Option<Pc>)
    requires Reached(c, Sys(db, p, Some(pc)), faults) && Calls(c, db, pc, Fine, db', next) && !GivesUp(pc, Fine)
    ensures Reached(c, Sys(db', p, next), faults)
  {
    var s := Sys(db, p, Some(pc));
    assert 1 in s.procs && s.procs[1] == pc;
    hide Reached, Calls, Do, Enabled, FaultFree, GivesUp;
    CallLeads(c, s, 1, Fine, db', next);
    SecondMoves(p, pc, next);
    ReachedFine(c, s, faults, Call(1, Fine), Sys(db', p, next));
  }

  /** A call that fails. */
  lemma SecondFaults(
    c: Config, db: Db, p: Option<Pc>, pc: Pc, faults: seq<Fault>, o: Outcome, db': Db, next: Option<Pc>)
    requires Reached(c, Sys(db, p, Some(pc)), faults) && Calls(c, db, pc, o, db', next) && GivesUp(pc, o)
    ensures Reached(c, Sys(db', p, next), faults + [Fault(Sys(db, p, Some(pc)), Call(1, o))])
  {
    var s := Sys(db, p, Some(pc));
    assert 1 in s.procs && s.procs[1] == pc;
    hide Reached, Calls, Do, Enabled, FaultFree, GivesUp;
    CallLeads(c, s, 1, o, db', next);
    SecondMoves(p, pc, next);
    ReachedFault(c, s, faults, Call(1, o), Sys(db', p, next));
  }

  lemma FirstFaults(
    c: Config, db: Db, pc: Pc, q: Option<Pc>, faults: seq<Fault>, o: Outcome, db': Db, next: Option<Pc>)
    requires Reached(c, Sys(db, Some(pc), q), faults) && Calls(c, db, pc, o, db', next) && GivesUp(pc, o)
    ensures Reached(c, Sys(db', next, q), faults + [Fault(Sys(db, Some(pc), q), Call(0, o))])
  {
    var s := Sys(db, Some(pc), q);
    assert 0 in s.procs && s.procs[0] == pc;
    hide Reached, Calls, Do, Enabled, FaultFree, GivesUp;
    CallLeads(c, s, 0, o, db', next);
    FirstMoves(pc, q, next);
    ReachedFault(c, s, faults, Call(0, o), Sys(db', next, q));
  }

  // Steps that start or deliver

  lemma DeleteStarts(c: Config, db: Db, p: Option<Pc>, faults: seq<Fault>, id: Id, owner: User, now: Time)
    requires Reached(c, Sys(db, p, None), faults) && ValidUserID(owner)
    ensures Reached(c, Sys(db, p, Some(DelGet(id, owner, now))), faults)
  {
    hide Reached, ValidUserID;
    assert Sys(db, p, Some(DelGet(id, owner, now))).procs == Sys(db, p, None).procs[1 := DelGet(id, owner, now)];
    ReachedFine(c, Sys(db, p, None), faults, StartDelete(1, id, owner, now), Sys(db, p, Some(DelGet(id, owner, now))));
  }

  function Taken(db: Db, id: Id): Db {
    db.(uploads := db.uploads - multiset{id})
  }

  function DeleteTaken(db: Db, id: Id): Db {
    db.(deletes := db.deletes - multiset{id})
  }

  /** An upload event is delivered while no upload handler runs. */
  lemma UploadDelivered(c: Config, db: Db, q: Option<Pc>, faults: seq<Fault>, id: Id)
    requires Reached(c, Sys(db, None, q), faults) && id in db.uploads && (q.Some? ==> !q.value.UploadHandler())
    ensures Reached(c, Sys(Taken(db, id), Some(UhGet(id)), q), faults)
  {
    hide Reached;
    var s, s' := Sys(db, None, q), Sys(Taken(db, id), Some(UhGet(id)), q);
    assert s'.procs == s.procs[0 := UhGet(id)];
    ReachedFine(c, s, faults, DeliverUpload(0, id), s');
  }

  lemma DeleteDelivered(c: Config, db: Db, p: Option<Pc>, faults: seq<Fault>, id: Id)
    requires Reached(c, Sys(db, p, None), faults) && id in db.deletes && (p.Some? ==> !PastCheck(p.value))
    ensures Reached(c, Sys(DeleteTaken(db, id), p, Some(DhGet(id))), faults)
  {
    hide Reached;
    var s, s' := Sys(db, p, None), Sys(DeleteTaken(db, id), p, Some(DhGet(id)));
    assert s'.procs == s.procs[1 := DhGet(id)];
    ReachedFine(c, s, faults, DeliverDelete(1, id), s');
  }

  /** A second runner takes a delivery of the avatar that an upload handler is at work on. */
  lemma SecondDelivered(c: Config, db: Db, pc: Pc, step: Step, db': Db, pc': Pc)
    requires Reached(c, Sys(db, Some(pc), None), []) && pc.UploadHandler() && step.pid == 1
    requires
      || (step == DeliverDelete(1, pc.id) && PastCheck(pc)
          && pc.id in db.deletes && db' == DeleteTaken(db, pc.id) && pc' == DhGet(pc.id))
      || (step == DeliverUpload(1, pc.id)
          && pc.id in db.uploads && db' == Taken(db, pc.id) && pc' == UhGet(pc.id))
    ensures Reached(c, Sys(db', Some(pc), Some(pc')), [Fault(Sys(db, Some(pc), None), step)])
  {
    hide Reached;
    var s, s' := Sys(db, Some(pc), None), Sys(db', Some(pc), Some(pc'));
    assert 0 in s.procs && s.procs[0] == pc;
    assert s'.procs == s.procs[1 := pc'];
    ReachedFault(c, s, [], step, s');
    assert [] + [Fault(s, step)] == [Fault(s, step)];
  }

  // Whole processes

  function Started(id: Id, input: UploadInput): Db {
    Init().db.(history := Init().db.history.(inputs := map[id := input]))
  }

  /** The stores after Put and Create. */
  function Created(id: Id, input: UploadInput, now: Time): Db {
    Started(id, input).(avatars := map[id := NewAvatar(id, input, now)],
                        objects := map[OriginalKeyOf(id, input) := Object(input.content, input.mime)])
  }

  /** The stores after an undisturbed upload: its event is queued. */
  function Uploaded(id: Id, input: UploadInput, now: Time): Db {
    var db := Created(id, input, now);
    db.(uploads := multiset{id}, history := db.history.(published := {id}))
  }

  lemma ReachCreated(c: Config, id: Id, input: UploadInput, now: Time)
    requires c.broker && '/' !in id && ValidUserID(input.user)
    ensures Reached(c, Sys(Created(id, input, now), None, Some(UpPublish(id))), [])
  {
    var db0, db2 := Started(id, input), Created(id, input, now);
    var db1 := db0.(objects := db2.objects);
    ReachedStart(c);
    assert Sys(db0, None, Some(UpPut(id, input, now))).procs == map[1 := UpPut(id, input, now)];
    ReachedFine(c, Init(), [], StartUpload(1, id, input, now), Sys(db0, None, Some(UpPut(id, input, now))));
    hide Reached, Do, FaultFree, ValidUserID, NewAvatar, OriginalKeyOf, Sys;
    SecondCalls(c, db0, None, UpPut(id, input, now), [], db1, Some(UpCreate(id, input, now)));
    SecondCalls(c, db1, None, UpCreate(id, input, now), [], db2, Some(UpPublish(id)));
  }

  lemma ReachUploaded(c: Config, id: Id, input: UploadInput, now: Time)
    requires c.broker && '/' !in id && ValidUserID(input.user)
    ensures Reached(c, Idle(Uploaded(id, input, now)), [])
  {
    ReachCreated(c, id, input, now);
    hide Reached, NewAvatar, OriginalKeyOf, Sys;
    assert multiset{} + multiset{id} == multiset{id} && {} + {id} == {id};
    SecondCalls(c, Created(id, input, now), None, UpPublish(id), [], Uploaded(id, input, now), None);
  }

  function SoftDeletion(db: Db, id: Id, now: Time): Db {
    db.(avatars := SoftDeleted(db.avatars, id, now).0,
        history := db.history.(succeeded := db.history.succeeded + multiset{id}))
  }

  /** The stores after an undisturbed deletion: its event is queued. */
  function Deletion(db: Db, id: Id, now: Time): Db {
    var db' := SoftDeletion(db, id, now);
    db'.(deletes := db.deletes + multiset{id},
         history := db'.history.(announced := db.history.announced + multiset{id}))
  }

  lemma SoftDeletes(c: Config, db: Db, p: Option<Pc>, faults: seq<Fault>, id: Id, owner: User, now: Time)
    requires c.broker && ValidUserID(owner) && Reached(c, Sys(db, p, None), faults)
    requires FindActive(db.avatars, id).Ok? && db.avatars[id].user == owner
    ensures Reached(c, Sys(SoftDeletion(db, id, now), p, Some(DelPublish(id))), faults)
  {
    hide Reached, ValidUserID, Sys;
    DeleteStarts(c, db, p, faults, id, owner, now);
    var db' := SoftDeletion(db, id, now);
    assert Calls(c, db, DelGet(id, owner, now), Fine, db, Some(DelSoft(id, owner, now)));
    assert Calls(c, db, DelSoft(id, owner, now), Fine, db', Some(DelPublish(id)));
    hide Calls, SoftDeletion;
    SecondCalls(c, db, p, DelGet(id, owner, now), faults, db, Some(DelSoft(id, owner, now)));
    SecondCalls(c, db, p, DelSoft(id, owner, now), faults, db', Some(DelPublish(id)));
  }

  lemma Deletes(c: Config, db: Db, p: Option<Pc>, faults: seq<Fault>, id: Id, owner: User, now: Time)
    requires c.broker && ValidUserID(owner) && Reached(c, Sys(db, p, None), faults)
    requires FindActive(db.avatars, id).Ok? && db.avatars[id].user == owner
    ensures Reached(c, Sys(Deletion(db, id, now), p, None), faults)
  {
    hide Reached, ValidUserID, Sys;
    SoftDeletes(c, db, p, faults, id, owner, now);
    SecondCalls(c, SoftDeletion(db, id, now), p, DelPublish(id), faults, Deletion(db, id, now), None);
  }

  lemma RemovalCalls(c: Config, db: Db, id: Id)
    requires id in db.avatars
    requires var a := db.avatars[id]; a.thumb100Key == a.thumb300Key == NoKey && a.originalKey != NoKey
    ensures var key := db.avatars[id].originalKey;
            && Calls(c, db, DhGet(id), Fine, db, Some(DhDel(id, [key])))
            && Calls(c, db, DhDel(id, [key]), Fine, db.(objects := db.objects - {key}), Some(DhDel(id, [])))
  {
    var key := db.avatars[id].originalKey;
    KeysInOrder(db.avatars[id]);
    assert KeysOf(db.avatars[id]) == [key];
    assert [key][1..] == [];
  }

  /** A delete handler that finds only the original listed. */
  lemma OriginalRemoved(c: Config, db: Db, p: Option<Pc>, faults: seq<Fault>, id: Id)
    requires Reached(c, Sys(db, p, Some(DhGet(id))), faults) && id in db.avatars
    requires var a := db.avatars[id]; a.thumb100Key == a.thumb300Key == NoKey && a.originalKey != NoKey
    ensures Reached(c, Sys(db.(objects := db.objects - {db.avatars[id].originalKey}), p, None), faults)
  {
    var key := db.avatars[id].originalKey;
    var db' := db.(objects := db.objects - {key});
    hide Reached, KeysOf, Sys, Calls;
    RemovalCalls(c, db, id);
    SecondCalls(c, db, p, DhGet(id), faults, db, Some(DhDel(id, [key])));
    SecondCalls(c, db, p, DhDel(id, [key]), faults, db', Some(DhDel(id, [])));
    NothingToDelete(c, db', id);
    SecondCalls(c, db', p, DhDel(id, []), faults, db', None);
  }

  lemma NothingToDelete(c: Config, db: Db, id: Id)
    ensures Calls(c, db, DhDel(id, []), Fine, db, None)
  {
  }

  /** An avatar an upload handler has work with. */
  predicate Ready(c: Config, db: Db, id: Id) {
    && FindActive(db.avatars, id).Ok?
    && db.avatars[id].status != Completed
    && db.avatars[id].originalKey in db.objects
    && Thumbnailable(c, db.objects[db.avatars[id].originalKey].data)
  }

  function Writing(c: Config, id: Id, data: Bytes): Pc
    requires Thumbnailable(c, data)
  {
    UhPut100(id, c.thumbnail(data, Size100).value, c.thumbnail(data, Size300).value)
  }

  /** An upload handler gets ready to store the thumbnails. */
  lemma OriginalRead(c: Config, db: Db, q: Option<Pc>, faults: seq<Fault>, id: Id)
    requires Reached(c, Sys(db, Some(UhGet(id)), q), faults) && Ready(c, db, id)
    ensures var data := db.objects[db.avatars[id].originalKey].data;
            Reached(c, Sys(db, Some(Writing(c, id, data)), q), faults)
  {
    hide Reached, Sys;
    var key := db.avatars[id].originalKey;
    FirstCalls(c, db, UhGet(id), q, faults, db, Some(UhRead(id, key)));
    FirstCalls(c, db, UhRead(id, key), q, faults, db, Some(Writing(c, id, db.objects[key].data)));
  }

  function Half(db: Db, pc: Pc): Db
    requires pc.UhPut100?
  {
    PutObject(db, Fine, Thumb100(pc.id), pc.thumb100, JpegMime())
  }

  function Stored(db: Db, pc: Pc): Db
    requires pc.UhPut100?
  {
    PutObject(Half(db, pc), Fine, Thumb300(pc.id), pc.thumb300, JpegMime())
  }

  function Finished(db: Db, pc: Pc): Db
    requires pc.UhPut100?
  {
    var db' := Stored(db, pc);
    db'.(avatars := Processed(db.avatars, pc.id, Thumb100(pc.id), Thumb300(pc.id)).0)
  }

  /** It stores and lists them, whether or not the avatar has been deleted meanwhile. */
  lemma Finishes(c: Config, db: Db, pc: Pc, q: Option<Pc>, faults: seq<Fault>)
    requires Reached(c, Sys(db, Some(pc), q), faults) && pc.UhPut100? && pc.id in db.avatars
    ensures Reached(c, Sys(Finished(db, pc), None, q), faults)
  {
    hide Reached, Sys;
    var half, stored := Half(db, pc), Stored(db, pc);
    FirstCalls(c, db, pc, q, faults, half, Some(UhPut300(pc.id, pc.thumb300)));
    FirstCalls(c, half, UhPut300(pc.id, pc.thumb300), q, faults, stored, Some(UhUpdate(pc.id)));
    FirstCalls(c, stored, UhUpdate(pc.id), q, faults, Finished(db, pc), None);
  }
}
