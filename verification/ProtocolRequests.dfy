/** What the records owe to the requests: every record was made by an upload request and carries its user
    and its time, and every deletion was asked for by the uploader. */
module ProtocolRequests {
  import opened Domain
  import opened Store
  import opened Protocol
  import opened ProtocolSafety
  import opened ProtocolTheorems
  import opened ProtocolPublished

  /** A process that still holds what was asked for. */
  predicate Asking(pc: Pc) {
    pc.UpPut? || pc.UpCreate? || pc.CurList? || pc.CurScan? || pc.DelGet? || pc.DelSoft?
  }

  /** The request that `pc` works on. */
  predicate AsksFor(step: Step, pc: Pc)
    requires Asking(pc)
  {
    match pc
    case UpPut(id, input, now) => step.StartUpload? && step.id == id && step.input == input && step.now == now
    case UpCreate(id, input, now) => step.StartUpload? && step.id == id && step.input == input && step.now == now
    case CurList(owner, now) => step.StartDeleteCurrent? && step.owner == owner && step.now == now
    case CurScan(owner, now, _) => step.StartDeleteCurrent? && step.owner == owner && step.now == now
    case DelGet(id, owner, now) => AsksToDelete(step, id, owner, now)
    case DelSoft(id, owner, now) => AsksToDelete(step, id, owner, now)
  }

  /** A request by `owner` at time `now` to delete this avatar, or the current one. */
  predicate AsksToDelete(step: Step, id: Id, owner: User, now: Time) {
    || (step.StartDelete? && step.id == id && step.owner == owner && step.now == now)
    || (step.StartDeleteCurrent? && step.owner == owner && step.now == now)
  }

  /** The upload that a record was made for. */
  predicate AsksToMake(step: Step, a: Avatar) {
    && step.StartUpload? && step.id == a.id && step.now == a.createdAt
    && step.input.user == a.user && OriginalKeyOf(a.id, step.input) == a.originalKey
  }

  /** A deletion by the record's owner, at the time it bears. */
  predicate AsksToEnd(step: Step, a: Avatar) {
    a.deletedAt.Some? && AsksToDelete(step, a.id, a.user, a.deletedAt.value)
  }

  ghost predicate ProcsAskedFor(steps: seq<Step>, procs: map<Pid, Pc>) {
    forall p :: p in procs && Asking(procs[p]) ==> exists k :: 0 <= k < |steps| && AsksFor(steps[k], procs[p])
  }

  ghost predicate RecordAskedFor(steps: seq<Step>, a: Avatar) {
    && (exists k :: 0 <= k < |steps| && AsksToMake(steps[k], a))
    && (!a.Live() ==> exists k :: 0 <= k < |steps| && AsksToEnd(steps[k], a))
  }

  ghost predicate RecordsAskedFor(steps: seq<Step>, m: Avatars) {
    forall id :: id in m ==> RecordAskedFor(steps, m[id])
  }

  // One call

  /** Going on, a process works on the same request, and nothing else becomes a request. */
  lemma SameRequest(c: Config, db: Db, pc: Pc, ch: Choice)
    ensures var next := Micro(c, db, pc, ch).1;
            next.Go? && Asking(next.pc) ==>
              Asking(pc) && forall step :: AsksFor(step, pc) ==> AsksFor(step, next.pc)
  {
    hide KeysOf;
  }

  /** A record is as it was, but for its variants and its status, or it is what the caller was asked for. */
  ghost predicate RecordFrom(m: Avatars, pc: Pc, id: Id, a: Avatar) {
    || (id in m && SameIdentity(m[id], a) && m[id].deletedAt == a.deletedAt)
    || (pc.UpCreate? && a == NewAvatar(pc.id, pc.input, pc.now))
    || (pc.DelSoft? && pc.id == id && id in m && a == m[id].(deletedAt := Some(pc.now)))
  }

  lemma CallMakes(c: Config, db: Db, pc: Pc, ch: Choice, id: Id)
    requires id in Micro(c, db, pc, ch).0.avatars
    ensures RecordFrom(db.avatars, pc, id, Micro(c, db, pc, ch).0.avatars[id])
  {
    hide KeysOf, FindActive;
  }

  lemma CallerKnows(c: Config, db: Db, pc: Pc, id: Id)
    requires DbInv(c, db) && PcInv(c, db, pc)
    ensures id in db.avatars ==> db.avatars[id].id == id
    ensures pc.DelSoft? ==> pc.id in db.avatars && db.avatars[pc.id].user == pc.owner
  {
    assert id in db.avatars ==> RecordOk(db.history.inputs, id, db.avatars[id]);
    hide DbInv;
  }

  lemma MadeAsAsked(m: Avatars, pc: Pc, id: Id, a: Avatar, steps: seq<Step>)
    requires Asking(pc) ==> exists k :: 0 <= k < |steps| && AsksFor(steps[k], pc)
    requires id in m ==> m[id].id == id && RecordAskedFor(steps, m[id])
    requires pc.DelSoft? && pc.id == id ==> id in m && m[id].user == pc.owner
    requires RecordFrom(m, pc, id, a)
    ensures RecordAskedFor(steps, a)
  {
    hide RecordAskedFor, AsksFor, SameIdentity;
    if id in m && SameIdentity(m[id], a) && m[id].deletedAt == a.deletedAt {
      RecordStays(steps, m[id], a);
    } else {
      var k :| 0 <= k < |steps| && AsksFor(steps[k], pc);
      if pc.UpCreate? && a == NewAvatar(pc.id, pc.input, pc.now) {
        CreatedAsAsked(steps, k, pc, a);
      } else {
        EndedAsAsked(steps, k, pc, m[id], a);
      }
    }
  }

  lemma CreatedAsAsked(steps: seq<Step>, k: nat, pc: Pc, a: Avatar)
    requires k < |steps| && pc.UpCreate? && AsksFor(steps[k], pc) && a == NewAvatar(pc.id, pc.input, pc.now)
    ensures RecordAskedFor(steps, a)
  {
    assert AsksToMake(steps[k], a);
  }

  lemma EndedAsAsked(steps: seq<Step>, k: nat, pc: Pc, a: Avatar, b: Avatar)
    requires k < |steps| && pc.DelSoft? && AsksFor(steps[k], pc) && RecordAskedFor(steps, a)
    requires a.id == pc.id && a.user == pc.owner && b == a.(deletedAt := Some(pc.now))
    ensures RecordAskedFor(steps, b)
  {
    var l :| 0 <= l < |steps| && AsksToMake(steps[l], a);
    assert AsksToMake(steps[l], b) && AsksToEnd(steps[k], b);
  }

  lemma RecordStays(steps: seq<Step>, a: Avatar, b: Avatar)
    requires RecordAskedFor(steps, a) && SameIdentity(a, b) && b.deletedAt == a.deletedAt
    ensures RecordAskedFor(steps, b)
  {
    var k :| 0 <= k < |steps| && AsksToMake(steps[k], a);
    assert AsksToMake(steps[k], b);
    if !a.Live() {
      var l :| 0 <= l < |steps| && AsksToEnd(steps[l], a);
      assert AsksToEnd(steps[l], b);
    }
  }

  lemma MoreSteps(steps: seq<Step>, step: Step, procs: map<Pid, Pc>, m: Avatars)
    ensures ProcsAskedFor(steps, procs) ==> ProcsAskedFor(steps + [step], procs)
    ensures RecordsAskedFor(steps, m) ==> RecordsAskedFor(steps + [step], m)
  {
    forall k | 0 <= k < |steps|
      ensures (steps + [step])[k] == steps[k]
    {
    }
    forall p | p in procs && Asking(procs[p]) && exists k :: 0 <= k < |steps| && AsksFor(steps[k], procs[p])
      ensures exists k :: 0 <= k < |steps + [step]| && AsksFor((steps + [step])[k], procs[p])
    {
      var k :| 0 <= k < |steps| && AsksFor(steps[k], procs[p]);
      assert AsksFor((steps + [step])[k], procs[p]);
    }
    forall id | id in m && RecordAskedFor(steps, m[id])
      ensures RecordAskedFor(steps + [step], m[id])
    {
      MoreForRecord(steps, step, m[id]);
    }
    hide AsksFor, RecordAskedFor;
  }

  lemma MoreForRecord(steps: seq<Step>, step: Step, a: Avatar)
    requires RecordAskedFor(steps, a)
    ensures RecordAskedFor(steps + [step], a)
  {
    hide AsksToMake, AsksToEnd;
    var more := steps + [step];
    var k :| 0 <= k < |steps| && AsksToMake(steps[k], a);
    assert AsksToMake(more[k], a);
    if !a.Live() {
      var l :| 0 <= l < |steps| && AsksToEnd(steps[l], a);
      assert AsksToEnd(more[l], a);
    }
  }

  // One step

  lemma CallAskedFor(c: Config, s: State, step: Step, steps: seq<Step>)
    requires Inv(c, s) && Enabled(s, step) && step.Advance?
    requires ProcsAskedFor(steps, s.procs) && RecordsAskedFor(steps, s.db.avatars)
    ensures ProcsAskedFor(steps, Do(c, s, step).procs) && RecordsAskedFor(steps, Do(c, s, step).db.avatars)
  {
    var pc, s' := s.procs[step.pid], Do(c, s, step);
    assert PcInv(c, s.db, pc) && DbInv(c, s.db);
    hide Inv, DbInv, PcInv, Do, Micro, Enabled, AsksFor, RecordFrom, RecordAskedFor;
    OnlyCallerMoves(c, s, step);
    SameRequest(c, s.db, pc, step.choice);
    StepEffect(c, s, step);
    forall id | id in s'.db.avatars
      ensures RecordAskedFor(steps, s'.db.avatars[id])
    {
      CallMakes(c, s.db, pc, step.choice, id);
      CallerKnows(c, s.db, pc, id);
      MadeAsAsked(s.db.avatars, pc, id, s'.db.avatars[id], steps);
    }
  }

  lemma OtherAskedFor(c: Config, s: State, step: Step, steps: seq<Step>)
    requires Enabled(s, step) && !step.Advance?
    requires ProcsAskedFor(steps, s.procs) && RecordsAskedFor(steps, s.db.avatars)
    ensures ProcsAskedFor(steps + [step], Do(c, s, step).procs)
    ensures RecordsAskedFor(steps + [step], Do(c, s, step).db.avatars)
  {
    var s', more := Do(c, s, step), steps + [step];
    MoreSteps(steps, step, s.procs, s.db.avatars);
    OtherStepEffect(c, s, step);
    assert more[|steps|] == step;
    forall p | p in s'.procs && Asking(s'.procs[p])
      ensures exists k :: 0 <= k < |more| && AsksFor(more[k], s'.procs[p])
    {
      StartsAsAsked(c, s, step, p);
    }
    hide Do, Enabled, RecordAskedFor, AsksFor;
  }

  /** A process that starts is asked for by the step that starts it. */
  lemma StartsAsAsked(c: Config, s: State, step: Step, p: Pid)
    requires Enabled(s, step) && !step.Advance? && p in Do(c, s, step).procs && Asking(Do(c, s, step).procs[p])
    ensures var pc := Do(c, s, step).procs[p]; (p in s.procs && s.procs[p] == pc) || AsksFor(step, pc)
  {
    hide Requeue;
  }

  lemma NothingAskedFor(c: Config, states: seq<State>, steps: seq<Step>)
    requires IsRun(c, states, steps)
    ensures ProcsAskedFor(steps[..0], states[0].procs) && RecordsAskedFor(steps[..0], states[0].db.avatars)
  {
    assert states[0] == Init();
    hide IsRun;
  }

  lemma {:induction false} RunAskedFor(c: Config, states: seq<State>, steps: seq<Step>, i: nat)
    requires IsRun(c, states, steps) && i <= |steps|
    ensures ProcsAskedFor(steps[..i], states[i].procs) && RecordsAskedFor(steps[..i], states[i].db.avatars)
  {
    hide *;
    if i == 0 {
      NothingAskedFor(c, states, steps);
    } else {
      assert steps[..i] == steps[..i - 1] + [steps[i - 1]];
      RunAskedFor(c, states, steps, i - 1);
      RunKeeps(c, states, steps, i - 1);
      RunStep(c, states, steps, i - 1);
      var s, step, past := states[i - 1], steps[i - 1], steps[..i - 1];
      if step.Advance? {
        CallAskedFor(c, s, step, past);
        MoreSteps(past, step, states[i].procs, states[i].db.avatars);
      } else {
        OtherAskedFor(c, s, step, past);
      }
    }
  }

  // Over runs

  /** Every record was made by an upload request, and carries its identifier, user and time. */
  lemma MadeOnRequest(c: Config, states: seq<State>, steps: seq<Step>, i: nat, id: Id) returns (k: nat)
    requires IsRun(c, states, steps) && i <= |steps| && id in states[i].db.avatars
    ensures k < i && AsksToMake(steps[k], states[i].db.avatars[id]) && states[i].db.avatars[id].id == id
  {
    RunKeeps(c, states, steps, i);
    assert RecordOk(states[i].db.history.inputs, id, states[i].db.avatars[id]);
    RunAskedFor(c, states, steps, i);
    hide Inv, IsRun, AsksToMake, RecordOk;
    assert RecordAskedFor(steps[..i], states[i].db.avatars[id]);
    k :| 0 <= k < i && AsksToMake(steps[..i][k], states[i].db.avatars[id]);
  }

  /** Every deletion was asked for by the uploader, by name or as the current avatar, at the time recorded. */
  lemma DeletedOnRequest(c: Config, states: seq<State>, steps: seq<Step>, i: nat, id: Id) returns (k: nat)
    requires IsRun(c, states, steps) && i <= |steps| && Deleted(states[i].db.avatars, id)
    ensures k < i && id in states[i].db.history.inputs
    ensures AsksToDelete(steps[k], id, states[i].db.history.inputs[id].user, states[i].db.avatars[id].deletedAt.value)
  {
    RunKeeps(c, states, steps, i);
    assert RecordOk(states[i].db.history.inputs, id, states[i].db.avatars[id]);
    RunAskedFor(c, states, steps, i);
    hide Inv, IsRun, AsksToMake, AsksToDelete;
    assert RecordAskedFor(steps[..i], states[i].db.avatars[id]);
    k :| 0 <= k < i && AsksToEnd(steps[..i][k], states[i].db.avatars[id]);
  }

  lemma {:induction false} InputsStay(c: Config, states: seq<State>, steps: seq<Step>, i: nat, j: nat, id: Id)
    requires IsRun(c, states, steps) && i < j <= |steps| && steps[i].StartUpload? && steps[i].id == id
    ensures id in states[j].db.history.inputs && states[j].db.history.inputs[id] == steps[i].input
    decreases j
  {
    hide *;
    RunStep(c, states, steps, j - 1);
    if i == j - 1 {
      InputAdded(c, states[i], steps[i]);
    } else {
      InputsStay(c, states, steps, i, j - 1, id);
      InputsKeptByStep(c, states[j - 1], steps[j - 1], id);
    }
  }

  lemma InputAdded(c: Config, s: State, step: Step)
    requires Enabled(s, step) && step.StartUpload?
    ensures var inputs := Do(c, s, step).db.history.inputs; step.id in inputs && inputs[step.id] == step.input
  {
  }

  lemma InputsKeptByStep(c: Config, s: State, step: Step, id: Id)
    requires Enabled(s, step) && id in s.db.history.inputs
    ensures var inputs := Do(c, s, step).db.history.inputs; id in inputs && inputs[id] == s.db.history.inputs[id]
  {
    if step.Advance? {
      CallKeepsInputs(c, s.db, s.procs[step.pid], step.choice);
      AdvanceShape(c, s, step.pid, step.choice, step.ackLost);
      hide Micro, Do;
    } else {
      hide Micro;
    }
  }

  lemma CallKeepsInputs(c: Config, db: Db, pc: Pc, ch: Choice)
    ensures Micro(c, db, pc, ch).0.history.inputs == db.history.inputs
  {
    hide KeysOf;
  }

  /** An identifier is used for one upload only, so a record bears the time of the upload of that name. */
  lemma CreatedWhenUploaded(c: Config, states: seq<State>, steps: seq<Step>, i: nat, j: nat, id: Id)
    requires IsRun(c, states, steps) && i < j <= |steps| && steps[i].StartUpload? && steps[i].id == id
    requires id in states[j].db.avatars
    ensures var (a, input) := (states[j].db.avatars[id], steps[i].input);
            a.createdAt == steps[i].now && a.user == input.user && a.originalKey == OriginalKeyOf(id, input)
  {
    var k := MadeOnRequest(c, states, steps, j, id);
    RunStep(c, states, steps, i);
    RunStep(c, states, steps, k);
    if i < k {
      InputsStay(c, states, steps, i, k, id);
    } else if k < i {
      InputsStay(c, states, steps, k, i, id);
    }
    hide Do, IsRun;
  }
}
