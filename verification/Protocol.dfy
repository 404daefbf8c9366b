/** The avatar lifecycle as a transition system.

    Every running Upload, DeleteByID, DeleteCurrentUserAvatar, UploadHandler.Handle and
    DeleteHandler.Handle is a process; each call to a store or to the broker is one atomic step.
    `Micro` is the program text of a process, one step at a time, with the outcome of the call as an
    input. `Do` interleaves any number of processes and adds what the broker may do. */
module Protocol {
  import opened Domain
  import opened Store

  /** `thumbnail` is ThumbnailJPEG seen from outside: deterministic, and partial. */
  datatype Config = Config(thumbnail: (Bytes, Size) -> Option<Bytes>, broker: bool)

  /** Both thumbnails of `data` can be generated. */
  predicate Thumbnailable(c: Config, data: Bytes) {
    c.thumbnail(data, Size100).Some? && c.thumbnail(data, Size300).Some?
  }

  datatype UploadInput = UploadInput(user: User, content: Bytes, mime: string)

  /** What happened so far; no step reads it.
      `inputs` what was uploaded under each identifier ever handed out; `published` identifiers whose
      upload event reached the broker; `succeeded` soft deletes that reported success; `announced`
      delete events handed to the broker. */
  datatype History = History(
    inputs: map<Id, UploadInput>,
    published: set<Id>,
    succeeded: multiset<Id>,
    announced: multiset<Id>)

  datatype Db = Db(avatars: Avatars, objects: Objects, uploads: multiset<Id>, deletes: multiset<Id>, history: History)

  /** Where a process stands: the call it makes next, and the locals it still needs. */
  datatype Pc =
    // AvatarService.Upload
    | UpPut(id: Id, input: UploadInput, now: Time)
    | UpCreate(id: Id, input: UploadInput, now: Time)
    | UpPublish(id: Id)
    | UpMark(id: Id)
    // AvatarService.DeleteCurrentUserAvatar
    | CurList(owner: User, now: Time)
    | CurScan(owner: User, now: Time, items: seq<Avatar>)
    // AvatarService.DeleteByID
    | DelGet(id: Id, owner: User, now: Time)
    | DelSoft(id: Id, owner: User, now: Time)
    | DelPublish(id: Id)
    // UploadHandler.Handle
    | UhGet(id: Id)
    | UhRead(id: Id, key: Key)
    | UhPut100(id: Id, thumb100: Bytes, thumb300: Bytes)
    | UhPut300(id: Id, thumb300: Bytes)
    | UhUpdate(id: Id)
    | UhFail(id: Id, error: Error)
    // DeleteHandler.Handle
    | DhGet(id: Id)
    | DhDel(id: Id, keys: seq<Key>)
  {
    predicate Uploading() { UpPut? || UpCreate? || UpPublish? || UpMark? }

    predicate UploadHandler() { UhGet? || UhRead? || UhPut100? || UhPut300? || UhUpdate? || UhFail? }

    predicate DeleteHandler() { DhGet? || DhDel? }

    predicate Handler() { UploadHandler() || DeleteHandler() }
  }

  /** How the next call ends and, for a listing, in which order it comes. */
  datatype Choice = Choice(outcome: Outcome, listing: seq<Avatar>)

  datatype Next = Go(pc: Pc) | Return(err: Option<Error>)

  function JpegMime(): string { "image/jpeg" }

  function NewAvatar(id: Id, input: UploadInput, now: Time): Avatar {
    Avatar(id, input.user, OriginalKeyOf(id, input), NoKey, NoKey, true, false, false, Processing, now, None)
  }

  function OriginalKeyOf(id: Id, input: UploadInput): Key {
    Original(id, ExtForMime(input.mime))
  }

  function NonEmpty(keys: seq<Key>): (r: seq<Key>)
    ensures forall k :: k in r <==> k in keys && k != NoKey
  {
    if keys == [] then []
    else (if keys[0] == NoKey then [] else [keys[0]]) + NonEmpty(keys[1..])
  }

  /** The keys a delete handler removes. */
  function KeysOf(a: Avatar): seq<Key> {
    NonEmpty([a.originalKey, a.thumb100Key, a.thumb300Key])
  }

  function Unless(k: Key): seq<Key> {
    if k == NoKey then [] else [k]
  }

  /** The original, then the small and then the large thumbnail, each unless its key is empty. */
  lemma KeysInOrder(a: Avatar)
    ensures KeysOf(a) == Unless(a.originalKey) + Unless(a.thumb100Key) + Unless(a.thumb300Key)
  {
    assert [a.originalKey, a.thumb100Key, a.thumb300Key] == [a.originalKey] + [a.thumb100Key, a.thumb300Key];
    assert [a.thumb100Key, a.thumb300Key] == [a.thumb100Key] + [a.thumb300Key];
    assert [a.thumb300Key] == [a.thumb300Key] + [];
    NonEmptyCons(a.originalKey, [a.thumb100Key, a.thumb300Key]);
    NonEmptyCons(a.thumb100Key, [a.thumb300Key]);
    NonEmptyCons(a.thumb300Key, []);
  }

  lemma NonEmptyCons(k: Key, keys: seq<Key>)
    ensures NonEmpty([k] + keys) == Unless(k) + NonEmpty(keys)
  {
    assert ([k] + keys)[1..] == keys;
  }

  function PutObject(db: Db, o: Outcome, key: Key, data: Bytes, mime: string): Db {
    db.(objects := Effect(o, db.objects, db.objects[key := Object(data, mime)]))
  }

  /** Continue if the call succeeded. */
  function Then(o: Outcome, pc: Pc): Next {
    if o.Fine? then Go(pc) else Return(Some(Dependency))
  }

  /** One call of a process: its effect on the stores, and how the process goes on. */
  function Micro(c: Config, db: Db, pc: Pc, ch: Choice): (Db, Next) {
    var o := ch.outcome;
    match pc
    case UpPut(id, input, now) =>
      (PutObject(db, o, OriginalKeyOf(id, input), input.content, input.mime), Then(o, UpCreate(id, input, now)))
    case UpCreate(id, input, now) =>
      (db.(avatars := Effect(o, db.avatars, db.avatars[id := NewAvatar(id, input, now)])),
       if c.broker then Then(o, UpPublish(id)) else Return(Ending(o, None)))
    case UpPublish(id) =>
      (db.(uploads := Effect(o, db.uploads, db.uploads + multiset{id}),
           history := db.history.(published := Effect(o, db.history.published, db.history.published + {id}))),
       if o.Fine? then Return(None) else Go(UpMark(id)))
    case UpMark(id) =>
      (db.(avatars := Effect(o, db.avatars, MarkedFailed(db.avatars, id).0)), Return(None))

    case CurList(owner, now) =>
      (db, Then(o, CurScan(owner, now, ch.listing)))
    case CurScan(owner, now, items) =>
      (db,
       if items == [] then Return(Some(NotFound))
       else if !items[0].originalAvailable then Go(CurScan(owner, now, items[1..]))
       else if !o.Fine? then Return(Some(Dependency))
       else if items[0].originalKey in db.objects then Go(DelGet(items[0].id, owner, now))
       else Go(CurScan(owner, now, items[1..])))

    case DelGet(id, owner, now) =>
      (db,
       if !o.Fine? then Return(Some(Dependency))
       else match FindActive(db.avatars, id)
         case Err(e) => Return(Some(e))
         case Ok(a) => if a.user != owner then Return(Some(Forbidden)) else Go(DelSoft(id, owner, now)))
    case DelSoft(id, owner, now) =>
      var (deleted, err) := SoftDeleted(db.avatars, id, now);
      var ending := Ending(o, err);
      (db.(avatars := Effect(o, db.avatars, deleted),
           history := db.history.(
             succeeded := db.history.succeeded + if ending.None? then multiset{id} else multiset{})),
       if ending.Some? then Return(ending) else if c.broker then Go(DelPublish(id)) else Return(None))
    case DelPublish(id) =>
      (db.(deletes := Effect(o, db.deletes, db.deletes + multiset{id}),
           history := db.history.(announced := db.history.announced + multiset{id})),
       Return(None))

    case UhGet(id) =>
      (db,
       if !o.Fine? then Return(Some(Dependency))
       else match FindActive(db.avatars, id)
         case Err(_) => Return(None)
         case Ok(a) =>
           if a.status == Completed && a.thumb100Available && a.thumb300Available then Return(None)
           else Go(UhRead(id, a.originalKey)))
    case UhRead(id, key) =>
      (db,
       if !o.Fine? then Go(UhFail(id, Dependency))
       else if key !in db.objects then Go(UhFail(id, ObjectNotFound))
       else
         var data := db.objects[key].data;
         match (c.thumbnail(data, Size100), c.thumbnail(data, Size300))
         case (Some(t100), Some(t300)) => Go(UhPut100(id, t100, t300))
         case _ => Go(UhFail(id, ThumbnailFailed)))
    case UhPut100(id, thumb100, thumb300) =>
      (PutObject(db, o, Thumb100(id), thumb100, JpegMime()),
       Go(if o.Fine? then UhPut300(id, thumb300) else UhFail(id, Dependency)))
    case UhPut300(id, thumb300) =>
      (PutObject(db, o, Thumb300(id), thumb300, JpegMime()),
       Go(if o.Fine? then UhUpdate(id) else UhFail(id, Dependency)))
    case UhUpdate(id) =>
      var (processed, err) := Processed(db.avatars, id, Thumb100(id), Thumb300(id));
      (db.(avatars := Effect(o, db.avatars, processed)), Return(Ending(o, err)))
    case UhFail(id, error) =>
      (db.(avatars := Effect(o, db.avatars, Processed(db.avatars, id, NoKey, NoKey).0)), Return(Some(error)))

    case DhGet(id) =>
      (db,
       if !o.Fine? || id !in db.avatars then Return(None)
       else Go(DhDel(id, KeysOf(db.avatars[id]))))
    case DhDel(id, keys) =>
      if keys == [] then (db, Return(None))
      else
        (db.(objects := Effect(o, db.objects, db.objects - {keys[0]})), Then(o, DhDel(id, keys[1..])))
  }

  /** The order of a listing is free, its contents are not. */
  ghost predicate Possible(db: Db, pc: Pc, ch: Choice) {
    pc.CurList? && ch.outcome.Fine? ==> IsListing(db.avatars, pc.owner, ch.listing)
  }

  // ---------------------------------------------------------------------------------------
  // Interleavings
  // ---------------------------------------------------------------------------------------

  type Pid = nat

  datatype State = State(db: Db, procs: map<Pid, Pc>)

  /** `Advance` makes the next call of a process; when a handler returns, its delivery is
      acknowledged or, if it failed or the acknowledgement is lost, queued again. `Redeliver` is the
      broker queueing a delivery again while its handler runs. `Crash` stops a process anywhere
      between two calls. */
  datatype Step =
    | StartUpload(pid: Pid, id: Id, input: UploadInput, now: Time)
    | StartDelete(pid: Pid, id: Id, owner: User, now: Time)
    | StartDeleteCurrent(pid: Pid, owner: User, now: Time)
    | DeliverUpload(pid: Pid, id: Id)
    | DeliverDelete(pid: Pid, id: Id)
    | Advance(pid: Pid, choice: Choice, ackLost: bool)
    | Redeliver(pid: Pid)
    | Crash(pid: Pid)

  function Init(): State {
    State(Db(map[], map[], multiset{}, multiset{}, History(map[], {}, multiset{}, multiset{})), map[])
  }

  /** Identifiers are fresh and contain no slash; a request that fails validation starts nothing. */
  ghost predicate Enabled(s: State, step: Step) {
    match step
    case StartUpload(pid, id, input, now) =>
      pid !in s.procs && id !in s.db.history.inputs && '/' !in id && ValidUserID(input.user)
    case StartDelete(pid, id, owner, now) => pid !in s.procs && ValidUserID(owner)
    case StartDeleteCurrent(pid, owner, now) => pid !in s.procs && ValidUserID(owner)
    case DeliverUpload(pid, id) => pid !in s.procs && id in s.db.uploads
    case DeliverDelete(pid, id) => pid !in s.procs && id in s.db.deletes
    case Advance(pid, ch, ackLost) => pid in s.procs && Possible(s.db, s.procs[pid], ch)
    case Redeliver(pid) => pid in s.procs && s.procs[pid].Handler()
    case Crash(pid) => pid in s.procs
  }

  /** Puts the delivery a handler works on back into its queue. */
  function Requeue(db: Db, pc: Pc): Db {
    if pc.UploadHandler() then db.(uploads := db.uploads + multiset{pc.id})
    else if pc.DeleteHandler() then db.(deletes := db.deletes + multiset{pc.id})
    else db
  }

  function Do(c: Config, s: State, step: Step): State
    requires Enabled(s, step)
  {
    match step
    case StartUpload(pid, id, input, now) =>
      State(s.db.(history := s.db.history.(inputs := s.db.history.inputs[id := input])),
            s.procs[pid := UpPut(id, input, now)])
    case StartDelete(pid, id, owner, now) => s.(procs := s.procs[pid := DelGet(id, owner, now)])
    case StartDeleteCurrent(pid, owner, now) => s.(procs := s.procs[pid := CurList(owner, now)])
    case DeliverUpload(pid, id) =>
      State(s.db.(uploads := s.db.uploads - multiset{id}), s.procs[pid := UhGet(id)])
    case DeliverDelete(pid, id) =>
      State(s.db.(deletes := s.db.deletes - multiset{id}), s.procs[pid := DhGet(id)])
    case Advance(pid, ch, ackLost) =>
      var pc := s.procs[pid];
      var (db, next) := Micro(c, s.db, pc, ch);
      (match next
       case Go(pc') => State(db, s.procs[pid := pc'])
       case Return(err) =>
         State(if err.Some? || ackLost then Requeue(db, pc) else db, s.procs - {pid}))
    case Redeliver(pid) => s.(db := Requeue(s.db, s.procs[pid]))
    case Crash(pid) => State(Requeue(s.db, s.procs[pid]), s.procs - {pid})
  }

  lemma AdvanceShape(c: Config, s: State, pid: Pid, ch: Choice, ackLost: bool)
    requires Enabled(s, Advance(pid, ch, ackLost))
    ensures var s' := Do(c, s, Advance(pid, ch, ackLost));
            var pc := s.procs[pid];
            var (db', next) := Micro(c, s.db, pc, ch);
            && (next.Go? ==> s' == State(db', s.procs[pid := next.pc]))
            && (next.Return? ==> s'.procs == s.procs - {pid} && (s'.db == db' || s'.db == Requeue(db', pc)))
            && (next.Return? && next.err.Some? ==> s'.db == Requeue(db', pc))
  {
    hide Micro, Requeue;
  }

  /** A run: each state follows from the one before by the step in between. */
  ghost predicate IsRun(c: Config, states: seq<State>, steps: seq<Step>) {
    && |states| == |steps| + 1
    && states[0] == Init()
    && forall i {:trigger steps[i]} :: 0 <= i < |steps| ==>
         Enabled(states[i], steps[i]) && states[i + 1] == Do(c, states[i], steps[i])
  }

  lemma RunStep(c: Config, states: seq<State>, steps: seq<Step>, i: nat)
    requires IsRun(c, states, steps) && i < |steps|
    ensures |states| == |steps| + 1
    ensures Enabled(states[i], steps[i]) && states[i + 1] == Do(c, states[i], steps[i])
  {
    hide Do, Enabled;
  }

  /** A call moves one process; the others stay where they are. */
  lemma OnlyCallerMoves(c: Config, s: State, step: Step)
    requires Enabled(s, step) && step.Advance?
    ensures var (s', next) := (Do(c, s, step), Micro(c, s.db, s.procs[step.pid], step.choice).1);
            && (forall p :: p in s.procs && p != step.pid ==> p in s'.procs && s'.procs[p] == s.procs[p])
            && (forall p :: p in s'.procs && p != step.pid ==> p in s.procs)
            && (step.pid in s'.procs ==> next.Go? && s'.procs[step.pid] == next.pc)
  {
    AdvanceShape(c, s, step.pid, step.choice, step.ackLost);
    hide Do, Micro;
  }
}
