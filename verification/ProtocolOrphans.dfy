/** No orphans: a soft-deleted avatar has no object left once the delete events are handled, in
    whatever order upload and delete events arrived. Any number of runners, redeliveries, failing calls
    and crashes, except where that would lose a deletion or the key of a stored thumbnail. */
module ProtocolOrphans {
  import opened Domain
  import opened Store
  import opened Protocol
  import opened ProtocolSafety
  import opened ProtocolPublished
  import opened ProtocolCompleted

  /** What a run may be asked to keep to.
      `apart`: a delete event is taken only when no upload handler of that avatar is past its check.
      `found`: a delete handler whose lookup fails had nothing to delete. `announced`: a soft delete that
      took effect is followed by its event. `listed`: an upload handler that gives up or crashes past its
      check leaves every stored thumbnail of its avatar listed in the record. */
  datatype Conditions = Conditions(apart: bool, found: bool, announced: bool, listed: bool)

  const STRICT := Conditions(true, true, true, true)

  predicate Lists100(m: Avatars, id: Id) {
    id in m && m[id].thumb100Key == Thumb100(id)
  }

  predicate Lists300(m: Avatars, id: Id) {
    id in m && m[id].thumb300Key == Thumb300(id)
  }

  /** Every stored thumbnail of `id` is listed in its record. */
  predicate AllListed(db: Db, id: Id) {
    && (Thumb100(id) in db.objects ==> Lists100(db.avatars, id))
    && (Thumb300(id) in db.objects ==> Lists300(db.avatars, id))
  }

  predicate Empty(objects: Objects, id: Id) {
    forall k :: k in objects ==> !k.OwnedBy(id)
  }

  ghost predicate DeletesApart(s: State, step: Step) {
    step.DeliverDelete? ==> forall p :: p in s.procs && PastCheck(s.procs[p]) ==> s.procs[p].id != step.id
  }

  /** A call fails, or a handler reports that one has failed. */
  predicate GivesUp(pc: Pc, o: Outcome) {
    !o.Fine? || (pc.UhFail? && pc.error == Dependency)
  }

  ghost predicate CallMeets(c: Config, k: Conditions, db: Db, pc: Pc, ch: Choice) {
    && (k.found && pc.DhGet? && !ch.outcome.Fine? ==> Empty(db.objects, pc.id))
    && (k.announced && pc.DelSoft? && LiveIn(db.avatars, pc.id) ==> !ch.outcome.Applied?)
    && (k.announced && pc.DelPublish? ==> !ch.outcome.Lost?)
    && (k.listed && PastCheck(pc) && GivesUp(pc, ch.outcome) ==>
          var (db', next) := Micro(c, db, pc, ch); next.Return? ==> AllListed(db', pc.id))
  }

  ghost predicate CrashMeets(k: Conditions, db: Db, pc: Pc) {
    && (k.announced ==> !pc.DelPublish?)
    && (k.listed && PastCheck(pc) ==> AllListed(db, pc.id))
  }

  ghost predicate Meets(c: Config, k: Conditions, s: State, step: Step) {
    && (k.apart ==> DeletesApart(s, step))
    && (step.Advance? && step.pid in s.procs ==> CallMeets(c, k, s.db, s.procs[step.pid], step.choice))
    && (step.Crash? && step.pid in s.procs ==> CrashMeets(k, s.db, s.procs[step.pid]))
  }

  ghost predicate Has(procs: map<Pid, Pc>, pc: Pc) {
    exists p :: p in procs && procs[p] == pc
  }

  /** A delete event for `id` is queued, or about to be. */
  ghost predicate Awaiting(s: State, id: Id) {
    id in s.db.deletes || Has(s.procs, DelPublish(id))
  }

  /** `pc` is about to delete all that is left of `id`. */
  predicate Removes(pc: Pc, objects: Objects, id: Id) {
    pc.DhDel? && pc.id == id && forall k :: k in objects && k.OwnedBy(id) ==> k in pc.keys
  }

  ghost predicate Removing(s: State, id: Id) {
    exists p :: p in s.procs && Removes(s.procs[p], s.db.objects, id)
  }

  /** Whatever is left of `id` will be found by a delete handler. */
  ghost predicate WillBeEmpty(s: State, id: Id) {
    Awaiting(s, id) || Has(s.procs, DhGet(id)) || Removing(s, id) || Empty(s.db.objects, id)
  }

  /** Stored thumbnails are listed, or a handler that will see to that is at work. */
  ghost predicate Listing(s: State, id: Id) {
    AllListed(s.db, id) || exists p :: p in s.procs && PastCheck(s.procs[p]) && s.procs[p].id == id
  }

  /** A handler past its check finds the original, and fails by itself only on an upload that has no
      thumbnails. */
  ghost predicate HandlerClean(c: Config, db: Db, pc: Pc) {
    && (pc.UhRead? ==> pc.key in db.objects && pc.key.OwnedBy(pc.id))
    && (pc.UhFail? && pc.error != Dependency ==> !Renders(c, db.history.inputs, pc.id))
  }

  /** No avatar has a delete handler and an upload handler past its check at the same time. */
  ghost predicate KeptApart(procs: map<Pid, Pc>) {
    forall p, q :: p in procs && q in procs && procs[p].DeleteHandler() && PastCheck(procs[q]) ==>
      procs[p].id != procs[q].id
  }

  ghost predicate OrphanInv(c: Config, s: State) {
    && Inv(c, s)
    && KeptApart(s.procs)
    && (forall p :: p in s.procs ==> HandlerClean(c, s.db, s.procs[p]))
    && (forall p :: p in s.procs && PastCheck(s.procs[p]) && Deleted(s.db.avatars, s.procs[p].id) ==>
          Awaiting(s, s.procs[p].id))
    && (forall id :: Listing(s, id))
    && (forall id :: Deleted(s.db.avatars, id) ==> WillBeEmpty(s, id))
  }

  // What a process may do when it is its turn: make its next call, or crash

  /** What a turn does to the objects. */
  ghost predicate ObjectsTurn(objects: Objects, objects': Objects, pc: Pc) {
    && (forall k :: k in objects' && k !in objects ==>
          || (pc.UpPut? && k.Original? && k.id == pc.id)
          || (pc.UhPut100? && k == Thumb100(pc.id))
          || (pc.UhPut300? && k == Thumb300(pc.id)))
    && (forall k :: k in objects && k !in objects' ==> pc.DhDel? && k.OwnedBy(pc.id))
  }

  /** No delete event goes away; a process that was about to publish one has done so; a delete handler
      goes on, or its event is queued again, or there is nothing to delete. */
  ghost predicate EventsTurn(db: Db, db': Db, pc: Pc, next: Option<Pc>) {
    && (forall id :: id in db.deletes ==> id in db'.deletes)
    && (pc.DelPublish? ==> pc.id in db'.deletes)
    && (pc.DhGet? ==>
          || pc.id in db'.deletes
          || (pc.id in db.avatars && next == Some(DhDel(pc.id, KeysOf(db.avatars[pc.id]))))
          || Empty(db'.objects, pc.id))
    && (pc.DhDel? && pc.keys != [] ==>
          || pc.id in db'.deletes
          || (next == Some(DhDel(pc.id, pc.keys[1..])) && db'.objects == db.objects - {pc.keys[0]}))
  }

  /** A handler past its check goes on, or leaves the thumbnails listed; nobody else touches them. */
  ghost predicate ThumbnailsTurn(db: Db, db': Db, pc: Pc, next: Option<Pc>) {
    forall id ::
      if PastCheck(pc) && pc.id == id then
        (next.Some? && PastCheck(next.value) && next.value.id == id) || AllListed(db', id)
      else AllListed(db, id) ==> AllListed(db', id)
  }

  /** A soft delete is about to be announced; a handler gets past its check only for a live avatar;
      nothing else becomes a delete handler. */
  ghost predicate RecordsTurn(c: Config, db: Db, db': Db, pc: Pc, next: Option<Pc>) {
    && (forall id :: Deleted(db'.avatars, id) && !Deleted(db.avatars, id) ==> next == Some(DelPublish(id)))
    && (next.Some? && PastCheck(next.value) ==>
          && db'.avatars == db.avatars
          && pc.UploadHandler() && next.value.id == pc.id
          && (PastCheck(pc) || LiveIn(db.avatars, pc.id)))
    && (next.Some? && next.value.DeleteHandler() ==> pc.DeleteHandler() && next.value.id == pc.id)
    && (next.Some? ==> HandlerClean(c, db', next.value))
    && db'.history.inputs == db.history.inputs
  }

  ghost predicate Turn(c: Config, db: Db, db': Db, pc: Pc, next: Option<Pc>) {
    && ObjectsTurn(db.objects, db'.objects, pc)
    && EventsTurn(db, db', pc, next)
    && ThumbnailsTurn(db, db', pc, next)
    && RecordsTurn(c, db, db', pc, next)
  }

  // Every call that meets the conditions is such a turn

  /** Where a call leaves the stores, its delivery queued again if it failed. */
  ghost predicate Lands(c: Config, db: Db, pc: Pc, ch: Choice, db': Db, next: Option<Pc>) {
    var (after, n) := Micro(c, db, pc, ch);
    && next == (if n.Go? then Some(n.pc) else None)
    && db' == after.(uploads := db'.uploads, deletes := db'.deletes)
    && (forall id :: id in after.deletes ==> id in db'.deletes)
    && (n.Return? && n.err.Some? && pc.DeleteHandler() ==> pc.id in db'.deletes)
  }

  ghost predicate CallTurns(c: Config, db: Db, pc: Pc, ch: Choice, db': Db, next: Option<Pc>) {
    && c.broker && DbInv(c, db) && PcInv(c, db, pc) && HandlerClean(c, db, pc)
    && CallMeets(c, STRICT, db, pc, ch) && Lands(c, db, pc, ch, db', next)
  }

  /** A turn that leaves records and objects alone, of a process that has no deletion to see to, and that
      remains past its check if it was. */
  lemma IdleTurn(db: Db, db': Db, pc: Pc, next: Option<Pc>)
    requires db'.objects == db.objects && db'.avatars == db.avatars
    requires forall id :: id in db.deletes ==> id in db'.deletes
    requires !pc.DelPublish? && !pc.DeleteHandler()
    requires PastCheck(pc) ==> next.Some? && PastCheck(next.value) && next.value.id == pc.id
    ensures ObjectsTurn(db.objects, db'.objects, pc)
    ensures EventsTurn(db, db', pc, next) && ThumbnailsTurn(db, db', pc, next)
  {
  }

  lemma UploadTurns(c: Config, db: Db, pc: Pc, ch: Choice, db': Db, next: Option<Pc>)
    requires CallTurns(c, db, pc, ch, db', next) && pc.UpPut?
    ensures Turn(c, db, db', pc, next)
  {
    hide DbInv, PcInv, KeysOf;
  }

  lemma CreateTurns(c: Config, db: Db, pc: Pc, ch: Choice, db': Db, next: Option<Pc>)
    requires CallTurns(c, db, pc, ch, db', next) && pc.UpCreate?
    ensures Turn(c, db, db', pc, next)
  {
    hide DbInv, KeysOf;
  }

  lemma PublishTurns(c: Config, db: Db, pc: Pc, ch: Choice, db': Db, next: Option<Pc>)
    requires CallTurns(c, db, pc, ch, db', next) && pc.UpPublish?
    ensures Turn(c, db, db', pc, next)
  {
    hide DbInv, PcInv;
    IdleTurn(db, db', pc, next);
    hide ObjectsTurn, EventsTurn, ThumbnailsTurn;
  }

  lemma MarkTurns(c: Config, db: Db, pc: Pc, ch: Choice, db': Db, next: Option<Pc>)
    requires CallTurns(c, db, pc, ch, db', next) && pc.UpMark?
    ensures Turn(c, db, db', pc, next)
  {
    hide DbInv, PcInv, KeysOf;
  }

  lemma ReaderTurns(c: Config, db: Db, pc: Pc, ch: Choice, db': Db, next: Option<Pc>)
    requires CallTurns(c, db, pc, ch, db', next) && (pc.CurList? || pc.CurScan? || pc.DelGet?)
    ensures Turn(c, db, db', pc, next)
  {
    hide DbInv, PcInv;
    assert db'.objects == db.objects && db'.avatars == db.avatars;
    IdleTurn(db, db', pc, next);
    hide ObjectsTurn, EventsTurn, ThumbnailsTurn;
  }

  lemma SoftDeleteTurns(c: Config, db: Db, pc: Pc, ch: Choice, db': Db, next: Option<Pc>)
    requires CallTurns(c, db, pc, ch, db', next) && pc.DelSoft?
    ensures Turn(c, db, db', pc, next)
  {
    hide DbInv, PcInv;
  }

  lemma AnnounceTurns(c: Config, db: Db, pc: Pc, ch: Choice, db': Db, next: Option<Pc>)
    requires CallTurns(c, db, pc, ch, db', next) && pc.DelPublish?
    ensures Turn(c, db, db', pc, next)
  {
    hide DbInv, PcInv;
  }

  lemma LiveIsBacked(c: Config, db: Db, id: Id)
    requires DbInv(c, db) && LiveIn(db.avatars, id)
    ensures db.avatars[id].originalKey in db.objects && db.avatars[id].originalKey.OwnedBy(id)
  {
    assert Backed(db.avatars[id], db.objects) && RecordOk(db.history.inputs, id, db.avatars[id]);
    hide DbInv;
  }

  lemma CheckTurns(c: Config, db: Db, pc: Pc, ch: Choice, db': Db, next: Option<Pc>)
    requires CallTurns(c, db, pc, ch, db', next) && pc.UhGet?
    ensures Turn(c, db, db', pc, next)
  {
    hide DbInv, PcInv, Micro;
    if LiveIn(db.avatars, pc.id) {
      LiveIsBacked(c, db, pc.id);
    }
    CheckShape(c, db, pc, ch);
    IdleTurn(db, db', pc, next);
    hide ObjectsTurn, EventsTurn, ThumbnailsTurn;
  }

  /** With the original there, reading it fails by itself only if it has no thumbnails. */
  lemma ReadFails(c: Config, db: Db, pc: Pc, ch: Choice)
    requires pc.UhRead? && pc.key in db.objects
    ensures var (db', next) := Micro(c, db, pc, ch);
            && db' == db && next.Go? && next.pc.id == pc.id && (next.pc.UhPut100? || next.pc.UhFail?)
            && (next.pc.UhFail? && next.pc.error != Dependency ==> !Thumbnailable(c, db.objects[pc.key].data))
  {
  }

  lemma ReadIsClean(c: Config, db: Db, pc: Pc, ch: Choice)
    requires DbInv(c, db) && PcInv(c, db, pc) && HandlerClean(c, db, pc) && pc.UhRead?
    ensures var (db', next) := Micro(c, db, pc, ch);
            && db' == db && next.Go? && PastCheck(next.pc) && next.pc.id == pc.id && HandlerClean(c, db, next.pc)
  {
    ReadFails(c, db, pc, ch);
    hide Micro;
    OriginalIsUpload(c, db, pc.id, pc.key);
    hide DbInv, PcInv, Thumbnailable;
  }

  /** A handler goes on past its check without writing anything. */
  lemma StayingTurns(c: Config, db: Db, db': Db, pc: Pc, next: Pc)
    requires PastCheck(pc) && PastCheck(next) && next.id == pc.id && HandlerClean(c, db, next)
    requires db' == db.(uploads := db'.uploads, deletes := db'.deletes)
    requires forall id :: id in db.deletes ==> id in db'.deletes
    ensures Turn(c, db, db', pc, Some(next))
  {
    IdleTurn(db, db', pc, Some(next));
    hide ObjectsTurn, EventsTurn, ThumbnailsTurn;
  }

  lemma ReadTurns(c: Config, db: Db, pc: Pc, ch: Choice, db': Db, next: Option<Pc>)
    requires CallTurns(c, db, pc, ch, db', next) && pc.UhRead?
    ensures Turn(c, db, db', pc, next)
  {
    hide DbInv, PcInv, Micro, CallMeets, HandlerClean, Turn;
    ReadIsClean(c, db, pc, ch);
    StayingTurns(c, db, db', pc, next.value);
  }

  /** No thumbnail is stored of an upload that has none. */
  lemma RejectedHasNone(c: Config, db: Db, id: Id)
    requires DbInv(c, db) && !Renders(c, db.history.inputs, id)
    ensures Thumb100(id) !in db.objects && Thumb300(id) !in db.objects
  {
    assert Thumb100(id) in db.objects ==> ObjectOk(c, db.history.inputs, Thumb100(id), db.objects[Thumb100(id)]);
    assert Thumb300(id) in db.objects ==> ObjectOk(c, db.history.inputs, Thumb300(id), db.objects[Thumb300(id)]);
    hide DbInv;
  }

  lemma SmallPutTurns(c: Config, db: Db, pc: Pc, ch: Choice, db': Db, next: Option<Pc>)
    requires CallTurns(c, db, pc, ch, db', next) && pc.UhPut100?
    ensures Turn(c, db, db', pc, next)
  {
    hide DbInv, PcInv;
  }

  lemma LargePutTurns(c: Config, db: Db, pc: Pc, ch: Choice, db': Db, next: Option<Pc>)
    requires CallTurns(c, db, pc, ch, db', next) && pc.UhPut300?
    ensures Turn(c, db, db', pc, next)
  {
    hide DbInv, PcInv;
  }

  /** A handler ends with a change of its record, and everything stored of its avatar is listed. */
  lemma ReplacementTurns(c: Config, db: Db, db': Db, pc: Pc)
    requires PastCheck(pc) && pc.id in db.avatars && pc.id in db'.avatars && db'.objects == db.objects
    requires db'.avatars == db.avatars[pc.id := db'.avatars[pc.id]]
    requires db'.avatars[pc.id].deletedAt == db.avatars[pc.id].deletedAt
    requires db'.history == db.history && forall id :: id in db.deletes ==> id in db'.deletes
    requires AllListed(db', pc.id)
    ensures Turn(c, db, db', pc, None)
  {
    hide HandlerClean, KeysOf;
  }

  lemma LastCall(c: Config, db: Db, pc: Pc, ch: Choice)
    requires (pc.UhUpdate? || pc.UhFail?) && pc.id in db.avatars
    ensures var (db', next) := Micro(c, db, pc, ch);
            && db' == db.(avatars := db'.avatars) && next.Return?
            && pc.id in db'.avatars && db'.avatars == db.avatars[pc.id := db'.avatars[pc.id]]
            && db'.avatars[pc.id].deletedAt == db.avatars[pc.id].deletedAt
            && (pc.UhUpdate? && ch.outcome.Fine? ==> AllListed(db', pc.id))
  {
  }

  lemma LastLists(c: Config, db: Db, pc: Pc, ch: Choice)
    requires DbInv(c, db) && HandlerClean(c, db, pc) && CallMeets(c, STRICT, db, pc, ch)
    requires (pc.UhUpdate? || pc.UhFail?) && pc.id in db.avatars
    ensures AllListed(Micro(c, db, pc, ch).0, pc.id)
  {
    if pc.UhFail? && pc.error != Dependency {
      RejectedHasNone(c, db, pc.id);
    }
    LastCall(c, db, pc, ch);
    hide DbInv, Micro, Renders;
  }

  lemma LastTurns(c: Config, db: Db, pc: Pc, ch: Choice, db': Db, next: Option<Pc>)
    requires CallTurns(c, db, pc, ch, db', next) && (pc.UhUpdate? || pc.UhFail?)
    ensures Turn(c, db, db', pc, next)
  {
    assert pc.id in db.avatars;
    hide DbInv, PcInv, CallMeets, HandlerClean, Micro, Turn;
    LastLists(c, db, pc, ch);
    LastCall(c, db, pc, ch);
    ReplacementTurns(c, db, db', pc);
  }

  lemma LookupTurns(c: Config, db: Db, pc: Pc, ch: Choice, db': Db, next: Option<Pc>)
    requires CallTurns(c, db, pc, ch, db', next) && pc.DhGet?
    ensures Turn(c, db, db', pc, next)
  {
    hide DbInv, KeysOf;
  }

  lemma RemovalShape(c: Config, db: Db, pc: Pc, ch: Choice)
    requires pc.DhDel?
    ensures var (db', next) := Micro(c, db, pc, ch);
            if pc.keys == [] then db' == db && next == Return(None)
            else
              var removed := db.(objects := db.objects - {pc.keys[0]});
              || (db' == removed && next == Go(DhDel(pc.id, pc.keys[1..])))
              || ((db' == db || db' == removed) && next == Return(Some(Dependency)))
  {
  }

  /** Removing an object of its avatar, a delete handler goes on, or its event is queued again. */
  lemma RemovalTurns(c: Config, db: Db, db': Db, pc: Pc, next: Option<Pc>)
    requires pc.DhDel? && db' == db.(objects := db'.objects, uploads := db'.uploads, deletes := db'.deletes)
    requires forall id :: id in db.deletes ==> id in db'.deletes
    requires if pc.keys == [] then db'.objects == db.objects && next == None
             else
               && pc.keys[0].OwnedBy(pc.id)
               && (db'.objects == db.objects || db'.objects == db.objects - {pc.keys[0]})
               && (next == None ==> pc.id in db'.deletes)
               && (next.Some? ==> next.value == DhDel(pc.id, pc.keys[1..]) && db'.objects == db.objects - {pc.keys[0]})
    ensures Turn(c, db, db', pc, next)
  {
  }

  lemma RemoverTurns(c: Config, db: Db, pc: Pc, ch: Choice, db': Db, next: Option<Pc>)
    requires CallTurns(c, db, pc, ch, db', next) && pc.DhDel?
    ensures Turn(c, db, db', pc, next)
  {
    assert pc.keys != [] ==> pc.keys[0] in pc.keys && pc.keys[0].OwnedBy(pc.id);
    RemovalShape(c, db, pc, ch);
    hide DbInv, PcInv, Micro, Turn;
    RemovalTurns(c, db, db', pc, next);
  }

  lemma CallIsTurn(c: Config, db: Db, pc: Pc, ch: Choice, db': Db, next: Option<Pc>)
    requires CallTurns(c, db, pc, ch, db', next)
    ensures Turn(c, db, db', pc, next)
  {
    hide CallTurns, Turn;
    match pc
    case UpPut(_, _, _) => UploadTurns(c, db, pc, ch, db', next);
    case UpCreate(_, _, _) => CreateTurns(c, db, pc, ch, db', next);
    case UpPublish(_) => PublishTurns(c, db, pc, ch, db', next);
    case UpMark(_) => MarkTurns(c, db, pc, ch, db', next);
    case UhGet(_) => CheckTurns(c, db, pc, ch, db', next);
    case UhRead(_, _) => ReadTurns(c, db, pc, ch, db', next);
    case UhPut100(_, _, _) => SmallPutTurns(c, db, pc, ch, db', next);
    case UhPut300(_, _) => LargePutTurns(c, db, pc, ch, db', next);
    case UhUpdate(_) => LastTurns(c, db, pc, ch, db', next);
    case UhFail(_, _) => LastTurns(c, db, pc, ch, db', next);
    case DelSoft(_, _, _) => SoftDeleteTurns(c, db, pc, ch, db', next);
    case DelPublish(_) => AnnounceTurns(c, db, pc, ch, db', next);
    case DhGet(_) => LookupTurns(c, db, pc, ch, db', next);
    case DhDel(_, _) => RemoverTurns(c, db, pc, ch, db', next);
    case _ => ReaderTurns(c, db, pc, ch, db', next);
  }

  /** So is a crash. */
  lemma CrashIsTurn(c: Config, db: Db, pc: Pc)
    requires CrashMeets(STRICT, db, pc)
    ensures Turn(c, db, Requeue(db, pc), pc, None)
  {
    var db' := Requeue(db, pc);
    assert db' == db.(uploads := db'.uploads, deletes := db'.deletes);
    assert pc.DeleteHandler() ==> pc.id in db'.deletes;
    hide KeysOf, Requeue;
  }

  // A turn, seen from the whole system

  /** Process `pid` goes on at `next`, or is gone; the others stay where they are. */
  ghost predicate Moved(procs: map<Pid, Pc>, procs': map<Pid, Pc>, pid: Pid, next: Option<Pc>) {
    && pid in procs
    && procs' == if next.Some? then procs[pid := next.value] else procs - {pid}
  }

  ghost predicate Turned(c: Config, s: State, s': State, pid: Pid, next: Option<Pc>) {
    && OrphanInv(c, s)
    && Moved(s.procs, s'.procs, pid, next)
    && Turn(c, s.db, s'.db, s.procs[pid], next)
  }

  lemma OthersStay(procs: map<Pid, Pc>, procs': map<Pid, Pc>, pid: Pid, next: Option<Pc>)
    requires Moved(procs, procs', pid, next)
    ensures forall p :: p in procs && p != pid ==> p in procs' && procs'[p] == procs[p]
    ensures forall p :: p in procs' && p != pid ==> p in procs
    ensures next.Some? ==> pid in procs' && procs'[pid] == next.value
    ensures next.None? ==> pid !in procs'
  {
  }

  lemma AwaitingStays(c: Config, s: State, s': State, pid: Pid, next: Option<Pc>, id: Id)
    requires Turned(c, s, s', pid, next) && Awaiting(s, id)
    ensures Awaiting(s', id)
  {
    hide OrphanInv, ObjectsTurn, ThumbnailsTurn, RecordsTurn;
    if id !in s.db.deletes && s.procs[pid] != DelPublish(id) {
      var p :| p in s.procs && s.procs[p] == DelPublish(id);
      assert s'.procs[p] == DelPublish(id);
    }
  }

  lemma HandlersStillAwait(c: Config, s: State, s': State, pid: Pid, next: Option<Pc>, p: Pid)
    requires Turned(c, s, s', pid, next)
    requires p in s'.procs && PastCheck(s'.procs[p]) && Deleted(s'.db.avatars, s'.procs[p].id)
    ensures Awaiting(s', s'.procs[p].id)
  {
    var id := s'.procs[p].id;
    OthersStay(s.procs, s'.procs, pid, next);
    assert RecordsTurn(c, s.db, s'.db, s.procs[pid], next);
    if Deleted(s.db.avatars, id) {
      assert p in s.procs && PastCheck(s.procs[p]) && s.procs[p].id == id;
      assert Awaiting(s, id);
      hide *;
      AwaitingStays(c, s, s', pid, next, id);
    } else {
      assert s'.procs[pid] == DelPublish(id);
      hide Turned;
    }
  }

  lemma ListingGoesOn(c: Config, s: State, s': State, pid: Pid, next: Option<Pc>, id: Id)
    requires Turned(c, s, s', pid, next)
    ensures Listing(s', id)
  {
    OthersStay(s.procs, s'.procs, pid, next);
    assert Listing(s, id) && ThumbnailsTurn(s.db, s'.db, s.procs[pid], next);
    hide Turned, AllListed, PastCheck;
    if PastCheck(s.procs[pid]) && s.procs[pid].id == id {
      assert !AllListed(s'.db, id) ==> PastCheck(s'.procs[pid]) && s'.procs[pid].id == id;
    } else if !AllListed(s.db, id) {
      var p :| p in s.procs && PastCheck(s.procs[p]) && s.procs[p].id == id;
      assert s'.procs[p] == s.procs[p];
    }
  }

  lemma KeyListed(c: Config, inputs: Inputs, id: Id, a: Avatar, k: Key, stored: Object)
    requires RecordOk(inputs, id, a) && ObjectOk(c, inputs, k, stored) && k.OwnedBy(id)
    requires (k == Thumb100(id) ==> a.thumb100Key == k) && (k == Thumb300(id) ==> a.thumb300Key == k)
    ensures k in KeysOf(a)
  {
  }

  lemma ReaderIsAlone(s: State, pid: Pid, id: Id)
    requires KeptApart(s.procs) && Listing(s, id) && pid in s.procs && s.procs[pid] == DhGet(id)
    ensures AllListed(s.db, id)
  {
    hide AllListed;
  }

  /** A delete handler reads keys that cover everything left of its avatar. */
  lemma ReadsAllKeys(c: Config, s: State, pid: Pid)
    requires OrphanInv(c, s) && pid in s.procs && s.procs[pid].DhGet?
    ensures var id := s.procs[pid].id;
            id in s.db.avatars && forall k :: k in s.db.objects && k.OwnedBy(id) ==> k in KeysOf(s.db.avatars[id])
  {
    var id := s.procs[pid].id;
    assert PcInv(c, s.db, s.procs[pid]);
    var a := s.db.avatars[id];
    ReaderIsAlone(s, pid, id);
    assert RecordOk(s.db.history.inputs, id, a);
    assert ObjectsOk(c, s.db.history.inputs, s.db.objects);
    hide OrphanInv, KeysOf, RecordOk, ObjectOk;
    forall k | k in s.db.objects && k.OwnedBy(id)
      ensures k in KeysOf(a)
    {
      KeyListed(c, s.db.history.inputs, id, a, k, s.db.objects[k]);
    }
  }

  lemma ReadingRemoves(m: Avatars, objects: Objects, objects': Objects, id: Id)
    requires ObjectsTurn(objects, objects', DhGet(id)) && id in m
    requires forall k :: k in objects && k.OwnedBy(id) ==> k in KeysOf(m[id])
    ensures Removes(DhDel(id, KeysOf(m[id])), objects', id)
  {
    hide KeysOf;
  }

  lemma RemovingRemoves(objects: Objects, objects': Objects, pc: Pc, id: Id)
    requires ObjectsTurn(objects, objects', pc) && Removes(pc, objects, id)
    ensures pc.keys == [] ==> Empty(objects', id)
    ensures pc.keys != [] && objects' == objects - {pc.keys[0]} ==> Removes(DhDel(id, pc.keys[1..]), objects', id)
  {
    if pc.keys != [] {
      assert pc.keys == [pc.keys[0]] + pc.keys[1..];
    }
  }

  /** A delete handler whose turn it is leaves its avatar no worse cleaned. */
  lemma RemovalGoesOn(c: Config, s: State, s': State, pid: Pid, next: Option<Pc>, id: Id)
    requires Turned(c, s, s', pid, next)
    requires s.procs[pid] == DhGet(id) || Removes(s.procs[pid], s.db.objects, id)
    ensures WillBeEmpty(s', id)
  {
    var pc := s.procs[pid];
    OthersStay(s.procs, s'.procs, pid, next);
    assert ObjectsTurn(s.db.objects, s'.db.objects, pc) && EventsTurn(s.db, s'.db, pc, next);
    assert pc.DeleteHandler() && pc.id == id;
    if pc.DhGet? {
      ReadsAllKeys(c, s, pid);
    }
    hide Turned, ObjectsTurn, KeysOf, Removes, Empty, Has;
    if id !in s'.db.deletes {
      if pc.DhGet? && !Empty(s'.db.objects, id) {
        ReadingRemoves(s.db.avatars, s.db.objects, s'.db.objects, id);
        assert Removes(s'.procs[pid], s'.db.objects, id);
      } else if pc.DhDel? {
        RemovingRemoves(s.db.objects, s'.db.objects, pc, id);
        assert pc.keys != [] ==> Removes(s'.procs[pid], s'.db.objects, id);
      }
    }
  }

  lemma WrittenBy(objects: Objects, objects': Objects, pc: Pc, k: Key)
    requires ObjectsTurn(objects, objects', pc) && k in objects'
    ensures k in objects || (!k.NoKey? && (pc.UpPut? || PastCheck(pc)) && k.id == pc.id)
  {
  }

  /** Nothing is written under a deleted avatar unless a delete event is still to come. */
  lemma NothingNew(c: Config, s: State, s': State, pid: Pid, next: Option<Pc>, id: Id, k: Key)
    requires Turned(c, s, s', pid, next) && Deleted(s.db.avatars, id) && !Awaiting(s, id)
    requires k in s'.db.objects && k.OwnedBy(id)
    ensures k in s.db.objects
  {
    var pc := s.procs[pid];
    hide DbInv, HandlerClean, Listing, WillBeEmpty, KeptApart, Awaiting, ObjectsTurn, EventsTurn, ThumbnailsTurn;
    assert PcInv(c, s.db, pc) && ObjectsTurn(s.db.objects, s'.db.objects, pc);
    assert pc.UpPut? ==> pc.id !in s.db.avatars;
    assert PastCheck(pc) && Deleted(s.db.avatars, pc.id) ==> Awaiting(s, pc.id);
    hide PcInv, Turned;
    WrittenBy(s.db.objects, s'.db.objects, pc, k);
  }

  lemma CleaningGoesOn(c: Config, s: State, s': State, pid: Pid, next: Option<Pc>, id: Id)
    requires Turned(c, s, s', pid, next) && Deleted(s'.db.avatars, id)
    ensures WillBeEmpty(s', id)
  {
    var pc := s.procs[pid];
    OthersStay(s.procs, s'.procs, pid, next);
    assert RecordsTurn(c, s.db, s'.db, pc, next);
    hide Turned, Removes, Removing, Empty;
    if !Deleted(s.db.avatars, id) {
      assert s'.procs[pid] == DelPublish(id);
    } else if Awaiting(s, id) {
      AwaitingStays(c, s, s', pid, next, id);
    } else if pc == DhGet(id) || Removes(pc, s.db.objects, id) {
      RemovalGoesOn(c, s, s', pid, next, id);
    } else {
      OthersGoOn(c, s, s', pid, next, id);
    }
  }

  lemma OthersGoOn(c: Config, s: State, s': State, pid: Pid, next: Option<Pc>, id: Id)
    requires Turned(c, s, s', pid, next) && Deleted(s.db.avatars, id) && !Awaiting(s, id)
    requires s.procs[pid] != DhGet(id) && !Removes(s.procs[pid], s.db.objects, id)
    ensures WillBeEmpty(s', id)
  {
    assert WillBeEmpty(s, id);
    OthersStay(s.procs, s'.procs, pid, next);
    hide Turned, Awaiting, Has, Removing, Empty, Removes;
    forall k | k in s'.db.objects && k.OwnedBy(id)
      ensures k in s.db.objects
    {
      NothingNew(c, s, s', pid, next, id, k);
    }
    RemovalStays(s, s', pid, id);
  }

  /** Where nothing is written, a process that does not move still removes what it was to remove. */
  lemma RemovalStays(s: State, s': State, pid: Pid, id: Id)
    requires Has(s.procs, DhGet(id)) || Removing(s, id) || Empty(s.db.objects, id)
    requires forall p :: p in s.procs && p != pid ==> p in s'.procs && s'.procs[p] == s.procs[p]
    requires pid in s.procs && s.procs[pid] != DhGet(id) && !Removes(s.procs[pid], s.db.objects, id)
    requires forall k :: k in s'.db.objects && k.OwnedBy(id) ==> k in s.db.objects
    ensures Has(s'.procs, DhGet(id)) || Removing(s', id) || Empty(s'.db.objects, id)
  {
    if Has(s.procs, DhGet(id)) {
      var p :| p in s.procs && s.procs[p] == DhGet(id);
      assert s'.procs[p] == DhGet(id);
    } else if Removing(s, id) {
      var p :| p in s.procs && Removes(s.procs[p], s.db.objects, id);
      assert Removes(s'.procs[p], s'.db.objects, id);
    }
  }

  lemma ApartMoves(m: Avatars, procs: map<Pid, Pc>, procs': map<Pid, Pc>, pid: Pid, next: Option<Pc>)
    requires KeptApart(procs) && Moved(procs, procs', pid, next)
    requires forall p :: p in procs && procs[p].DeleteHandler() ==> !LiveIn(m, procs[p].id)
    requires next.Some? && PastCheck(next.value) ==>
               && procs[pid].UploadHandler() && next.value.id == procs[pid].id
               && (PastCheck(procs[pid]) || LiveIn(m, next.value.id))
    requires next.Some? && next.value.DeleteHandler() ==>
               procs[pid].DeleteHandler() && next.value.id == procs[pid].id
    ensures KeptApart(procs')
  {
    hide LiveIn;
  }

  /** An upload handler gets past its check only for a live avatar, and a delete handler has a deleted one. */
  lemma ApartStill(c: Config, s: State, s': State, pid: Pid, next: Option<Pc>)
    requires Turned(c, s, s', pid, next)
    ensures KeptApart(s'.procs)
  {
    hide DbInv, HandlerClean, Listing, WillBeEmpty, KeptApart, Awaiting, ObjectsTurn, EventsTurn, ThumbnailsTurn, Moved;
    forall p | p in s.procs && s.procs[p].DeleteHandler()
      ensures !LiveIn(s.db.avatars, s.procs[p].id)
    {
      assert PcInv(c, s.db, s.procs[p]);
    }
    hide Inv;
    ApartMoves(s.db.avatars, s.procs, s'.procs, pid, next);
  }

  lemma HandlersStayClean(c: Config, s: State, s': State, pid: Pid, next: Option<Pc>)
    requires Turned(c, s, s', pid, next)
    ensures forall p :: p in s'.procs ==> HandlerClean(c, s'.db, s'.procs[p])
  {
    var pc := s.procs[pid];
    OthersStay(s.procs, s'.procs, pid, next);
    assert ObjectsTurn(s.db.objects, s'.db.objects, pc) && s'.db.history.inputs == s.db.history.inputs;
    assert next.Some? ==> HandlerClean(c, s'.db, next.value);
    hide Turn, HandlerClean, ObjectsTurn, Inv, Awaiting, Listing, WillBeEmpty;
    forall p | p in s.procs && p != pid
      ensures HandlerClean(c, s'.db, s.procs[p])
    {
      assert HandlerClean(c, s.db, s.procs[p]);
      assert pc.DeleteHandler() && PastCheck(s.procs[p]) ==> pc.id != s.procs[p].id;
      CleanStays(c, s.db, s'.db, pc, s.procs[p]);
    }
    hide KeptApart, Turned;
  }

  /** Only a delete handler removes objects, and only its avatar's. */
  lemma CleanStays(c: Config, db: Db, db': Db, mover: Pc, pc: Pc)
    requires ObjectsTurn(db.objects, db'.objects, mover) && HandlerClean(c, db, pc)
    requires db'.history.inputs == db.history.inputs
    requires mover.DeleteHandler() && PastCheck(pc) ==> mover.id != pc.id
    ensures HandlerClean(c, db', pc)
  {
  }

  lemma TurnKeepsOrphanInv(c: Config, s: State, s': State, pid: Pid, next: Option<Pc>)
    requires Turned(c, s, s', pid, next) && Inv(c, s')
    ensures OrphanInv(c, s')
  {
    hide Inv, Turned, Awaiting, Listing, WillBeEmpty, HandlerClean, KeptApart;
    ApartStill(c, s, s', pid, next);
    HandlersStayClean(c, s, s', pid, next);
    forall p | p in s'.procs && PastCheck(s'.procs[p]) && Deleted(s'.db.avatars, s'.procs[p].id)
      ensures Awaiting(s', s'.procs[p].id)
    {
      HandlersStillAwait(c, s, s', pid, next, p);
    }
    forall id
      ensures Listing(s', id)
    {
      ListingGoesOn(c, s, s', pid, next, id);
    }
    forall id | Deleted(s'.db.avatars, id)
      ensures WillBeEmpty(s', id)
    {
      CleaningGoesOn(c, s, s', pid, next, id);
    }
  }

  lemma AdvanceLands(c: Config, s: State, pid: Pid, ch: Choice, ackLost: bool) returns (next: Option<Pc>)
    requires Enabled(s, Advance(pid, ch, ackLost))
    ensures var s' := Do(c, s, Advance(pid, ch, ackLost));
            Lands(c, s.db, s.procs[pid], ch, s'.db, next) && Moved(s.procs, s'.procs, pid, next)
  {
    AdvanceShape(c, s, pid, ch, ackLost);
    var n := Micro(c, s.db, s.procs[pid], ch).1;
    next := if n.Go? then Some(n.pc) else None;
    hide Micro, Do;
  }

  lemma AdvanceKeepsOrphanInv(c: Config, s: State, step: Step)
    requires c.broker && OrphanInv(c, s) && Enabled(s, step) && Meets(c, STRICT, s, step) && step.Advance?
    ensures OrphanInv(c, Do(c, s, step))
  {
    var s', pc := Do(c, s, step), s.procs[step.pid];
    DoKeeps(c, s, step);
    assert HandlerClean(c, s.db, pc) && DbInv(c, s.db) && PcInv(c, s.db, pc);
    hide Do, Inv, OrphanInv, DbInv, PcInv, Lands, CallMeets, HandlerClean, Turn, Moved;
    var next := AdvanceLands(c, s, step.pid, step.choice, step.ackLost);
    CallIsTurn(c, s.db, pc, step.choice, s'.db, next);
    TurnKeepsOrphanInv(c, s, s', step.pid, next);
  }

  lemma CrashKeepsOrphanInv(c: Config, s: State, step: Step)
    requires OrphanInv(c, s) && Enabled(s, step) && Meets(c, STRICT, s, step) && step.Crash?
    ensures OrphanInv(c, Do(c, s, step))
  {
    DoKeeps(c, s, step);
    hide Inv, OrphanInv, Requeue, Turn, CrashMeets;
    CrashIsTurn(c, s.db, s.procs[step.pid]);
    TurnKeepsOrphanInv(c, s, Do(c, s, step), step.pid, None);
  }

  // Steps that only start, deliver or queue

  /** No process ends, no input changes, and no queued delete event is gone unless a handler has just
      taken it. */
  ghost predicate Settled(s: State, s': State) {
    && QuietStep(s, s')
    && (forall p :: p in s.procs ==> p in s'.procs)
    && InputsKept(s.db.history.inputs, s'.db.history.inputs)
    && (forall id :: id in s.db.deletes ==> id in s'.db.deletes || Has(s'.procs, DhGet(id)))
  }

  lemma SettledKeeps(s: State, s': State, id: Id)
    requires Settled(s, s')
    ensures Listing(s, id) ==> Listing(s', id)
    ensures WillBeEmpty(s, id) ==> WillBeEmpty(s', id)
  {
    forall pc | Has(s.procs, pc)
      ensures Has(s'.procs, pc)
    {
      var p :| p in s.procs && s.procs[p] == pc;
      assert s'.procs[p] == pc;
    }
    if Removing(s, id) {
      var p :| p in s.procs && Removes(s.procs[p], s.db.objects, id);
      assert Removes(s'.procs[p], s'.db.objects, id);
    }
    if p :| p in s.procs && PastCheck(s.procs[p]) && s.procs[p].id == id {
      assert s'.procs[p] == s.procs[p];
    }
  }

  /** Any such step settles. */
  lemma OtherSettles(c: Config, s: State, step: Step)
    requires Enabled(s, step) && !step.Advance? && !step.Crash?
    ensures Settled(s, Do(c, s, step))
  {
    var s' := Do(c, s, step);
    hide QuietStep, Has, Requeue;
    OtherIsQuiet(c, s, step);
    assert InputsKept(s.db.history.inputs, s'.db.history.inputs) && forall p :: p in s.procs ==> p in s'.procs;
    hide Do, Enabled, InputsKept;
    forall id | id in s.db.deletes
      ensures id in s'.db.deletes || Has(s'.procs, DhGet(id))
    {
      DeletesStay(c, s, step, id);
    }
  }

  lemma DeletesStay(c: Config, s: State, step: Step, id: Id)
    requires Enabled(s, step) && !step.Advance? && !step.Crash? && id in s.db.deletes
    ensures var s' := Do(c, s, step); id in s'.db.deletes || Has(s'.procs, DhGet(id))
  {
    if step.DeliverDelete? && step.id == id {
      assert Do(c, s, step).procs[step.pid] == DhGet(id);
    }
  }

  /** It starts at most one process, at its beginning, and a delete handler only apart. */
  lemma OtherKeepsApart(c: Config, s: State, step: Step)
    requires KeptApart(s.procs) && Enabled(s, step) && DeletesApart(s, step) && !step.Advance? && !step.Crash?
    ensures KeptApart(Do(c, s, step).procs)
  {
    hide Requeue;
  }

  lemma OtherQueues(c: Config, s: State, step: Step, p: Pid, id: Id)
    requires Enabled(s, step) && DeletesApart(s, step) && !step.Advance? && !step.Crash?
    requires p in s.procs && PastCheck(s.procs[p]) && s.procs[p].id == id && id in s.db.deletes
    ensures id in Do(c, s, step).db.deletes
  {
  }

  lemma OtherStillAwaits(c: Config, s: State, step: Step, p: Pid)
    requires OrphanInv(c, s) && Enabled(s, step) && DeletesApart(s, step) && !step.Advance? && !step.Crash?
    requires Settled(s, Do(c, s, step))
    requires p in s.procs && PastCheck(s.procs[p]) && Deleted(s.db.avatars, s.procs[p].id)
    ensures Awaiting(Do(c, s, step), s.procs[p].id)
  {
    var s', id := Do(c, s, step), s.procs[p].id;
    assert Awaiting(s, id);
    hide OrphanInv, Do, Enabled, DeletesApart;
    if id in s.db.deletes {
      OtherQueues(c, s, step, p, id);
    } else {
      var q :| q in s.procs && s.procs[q] == DelPublish(id);
      assert s'.procs[q] == DelPublish(id);
    }
  }

  /** An input that is there rules out a failure that was ruled out. */
  lemma SettledStaysClean(c: Config, s: State, s': State, p: Pid)
    requires Settled(s, s') && Inv(c, s) && p in s.procs && HandlerClean(c, s.db, s.procs[p])
    ensures HandlerClean(c, s'.db, s.procs[p])
  {
    var pc := s.procs[p];
    assert PcInv(c, s.db, pc);
    assert pc.UhFail? ==> RecordOk(s.db.history.inputs, pc.id, s.db.avatars[pc.id]);
    hide Inv, PcInv;
  }

  lemma SettledKeepsObjects(c: Config, s: State, s': State)
    requires OrphanInv(c, s) && Settled(s, s')
    ensures forall id :: Listing(s', id) && (Deleted(s'.db.avatars, id) ==> WillBeEmpty(s', id))
    ensures forall p :: p in s.procs ==> HandlerClean(c, s'.db, s'.procs[p])
  {
    hide Inv, Awaiting, HandlerClean, Listing, WillBeEmpty, KeptApart;
    forall id
      ensures Listing(s', id) && (Deleted(s'.db.avatars, id) ==> WillBeEmpty(s', id))
    {
      SettledKeeps(s, s', id);
      assert Listing(s, id);
    }
    forall p | p in s.procs
      ensures HandlerClean(c, s'.db, s'.procs[p])
    {
      SettledStaysClean(c, s, s', p);
    }
  }

  /** What is left to say of a step that settles. */
  lemma SettledKeepsInv(c: Config, s: State, s': State)
    requires OrphanInv(c, s) && Inv(c, s') && Settled(s, s') && KeptApart(s'.procs)
    requires forall p :: p in s.procs && PastCheck(s.procs[p]) && Deleted(s.db.avatars, s.procs[p].id) ==>
               Awaiting(s', s.procs[p].id)
    ensures OrphanInv(c, s')
  {
    SettledKeepsObjects(c, s, s');
    assert forall p :: p in s'.procs && PastCheck(s'.procs[p]) ==> p in s.procs && s'.procs[p] == s.procs[p];
    assert s'.db.avatars == s.db.avatars && forall p :: p in s.procs ==> s'.procs[p] == s.procs[p];
    assert forall p :: p in s'.procs ==> HandlerClean(c, s'.db, s'.procs[p]);
    hide Inv, Settled, Awaiting, HandlerClean, Listing, WillBeEmpty, KeptApart, PastCheck, Deleted;
  }

  lemma OtherKeepsOrphanInv(c: Config, s: State, step: Step)
    requires OrphanInv(c, s) && Enabled(s, step) && DeletesApart(s, step) && !step.Advance? && !step.Crash?
    ensures OrphanInv(c, Do(c, s, step))
  {
    var s' := Do(c, s, step);
    assert KeptApart(s.procs);
    DoKeeps(c, s, step);
    hide Do, Inv, Enabled, DeletesApart, OrphanInv, Settled, Awaiting, HandlerClean, KeptApart, PastCheck, Deleted;
    OtherSettles(c, s, step);
    OtherKeepsApart(c, s, step);
    forall p | p in s.procs && PastCheck(s.procs[p]) && Deleted(s.db.avatars, s.procs[p].id)
      ensures Awaiting(s', s.procs[p].id)
    {
      OtherStillAwaits(c, s, step, p);
    }
    SettledKeepsInv(c, s, s');
  }

  lemma StartsClean(c: Config)
    ensures OrphanInv(c, Init())
  {
  }

  lemma {:induction false} RunKeepsOrphanInv(c: Config, states: seq<State>, steps: seq<Step>, i: nat)
    requires c.broker && IsRun(c, states, steps) && i <= |steps|
    requires forall j {:trigger steps[j]} :: 0 <= j < |steps| ==> Meets(c, STRICT, states[j], steps[j])
    ensures OrphanInv(c, states[i])
  {
    hide OrphanInv, Do, Enabled, CallMeets, CrashMeets, DeletesApart;
    if i == 0 {
      StartsClean(c);
    } else {
      RunKeepsOrphanInv(c, states, steps, i - 1);
      var s, step := states[i - 1], steps[i - 1];
      assert Enabled(s, step) && states[i] == Do(c, s, step) && Meets(c, STRICT, s, step);
      hide IsRun;
      match step
      case Advance(_, _, _) => AdvanceKeepsOrphanInv(c, s, step);
      case Crash(_) => CrashKeepsOrphanInv(c, s, step);
      case _ => OtherKeepsOrphanInv(c, s, step);
    }
  }

  /** Nothing runs and no delete event is queued. */
  predicate Drained(s: State) {
    s.procs == map[] && s.db.deletes == multiset{}
  }

  /** A soft-deleted avatar has an object left, under its original key, its thumbnail keys or any other
      key of its directory. */
  ghost predicate Orphaned(db: Db) {
    exists id, k: Key :: Deleted(db.avatars, id) && k.OwnedBy(id) && k in db.objects
  }

  lemma NoOrphansAtQuiescence(c: Config, states: seq<State>, steps: seq<Step>, i: nat)
    requires c.broker && IsRun(c, states, steps) && i <= |steps|
    requires forall j {:trigger steps[j]} :: 0 <= j < |steps| ==> Meets(c, STRICT, states[j], steps[j])
    requires Drained(states[i])
    ensures !Orphaned(states[i].db)
  {
    RunKeepsOrphanInv(c, states, steps, i);
    var s := states[i];
    assert forall id :: Deleted(s.db.avatars, id) ==> WillBeEmpty(s, id);
    hide Inv, IsRun, Meets;
  }
}
