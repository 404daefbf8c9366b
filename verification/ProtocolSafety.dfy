/** What every interleaving keeps: any number of processes, workers and redeliveries, any failure of
    any call, and crashes between calls.

    The proof is by rely and guarantee: a step keeps what is known of the stores and of the process
    that takes it (`MicroKeeps`), and changes the stores only in ways (`Guarantee`) that cannot
    invalidate what the other processes rely on (`Stable`). */
module ProtocolSafety {
  import opened Domain
  import opened Store
  import opened Protocol

  type Inputs = map<Id, UploadInput>

  predicate Deleted(m: Avatars, id: Id) {
    id in m && !m[id].Live()
  }

  predicate LiveIn(m: Avatars, id: Id) {
    id in m && m[id].Live()
  }

  // What holds of the stores

  ghost predicate RecordOk(inputs: Inputs, id: Id, a: Avatar) {
    && id in inputs
    && a.id == id
    && a.user == inputs[id].user
    && a.originalKey == OriginalKeyOf(id, inputs[id])
    && a.originalAvailable
    && a.thumb100Key == (if a.thumb100Available then Thumb100(id) else NoKey)
    && a.thumb300Key == (if a.thumb300Available then Thumb300(id) else NoKey)
    && (a.status == Completed ==> a.thumb100Available && a.thumb300Available)
    && !a.status.OtherStatus?
  }

  ghost predicate RecordsOk(inputs: Inputs, m: Avatars) {
    forall id :: id in m ==> RecordOk(inputs, id, m[id])
  }

  /** Both thumbnails of what was uploaded under `id` can be generated. */
  ghost predicate Renders(c: Config, inputs: Inputs, id: Id) {
    id in inputs && Thumbnailable(c, inputs[id].content)
  }

  ghost function ThumbnailOf(c: Config, inputs: Inputs, id: Id, size: Size): Object
    requires id in inputs && c.thumbnail(inputs[id].content, size).Some?
  {
    Object(c.thumbnail(inputs[id].content, size).value, JpegMime())
  }

  /** An object is the upload itself or the thumbnail its key promises. */
  ghost predicate ObjectOk(c: Config, inputs: Inputs, k: Key, stored: Object) {
    && !k.NoKey?
    && k.id in inputs
    && match k
       case Original(id, _) =>
         k == OriginalKeyOf(id, inputs[id]) && stored == Object(inputs[id].content, inputs[id].mime)
       case Thumb100(id) => Renders(c, inputs, id) && stored == ThumbnailOf(c, inputs, id, Size100)
       case Thumb300(id) => Renders(c, inputs, id) && stored == ThumbnailOf(c, inputs, id, Size300)
  }

  ghost predicate ObjectsOk(c: Config, inputs: Inputs, objects: Objects) {
    forall k :: k in objects ==> ObjectOk(c, inputs, k, objects[k])
  }

  /** What a live record promises is stored. */
  ghost predicate Backed(a: Avatar, objects: Objects) {
    a.Live() ==>
      && a.originalKey in objects
      && (a.thumb100Available ==> a.thumb100Key in objects)
      && (a.thumb300Available ==> a.thumb300Key in objects)
  }

  ghost predicate LiveBacked(m: Avatars, objects: Objects) {
    forall id :: id in m ==> Backed(m[id], objects)
  }

  /** At most one soft delete of an avatar succeeded, and only then was at most one delete event
      announced for it. */
  ghost predicate TallyOk(m: Avatars, succeeded: multiset<Id>, announced: multiset<Id>, id: Id) {
    && announced[id] <= succeeded[id] <= 1
    && (succeeded[id] == 1 ==> Deleted(m, id))
  }

  ghost predicate Tallied(m: Avatars, succeeded: multiset<Id>, announced: multiset<Id>) {
    forall id :: TallyOk(m, succeeded, announced, id)
  }

  ghost predicate OnlyDeleted(m: Avatars, deletes: multiset<Id>) {
    forall id :: id in deletes ==> Deleted(m, id)
  }

  ghost predicate SlashFree(inputs: Inputs) {
    forall id :: id in inputs ==> '/' !in id
  }

  ghost predicate DbInv(c: Config, db: Db) {
    && RecordsOk(db.history.inputs, db.avatars)
    && ObjectsOk(c, db.history.inputs, db.objects)
    && LiveBacked(db.avatars, db.objects)
    && OnlyDeleted(db.avatars, db.deletes)
    && Tallied(db.avatars, db.history.succeeded, db.history.announced)
    && SlashFree(db.history.inputs)
  }

  // What each process relies on

  ghost predicate PcInv(c: Config, db: Db, pc: Pc) {
    var (m, objects, inputs) := (db.avatars, db.objects, db.history.inputs);
    match pc
    case UpPut(id, input, _) => id in inputs && inputs[id] == input && id !in m
    case UpCreate(id, input, _) =>
      id in inputs && inputs[id] == input && id !in m && OriginalKeyOf(id, input) in objects
    case UpPublish(id) => id in inputs
    case UpMark(id) => id in inputs
    case DelSoft(id, owner, _) => id in m && m[id].user == owner
    case DelPublish(id) => Deleted(m, id) && db.history.succeeded[id] == 1 && db.history.announced[id] == 0
    case UhRead(id, key) => id in m && key == m[id].originalKey
    case UhPut100(id, t100, t300) =>
      && id in m && Renders(c, inputs, id)
      && ThumbnailOf(c, inputs, id, Size100).data == t100
      && ThumbnailOf(c, inputs, id, Size300).data == t300
    case UhPut300(id, t300) =>
      && id in m && Renders(c, inputs, id)
      && ThumbnailOf(c, inputs, id, Size300).data == t300
      && (LiveIn(m, id) ==> Thumb100(id) in objects)
    case UhUpdate(id) => id in m && (LiveIn(m, id) ==> Thumb100(id) in objects && Thumb300(id) in objects)
    case UhFail(id, _) => id in m
    case DhGet(id) => Deleted(m, id)
    case DhDel(id, keys) => Deleted(m, id) && forall k :: k in keys ==> k.OwnedBy(id)
    case _ => true
  }

  /** Work that at most one process has at a time: an upload, the announcement of a delete. */
  predicate SameTask(p: Pc, q: Pc) {
    || (p.Uploading() && q.Uploading() && p.id == q.id)
    || (p.DelPublish? && q.DelPublish? && p.id == q.id)
  }

  ghost predicate ProcsInv(c: Config, s: State) {
    && (forall p :: p in s.procs ==> PcInv(c, s.db, s.procs[p]))
    && (forall p, q :: p in s.procs && q in s.procs && p != q ==> !SameTask(s.procs[p], s.procs[q]))
  }

  ghost predicate Inv(c: Config, s: State) {
    DbInv(c, s.db) && ProcsInv(c, s)
  }

  // What a step may do to the stores

  /** Nothing about a record changes but its variants, its status and a first deletion. */
  predicate SameIdentity(a: Avatar, b: Avatar) {
    && b.id == a.id && b.user == a.user && b.createdAt == a.createdAt
    && b.originalKey == a.originalKey && b.originalAvailable == a.originalAvailable
    && (!a.Live() ==> b.deletedAt == a.deletedAt)
  }

  ghost predicate InputsKept(i: Inputs, i': Inputs) {
    forall id :: id in i ==> id in i' && i'[id] == i[id]
  }

  ghost predicate RecordsKept(m: Avatars, m': Avatars, mover: Pc) {
    && (forall id :: id in m ==> id in m' && SameIdentity(m[id], m'[id]))
    && (forall id :: id in m' && id !in m ==> mover.UpCreate? && mover.id == id)
  }

  /** Only a delete handler removes an object, and only one of the soft-deleted avatar it works on. */
  ghost predicate ObjectsKept(m: Avatars, objects: Objects, objects': Objects, mover: Pc) {
    forall k :: k in objects && k !in objects' ==> mover.DhDel? && k.OwnedBy(mover.id) && Deleted(m, mover.id)
  }

  ghost predicate TalliesKept(m: Avatars, h: History, h': History, mover: Pc) {
    && (forall id :: h'.succeeded[id] != h.succeeded[id] ==> LiveIn(m, id))
    && (forall id :: h'.announced[id] != h.announced[id] ==> mover == DelPublish(id))
  }

  ghost predicate Guarantee(db: Db, db': Db, mover: Pc) {
    && InputsKept(db.history.inputs, db'.history.inputs)
    && RecordsKept(db.avatars, db'.avatars, mover)
    && ObjectsKept(db.avatars, db.objects, db'.objects, mover)
    && TalliesKept(db.avatars, db.history, db'.history, mover)
  }

  lemma SmallWriterStable(c: Config, db: Db, db': Db, mover: Pc, pc: Pc)
    requires Guarantee(db, db', mover) && PcInv(c, db, pc) && pc.UhPut100?
    ensures PcInv(c, db', pc)
  {
    assert pc.id in db'.avatars;
    assert pc.id in db'.history.inputs && db'.history.inputs[pc.id] == db.history.inputs[pc.id];
    hide Guarantee;
  }

  lemma LargeWriterStable(c: Config, db: Db, db': Db, mover: Pc, pc: Pc)
    requires Guarantee(db, db', mover) && PcInv(c, db, pc) && pc.UhPut300?
    ensures PcInv(c, db', pc)
  {
    var id := pc.id;
    assert id in db'.avatars && SameIdentity(db.avatars[id], db'.avatars[id]);
    assert id in db'.history.inputs && db'.history.inputs[id] == db.history.inputs[id];
    assert Thumb100(id) in db.objects && Thumb100(id) !in db'.objects ==> Deleted(db.avatars, id);
    hide Guarantee;
  }

  lemma HandlerStable(c: Config, db: Db, db': Db, mover: Pc, pc: Pc)
    requires Guarantee(db, db', mover) && PcInv(c, db, pc) && (pc.UhRead? || pc.UhUpdate? || pc.UhFail?)
    ensures PcInv(c, db', pc)
  {
    var id := pc.id;
    assert id in db'.avatars && SameIdentity(db.avatars[id], db'.avatars[id]);
    if pc.UhUpdate? {
      assert Thumb100(id) in db.objects && Thumb100(id) !in db'.objects ==> Deleted(db.avatars, id);
      assert Thumb300(id) in db.objects && Thumb300(id) !in db'.objects ==> Deleted(db.avatars, id);
    }
    hide Guarantee;
  }

  lemma DeleterStable(c: Config, db: Db, db': Db, mover: Pc, pc: Pc)
    requires Guarantee(db, db', mover) && PcInv(c, db, pc) && pc.DeleteHandler()
    ensures PcInv(c, db', pc)
  {
    assert pc.id in db'.avatars && SameIdentity(db.avatars[pc.id], db'.avatars[pc.id]);
    hide Guarantee;
  }

  lemma ServerStable(c: Config, db: Db, db': Db, mover: Pc, pc: Pc)
    requires Guarantee(db, db', mover) && PcInv(c, db, pc) && !SameTask(mover, pc) && !pc.Handler()
    ensures PcInv(c, db', pc)
  {
    hide Renders;
  }

  lemma Stable(c: Config, db: Db, db': Db, mover: Pc, pc: Pc)
    requires Guarantee(db, db', mover) && PcInv(c, db, pc) && !SameTask(mover, pc)
    ensures PcInv(c, db', pc)
  {
    hide Guarantee, PcInv, SameTask;
    if pc.UhPut100? {
      SmallWriterStable(c, db, db', mover, pc);
    } else if pc.UhPut300? {
      LargeWriterStable(c, db, db', mover, pc);
    } else if pc.UhGet? {
      CheckHasNoNeeds(c, db', pc);
    } else if pc.DeleteHandler() {
      DeleterStable(c, db, db', mover, pc);
    } else if pc.UploadHandler() {
      HandlerStable(c, db, db', mover, pc);
    } else {
      ServerStable(c, db, db', mover, pc);
    }
  }

  lemma CheckHasNoNeeds(c: Config, db: Db, pc: Pc)
    requires pc.UhGet? || pc.CurList? || pc.DelGet?
    ensures PcInv(c, db, pc)
  {
  }

  /** A step keeps the stores' invariant, what its process relies on, and its guarantee to others. */
  ghost predicate Keeps(c: Config, db: Db, pc: Pc, ch: Choice) {
    var (db', next) := Micro(c, db, pc, ch);
    && DbInv(c, db')
    && Guarantee(db, db', pc)
    && (next.Go? ==> PcInv(c, db', next.pc))
  }

  // Deletions are never taken back, so what is said of deleted avatars stays true

  lemma DeletedStays(m: Avatars, m': Avatars, h: History, deletes: multiset<Id>, mover: Pc)
    requires RecordsKept(m, m', mover) && Tallied(m, h.succeeded, h.announced) && OnlyDeleted(m, deletes)
    ensures Tallied(m', h.succeeded, h.announced) && OnlyDeleted(m', deletes)
  {
    forall id
      ensures TallyOk(m', h.succeeded, h.announced, id)
    {
      assert TallyOk(m, h.succeeded, h.announced, id);
    }
  }

  lemma ReadKeeps(c: Config, db: Db, pc: Pc, ch: Choice)
    requires DbInv(c, db) && PcInv(c, db, pc)
    requires pc.CurList? || pc.CurScan? || pc.DelGet? || pc.UhGet?
    ensures Keeps(c, db, pc, ch)
  {
    hide DbInv;
  }

  /** A read changes nothing; what it finds is the upload. */
  lemma ReadShape(c: Config, db: Db, pc: Pc, ch: Choice)
    requires pc.UhRead?
    ensures var (db', next) := Micro(c, db, pc, ch);
            && db' == db && next.Go? && next.pc.id == pc.id
            && (next.pc.UhFail? || next.pc.UhPut100?)
            && (next.pc.UhPut100? ==> pc.key in db.objects && Thumbnailable(c, db.objects[pc.key].data))
            && (next.pc.UhFail? && pc.key in db.objects ==>
                  !ch.outcome.Fine? || !Thumbnailable(c, db.objects[pc.key].data))
            && (next.pc.UhPut100? ==>
                  var data := db.objects[pc.key].data;
                  next.pc == UhPut100(pc.id, c.thumbnail(data, Size100).value, c.thumbnail(data, Size300).value))
  {
  }

  lemma HandlerReadKeeps(c: Config, db: Db, pc: Pc, ch: Choice)
    requires DbInv(c, db) && PcInv(c, db, pc) && pc.UhRead?
    ensures Keeps(c, db, pc, ch)
  {
    if pc.key in db.objects {
      OriginalIsUpload(c, db, pc.id, pc.key);
    }
    ReadShape(c, db, pc, ch);
    hide DbInv, Guarantee, Micro;
    GuaranteeRefl(c, db, pc);
  }

  lemma OriginalIsUpload(c: Config, db: Db, id: Id, key: Key)
    requires DbInv(c, db) && id in db.avatars && key == db.avatars[id].originalKey && key in db.objects
    ensures id in db.history.inputs && db.objects[key].data == db.history.inputs[id].content
  {
    assert ObjectOk(c, db.history.inputs, key, db.objects[key]);
    assert RecordOk(db.history.inputs, id, db.avatars[id]);
    hide DbInv;
  }

  lemma KeysOwned(inputs: Inputs, id: Id, a: Avatar)
    requires RecordOk(inputs, id, a)
    ensures forall k :: k in KeysOf(a) ==> k.OwnedBy(id)
  {
  }

  lemma DeleteReadKeeps(c: Config, db: Db, pc: Pc, ch: Choice)
    requires DbInv(c, db) && PcInv(c, db, pc) && pc.DhGet?
    ensures Keeps(c, db, pc, ch)
  {
    assert RecordOk(db.history.inputs, pc.id, db.avatars[pc.id]);
    hide DbInv, Guarantee, KeysOf, RecordOk;
    KeysOwned(db.history.inputs, pc.id, db.avatars[pc.id]);
    GuaranteeRefl(c, db, pc);
    assert Micro(c, db, pc, ch).0 == db;
  }

  lemma UploadPutKeeps(c: Config, db: Db, pc: Pc, ch: Choice)
    requires DbInv(c, db) && PcInv(c, db, pc) && pc.UpPut?
    ensures Keeps(c, db, pc, ch)
  {
    var key, stored := OriginalKeyOf(pc.id, pc.input), Object(pc.input.content, pc.input.mime);
    assert ObjectOk(c, db.history.inputs, key, stored);
    GuaranteeRefl(c, db, pc);
    hide DbInv, Guarantee, ObjectOk;
    ObjectAdded(c, db, key, stored, pc);
  }

  lemma SmallPutKeeps(c: Config, db: Db, pc: Pc, ch: Choice)
    requires DbInv(c, db) && PcInv(c, db, pc) && pc.UhPut100?
    ensures Keeps(c, db, pc, ch)
  {
    var key, stored := Thumb100(pc.id), Object(pc.thumb100, JpegMime());
    assert ObjectOk(c, db.history.inputs, key, stored);
    hide DbInv, Guarantee, ObjectOk;
    GuaranteeRefl(c, db, pc);
    ObjectAdded(c, db, key, stored, pc);
  }

  lemma LargePutKeeps(c: Config, db: Db, pc: Pc, ch: Choice)
    requires DbInv(c, db) && PcInv(c, db, pc) && pc.UhPut300?
    ensures Keeps(c, db, pc, ch)
  {
    var key, stored := Thumb300(pc.id), Object(pc.thumb300, JpegMime());
    assert ObjectOk(c, db.history.inputs, key, stored);
    hide DbInv, Guarantee, ObjectOk;
    GuaranteeRefl(c, db, pc);
    ObjectAdded(c, db, key, stored, pc);
  }

  /** Storing an object that is in order. */
  lemma ObjectAdded(c: Config, db: Db, key: Key, stored: Object, mover: Pc)
    requires DbInv(c, db) && ObjectOk(c, db.history.inputs, key, stored)
    ensures var db' := db.(objects := db.objects[key := stored]); DbInv(c, db') && Guarantee(db, db', mover)
  {
    GuaranteeRefl(c, db, mover);
    hide RecordsOk, ObjectOk, Tallied, OnlyDeleted, SlashFree, RecordsKept, TalliesKept, InputsKept;
  }

  lemma PublishKeeps(c: Config, db: Db, pc: Pc, ch: Choice)
    requires DbInv(c, db) && PcInv(c, db, pc) && pc.UpPublish?
    ensures Keeps(c, db, pc, ch)
  {
    GuaranteeRefl(c, db, pc);
    hide RecordsOk, ObjectsOk, LiveBacked, Tallied, OnlyDeleted, SlashFree, RecordsKept, ObjectsKept;
  }

  lemma AnnounceKeeps(c: Config, db: Db, pc: Pc, ch: Choice)
    requires DbInv(c, db) && PcInv(c, db, pc) && pc.DelPublish?
    ensures Keeps(c, db, pc, ch)
  {
    var h := db.history;
    var h' := h.(announced := h.announced + multiset{pc.id});
    GuaranteeRefl(c, db, pc);
    hide ObjectsOk, RecordsOk, LiveBacked, RecordsKept, ObjectsKept, SlashFree;
    forall id
      ensures TallyOk(db.avatars, h'.succeeded, h'.announced, id)
    {
      assert TallyOk(db.avatars, h.succeeded, h.announced, id);
    }
    hide TallyOk;
  }

  /** Replacing one record by one that is in order and no less deleted, or adding one. */
  lemma ReplaceKeeps(db: Db, m': Avatars, id: Id, mover: Pc)
    requires RecordsOk(db.history.inputs, db.avatars) && LiveBacked(db.avatars, db.objects)
    requires Tallied(db.avatars, db.history.succeeded, db.history.announced) && OnlyDeleted(db.avatars, db.deletes)
    requires id in m' && m' == db.avatars[id := m'[id]]
    requires if id in db.avatars then SameIdentity(db.avatars[id], m'[id]) else mover.UpCreate? && mover.id == id
    requires RecordOk(db.history.inputs, id, m'[id]) && Backed(m'[id], db.objects)
    ensures RecordsOk(db.history.inputs, m') && LiveBacked(m', db.objects) && RecordsKept(db.avatars, m', mover)
    ensures Tallied(m', db.history.succeeded, db.history.announced) && OnlyDeleted(m', db.deletes)
  {
    DeletedStays(db.avatars, m', db.history, db.deletes, mover);
  }

  /** Either nothing happens to the stores, or the record is soft-deleted; that counts as a success only
      if the record was live. */
  lemma SoftDeleteInOrder(c: Config, db: Db, pc: Pc, ch: Choice)
    requires PcInv(c, db, pc) && pc.DelSoft?
    requires RecordOk(db.history.inputs, pc.id, db.avatars[pc.id]) && Backed(db.avatars[pc.id], db.objects)
    ensures var ((db', next), id) := (Micro(c, db, pc, ch), pc.id);
            && db' == db.(avatars := db'.avatars, history := db'.history)
            && id in db'.avatars && db'.avatars == db.avatars[id := db'.avatars[id]]
            && SameIdentity(db.avatars[id], db'.avatars[id])
            && RecordOk(db.history.inputs, id, db'.avatars[id]) && Backed(db'.avatars[id], db.objects)
            && (db'.history == db.history ||
                (LiveIn(db.avatars, id) && Deleted(db'.avatars, id)
                 && db'.history == db.history.(succeeded := db.history.succeeded + multiset{id})))
            && (next.Go? ==> next.pc == DelPublish(id) && Deleted(db'.avatars, id) && LiveIn(db.avatars, id)
                             && db'.history != db.history)
  {
    assert db.history.succeeded + multiset{} == db.history.succeeded;
    assert (db.history.succeeded + multiset{pc.id})[pc.id] == db.history.succeeded[pc.id] + 1;
  }

  lemma SoftDeleteKeeps(c: Config, db: Db, pc: Pc, ch: Choice)
    requires DbInv(c, db) && PcInv(c, db, pc) && pc.DelSoft?
    ensures Keeps(c, db, pc, ch)
  {
    var (db', next) := Micro(c, db, pc, ch);
    assert RecordOk(db.history.inputs, pc.id, db.avatars[pc.id]) && Backed(db.avatars[pc.id], db.objects);
    SoftDeleteInOrder(c, db, pc, ch);
    var m' := db'.avatars;
    hide Micro, RecordOk, Backed, SameIdentity;
    ReplacementKeeps(c, db, m', pc.id, pc);
    SoftDeleteTallies(db.avatars, m', db.history, db'.history, pc.id);
    hide RecordsOk, ObjectsOk, LiveBacked, Tallied, OnlyDeleted, SlashFree, RecordsKept, ObjectsKept;
    assert next.Go? ==> PcInv(c, db', next.pc);
    hide PcInv;
  }

  /** A success is recorded only for a record that was live, hence not counted before. */
  lemma SoftDeleteTallies(m: Avatars, m': Avatars, h: History, h': History, id: Id)
    requires Tallied(m, h.succeeded, h.announced) && Tallied(m', h.succeeded, h.announced)
    requires h' == h || (LiveIn(m, id) && Deleted(m', id) && h' == h.(succeeded := h.succeeded + multiset{id}))
    ensures Tallied(m', h'.succeeded, h'.announced)
    ensures LiveIn(m, id) ==> h.succeeded[id] == h.announced[id] == 0
  {
    assert TallyOk(m, h.succeeded, h.announced, id);
    forall x
      ensures TallyOk(m', h'.succeeded, h'.announced, x)
    {
      assert TallyOk(m', h.succeeded, h.announced, x);
    }
  }

  /** A call that replaces or adds one record, and does nothing else. */
  lemma ReplacementKeeps(c: Config, db: Db, m': Avatars, id: Id, mover: Pc)
    requires DbInv(c, db) && id in m' && m' == db.avatars[id := m'[id]]
    requires if id in db.avatars then SameIdentity(db.avatars[id], m'[id]) else mover.UpCreate? && mover.id == id
    requires RecordOk(db.history.inputs, id, m'[id]) && Backed(m'[id], db.objects)
    ensures DbInv(c, db.(avatars := m')) && Guarantee(db, db.(avatars := m'), mover)
  {
    hide ObjectsOk, RecordsOk, RecordOk, Backed, LiveBacked, Tallied, OnlyDeleted, RecordsKept, SameIdentity, SlashFree;
    ReplaceKeeps(db, m', id, mover);
  }

  lemma CreateKeeps(c: Config, db: Db, pc: Pc, ch: Choice)
    requires DbInv(c, db) && PcInv(c, db, pc) && pc.UpCreate?
    ensures Keeps(c, db, pc, ch)
  {
    var a := NewAvatar(pc.id, pc.input, pc.now);
    assert RecordOk(db.history.inputs, pc.id, a) && Backed(a, db.objects);
    hide DbInv, RecordOk, Backed, Guarantee;
    GuaranteeRefl(c, db, pc);
    ReplacementKeeps(c, db, db.avatars[pc.id := a], pc.id, pc);
  }

  /** Its status, or its variants, are all that the three updates without a deletion replace. */
  lemma UpdateInOrder(c: Config, db: Db, pc: Pc, ch: Choice)
    requires PcInv(c, db, pc) && (pc.UpMark? || pc.UhUpdate? || pc.UhFail?) && pc.id in db.avatars
    requires RecordOk(db.history.inputs, pc.id, db.avatars[pc.id]) && Backed(db.avatars[pc.id], db.objects)
    ensures var (db', next) := Micro(c, db, pc, ch);
            && next.Return?
            && db' == db.(avatars := db'.avatars)
            && pc.id in db'.avatars && db'.avatars == db.avatars[pc.id := db'.avatars[pc.id]]
            && SameIdentity(db.avatars[pc.id], db'.avatars[pc.id])
            && RecordOk(db.history.inputs, pc.id, db'.avatars[pc.id]) && Backed(db'.avatars[pc.id], db.objects)
  {
  }

  lemma UpdateKeeps(c: Config, db: Db, pc: Pc, ch: Choice)
    requires DbInv(c, db) && PcInv(c, db, pc) && (pc.UpMark? || pc.UhUpdate? || pc.UhFail?)
    requires pc.id in db.avatars
    ensures Keeps(c, db, pc, ch)
  {
    assert RecordOk(db.history.inputs, pc.id, db.avatars[pc.id]) && Backed(db.avatars[pc.id], db.objects);
    hide DbInv, PcInv, RecordOk, Backed, SameIdentity, Micro, Guarantee;
    UpdateInOrder(c, db, pc, ch);
    ReplacementKeeps(c, db, Micro(c, db, pc, ch).0.avatars, pc.id, pc);
  }

  /** An upload whose record was not created has nothing to mark. */
  lemma MarkNothing(c: Config, db: Db, pc: Pc, ch: Choice)
    requires DbInv(c, db) && pc.UpMark? && pc.id !in db.avatars
    ensures Keeps(c, db, pc, ch)
  {
    hide DbInv;
  }

  lemma RemoveKeeps(c: Config, db: Db, pc: Pc, ch: Choice)
    requires DbInv(c, db) && PcInv(c, db, pc) && pc.DhDel?
    ensures Keeps(c, db, pc, ch)
  {
    if pc.keys == [] {
      GuaranteeRefl(c, db, pc);
      hide DbInv, Guarantee;
    } else {
      assert pc.keys[0] in pc.keys && forall k :: k in pc.keys[1..] ==> k in pc.keys;
      GuaranteeRefl(c, db, pc);
      ObjectRemoved(c, db, pc);
      hide DbInv, Guarantee;
    }
  }

  /** What a live record needs is not among the objects of a deleted avatar. */
  lemma BackedWithout(inputs: Inputs, m: Avatars, objects: Objects, id: Id, key: Key)
    requires RecordsOk(inputs, m) && LiveBacked(m, objects) && Deleted(m, id) && key.OwnedBy(id)
    ensures LiveBacked(m, objects - {key})
  {
    forall x | x in m
      ensures Backed(m[x], objects - {key})
    {
      assert RecordOk(inputs, x, m[x]) && Backed(m[x], objects);
    }
  }

  lemma ObjectRemoved(c: Config, db: Db, pc: Pc)
    requires DbInv(c, db) && PcInv(c, db, pc) && pc.DhDel? && pc.keys != []
    ensures var db' := db.(objects := db.objects - {pc.keys[0]}); DbInv(c, db') && Guarantee(db, db', pc)
  {
    var key := pc.keys[0];
    assert key in pc.keys && Deleted(db.avatars, pc.id) && key.OwnedBy(pc.id);
    hide PcInv;
    GuaranteeRefl(c, db, pc);
    BackedWithout(db.history.inputs, db.avatars, db.objects, pc.id, key);
    hide RecordsOk, ObjectOk, LiveBacked, Tallied, OnlyDeleted, SlashFree;
    hide RecordsKept, TalliesKept, InputsKept, Deleted;
  }

  lemma HandlesRecord(c: Config, db: Db, pc: Pc)
    requires PcInv(c, db, pc) && (pc.UhUpdate? || pc.UhFail?)
    ensures pc.id in db.avatars
  {
  }

  lemma MicroKeeps(c: Config, db: Db, pc: Pc, ch: Choice)
    requires DbInv(c, db) && PcInv(c, db, pc)
    ensures Keeps(c, db, pc, ch)
  {
    hide DbInv, PcInv, Keeps;
    match pc
    case UpPut(_, _, _) => UploadPutKeeps(c, db, pc, ch);
    case UpCreate(_, _, _) => CreateKeeps(c, db, pc, ch);
    case UpPublish(_) => PublishKeeps(c, db, pc, ch);
    case UpMark(id) =>
      if id in db.avatars {
        UpdateKeeps(c, db, pc, ch);
      } else {
        MarkNothing(c, db, pc, ch);
      }
    case CurList(_, _) => ReadKeeps(c, db, pc, ch);
    case CurScan(_, _, _) => ReadKeeps(c, db, pc, ch);
    case DelGet(_, _, _) => ReadKeeps(c, db, pc, ch);
    case DelSoft(_, _, _) => SoftDeleteKeeps(c, db, pc, ch);
    case DelPublish(_) => AnnounceKeeps(c, db, pc, ch);
    case UhGet(_) => ReadKeeps(c, db, pc, ch);
    case UhRead(_, _) => HandlerReadKeeps(c, db, pc, ch);
    case UhPut100(_, _, _) => SmallPutKeeps(c, db, pc, ch);
    case UhPut300(_, _) => LargePutKeeps(c, db, pc, ch);
    case UhUpdate(id) =>
      HandlesRecord(c, db, pc);
      UpdateKeeps(c, db, pc, ch);
    case UhFail(id, _) =>
      HandlesRecord(c, db, pc);
      UpdateKeeps(c, db, pc, ch);
    case DhGet(_) => DeleteReadKeeps(c, db, pc, ch);
    case DhDel(_, _) => RemoveKeeps(c, db, pc, ch);
  }

  // Interleavings keep the invariant

  /** Going on, a process keeps its task; it takes up the announcement of a delete only if nobody
      has announced that delete. */
  lemma TaskInherited(c: Config, db: Db, pc: Pc, ch: Choice, other: Pc)
    requires DbInv(c, db) && PcInv(c, db, pc) && PcInv(c, db, other) && !SameTask(pc, other)
    ensures var next := Micro(c, db, pc, ch).1; next.Go? ==> !SameTask(next.pc, other)
  {
    hide DbInv;
    if pc.Uploading() || pc.DelPublish? {
      hide PcInv;
    } else if pc.DelSoft? {
    } else {
      hide PcInv;
      OnlySoftDeletesTakeUp(c, db, pc, ch);
      hide Micro;
    }
  }

  /** Nothing else becomes an upload, or the announcement of a deletion. */
  lemma OnlySoftDeletesTakeUp(c: Config, db: Db, pc: Pc, ch: Choice)
    requires !pc.Uploading() && !pc.DelPublish? && !pc.DelSoft?
    ensures var next := Micro(c, db, pc, ch).1; next.Go? ==> NoTask(next.pc)
  {
  }

  /** What the other processes rely on, and the tasks they have, survive a call. */
  lemma OtherKept(c: Config, db: Db, pc: Pc, ch: Choice, other: Pc)
    requires DbInv(c, db) && PcInv(c, db, pc) && PcInv(c, db, other) && !SameTask(pc, other)
    requires Keeps(c, db, pc, ch)
    ensures var (db', next) := Micro(c, db, pc, ch);
            PcInv(c, db', other) && (next.Go? ==> !SameTask(next.pc, other) && !SameTask(other, next.pc))
  {
    hide Micro, DbInv, PcInv, SameTask, Guarantee;
    var (db', next) := Micro(c, db, pc, ch);
    Stable(c, db, db', pc, other);
    TaskInherited(c, db, pc, ch, other);
    if next.Go? {
      TaskSymmetric(next.pc, other);
    }
  }

  lemma ProcessGoes(c: Config, s: State, pid: Pid, db': Db, pc': Pc)
    requires ProcsInv(c, s) && pid in s.procs && PcInv(c, db', pc')
    requires forall p :: p in s.procs && p != pid ==>
               PcInv(c, db', s.procs[p]) && !SameTask(pc', s.procs[p]) && !SameTask(s.procs[p], pc')
    ensures ProcsInv(c, State(db', s.procs[pid := pc']))
  {
    hide PcInv, SameTask;
  }

  lemma ProcessEnds(c: Config, s: State, pid: Pid, db': Db)
    requires ProcsInv(c, s) && forall p :: p in s.procs && p != pid ==> PcInv(c, db', s.procs[p])
    ensures ProcsInv(c, State(db', s.procs - {pid}))
  {
    hide PcInv, SameTask;
  }

  lemma AdvanceKeeps(c: Config, s: State, pid: Pid, ch: Choice, ackLost: bool)
    requires Inv(c, s) && Enabled(s, Advance(pid, ch, ackLost))
    ensures Inv(c, Do(c, s, Advance(pid, ch, ackLost)))
  {
    var pc, s' := s.procs[pid], Do(c, s, Advance(pid, ch, ackLost));
    AdvanceShape(c, s, pid, ch, ackLost);
    hide Micro, DbInv, PcInv, SameTask, Guarantee, Do, Requeue, Enabled;
    var (db', next) := Micro(c, s.db, pc, ch);
    MicroKeeps(c, s.db, pc, ch);
    forall p | p in s.procs && p != pid
      ensures PcInv(c, db', s.procs[p])
      ensures next.Go? ==> !SameTask(next.pc, s.procs[p]) && !SameTask(s.procs[p], next.pc)
    {
      OtherKept(c, s.db, pc, ch, s.procs[p]);
    }
    assert DbInv(c, db') && Guarantee(s.db, db', pc) && (next.Go? ==> PcInv(c, db', next.pc));
    hide Keeps;
    if next.Go? {
      ProcessGoes(c, s, pid, db', next.pc);
      assert s' == State(db', s.procs[pid := next.pc]);
    } else {
      RequeueKeeps(c, s.db, db', pc);
      ProcessEnds(c, s, pid, s'.db);
      assert s' == State(s'.db, s.procs - {pid});
    }
  }

  lemma TaskSymmetric(p: Pc, q: Pc)
    ensures SameTask(p, q) == SameTask(q, p)
  {
  }

  lemma StaysDeleted(c: Config, db: Db, db': Db, pc: Pc)
    requires PcInv(c, db, pc) && Guarantee(db, db', pc) && pc.DeleteHandler()
    ensures Deleted(db'.avatars, pc.id)
  {
    hide Guarantee, PcInv;
    DeleterStable(c, db, db', pc, pc);
    DeleterNamesDeleted(c, db', pc);
  }

  lemma DeleterNamesDeleted(c: Config, db: Db, pc: Pc)
    requires PcInv(c, db, pc) && pc.DeleteHandler()
    ensures Deleted(db.avatars, pc.id)
  {
  }

  lemma RequeueInOrder(c: Config, db: Db, pc: Pc)
    requires DbInv(c, db) && (pc.DeleteHandler() ==> Deleted(db.avatars, pc.id))
    ensures DbInv(c, Requeue(db, pc))
  {
    hide RecordsOk, ObjectsOk, LiveBacked, Tallied, SlashFree, Deleted;
  }

  /** A returning, crashing or redelivered handler queues an event like the one it was started by. */
  lemma RequeueKeeps(c: Config, db: Db, db': Db, pc: Pc)
    requires DbInv(c, db') && PcInv(c, db, pc) && Guarantee(db, db', pc)
    ensures DbInv(c, Requeue(db', pc))
    ensures forall other :: PcInv(c, db', other) ==> PcInv(c, Requeue(db', pc), other)
  {
    hide DbInv, PcInv, Guarantee;
    if pc.DeleteHandler() {
      StaysDeleted(c, db, db', pc);
    }
    RequeueInOrder(c, db', pc);
    forall other
      ensures PcInv(c, db', other) ==> PcInv(c, Requeue(db', pc), other)
    {
      QueuesUnread(c, db', Requeue(db', pc), other);
    }
  }

  /** No process relies on what is in the queues. */
  lemma QueuesUnread(c: Config, db: Db, db': Db, pc: Pc)
    requires db' == db.(uploads := db'.uploads, deletes := db'.deletes)
    ensures PcInv(c, db, pc) == PcInv(c, db', pc)
  {
  }

  lemma GuaranteeRefl(c: Config, db: Db, pc: Pc)
    ensures Guarantee(db, db, pc)
  {
  }

  /** Steps that queue, or stop, without a call. */
  lemma BrokerKeeps(c: Config, s: State, step: Step)
    requires Inv(c, s) && Enabled(s, step) && (step.Redeliver? || step.Crash?)
    ensures Inv(c, Do(c, s, step))
  {
    var pc := s.procs[step.pid];
    hide DbInv, PcInv, SameTask, Guarantee, Requeue;
    GuaranteeRefl(c, s.db, pc);
    RequeueKeeps(c, s.db, s.db, pc);
    if step.Crash? {
      ProcessEnds(c, s, step.pid, Requeue(s.db, pc));
    } else {
      hide Requeue;
    }
  }

  /** A process without a task of its own. */
  predicate NoTask(pc: Pc) {
    !pc.Uploading() && !pc.DelPublish?
  }

  /** Starting a process on stores on which all rely as before. */
  lemma StartKeeps(c: Config, s: State, db': Db, pid: Pid, pc: Pc)
    requires Inv(c, s) && pid !in s.procs && DbInv(c, db') && PcInv(c, db', pc) && NoTask(pc)
    requires forall p :: p in s.procs ==> PcInv(c, db', s.procs[p])
    ensures Inv(c, State(db', s.procs[pid := pc]))
  {
    hide DbInv, PcInv;
  }

  lemma DeliverKeeps(c: Config, s: State, step: Step)
    requires Inv(c, s) && Enabled(s, step) && (step.DeliverUpload? || step.DeliverDelete?)
    ensures Inv(c, Do(c, s, step))
  {
    var db := s.db;
    hide PcInv, DbInv;
    if step.DeliverUpload? {
      var db' := db.(uploads := db.uploads - multiset{step.id});
      QueueShrinks(c, db, db');
      CheckHasNoNeeds(c, db', UhGet(step.id));
      forall p | p in s.procs
        ensures PcInv(c, db', s.procs[p])
      {
        QueuesUnread(c, db, db', s.procs[p]);
      }
      hide Inv;
      StartKeeps(c, s, db', step.pid, UhGet(step.id));
    } else {
      var db' := db.(deletes := db.deletes - multiset{step.id});
      QueueShrinks(c, db, db');
      DeliveredOk(c, db, step.id, db');
      forall p | p in s.procs
        ensures PcInv(c, db', s.procs[p])
      {
        QueuesUnread(c, db, db', s.procs[p]);
      }
      hide Inv;
      StartKeeps(c, s, db', step.pid, DhGet(step.id));
    }
  }

  lemma QueueShrinks(c: Config, db: Db, db': Db)
    requires DbInv(c, db) && db' == db.(uploads := db'.uploads, deletes := db'.deletes)
    requires forall id :: id in db'.deletes ==> id in db.deletes
    ensures DbInv(c, db')
  {
    hide RecordsOk, ObjectsOk, LiveBacked, Tallied, SlashFree;
  }

  lemma DeliveredOk(c: Config, db: Db, id: Id, db': Db)
    requires DbInv(c, db) && id in db.deletes && db'.avatars == db.avatars
    ensures PcInv(c, db', DhGet(id))
  {
    hide RecordsOk, ObjectsOk, LiveBacked, Tallied, SlashFree;
  }

  lemma UploadStartKeeps(c: Config, s: State, step: Step)
    requires Inv(c, s) && Enabled(s, step) && step.StartUpload?
    ensures Inv(c, Do(c, s, step))
  {
    var s' := Do(c, s, step);
    var db, db', pc := s.db, s'.db, UpPut(step.id, step.input, step.now);
    hide PcInv, DbInv, SameTask, Guarantee;
    NewInputKeeps(c, db, step.id, step.input);
    forall p | p in s.procs
      ensures PcInv(c, db', s.procs[p]) && !SameTask(pc, s.procs[p]) && !SameTask(s.procs[p], pc)
    {
      NoTaskYet(c, db, step.id, pc, s.procs[p]);
      OnlyUploadsShare(UhGet(""), s.procs[p]);
      Stable(c, db, db', UhGet(""), s.procs[p]);
    }
    NewUploadOk(c, db, step.id, step.input, step.now);
  }

  lemma OnlyUploadsShare(p: Pc, q: Pc)
    requires NoTask(p)
    ensures !SameTask(p, q) && !SameTask(q, p)
  {
  }

  lemma NoTaskYet(c: Config, db: Db, id: Id, pc: Pc, other: Pc)
    requires PcInv(c, db, other) && id !in db.history.inputs && pc.UpPut? && pc.id == id
    ensures !SameTask(pc, other) && !SameTask(other, pc)
  {
  }

  lemma NewUploadOk(c: Config, db: Db, id: Id, input: UploadInput, now: Time)
    requires DbInv(c, db) && id !in db.history.inputs
    ensures var db' := db.(history := db.history.(inputs := db.history.inputs[id := input]));
            PcInv(c, db', UpPut(id, input, now))
  {
    assert id in db.avatars ==> RecordOk(db.history.inputs, id, db.avatars[id]);
    hide DbInv;
  }

  lemma NewInputKeeps(c: Config, db: Db, id: Id, input: UploadInput)
    requires DbInv(c, db) && id !in db.history.inputs && '/' !in id
    ensures var db' := db.(history := db.history.(inputs := db.history.inputs[id := input]));
            DbInv(c, db') && Guarantee(db, db', UhGet(""))
  {
    hide Tallied, LiveBacked, OnlyDeleted;
  }

  lemma DeleteStartKeeps(c: Config, s: State, step: Step)
    requires Inv(c, s) && Enabled(s, step) && (step.StartDelete? || step.StartDeleteCurrent?)
    ensures Inv(c, Do(c, s, step))
  {
    var pc := if step.StartDelete? then DelGet(step.id, step.owner, step.now) else CurList(step.owner, step.now);
    hide DbInv, PcInv;
    CheckHasNoNeeds(c, s.db, pc);
    StartKeeps(c, s, s.db, step.pid, pc);
  }

  lemma DoKeeps(c: Config, s: State, step: Step)
    requires Inv(c, s) && Enabled(s, step)
    ensures Inv(c, Do(c, s, step))
  {
    hide Inv, Do;
    match step
    case StartUpload(_, _, _, _) => UploadStartKeeps(c, s, step);
    case StartDelete(_, _, _, _) => DeleteStartKeeps(c, s, step);
    case StartDeleteCurrent(_, _, _) => DeleteStartKeeps(c, s, step);
    case DeliverUpload(_, _) => DeliverKeeps(c, s, step);
    case DeliverDelete(_, _) => DeliverKeeps(c, s, step);
    case Advance(pid, ch, ackLost) => AdvanceKeeps(c, s, pid, ch, ackLost);
    case Redeliver(_) => BrokerKeeps(c, s, step);
    case Crash(_) => BrokerKeeps(c, s, step);
  }

  lemma InitInv(c: Config)
    ensures Inv(c, Init())
  {
  }

  lemma {:induction false} RunKeeps(c: Config, states: seq<State>, steps: seq<Step>, i: nat)
    requires IsRun(c, states, steps) && i <= |steps|
    ensures Inv(c, states[i])
  {
    hide Inv, Do, Enabled;
    if i == 0 {
      InitInv(c);
    } else {
      RunKeeps(c, states, steps, i - 1);
      DoKeeps(c, states[i - 1], steps[i - 1]);
    }
  }
}
