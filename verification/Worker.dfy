/** The worker: event handlers (internal/worker/worker.go) and the loop that feeds them
    (internal/worker/runner.go). A handler is the uninterrupted run of its protocol process. */
module Worker {
  import opened Domain
  import opened Store
  import opened Protocol
  import opened Sequential

  /** `fn(k)` is the k-th attempt, `cancelled(k)` whether the context is over after it. */
  predicate SucceedsAt(fn: nat -> Option<Error>, cancelled: nat -> bool, k: nat) {
    fn(k).None? && forall j: nat :: j < k ==> fn(j).Some? && !cancelled(j)
  }

  /** Succeeds iff an attempt within the limit (at least one) succeeds before the context is over;
      otherwise returns the context's error if it is over, else the last attempt's. */
  method Retry(attempts: int, fn: nat -> Option<Error>, cancelled: nat -> bool, over: Error)
    returns (err: Option<Error>)
    ensures var limit := if attempts < 1 then 1 else attempts;
            && (err.None? <==> exists k: nat :: k < limit && SucceedsAt(fn, cancelled, k))
            && (err.Some? ==> err == Some(over) || err == fn(limit - 1))
            && (err.Some? && (forall j: nat :: j < limit ==> !cancelled(j)) ==> err == fn(limit - 1))
            && (forall k: nat :: k < limit && cancelled(k) && (forall j: nat :: j <= k ==> fn(j).Some?) ==>
                  err == Some(over))
  {
    var limit := if attempts < 1 then 1 else attempts;
    err := None;
    var i := 0;
    while i < limit
      invariant 0 <= i <= limit
      invariant forall j: nat :: j < i ==> fn(j).Some? && !cancelled(j)
      invariant i > 0 ==> err == fn(i - 1)
    {
      err := fn(i);
      if err.None? {
        assert SucceedsAt(fn, cancelled, i);
        return;
      }
      if cancelled(i) {
        return Some(over);
      }
      i := i + 1;
    }
  }

  /** One call of an uninterrupted process. */
  lemma SoloStep(c: Config, db: Db, pc: Pc, os: Outcomes, n: nat)
    requires !pc.CurList?
    ensures var (db', next) := Micro(c, db, pc, Choice(os(n), []));
            && (next.Return? ==> Solo(c, db, pc, os, n) == (db', next.err))
            && (next.Go? ==> Solo(c, db, pc, os, n) == Solo(c, db', next.pc, os, n + 1))
  {
  }

  /** Which avatar an upload handler has work with. */
  predicate IsDone(a: Avatar) {
    a.status == Completed && a.thumb100Available && a.thumb300Available
  }

  lemma CheckSolo(c: Config, db: Db, id: Id, os: Outcomes)
    ensures var (run, found) := (Solo(c, db, UhGet(id), os, 0), FindActive(db.avatars, id));
            && (!os(0).Fine? ==> run == (db, Some(Dependency)))
            && (os(0).Fine? && (found.Err? || IsDone(found.value)) ==> run == (db, None))
            && (os(0).Fine? && found.Ok? && !IsDone(found.value) ==>
                  run == Solo(c, db, UhRead(id, found.value.originalKey), os, 1))
  {
    SoloStep(c, db, UhGet(id), os, 0);
    hide Solo;
  }

  lemma ReadSolo(c: Config, db: Db, id: Id, key: Key, os: Outcomes)
    ensures var run := Solo(c, db, UhRead(id, key), os, 1);
            && (!os(1).Fine? ==> run == Solo(c, db, UhFail(id, Dependency), os, 2))
            && (os(1).Fine? && key !in db.objects ==> run == Solo(c, db, UhFail(id, ObjectNotFound), os, 2))
            && (os(1).Fine? && key in db.objects && !Thumbnailable(c, db.objects[key].data) ==>
                  run == Solo(c, db, UhFail(id, ThumbnailFailed), os, 2))
            && (os(1).Fine? && key in db.objects && Thumbnailable(c, db.objects[key].data) ==>
                  var data := db.objects[key].data;
                  var pc := UhPut100(id, c.thumbnail(data, Size100).value, c.thumbnail(data, Size300).value);
                  run == Solo(c, db, pc, os, 2))
  {
    SoloStep(c, db, UhRead(id, key), os, 1);
    hide Solo;
  }

  /** The two writes. */
  lemma SmallPutSolo(c: Config, db: Db, id: Id, t100: Bytes, t300: Bytes, os: Outcomes)
    ensures var db' := PutObject(db, os(2), Thumb100(id), t100, JpegMime());
            Solo(c, db, UhPut100(id, t100, t300), os, 2) ==
            Solo(c, db', if os(2).Fine? then UhPut300(id, t300) else UhFail(id, Dependency), os, 3)
  {
    SoloStep(c, db, UhPut100(id, t100, t300), os, 2);
    hide Solo;
  }

  lemma LargePutSolo(c: Config, db: Db, id: Id, t300: Bytes, os: Outcomes)
    ensures var db' := PutObject(db, os(3), Thumb300(id), t300, JpegMime());
            Solo(c, db, UhPut300(id, t300), os, 3) ==
            Solo(c, db', if os(3).Fine? then UhUpdate(id) else UhFail(id, Dependency), os, 4)
  {
    SoloStep(c, db, UhPut300(id, t300), os, 3);
    hide Solo;
  }

  lemma UpdateSolo(c: Config, db: Db, id: Id, os: Outcomes)
    ensures var (processed, err) := Processed(db.avatars, id, Thumb100(id), Thumb300(id));
            Solo(c, db, UhUpdate(id), os, 4) ==
            (db.(avatars := Effect(os(4), db.avatars, processed)), Ending(os(4), err))
  {
    SoloStep(c, db, UhUpdate(id), os, 4);
    hide Solo;
  }

  lemma NoKeys()
    ensures NonEmpty([]) == []
  {
  }

  /** One turn of the loop over the keys of a record. */
  lemma KeySolo(c: Config, db: Db, id: Id, keys: seq<Key>, os: Outcomes, n: nat)
    requires keys != []
    ensures var removed := db.(objects := Effect(os(n), db.objects, db.objects - {keys[0]}));
            Solo(c, db, DhDel(id, NonEmpty(keys)), os, n) ==
            if keys[0] == NoKey then Solo(c, db, DhDel(id, NonEmpty(keys[1..])), os, n)
            else if os(n).Fine? then Solo(c, removed, DhDel(id, NonEmpty(keys[1..])), os, n + 1)
            else (removed, Some(Dependency))
  {
    var left := NonEmpty(keys);
    if keys[0] == NoKey {
      assert left == NonEmpty(keys[1..]);
    } else {
      assert left == [keys[0]] + NonEmpty(keys[1..]);
      assert left[1..] == NonEmpty(keys[1..]);
      hide NonEmpty;
    }
  }

  class UploadHandler {
    const repo: Repository
    const storage: Storage
    const thumbnail: (Bytes, Size) -> Option<Bytes>

    constructor (repo: Repository, storage: Storage, thumbnail: (Bytes, Size) -> Option<Bytes>)
      ensures this.repo == repo && this.storage == storage && this.thumbnail == thumbnail
    {
      this.repo, this.storage, this.thumbnail := repo, storage, thumbnail;
    }

    /** Both thumbnails, each attempted twice. */
    method Generate(data: Bytes, cancelled: nat -> bool) returns (thumbs: Option<(Bytes, Bytes)>)
      ensures thumbs == match (thumbnail(data, Size100), thumbnail(data, Size300))
                        case (Some(t100), Some(t300)) => Some((t100, t300))
                        case _ => None
    {
      var t100, t300 := thumbnail(data, Size100), thumbnail(data, Size300);
      var once100 := (_: nat) => if t100.Some? then None else Some(ThumbnailFailed);
      var once300 := (_: nat) => if t300.Some? then None else Some(ThumbnailFailed);
      var err := Retry(2, once100, cancelled, Dependency);
      assert SucceedsAt(once100, cancelled, 0) <==> t100.Some?;
      if err.Some? {
        return None;
      }
      err := Retry(2, once300, cancelled, Dependency);
      assert SucceedsAt(once300, cancelled, 0) <==> t300.Some?;
      if err.Some? {
        return None;
      }
      return Some((t100.value, t300.value));
    }

    /** `db` is the whole system as this handler finds it. */
    method Handle(ghost c: Config, ghost db: Db, id: Id, os: Outcomes, cancelled: nat -> bool)
      returns (err: Option<Error>)
      requires db.avatars == repo.avatars && db.objects == storage.objects && c.thumbnail == thumbnail
      modifies repo, storage
      ensures (db.(avatars := repo.avatars, objects := storage.objects), err) == Solo(c, db, UhGet(id), os, 0)
    {
      hide Solo, Micro;
      CheckSolo(c, db, id, os);
      var found := repo.GetActiveByID(id, os(0));
      if found.Err? {
        return if found.error == NotFound then None else Some(found.error);
      }
      var a := found.value;
      if a.status == Completed && a.thumb100Available && a.thumb300Available {
        return None;
      }
      ReadSolo(c, db, id, a.originalKey, os);
      var got := storage.Get(a.originalKey, os(1));
      if got.Err? {
        err := Fail(c, db, id, got.error, os, 2);
        return;
      }
      var thumbs := Generate(got.value.data, cancelled);
      if thumbs.None? {
        err := Fail(c, db, id, ThumbnailFailed, os, 2);
        return;
      }
      var (t100, t300) := thumbs.value;
      err := StoreThumbnails(c, db, id, t100, t300, os);
    }

    method StoreThumbnails(ghost c: Config, ghost db: Db, id: Id, t100: Bytes, t300: Bytes, os: Outcomes)
      returns (err: Option<Error>)
      requires db.avatars == repo.avatars && db.objects == storage.objects
      modifies repo, storage
      ensures (db.(avatars := repo.avatars, objects := storage.objects), err) ==
              Solo(c, db, UhPut100(id, t100, t300), os, 2)
    {
      hide Solo, Micro, Processed;
      SmallPutSolo(c, db, id, t100, t300, os);
      err := storage.Put(Thumb100(id), t100, JpegMime(), os(2));
      ghost var one := db.(objects := storage.objects);
      if err.Some? {
        err := Fail(c, one, id, err.value, os, 3);
        return;
      }
      LargePutSolo(c, one, id, t300, os);
      err := storage.Put(Thumb300(id), t300, JpegMime(), os(3));
      ghost var two := db.(objects := storage.objects);
      if err.Some? {
        err := Fail(c, two, id, err.value, os, 4);
        return;
      }
      UpdateSolo(c, two, id, os);
      err := repo.UpdateProcessingResult(id, Thumb100(id), Thumb300(id), os(4));
    }

    /** Marks the avatar failed, ignoring whether that worked, and passes the error on. */
    method Fail(ghost c: Config, ghost db: Db, id: Id, error: Error, os: Outcomes, n: nat) returns (err: Option<Error>)
      requires db.avatars == repo.avatars && db.objects == storage.objects
      modifies repo
      ensures (db.(avatars := repo.avatars), err) == Solo(c, db, UhFail(id, error), os, n)
    {
      hide Solo;
      SoloStep(c, db, UhFail(id, error), os, n);
      var ignored := repo.UpdateProcessingResult(id, NoKey, NoKey, os(n));
      return Some(error);
    }
  }

  class DeleteHandler {
    const repo: Repository
    const storage: Storage

    constructor (repo: Repository, storage: Storage)
      ensures this.repo == repo && this.storage == storage
    {
      this.repo, this.storage := repo, storage;
    }

    /** Any error of the lookup, not only a missing record, ends the handling with success. */
    method Handle(ghost c: Config, ghost db: Db, id: Id, os: Outcomes) returns (err: Option<Error>)
      requires db.avatars == repo.avatars && db.objects == storage.objects
      modifies storage
      ensures (db.(objects := storage.objects), err) == Solo(c, db, DhGet(id), os, 0)
    {
      hide Solo, NonEmpty;
      SoloStep(c, db, DhGet(id), os, 0);
      var found := repo.GetByID(id, os(0));
      if found.Err? {
        return None;
      }
      var keys := [found.value.originalKey, found.value.thumb100Key, found.value.thumb300Key];
      var n := 1;
      var i := 0;
      while i < |keys|
        invariant 0 <= i <= |keys|
        invariant Solo(c, db.(objects := storage.objects), DhDel(id, NonEmpty(keys[i..])), os, n) ==
                  Solo(c, db, DhGet(id), os, 0)
      {
        KeySolo(c, db.(objects := storage.objects), id, keys[i..], os, n);
        assert keys[i..][1..] == keys[i + 1..];
        if keys[i] != NoKey {
          err := storage.Delete(keys[i], os(n));
          if err.Some? {
            return;
          }
          n := n + 1;
        }
        i := i + 1;
      }
      assert keys[i..] == [];
      NoKeys();
      SoloStep(c, db.(objects := storage.objects), DhDel(id, []), os, n);
      return None;
    }
  }

  // The runner

  /** What a delivery's routing key and body say. */
  datatype Delivery = Uploaded(id: Id) | DeleteRequested(id: Id) | Malformed | Unknown

  /** A delivery is handled by the process for its routing key; a body without an identifier is an
      error; an unknown routing key is ignored. */
  function Handled(c: Config, db: Db, d: Delivery, os: Outcomes): (Db, Option<Error>) {
    match d
    case Uploaded(id) => Solo(c, db, UhGet(id), os, 0)
    case DeleteRequested(id) => Solo(c, db, DhGet(id), os, 0)
    case Malformed => (db, Some(Dependency))
    case Unknown => (db, None)
  }

  /** One delivery after the other; true stands for an acknowledgement, false for a requeue. */
  function Served(c: Config, db: Db, ds: seq<Delivery>, os: nat -> Outcomes): (r: (Db, seq<bool>))
    ensures |r.1| == |ds|
  {
    if ds == [] then (db, [])
    else
      var n := |ds| - 1;
      var (before, acks) := Served(c, db, ds[..n], os);
      var (after, err) := Handled(c, before, ds[n], os(n));
      (after, acks + [err.None?])
  }

  class Runner {
    const upload: UploadHandler
    const delete: DeleteHandler

    constructor (upload: UploadHandler, delete: DeleteHandler)
      ensures this.upload == upload && this.delete == delete
    {
      this.upload, this.delete := upload, delete;
    }

    /** Every delivery gets exactly one answer: an acknowledgement iff its handler succeeded. */
    method Run(ghost c: Config, ghost db: Db, ds: seq<Delivery>, os: nat -> Outcomes, cancelled: nat -> bool)
      returns (acks: seq<bool>)
      requires upload.repo == delete.repo && upload.storage == delete.storage && c.thumbnail == upload.thumbnail
      requires db.avatars == upload.repo.avatars && db.objects == upload.storage.objects
      modifies upload.repo, upload.storage
      ensures (db.(avatars := upload.repo.avatars, objects := upload.storage.objects), acks) == Served(c, db, ds, os)
      ensures |acks| == |ds|
      ensures forall k :: 0 <= k < |ds| ==> (ds[k].Malformed? ==> !acks[k]) && (ds[k].Unknown? ==> acks[k])
    {
      hide Solo;
      acks := [];
      var i := 0;
      while i < |ds|
        invariant 0 <= i <= |ds|
        invariant (db.(avatars := upload.repo.avatars, objects := upload.storage.objects), acks) ==
                  Served(c, db, ds[..i], os)
        invariant |acks| == i
        invariant forall k :: 0 <= k < i ==> (ds[k].Malformed? ==> !acks[k]) && (ds[k].Unknown? ==> acks[k])
      {
        ghost var now := db.(avatars := upload.repo.avatars, objects := upload.storage.objects);
        assert ds[..i + 1][..i] == ds[..i];
        var err: Option<Error>;
        match ds[i] {
          case Uploaded(id) => err := upload.Handle(c, now, id, os(i), cancelled);
          case DeleteRequested(id) => err := delete.Handle(c, now, id, os(i));
          case Malformed => err := Some(Dependency);
          case Unknown => err := None;
        }
        acks := acks + [err.None?];
        i := i + 1;
      }
      assert ds[..i] == ds;
    }
  }
}
