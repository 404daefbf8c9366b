/** AvatarService (internal/service/service.go): uploads, deletes and reads over the mutable stores.

    A method that writes is the uninterrupted run of its protocol process (`Solo`); `os(n)` is how its
    n-th call ends. The identifier, the clock readings and the outcomes are parameters. */
module Service {
  import opened Domain
  import opened Store
  import opened Protocol
  import opened Sequential

  // What the read methods find

  /** The stored object of a variant the record says is available. */
  predicate Serves(objects: Objects, a: Avatar, size: Size) {
    a.VariantKey(size).1 && a.VariantKey(size).0 in objects
  }

  /** The records whose original can be read, in the order they come in. */
  function Readable(objects: Objects, items: seq<Avatar>): (r: seq<Avatar>)
    ensures forall a :: a in r <==> a in items && Serves(objects, a, SizeOriginal)
  {
    if items == [] then []
    else (if Serves(objects, items[0], SizeOriginal) then [items[0]] else []) + Readable(objects, items[1..])
  }

  function Dtos(items: seq<Avatar>): (r: seq<AvatarDTO>)
    ensures |r| == |items| && forall i :: 0 <= i < |items| ==> r[i] == Dto(items[i])
  {
    seq(|items|, i requires 0 <= i < |items| => Dto(items[i]))
  }

  function ReadAvatarOf(db: Db, id: Id, size: Size): Result<Object, Error> {
    match FindActive(db.avatars, id)
    case Err(e) => Err(e)
    case Ok(a) =>
      var (key, ok) := a.VariantKey(size);
      if ok then FindObject(db.objects, key) else Err(VariantNotReady)
  }

  /** A call that ReadAvatar gets to make fails. */
  predicate ReadFails(db: Db, id: Id, size: Size, os: Outcomes) {
    || !os(0).Fine?
    || (var found := FindActive(db.avatars, id); found.Ok? && found.value.VariantKey(size).1 && !os(1).Fine?)
  }

  function MetadataOf(db: Db, id: Id): Result<AvatarDTO, Error> {
    match FindActive(db.avatars, id)
    case Err(e) => Err(e)
    case Ok(a) =>
      var dto := Dto(a);
      Ok(dto.(
           status := if a.originalKey in db.objects then dto.status else Failed,
           thumbnails := (if a.thumb100Available && a.thumb100Key in db.objects then [Size100] else [])
                         + (if a.thumb300Available && a.thumb300Key in db.objects then [Size300] else [])))
  }

  /** A call that Metadata gets to make fails; it asks only for thumbnails the record flags. */
  predicate MetadataFails(db: Db, id: Id, os: Outcomes) {
    || !os(0).Fine?
    || (var found := FindActive(db.avatars, id);
        found.Ok? &&
        (|| !os(1).Fine?
         || (found.value.thumb100Available && !os(2).Fine?)
         || (found.value.thumb300Available && !os(3).Fine?)))
  }

  /** The card ReadUserAvatar returns with the bytes. */
  function Card(a: Avatar, size: Size): AvatarDTO {
    Dto(a).(url := AvatarURL(a.id) + "?size=" + SizeName(size))
  }

  /** The card is that of this record. */
  predicate Names(card: AvatarDTO, a: Avatar) {
    card.id == a.id && card.user == a.user && card.createdAt == a.createdAt
  }

  predicate NamesAll(cards: seq<AvatarDTO>, items: seq<Avatar>) {
    |cards| == |items| && forall i :: 0 <= i < |items| ==> Names(cards[i], items[i])
  }

  lemma CardsName(items: seq<Avatar>)
    ensures NamesAll(Dtos(items), items)
  {
  }

  /** The item whose call succeeded and whose variant is there, with nothing of the kind before it. */
  predicate FirstServed(objects: Objects, items: seq<Avatar>, size: Size, os: Outcomes, i: nat) {
    && i < |items| && Serves(objects, items[i], size) && os(1 + i).Fine?
    && forall j: nat :: j < i ==> !(Serves(objects, items[j], size) && os(1 + j).Fine?)
  }

  /** The gallery asks for the original of an item that flags it, and the call fails. */
  predicate LookupFails(items: seq<Avatar>, os: Outcomes, i: nat) {
    i < |items| && items[i].originalAvailable && !os(1 + i).Fine?
  }

  // The runs of the writing processes, call by call

  /** Put, then Create, then Publish; MarkPublishFailed only if the publish failed. */
  function UploadRun(c: Config, db: Db, id: Id, input: UploadInput, now: Time, os: Outcomes): (Db, Option<Error>) {
    var put := PutObject(db, os(0), OriginalKeyOf(id, input), input.content, input.mime);
    if !os(0).Fine? then (put, Some(Dependency))
    else
      var created := put.(avatars := Effect(os(1), put.avatars, put.avatars[id := NewAvatar(id, input, now)]));
      if !os(1).Fine? then (created, Some(Dependency))
      else if !c.broker then (created, None)
      else
        var h := created.history;
        var sent := created.(
          uploads := Effect(os(2), created.uploads, created.uploads + multiset{id}),
          history := h.(published := Effect(os(2), h.published, h.published + {id})));
        if os(2).Fine? then (sent, None)
        else (sent.(avatars := Effect(os(3), sent.avatars, MarkedFailed(sent.avatars, id).0)), None)
  }

  lemma UploadIsSolo(c: Config, db: Db, id: Id, input: UploadInput, now: Time, os: Outcomes)
    ensures Solo(c, db, UpPut(id, input, now), os, 0) == UploadRun(c, db, id, input, now, os)
  {
    var (put, next) := Micro(c, db, UpPut(id, input, now), Choice(os(0), []));
    if next.Go? {
      var (created, next) := Micro(c, put, UpCreate(id, input, now), Choice(os(1), []));
      assert Solo(c, db, UpPut(id, input, now), os, 0) == Solo(c, put, UpCreate(id, input, now), os, 1);
      if next.Go? {
        var (sent, next) := Micro(c, created, UpPublish(id), Choice(os(2), []));
        assert Solo(c, put, UpCreate(id, input, now), os, 1) == Solo(c, created, UpPublish(id), os, 2);
        if next.Go? {
          assert Solo(c, created, UpPublish(id), os, 2) == Solo(c, sent, UpMark(id), os, 3);
        }
      }
    }
  }

  /** The status the card of an upload shows. */
  function CardStatus(broker: bool, os: Outcomes): Status {
    if !broker || os(2).Fine? then Processing else Failed
  }

  /** When an undisturbed upload returns, the record of one whose publish failed is `failed` iff the mark
      reached the repository; only then, and if the publish did not fail, does the card agree with it. */
  lemma CardAtReturn(c: Config, db: Db, id: Id, input: UploadInput, now: Time, os: Outcomes)
    requires os(0).Fine? && os(1).Fine?
    ensures var (db', err) := Solo(c, db, UpPut(id, input, now), os, 0);
            && err.None? && id in db'.avatars
            && (c.broker && !os(2).Fine? ==> (db'.avatars[id].status == Failed <==> !os(3).Lost?))
            && (db'.avatars[id].status == CardStatus(c.broker, os) <==> !c.broker || os(2).Fine? || !os(3).Lost?)
  {
    UploadIsSolo(c, db, id, input, now, os);
    hide Solo;
  }

  /** A broker and a repository that fail one after the other: the card says failed, the record is
      processing. */
  lemma CardDisagrees(c: Config, db: Db, id: Id, input: UploadInput, now: Time)
    requires c.broker
    ensures var os := (n: nat) => if n < 2 then Fine else Lost;
            var (db', err) := Solo(c, db, UpPut(id, input, now), os, 0);
            err.None? && CardStatus(c.broker, os) == Failed && id in db'.avatars && db'.avatars[id].status == Processing
  {
    var os := (n: nat) => if n < 2 then Fine else Lost;
    UploadIsSolo(c, db, id, input, now, os);
    hide Solo;
  }

  /** The upload can be read under the identifier its card names, and its metadata is that card, unless
      the card says failed and the mark was lost. */
  predicate Uploaded(db: Db, card: AvatarDTO, id: Id, input: UploadInput, now: Time, os: Outcomes) {
    && card.id == id && card.user == input.user && card.createdAt == now
    && ReadAvatarOf(db, card.id, SizeOriginal) == Ok(Object(input.content, input.mime))
    && MetadataOf(db, card.id).Ok? && MetadataOf(db, card.id).value.(status := card.status) == card
    && (MetadataOf(db, card.id) == Ok(card) <==> card.status != Failed || !os(3).Lost?)
  }

  lemma UploadThenRead(c: Config, db: Db, id: Id, input: UploadInput, now: Time, os: Outcomes)
    requires os(0).Fine? && os(1).Fine?
    ensures Uploaded(Solo(c, db, UpPut(id, input, now), os, 0).0,
                     Dto(NewAvatar(id, input, now).(status := CardStatus(c.broker, os))), id, input, now, os)
  {
    UploadIsSolo(c, db, id, input, now, os);
    hide Solo;
    var db', key := UploadRun(c, db, id, input, now, os).0, OriginalKeyOf(id, input);
    assert key in db'.objects && db'.objects[key] == Object(input.content, input.mime);
    var a := NewAvatar(id, input, now);
    assert id in db'.avatars && db'.avatars[id] == a.(status := db'.avatars[id].status);
    assert MetadataOf(db', id).value.thumbnails == [];
    hide UploadRun;
  }

  /** GetActiveByID, then the owner check, then SoftDeleteByID, then Publish, whose error is ignored. */
  function DeleteRun(c: Config, db: Db, id: Id, owner: User, now: Time, os: Outcomes, n: nat): (Db, Option<Error>) {
    if !os(n).Fine? then (db, Some(Dependency))
    else if !(id in db.avatars && db.avatars[id].Live()) then (db, Some(NotFound))
    else if db.avatars[id].user != owner then (db, Some(Forbidden))
    else
      var gone := db.(avatars := Effect(os(n + 1), db.avatars, SoftDeleted(db.avatars, id, now).0));
      if !os(n + 1).Fine? then (gone, Some(Dependency))
      else
        var h := gone.history.(succeeded := gone.history.succeeded + multiset{id});
        if !c.broker then (gone.(history := h), None)
        else
          (gone.(deletes := Effect(os(n + 2), gone.deletes, gone.deletes + multiset{id}),
                 history := h.(announced := h.announced + multiset{id})), None)
  }

  lemma DeleteIsSolo(c: Config, db: Db, id: Id, owner: User, now: Time, os: Outcomes, n: nat)
    ensures Solo(c, db, DelGet(id, owner, now), os, n) == DeleteRun(c, db, id, owner, now, os, n)
  {
    var next := Micro(c, db, DelGet(id, owner, now), Choice(os(n), [])).1;
    if next.Go? {
      var (gone, next) := Micro(c, db, DelSoft(id, owner, now), Choice(os(n + 1), []));
      assert Solo(c, db, DelGet(id, owner, now), os, n) == Solo(c, db, DelSoft(id, owner, now), os, n + 1);
      assert db.history.succeeded + multiset{} == db.history.succeeded;
      if next.Go? {
        assert Solo(c, db, DelSoft(id, owner, now), os, n + 1) == Solo(c, gone, DelPublish(id), os, n + 2);
      }
    }
  }

  /** The answer of a deletion, and all it does: `found`, `deleted` and `sent` are how its three calls end. */
  predicate DeleteAnswered(broker: bool, db: Db, id: Id, owner: User, now: Time, found: Outcome, deleted: Outcome,
      sent: Outcome, db': Db, err: Option<Error>)
  {
    var live := id in db.avatars && db.avatars[id].deletedAt.None?;
    if !found.Fine? then db' == db && err == Some(Dependency)
    else if !live then db' == db && err == Some(NotFound)
    else if db.avatars[id].user != owner then db' == db && err == Some(Forbidden)
    else
      && db'.avatars ==
         (if deleted.Lost? then db.avatars else db.avatars[id := db.avatars[id].(deletedAt := Some(now))])
      && db'.objects == db.objects && db'.uploads == db.uploads
      && err == (if deleted.Fine? then None else Some(Dependency))
      && (id in db'.deletes || err.Some? || !broker || sent.Lost?)
      && (db'.deletes == db.deletes || db'.deletes == db.deletes + multiset{id})
      && (db'.deletes == db.deletes + multiset{id} <==> deleted.Fine? && broker && !sent.Lost?)
  }

  lemma DeleteAnswers(c: Config, db: Db, id: Id, owner: User, now: Time, os: Outcomes, n: nat)
    ensures var (db', err) := Solo(c, db, DelGet(id, owner, now), os, n);
            DeleteAnswered(c.broker, db, id, owner, now, os(n), os(n + 1), os(n + 2), db', err)
  {
    DeleteIsSolo(c, db, id, owner, now, os, n);
    assert db.deletes != db.deletes + multiset{id} by { assert (db.deletes + multiset{id})[id] == db.deletes[id] + 1; }
    hide Solo;
  }

  /** The item at which the scan for the current avatar ends: its original is flagged, and found, or the
      storage fails to say. */
  predicate Ends(objects: Objects, items: seq<Avatar>, os: Outcomes, n: nat, i: nat) {
    i < |items| && items[i].originalAvailable && (items[i].originalKey in objects || !os(n + i).Fine?)
  }

  predicate FirstEnd(objects: Objects, items: seq<Avatar>, os: Outcomes, n: nat, i: nat) {
    Ends(objects, items, os, n, i) && forall j: nat :: j < i ==> !Ends(objects, items, os, n, j)
  }

  lemma {:induction false} ScanEnds(c: Config, db: Db, owner: User, now: Time, items: seq<Avatar>, os: Outcomes, n: nat,
      i: nat)
    requires FirstEnd(db.objects, items, os, n, i)
    ensures Solo(c, db, CurScan(owner, now, items), os, n) ==
            if os(n + i).Fine? then Solo(c, db, DelGet(items[i].id, owner, now), os, n + i + 1)
            else (db, Some(Dependency))
    decreases items
  {
    ScanIsSolo(c, db, owner, now, items, os, n);
    hide Solo;
    if i == 0 {
    } else {
      assert !Ends(db.objects, items, os, n, 0);
      var m := n + 1;
      forall j: nat | j < i - 1
        ensures !Ends(db.objects, items[1..], os, m, j)
      {
        assert !Ends(db.objects, items, os, n, j + 1);
      }
      ScanEnds(c, db, owner, now, items[1..], os, m, i - 1);
    }
  }

  lemma {:induction false} ScanFindsNone(c: Config, db: Db, owner: User, now: Time, items: seq<Avatar>, os: Outcomes,
      n: nat)
    requires forall i: nat :: !Ends(db.objects, items, os, n, i)
    ensures Solo(c, db, CurScan(owner, now, items), os, n) == (db, Some(NotFound))
    decreases items
  {
    ScanIsSolo(c, db, owner, now, items, os, n);
    hide Solo;
    if items == [] {
    } else {
      assert !Ends(db.objects, items, os, n, 0);
      var m := n + 1;
      forall i: nat
        ensures !Ends(db.objects, items[1..], os, m, i)
      {
        assert !Ends(db.objects, items, os, n, i + 1);
      }
      ScanFindsNone(c, db, owner, now, items[1..], os, m);
    }
  }

  /** The whole scan deletes the first item whose original it finds, or gives up at a failing lookup. */
  lemma ScanAnswers(c: Config, db: Db, owner: User, now: Time, items: seq<Avatar>, os: Outcomes, n: nat, i: nat)
    requires FirstEnd(db.objects, items, os, n, i)
    ensures var ((db', err), m) := (Solo(c, db, CurScan(owner, now, items), os, n), n + i + 1);
            if !os(n + i).Fine? then db' == db && err == Some(Dependency)
            else DeleteAnswered(c.broker, db, items[i].id, owner, now, os(m), os(m + 1), os(m + 2), db', err)
  {
    assert i < |items|;
    hide Solo, Ends, FirstEnd, DeleteAnswered;
    ScanEnds(c, db, owner, now, items, os, n, i);
    DeleteAnswers(c, db, items[i].id, owner, now, os, n + i + 1);
  }

  class AvatarService {
    const repo: Repository
    const storage: Storage
    const broker: Broker?
    ghost var history: History

    constructor (repo: Repository, storage: Storage, broker: Broker?)
      ensures this.repo == repo && this.storage == storage && this.broker == broker
    {
      this.repo, this.storage, this.broker := repo, storage, broker;
      history := History(map[], {}, multiset{}, multiset{});
    }

    ghost function Footprint(): set<object> {
      {this, repo, storage} + if broker == null then {} else {broker}
    }

    ghost function Abstract(): Db
      reads this, repo, storage, broker
    {
      Db(repo.avatars, storage.objects,
         if broker == null then multiset{} else broker.uploads,
         if broker == null then multiset{} else broker.deletes,
         history)
    }

    /** The returned status is `failed` if the event could not be published, else `processing`. */
    method Upload(ghost c: Config, id: Id, input: UploadInput, now: Time, os: Outcomes)
      returns (r: Result<AvatarDTO, Error>)
      requires c.broker == (broker != null)
      modifies Footprint()
      ensures !ValidUserID(input.user) ==> r == Err(InvalidUserID) && Abstract() == old(Abstract())
      ensures ValidUserID(input.user) ==>
                var (db, err) := Solo(c, old(Abstract()), UpPut(id, input, now), os, 0);
                && Abstract() == db
                && (r.Ok? <==> err.None?) && (r.Err? ==> err == Some(r.error))
                && (r.Ok? ==> r.value == Dto(NewAvatar(id, input, now).(status := CardStatus(broker != null, os))))
      ensures ValidUserID(input.user) ==>
                && (r.Ok? <==> os(0).Fine? && os(1).Fine?)
                && (!os(0).Fine? || os(1).Lost? ==> repo.avatars == old(repo.avatars))
      ensures r.Ok? ==> Uploaded(Abstract(), r.value, id, input, now, os)
    {
      hide Solo, ValidUserID, Uploaded;
      UploadIsSolo(c, Abstract(), id, input, now, os);
      if os(0).Fine? && os(1).Fine? {
        UploadThenRead(c, Abstract(), id, input, now, os);
      }
      if !ValidUserID(input.user) {
        return Err(InvalidUserID);
      }
      var a := NewAvatar(id, input, now);
      var err := storage.Put(a.originalKey, input.content, input.mime, os(0));
      if err.Some? {
        return Err(err.value);
      }
      err := repo.Create(a, os(1));
      if err.Some? {
        return Err(err.value);
      }
      if broker != null {
        err := broker.PublishUploaded(id, os(2));
        history := history.(published := Effect(os(2), history.published, history.published + {id}));
        if err.Some? {
          var ignored := repo.MarkPublishFailed(id, os(3));
          a := a.(status := Failed);
        }
      }
      return Ok(Dto(a));
    }

    /** `n` calls have been made before this one. */
    method DeleteByID(ghost c: Config, id: Id, owner: User, now: Time, os: Outcomes, n: nat)
      returns (err: Option<Error>)
      requires c.broker == (broker != null)
      modifies Footprint()
      ensures !ValidUserID(owner) ==> err == Some(InvalidUserID) && Abstract() == old(Abstract())
      ensures ValidUserID(owner) ==> (Abstract(), err) == Solo(c, old(Abstract()), DelGet(id, owner, now), os, n)
      ensures ValidUserID(owner) ==>
                DeleteAnswered(c.broker, old(Abstract()), id, owner, now, os(n), os(n + 1), os(n + 2), Abstract(), err)
    {
      DeleteIsSolo(c, Abstract(), id, owner, now, os, n);
      DeleteAnswers(c, Abstract(), id, owner, now, os, n);
      hide DeleteAnswered;
      hide Solo, ValidUserID;
      if !ValidUserID(owner) {
        return Some(InvalidUserID);
      }
      var found := repo.GetActiveByID(id, os(n));
      if found.Err? {
        return Some(found.error);
      }
      if found.value.user != owner {
        return Some(Forbidden);
      }
      err := repo.SoftDeleteByID(id, now, os(n + 1));
      if err.Some? {
        return;
      }
      history := history.(succeeded := history.succeeded + multiset{id});
      if broker != null {
        var ignored := broker.PublishDeleteRequested(id, os(n + 2));
        history := history.(announced := history.announced + multiset{id});
      }
    }

    /** The listing, in the order it came, is the first thing the run depends on. */
    method DeleteCurrentUserAvatar(ghost c: Config, pathUser: User, owner: User, now: Time, os: Outcomes)
      returns (err: Option<Error>, ghost listing: seq<Avatar>)
      requires c.broker == (broker != null) && Keyed(repo.avatars)
      modifies Footprint()
      ensures !ValidUserID(pathUser) || !ValidUserID(owner) ==>
                err == Some(InvalidUserID) && Abstract() == old(Abstract())
      ensures ValidUserID(pathUser) && ValidUserID(owner) && pathUser != owner ==>
                err == Some(Forbidden) && Abstract() == old(Abstract())
      ensures ValidUserID(pathUser) && pathUser == owner && !os(0).Fine? ==>
                err == Some(Dependency) && Abstract() == old(Abstract())
      ensures ValidUserID(pathUser) && pathUser == owner && os(0).Fine? ==>
                && IsListing(old(repo.avatars), owner, listing)
                && (Abstract(), err) == Solo(c, old(Abstract()), CurScan(owner, now, listing), os, 1)
    {
      hide ValidUserID, Solo;
      listing := [];
      if !ValidUserID(pathUser) || !ValidUserID(owner) {
        return Some(InvalidUserID), [];
      }
      if pathUser != owner {
        return Some(Forbidden), [];
      }
      var listed := repo.ListActiveByUser(pathUser, os(0));
      if listed.Err? {
        return Some(listed.error), [];
      }
      var items := listed.value;
      listing := items;
      var i := 0;
      while i < |items|
        invariant 0 <= i <= |items|
        invariant Abstract() == old(Abstract())
        invariant Solo(c, Abstract(), CurScan(owner, now, items), os, 1) ==
                  Solo(c, Abstract(), CurScan(owner, now, items[i..]), os, 1 + i)
      {
        ScanIsSolo(c, Abstract(), owner, now, items[i..], os, 1 + i);
        assert items[i..][1..] == items[i + 1..];
        var a := items[i];
        if a.originalAvailable {
          var exists_ := storage.Exists(a.originalKey, os(1 + i));
          if exists_.Err? {
            return Some(exists_.error), items;
          }
          if exists_.value {
            err := DeleteByID(c, a.id, owner, now, os, 2 + i);
            return err, items;
          }
        }
        i := i + 1;
      }
      ScanIsSolo(c, Abstract(), owner, now, items[i..], os, 1 + i);
      return Some(NotFound), items;
    }

    method ReadAvatar(id: Id, size: Size, os: Outcomes) returns (r: Result<Object, Error>)
      ensures r == if ReadFails(Abstract(), id, size, os) then Err(Dependency) else ReadAvatarOf(Abstract(), id, size)
    {
      var found := repo.GetActiveByID(id, os(0));
      if found.Err? {
        return Err(found.error);
      }
      var (key, ok) := found.value.VariantKey(size);
      if !ok {
        return Err(VariantNotReady);
      }
      r := storage.Get(key, os(1));
    }

    method Metadata(id: Id, os: Outcomes) returns (r: Result<AvatarDTO, Error>)
      ensures r == if MetadataFails(Abstract(), id, os) then Err(Dependency) else MetadataOf(Abstract(), id)
      ensures r.Ok? ==> id in repo.avatars && Names(r.value, repo.avatars[id])
    {
      var found := repo.GetActiveByID(id, os(0));
      if found.Err? {
        return Err(found.error);
      }
      var a := found.value;
      var out := Dto(a);
      var present := storage.Exists(a.originalKey, os(1));
      if present.Err? {
        return Err(present.error);
      }
      if !present.value {
        out := out.(status := Failed);
      }
      if a.thumb100Available {
        present := storage.Exists(a.thumb100Key, os(2));
        if present.Err? {
          return Err(present.error);
        }
        if present.value {
          out := out.(thumbnails := out.thumbnails + [Size100]);
        }
      }
      if a.thumb300Available {
        present := storage.Exists(a.thumb300Key, os(3));
        if present.Err? {
          return Err(present.error);
        }
        if present.value {
          out := out.(thumbnails := out.thumbnails + [Size300]);
        }
      }
      assert out.thumbnails == (if a.thumb100Available && a.thumb100Key in storage.objects then [Size100] else [])
                               + (if a.thumb300Available && a.thumb300Key in storage.objects then [Size300] else []);
      return Ok(out);
    }

    method ReadUserAvatar(user: User, size: Size, os: Outcomes)
      returns (r: Result<(Bytes, AvatarDTO), Error>, ghost listing: seq<Avatar>)
      requires Keyed(repo.avatars)
      ensures !ValidUserID(user) ==> r == Err(InvalidUserID)
      ensures ValidUserID(user) && !os(0).Fine? ==> r == Err(Dependency)
      ensures ValidUserID(user) && os(0).Fine? ==>
                && IsListing(repo.avatars, user, listing)
                && (r.Ok? ==> exists i: nat ::
                      && FirstServed(storage.objects, listing, size, os, i)
                      && r.value == (storage.objects[listing[i].VariantKey(size).0].data, Card(listing[i], size))
                      && Names(r.value.1, listing[i])
                      && ReadAvatarOf(Abstract(), r.value.1.id, size) ==
                         Ok(storage.objects[listing[i].VariantKey(size).0]))
                && (r.Err? ==>
                      r.error == NotFound && forall i: nat :: !FirstServed(storage.objects, listing, size, os, i))
    {
      hide ValidUserID, ReadAvatarOf, IsListing, Names;
      listing := [];
      if !ValidUserID(user) {
        return Err(InvalidUserID), [];
      }
      var listed := repo.ListActiveByUser(user, os(0));
      if listed.Err? {
        return Err(listed.error), [];
      }
      var items := listed.value;
      listing := items;
      var i := 0;
      while i < |items|
        invariant 0 <= i <= |items|
        invariant forall j: nat :: j < i ==> !(Serves(storage.objects, items[j], size) && os(1 + j).Fine?)
      {
        var a := items[i];
        var (key, ok) := a.VariantKey(size);
        if ok {
          var got := storage.Get(key, os(1 + i));
          if got.Ok? {
            assert FirstServed(storage.objects, items, size, os, i);
            ListedIsRead(Abstract(), user, items, i, size);
            return Ok((got.value.data, Card(a, size))), items;
          }
        }
        i := i + 1;
      }
      return Err(NotFound), items;
    }

    /** The cards of the readable avatars, in listing order, and whether the user has any avatar. */
    method GalleryByUser(user: User, os: Outcomes)
      returns (r: Result<(seq<AvatarDTO>, bool), Error>, ghost listing: seq<Avatar>)
      requires Keyed(repo.avatars)
      ensures !os(0).Fine? ==> r == Err(Dependency)
      ensures os(0).Fine? ==>
                && IsListing(repo.avatars, user, listing)
                && (r.Ok? ==> r.value == (Dtos(Readable(storage.objects, listing)), listing != []))
                && (r.Ok? ==> NamesAll(r.value.0, Readable(storage.objects, listing)))
                && (r.Err? ==> r.error == Dependency)
                && (r.Err? <==> exists i: nat :: LookupFails(listing, os, i))
    {
      hide Readable, Dtos, IsListing, NamesAll, InOrder, Visits;
      listing := [];
      var listed := repo.ListActiveByUser(user, os(0));
      if listed.Err? {
        return Err(listed.error), [];
      }
      var items := listed.value;
      listing := items;
      var out := [];
      NoCards(storage.objects);
      var i := 0;
      while i < |items|
        invariant 0 <= i <= |items|
        invariant out == Dtos(Readable(storage.objects, items[..i]))
        invariant forall j: nat :: j < i ==> !LookupFails(items, os, j)
      {
        var a := items[i];
        NextCard(storage.objects, items, i);
        if a.originalAvailable {
          var present := storage.Exists(a.originalKey, os(1 + i));
          if present.Err? {
            assert LookupFails(items, os, i);
            return Err(present.error), items;
          }
          if present.value {
            out := out + [Dto(a)];
          }
        }
        i := i + 1;
      }
      assert items[..i] == items;
      CardsName(Readable(storage.objects, items));
      return Ok((out, |items| > 0)), items;
    }
  }

  /** The card of a listed record leads back to it. */
  lemma ListedIsRead(db: Db, user: User, items: seq<Avatar>, i: nat, size: Size)
    requires IsListing(db.avatars, user, items) && i < |items| && Serves(db.objects, items[i], size)
    ensures Names(Card(items[i], size), items[i])
    ensures ReadAvatarOf(db, items[i].id, size) == Ok(db.objects[items[i].VariantKey(size).0])
  {
    assert items[i] in items && Listed(db.avatars, db.avatars.Keys, user, items[i]);
  }

  lemma NoCards(objects: Objects)
    ensures Dtos(Readable(objects, [])) == []
  {
  }

  lemma NextCard(objects: Objects, items: seq<Avatar>, i: nat)
    requires i < |items|
    ensures Dtos(Readable(objects, items[..i + 1])) ==
            Dtos(Readable(objects, items[..i]))
            + if Serves(objects, items[i], SizeOriginal) then [Dto(items[i])] else []
  {
    ReadableNext(objects, items, i);
  }

  lemma {:induction false} ReadableConcat(objects: Objects, items: seq<Avatar>, more: seq<Avatar>)
    ensures Readable(objects, items + more) == Readable(objects, items) + Readable(objects, more)
  {
    hide Serves;
    if items == [] {
      assert items + more == more;
    } else {
      assert (items + more)[1..] == items[1..] + more;
      ReadableConcat(objects, items[1..], more);
    }
  }

  lemma ReadableNext(objects: Objects, items: seq<Avatar>, i: nat)
    requires i < |items|
    ensures Readable(objects, items[..i + 1]) ==
            Readable(objects, items[..i]) + if Serves(objects, items[i], SizeOriginal) then [items[i]] else []
  {
    assert items[..i + 1] == items[..i] + [items[i]];
    ReadableConcat(objects, items[..i], [items[i]]);
    assert [items[i]][1..] == [];
    assert Readable(objects, [items[i]]) == if Serves(objects, items[i], SizeOriginal) then [items[i]] else [];
  }

  /** One turn of the loop over a listing. */
  lemma ScanIsSolo(c: Config, db: Db, owner: User, now: Time, items: seq<Avatar>, os: Outcomes, n: nat)
    ensures Solo(c, db, CurScan(owner, now, items), os, n) ==
            if items == [] then (db, Some(NotFound))
            else if items[0].originalAvailable && !os(n).Fine? then (db, Some(Dependency))
            else if Serves(db.objects, items[0], SizeOriginal) then
              Solo(c, db, DelGet(items[0].id, owner, now), os, n + 1)
            else Solo(c, db, CurScan(owner, now, items[1..]), os, n + 1)
  {
  }
}
