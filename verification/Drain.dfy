/** Deleting a user's current avatar, again and again, with stores that do not fail and nothing in
    between (DeleteCurrentUserAvatar and ReadUserAvatar in internal/service/service.go). */
module Drain {
  import opened Domain
  import opened Store
  import opened Protocol
  import opened Sequential
  import opened Service
  import opened ReadSide

  /** One call by the owner, given the order its listing came in. */
  function DeleteCurrent(c: Config, db: Db, owner: User, now: Time, listing: seq<Avatar>): (Db, Option<Error>) {
    Solo(c, db, CurScan(owner, now, listing), AllFine, 1)
  }

  /** The user's live avatars whose original is flagged and stored. */
  ghost predicate Current(db: Db, owner: User, id: Id) {
    && id in db.avatars && db.avatars[id].user == owner && db.avatars[id].Live()
    && Serves(db.objects, db.avatars[id], SizeOriginal)
  }

  ghost function CurrentIds(db: Db, owner: User): set<Id> {
    set id | id in db.avatars && Current(db, owner, id)
  }

  lemma {:induction false} ScanFindsFirst(c: Config, db: Db, owner: User, now: Time, items: seq<Avatar>, n: nat)
    returns (m: nat)
    ensures var readable := Readable(db.objects, items);
            Solo(c, db, CurScan(owner, now, items), AllFine, n) ==
            if readable == [] then (db, Some(NotFound)) else Solo(c, db, DelGet(readable[0].id, owner, now), AllFine, m)
    decreases items
  {
    ScanIsSolo(c, db, owner, now, items, AllFine, n);
    m := n + 1;
    if items == [] || Serves(db.objects, items[0], SizeOriginal) {
    } else {
      hide Solo;
      m := ScanFindsFirst(c, db, owner, now, items[1..], n + 1);
    }
  }

  lemma ReadableIsCurrent(db: Db, owner: User, listing: seq<Avatar>)
    requires IsListing(db.avatars, owner, listing) && Keyed(db.avatars)
    ensures forall a :: a in Readable(db.objects, listing) ==>
              a.id in db.avatars && db.avatars[a.id] == a && Current(db, owner, a.id)
    ensures forall id :: Current(db, owner, id) ==> db.avatars[id] in Readable(db.objects, listing)
  {
    forall id | Current(db, owner, id)
      ensures db.avatars[id] in listing
    {
      assert Listed(db.avatars, db.avatars.Keys, owner, db.avatars[id]);
    }
  }

  lemma FirstIsNewest(db: Db, owner: User, listing: seq<Avatar>)
    requires IsListing(db.avatars, owner, listing) && Keyed(db.avatars)
    ensures var readable := Readable(db.objects, listing);
            if readable == [] then CurrentIds(db, owner) == {}
            else
              && readable[0].id in CurrentIds(db, owner) && db.avatars[readable[0].id] == readable[0]
              && forall id :: Current(db, owner, id) ==> db.avatars[id].createdAt <= readable[0].createdAt
  {
    var readable := Readable(db.objects, listing);
    ReadableIsCurrent(db, owner, listing);
    ReadableInOrder(db.objects, listing);
    hide Current, IsListing, Readable;
    if readable != [] {
      assert readable[0] in readable;
      forall id | Current(db, owner, id)
        ensures db.avatars[id].createdAt <= readable[0].createdAt
      {
        var i :| 0 <= i < |readable| && readable[i] == db.avatars[id];
      }
    }
  }

  /** Deleting one's own live avatar. */
  lemma OwnDeletion(c: Config, db: Db, id: Id, owner: User, now: Time, n: nat)
    requires id in db.avatars && db.avatars[id].user == owner && db.avatars[id].Live()
    ensures var (db', err) := Solo(c, db, DelGet(id, owner, now), AllFine, n);
            && err == None
            && db'.avatars == db.avatars[id := db.avatars[id].(deletedAt := Some(now))]
            && db'.objects == db.objects && db'.uploads == db.uploads
            && db'.deletes == db.deletes + (if c.broker then multiset{id} else multiset{})
  {
    DeleteIsSolo(c, db, id, owner, now, AllFine, n);
    assert db.deletes + multiset{} == db.deletes;
    hide Solo;
  }

  /** The call deletes the first readable record of the listing, which is one of the user's newest
      current ones, and nothing else, and queues one event for it; or there is none, and nothing changes. */
  lemma DeletesNewest(c: Config, db: Db, owner: User, now: Time, listing: seq<Avatar>)
    requires IsListing(db.avatars, owner, listing) && Keyed(db.avatars)
    ensures var (db', err) := DeleteCurrent(c, db, owner, now, listing);
            var readable := Readable(db.objects, listing);
            if CurrentIds(db, owner) == {} then db' == db && err == Some(NotFound)
            else
              && readable != [] && readable[0].id in CurrentIds(db, owner)
              && (forall id :: Current(db, owner, id) ==> db.avatars[id].createdAt <= readable[0].createdAt)
              && err == None
              && db'.avatars == db.avatars[readable[0].id := readable[0].(deletedAt := Some(now))]
              && db'.objects == db.objects && db'.uploads == db.uploads
              && db'.deletes == db.deletes + (if c.broker then multiset{readable[0].id} else multiset{})
  {
    var readable := Readable(db.objects, listing);
    var m := ScanFindsFirst(c, db, owner, now, listing, 1);
    FirstIsNewest(db, owner, listing);
    hide Solo, IsListing, Readable;
    if readable != [] {
      assert Current(db, owner, readable[0].id);
      OwnDeletion(c, db, readable[0].id, owner, now, m);
    }
  }

  lemma {:induction false} FirstServedExists(objects: Objects, items: seq<Avatar>, j: nat) returns (i: nat)
    requires j < |items| && Serves(objects, items[j], SizeOriginal)
    ensures FirstServed(objects, items, SizeOriginal, AllFine, i)
  {
    if k: nat :| k < j && Serves(objects, items[k], SizeOriginal) {
      i := FirstServedExists(objects, items, k);
    } else {
      i := j;
    }
  }

  /** What ReadUserAvatar serves is current, and none is newer. */
  lemma ServedIsNewest(db: Db, owner: User, shown: seq<Avatar>, i: nat)
    requires IsListing(db.avatars, owner, shown) && Keyed(db.avatars)
    requires FirstServed(db.objects, shown, SizeOriginal, AllFine, i)
    ensures shown[i].id in CurrentIds(db, owner) && db.avatars[shown[i].id] == shown[i]
    ensures forall id :: Current(db, owner, id) ==> db.avatars[id].createdAt <= shown[i].createdAt
  {
    assert shown[i] in shown && Listed(db.avatars, db.avatars.Keys, owner, shown[i]);
    forall id | Current(db, owner, id)
      ensures db.avatars[id].createdAt <= shown[i].createdAt
    {
      assert Listed(db.avatars, db.avatars.Keys, owner, db.avatars[id]);
      var j :| 0 <= j < |shown| && shown[j] == db.avatars[id];
      assert AllFine(1 + j).Fine?;
    }
  }

  /** The record it deletes is the one ReadUserAvatar would serve at full size, up to equal creation
      times; each finds none iff the other does. Both listings may come in any order. */
  lemma DeletesWhatIsServed(c: Config, db: Db, owner: User, now: Time, shown: seq<Avatar>, i: nat, listing: seq<Avatar>)
    requires IsListing(db.avatars, owner, shown) && IsListing(db.avatars, owner, listing) && Keyed(db.avatars)
    ensures (exists j: nat :: FirstServed(db.objects, shown, SizeOriginal, AllFine, j)) <==>
            DeleteCurrent(c, db, owner, now, listing).1 == None
    ensures FirstServed(db.objects, shown, SizeOriginal, AllFine, i) ==>
              var (db', readable) := (DeleteCurrent(c, db, owner, now, listing).0, Readable(db.objects, listing));
              && readable != []
              && readable[0].createdAt == shown[i].createdAt
              && db'.avatars == db.avatars[readable[0].id := readable[0].(deletedAt := Some(now))]
  {
    DeletesNewest(c, db, owner, now, listing);
    hide DeleteCurrent;
    ReadableIsCurrent(db, owner, listing);
    if j: nat :| FirstServed(db.objects, shown, SizeOriginal, AllFine, j) {
      ServedIsNewest(db, owner, shown, j);
    }
    if id :| id in CurrentIds(db, owner) {
      assert Listed(db.avatars, db.avatars.Keys, owner, db.avatars[id]);
      var j :| 0 <= j < |shown| && shown[j] == db.avatars[id];
      var first := FirstServedExists(db.objects, shown, j);
    }
    if FirstServed(db.objects, shown, SizeOriginal, AllFine, i) {
      ServedIsNewest(db, owner, shown, i);
      var a := Readable(db.objects, listing)[0];
      assert a in Readable(db.objects, listing) && Current(db, owner, a.id) && Current(db, owner, shown[i].id);
    }
  }

  // Again and again

  /** `dbs[0]`, ..., the stores between successful calls, each with its own clock reading and listing;
      `ids` what the calls deleted. */
  ghost predicate DrainRun(c: Config, owner: User, dbs: seq<Db>, nows: seq<Time>, listings: seq<seq<Avatar>>,
      ids: seq<Id>)
  {
    && |dbs| == |ids| + 1 && |nows| == |listings| == |ids|
    && Keyed(dbs[0].avatars)
    && forall i {:trigger ids[i]} :: 0 <= i < |ids| ==>
         && IsListing(dbs[i].avatars, owner, listings[i])
         && DeleteCurrent(c, dbs[i], owner, nows[i], listings[i]) == (dbs[i + 1], None)
         && Readable(dbs[i].objects, listings[i]) != []
         && ids[i] == Readable(dbs[i].objects, listings[i])[0].id
  }

  /** One call, in terms of the set of current avatars. */
  ghost predicate Removed(db: Db, db': Db, owner: User, id: Id, now: Time) {
    && id in CurrentIds(db, owner)
    && (forall x :: Current(db, owner, x) ==> db.avatars[x].createdAt <= db.avatars[id].createdAt)
    && db'.avatars == db.avatars[id := db.avatars[id].(deletedAt := Some(now))]
    && db'.objects == db.objects
  }

  lemma RemovedShrinks(db: Db, db': Db, owner: User, id: Id, now: Time)
    requires Removed(db, db', owner, id, now)
    ensures CurrentIds(db', owner) == CurrentIds(db, owner) - {id}
    ensures Keyed(db.avatars) ==> Keyed(db'.avatars)
  {
  }

  lemma StepRemoves(c: Config, db: Db, owner: User, now: Time, listing: seq<Avatar>)
    requires IsListing(db.avatars, owner, listing) && Keyed(db.avatars)
    requires DeleteCurrent(c, db, owner, now, listing).1 == None
    ensures Readable(db.objects, listing) != []
    ensures Removed(db, DeleteCurrent(c, db, owner, now, listing).0, owner, Readable(db.objects, listing)[0].id, now)
  {
    DeletesNewest(c, db, owner, now, listing);
    ReadableIsCurrent(db, owner, listing);
    hide DeleteCurrent;
    assert Readable(db.objects, listing) != [] ==> Readable(db.objects, listing)[0] in Readable(db.objects, listing);
  }

  /** What the calls that deleted `ids`, in this order, have left of `start`: the other current
      avatars, none of them newer than a deleted one, and every other record and object as it was. */
  ghost predicate Left(start: Db, db: Db, owner: User, ids: seq<Id>) {
    && Keyed(db.avatars)
    && (forall id :: id in CurrentIds(db, owner) <==> id in CurrentIds(start, owner) && id !in ids)
    && (forall id :: id in ids ==> id in CurrentIds(start, owner))
    && (forall i, j :: 0 <= i < j < |ids| ==>
          && ids[i] != ids[j]
          && ids[i] in start.avatars && ids[j] in start.avatars
          && start.avatars[ids[i]].createdAt >= start.avatars[ids[j]].createdAt)
    && (forall id, x :: id in ids && x in CurrentIds(db, owner) ==>
          start.avatars[id].createdAt >= start.avatars[x].createdAt)
    && db.objects == start.objects && db.avatars.Keys == start.avatars.Keys
    && (forall id :: id in start.avatars ==> Kept(start.avatars[id], db.avatars[id], id in ids))
  }

  /** As it was, but for the deletion if there was one. */
  predicate Kept(a: Avatar, b: Avatar, deleted: bool) {
    if deleted then !b.Live() && b.(deletedAt := a.deletedAt) == a else b == a
  }

  /** The times of creation are those of the start. */
  lemma NewestOfStart(start: Db, db: Db, db': Db, owner: User, ids: seq<Id>, id: Id, now: Time, x: Id)
    requires Left(start, db, owner, ids) && Removed(db, db', owner, id, now) && x in CurrentIds(db, owner)
    ensures id in start.avatars && x in start.avatars && start.avatars[x].createdAt <= start.avatars[id].createdAt
  {
    assert id !in ids && Kept(start.avatars[id], db.avatars[id], false);
    assert x !in ids && Kept(start.avatars[x], db.avatars[x], false) && Current(db, owner, x);
    hide Left;
  }

  lemma KeptNext(start: Db, db: Db, db': Db, owner: User, ids: seq<Id>, id: Id, now: Time, x: Id)
    requires Left(start, db, owner, ids) && Removed(db, db', owner, id, now) && x in start.avatars
    ensures Kept(start.avatars[x], db'.avatars[x], x in ids + [id])
  {
    assert Kept(start.avatars[x], db.avatars[x], x in ids) && id !in ids && Current(db, owner, id);
    hide Left;
  }

  lemma LeftNext(start: Db, db: Db, db': Db, owner: User, ids: seq<Id>, id: Id, now: Time)
    requires Left(start, db, owner, ids) && Removed(db, db', owner, id, now)
    ensures Left(start, db', owner, ids + [id])
  {
    RemovedShrinks(db, db', owner, id, now);
    var ids' := ids + [id];
    assert forall x :: x in ids' <==> x in ids || x == id;
    hide Current, Keyed, Kept, CurrentIds;
    assert id in CurrentIds(db, owner) && id !in ids && id in start.avatars;
    forall x | x in CurrentIds(db, owner)
      ensures start.avatars[x].createdAt <= start.avatars[id].createdAt
    {
      NewestOfStart(start, db, db', owner, ids, id, now, x);
    }
    forall x | x in start.avatars
      ensures Kept(start.avatars[x], db'.avatars[x], x in ids')
    {
      KeptNext(start, db, db', owner, ids, id, now, x);
    }
  }

  /** One call of a drain. */
  lemma DrainStep(c: Config, owner: User, dbs: seq<Db>, nows: seq<Time>, listings: seq<seq<Avatar>>, ids: seq<Id>,
      i: nat)
    requires DrainRun(c, owner, dbs, nows, listings, ids) && i < |ids| && Left(dbs[0], dbs[i], owner, ids[..i])
    ensures Removed(dbs[i], dbs[i + 1], owner, ids[i], nows[i])
  {
    var id := ids[i];
    assert DeleteCurrent(c, dbs[i], owner, nows[i], listings[i]) == (dbs[i + 1], None);
    hide DeleteCurrent, CurrentIds;
    StepRemoves(c, dbs[i], owner, nows[i], listings[i]);
  }

  lemma {:induction false} DrainLeft(c: Config, owner: User, dbs: seq<Db>, nows: seq<Time>,
      listings: seq<seq<Avatar>>, ids: seq<Id>, n: nat)
    requires DrainRun(c, owner, dbs, nows, listings, ids) && n <= |ids|
    ensures Left(dbs[0], dbs[n], owner, ids[..n])
  {
    DrainLengths(c, owner, dbs, nows, listings, ids);
    hide Left, DrainRun, Removed;
    if n == 0 {
      NothingLeft(c, owner, dbs, nows, listings, ids);
      assert ids[..0] == [];
    } else {
      var m := n - 1;
      DrainLeft(c, owner, dbs, nows, listings, ids, m);
      DrainStep(c, owner, dbs, nows, listings, ids, m);
      LeftNext(dbs[0], dbs[m], dbs[n], owner, ids[..m], ids[m], nows[m]);
      TakeNext(ids, m);
    }
  }

  lemma TakeNext(ids: seq<Id>, m: nat)
    requires m < |ids|
    ensures ids[..m + 1] == ids[..m] + [ids[m]]
  {
  }

  lemma DrainLengths(c: Config, owner: User, dbs: seq<Db>, nows: seq<Time>, listings: seq<seq<Avatar>>, ids: seq<Id>)
    requires DrainRun(c, owner, dbs, nows, listings, ids)
    ensures |dbs| == |ids| + 1 && |nows| == |listings| == |ids|
  {
    hide DeleteCurrent;
  }

  lemma NothingLeft(c: Config, owner: User, dbs: seq<Db>, nows: seq<Time>, listings: seq<seq<Avatar>>, ids: seq<Id>)
    requires DrainRun(c, owner, dbs, nows, listings, ids)
    ensures Left(dbs[0], dbs[0], owner, [])
  {
    hide DeleteCurrent, CurrentIds;
  }

  /** Repeated until it answers that nothing is found, the call deletes exactly the user's current
      avatars, newest first and once each, and leaves every other record and object untouched. It does
      get there: it succeeds as long as there is one, and there are only so many. */
  lemma DrainDeletesAll(c: Config, owner: User, dbs: seq<Db>, nows: seq<Time>, listings: seq<seq<Avatar>>, ids: seq<Id>,
                        now: Time, listing: seq<Avatar>)
    requires DrainRun(c, owner, dbs, nows, listings, ids)
    requires IsListing(dbs[|ids|].avatars, owner, listing)
    ensures Left(dbs[0], dbs[|ids|], owner, ids)
    ensures |ids| <= |CurrentIds(dbs[0], owner)|
    ensures var (db, err) := DeleteCurrent(c, dbs[|ids|], owner, now, listing);
            && (err == None || (err == Some(NotFound) && db == dbs[|ids|]))
            && (err == Some(NotFound) <==> forall id :: id in ids <==> id in CurrentIds(dbs[0], owner))
            && (err == None <==> |ids| < |CurrentIds(dbs[0], owner)|)
  {
    var db := dbs[|ids|];
    DrainLeft(c, owner, dbs, nows, listings, ids, |ids|);
    assert ids[..|ids|] == ids;
    hide DrainRun;
    assert Keyed(db.avatars);
    DeletesNewest(c, db, owner, now, listing);
    hide DeleteCurrent, IsListing;
    LeftSize(dbs[0], db, owner, ids);
  }

  lemma LeftSize(start: Db, db: Db, owner: User, ids: seq<Id>)
    requires Left(start, db, owner, ids)
    ensures |CurrentIds(db, owner)| == |CurrentIds(start, owner)| - |ids|
    ensures CurrentIds(db, owner) == {} <==> forall id :: id in ids <==> id in CurrentIds(start, owner)
  {
    hide CurrentIds, Kept, Keyed;
    var done := set id | id in ids;
    DistinctSize(ids);
    assert CurrentIds(db, owner) == CurrentIds(start, owner) - done && done <= CurrentIds(start, owner);
    assert |CurrentIds(db, owner)| == |CurrentIds(start, owner)| - |done|;
  }

  lemma {:induction false} DistinctSize(ids: seq<Id>)
    requires forall i, j :: 0 <= i < j < |ids| ==> ids[i] != ids[j]
    ensures |set id | id in ids| == |ids|
  {
    if ids == [] {
    } else {
      DistinctSize(ids[1..]);
      assert (set id | id in ids) == {ids[0]} + set id | id in ids[1..];
    }
  }
}
