/** The metadata store, the object store and the broker, as one atomic step per call.

    The functions give the meaning of each call (MemoryRepository and MemoryStorage in
    internal/service/service.go; the SQL of the Postgres repository agrees). The classes are the
    mutable stores; every call takes the `Outcome` with which it ends, so that they also stand for
    stores that fail. */
module Store {
  import opened Domain

  type Avatars = map<Id, Avatar>
  type Objects = map<Key, Object>

  datatype Object = Object(data: Bytes, mime: string)

  /** A call ends as specified, or with an error after it took full effect, or with an error and
      no effect. */
  datatype Outcome = Fine | Applied | Lost

  function Effect<S>(o: Outcome, before: S, after: S): S {
    if o.Lost? then before else after
  }

  function Ending(o: Outcome, err: Option<Error>): Option<Error> {
    if o.Fine? then err else Some(Dependency)
  }

  // Repository

  function Find(m: Avatars, id: Id): Result<Avatar, Error> {
    if id in m then Ok(m[id]) else Err(NotFound)
  }

  function FindActive(m: Avatars, id: Id): Result<Avatar, Error> {
    if id in m && m[id].Live() then Ok(m[id]) else Err(NotFound)
  }

  function SoftDeleted(m: Avatars, id: Id, at: Time): (Avatars, Option<Error>) {
    if id in m && m[id].Live() then (m[id := m[id].(deletedAt := Some(at))], None)
    else (m, Some(NotFound))
  }

  function MarkedFailed(m: Avatars, id: Id): (Avatars, Option<Error>) {
    if id in m then (m[id := m[id].(status := Failed)], None) else (m, Some(NotFound))
  }

  function Processed(m: Avatars, id: Id, key100: Key, key300: Key): (Avatars, Option<Error>) {
    if id !in m then (m, Some(NotFound))
    else
      (m[id := m[id].(
         thumb100Key := key100,
         thumb300Key := key300,
         thumb100Available := key100 != NoKey,
         thumb300Available := key300 != NoKey,
         status := if key100 != NoKey && key300 != NoKey then Completed else Failed)], None)
  }

  /** A live record of `user`, stored under one of `ids`. */
  ghost predicate Listed(m: Avatars, ids: set<Id>, user: User, a: Avatar) {
    a.id in ids && a.id in m && m[a.id] == a && a.user == user && a.Live()
  }

  /** The live records of a user among `ids`, each once, newest first; equal creation times in any
      order. */
  ghost predicate ListingOf(m: Avatars, ids: set<Id>, user: User, items: seq<Avatar>) {
    && (forall a :: a in items <==> Listed(m, ids, user, a))
    && (forall i, j :: 0 <= i < j < |items| ==>
          items[i].id != items[j].id && items[i].createdAt >= items[j].createdAt)
  }

  ghost predicate IsListing(m: Avatars, user: User, items: seq<Avatar>) {
    ListingOf(m, m.Keys, user, items)
  }

  lemma InsertedListing(m: Avatars, ids: set<Id>, user: User, items: seq<Avatar>, a: Avatar, r: seq<Avatar>, k: nat)
    requires ListingOf(m, ids, user, items) && k <= |items| && r == items[..k] + [a] + items[k..]
    requires Listed(m, ids + {a.id}, user, a) && a.id !in ids
    requires NewestFirst(r)
    ensures ListingOf(m, ids + {a.id}, user, r)
  {
    forall x
      ensures x in r <==> Listed(m, ids + {a.id}, user, x)
    {
      assert items == items[..k] + items[k..];
      assert x in r <==> x == a || x in items;
      assert Listed(m, ids + {a.id}, user, x) && x.id == a.id ==> x == a;
    }
    forall i, j | 0 <= i < j < |r|
      ensures r[i].id != r[j].id
    {
      if i == k {
        assert r[j] == items[j - 1] && r[j] in items;
      } else if j == k {
        assert r[i] == items[i] && r[i] in items;
      } else {
        assert r[i] == items[if i < k then i else i - 1] && r[j] == items[if j < k then j else j - 1];
      }
    }
  }

  predicate NewestFirst(items: seq<Avatar>) {
    forall i, j :: 0 <= i < j < |items| ==> items[i].createdAt >= items[j].createdAt
  }

  /** Where the first element stands that is not newer than `a`. */
  function Position(items: seq<Avatar>, a: Avatar): (k: nat)
    ensures k <= |items| && (k < |items| ==> items[k].createdAt <= a.createdAt)
    ensures forall i :: 0 <= i < k ==> items[i].createdAt > a.createdAt
  {
    if items == [] || items[0].createdAt <= a.createdAt then 0 else 1 + Position(items[1..], a)
  }

  function Inserted(items: seq<Avatar>, a: Avatar): (r: seq<Avatar>)
    ensures NewestFirst(items) ==> NewestFirst(r)
  {
    var k := Position(items, a);
    items[..k] + [a] + items[k..]
  }

  /** The live records of a user whose identifiers are in `order`, inserted in that order. */
  function InOrder(m: Avatars, user: User, order: seq<Id>): seq<Avatar> {
    if order == [] then []
    else
      var (items, id) := (InOrder(m, user, order[..|order| - 1]), order[|order| - 1]);
      if id in m && m[id].user == user && m[id].Live() then Inserted(items, m[id]) else items
  }

  lemma NothingInOrder(m: Avatars, user: User)
    ensures InOrder(m, user, []) == []
  {
  }

  lemma InOrderNext(m: Avatars, user: User, order: seq<Id>, id: Id)
    ensures InOrder(m, user, order + [id]) ==
            var items := InOrder(m, user, order);
            if id in m && m[id].user == user && m[id].Live() then Inserted(items, m[id]) else items
  {
    assert (order + [id])[..|order|] == order;
  }

  /** Records are stored under their own identifier. */
  ghost predicate Keyed(m: Avatars) {
    forall id :: id in m ==> m[id].id == id
  }

  function Named(order: seq<Id>): set<Id> {
    set id | id in order
  }

  /** An order in which a map can be visited: each of its keys, once. */
  ghost predicate Visits(order: seq<Id>, ids: set<Id>) {
    Named(order) == ids && forall i, j :: 0 <= i < j < |order| ==> order[i] != order[j]
  }

  lemma VisitsNext(order: seq<Id>, ids: set<Id>, id: Id)
    requires Visits(order, ids) && id !in ids
    ensures Visits(order + [id], ids + {id})
  {
    assert forall x :: x in order <==> x in Named(order);
  }

  /** Whatever the order, if it names no record twice, that is a listing of those it names. */
  lemma {:induction false} InOrderIsListing(m: Avatars, user: User, order: seq<Id>)
    requires Keyed(m) && forall i, j :: 0 <= i < j < |order| ==> order[i] != order[j]
    ensures ListingOf(m, Named(order), user, InOrder(m, user, order))
  {
    if order == [] {
    } else {
      var n := |order| - 1;
      var items, id := InOrder(m, user, order[..n]), order[n];
      InOrderIsListing(m, user, order[..n]);
      assert order == order[..n] + [id];
      assert Named(order) == Named(order[..n]) + {id};
      if id in m && m[id].user == user && m[id].Live() {
        InsertedListing(m, Named(order[..n]), user, items, m[id], Inserted(items, m[id]), Position(items, m[id]));
      }
    }
  }

  class Repository {
    var avatars: Avatars

    constructor ()
      ensures avatars == map[]
    {
      avatars := map[];
    }

    method Create(a: Avatar, o: Outcome) returns (err: Option<Error>)
      modifies this
      ensures avatars == Effect(o, old(avatars), old(avatars)[a.id := a])
      ensures err == Ending(o, None)
    {
      if !o.Lost? {
        avatars := avatars[a.id := a];
      }
      err := Ending(o, None);
    }

    method GetByID(id: Id, o: Outcome) returns (r: Result<Avatar, Error>)
      ensures r == if o.Fine? then Find(avatars, id) else Err(Dependency)
    {
      if !o.Fine? {
        return Err(Dependency);
      }
      if id !in avatars {
        return Err(NotFound);
      }
      return Ok(avatars[id]);
    }

    method GetActiveByID(id: Id, o: Outcome) returns (r: Result<Avatar, Error>)
      ensures r == if o.Fine? then FindActive(avatars, id) else Err(Dependency)
    {
      r := GetByID(id, o);
      if r.Ok? && r.value.deletedAt.Some? {
        return Err(NotFound);
      }
    }

    /** Visits the records in an arbitrary order, then sorts what it kept. */
    method ListActiveByUser(user: User, o: Outcome) returns (r: Result<seq<Avatar>, Error>)
      requires Keyed(avatars)
      ensures r.Ok? <==> o.Fine?
      ensures r.Ok? ==> IsListing(avatars, user, r.value)
      ensures r.Ok? ==> exists order :: Visits(order, avatars.Keys) && r.value == InOrder(avatars, user, order)
      ensures r.Err? ==> r.error == Dependency
    {
      if !o.Fine? {
        return Err(Dependency);
      }
      hide InOrder, ListingOf, Inserted;
      NothingInOrder(avatars, user);
      var out: seq<Avatar> := [];
      var pending := avatars.Keys;
      ghost var order: seq<Id> := [];
      while pending != {}
        invariant pending <= avatars.Keys && Visits(order, avatars.Keys - pending)
        invariant out == InOrder(avatars, user, order) && NewestFirst(out)
        decreases pending
      {
        var id :| id in pending;
        VisitsNext(order, avatars.Keys - pending, id);
        InOrderNext(avatars, user, order, id);
        assert avatars.Keys - (pending - {id}) == avatars.Keys - pending + {id};
        order, pending := order + [id], pending - {id};
        var a := avatars[id];
        if a.user == user && a.deletedAt.None? {
          out := InsertNewestFirst(out, a);
        }
      }
      assert avatars.Keys - pending == avatars.Keys;
      InOrderIsListing(avatars, user, order);
      assert Visits(order, avatars.Keys);
      r := Ok(out);
    }

    method SoftDeleteByID(id: Id, at: Time, o: Outcome) returns (err: Option<Error>)
      modifies this
      ensures avatars == Effect(o, old(avatars), SoftDeleted(old(avatars), id, at).0)
      ensures err == Ending(o, SoftDeleted(old(avatars), id, at).1)
    {
      err := Ending(o, None);
      if o.Lost? {
        return;
      }
      if id !in avatars || avatars[id].deletedAt.Some? {
        return Ending(o, Some(NotFound));
      }
      avatars := avatars[id := avatars[id].(deletedAt := Some(at))];
    }

    method MarkPublishFailed(id: Id, o: Outcome) returns (err: Option<Error>)
      modifies this
      ensures avatars == Effect(o, old(avatars), MarkedFailed(old(avatars), id).0)
      ensures err == Ending(o, MarkedFailed(old(avatars), id).1)
    {
      err := Ending(o, None);
      if o.Lost? {
        return;
      }
      if id !in avatars {
        return Ending(o, Some(NotFound));
      }
      avatars := avatars[id := avatars[id].(status := Failed)];
    }

    method UpdateProcessingResult(id: Id, key100: Key, key300: Key, o: Outcome) returns (err: Option<Error>)
      modifies this
      ensures avatars == Effect(o, old(avatars), Processed(old(avatars), id, key100, key300).0)
      ensures err == Ending(o, Processed(old(avatars), id, key100, key300).1)
    {
      err := Ending(o, None);
      if o.Lost? {
        return;
      }
      if id !in avatars {
        return Ending(o, Some(NotFound));
      }
      var a := avatars[id].(thumb100Key := key100, thumb300Key := key300);
      a := a.(thumb100Available := key100 != NoKey, thumb300Available := key300 != NoKey);
      if a.thumb100Available && a.thumb300Available {
        a := a.(status := Completed);
      } else {
        a := a.(status := Failed);
      }
      avatars := avatars[id := a];
    }
  }

  /** Inserts before the first element that is not newer. */
  method InsertNewestFirst(items: seq<Avatar>, a: Avatar) returns (r: seq<Avatar>)
    requires NewestFirst(items)
    ensures r == Inserted(items, a) && NewestFirst(r)
    ensures exists k :: 0 <= k <= |items| && r == items[..k] + [a] + items[k..]
  {
    var k := 0;
    while k < |items| && items[k].createdAt > a.createdAt
      invariant 0 <= k <= |items|
      invariant forall i :: 0 <= i < k ==> items[i].createdAt > a.createdAt
    {
      k := k + 1;
    }
    r := items[..k] + [a] + items[k..];
    assert k == Position(items, a);
  }

  // Storage

  function FindObject(m: Objects, key: Key): Result<Object, Error> {
    if key in m then Ok(m[key]) else Err(ObjectNotFound)
  }

  class Storage {
    var objects: Objects

    constructor ()
      ensures objects == map[]
    {
      objects := map[];
    }

    method Put(key: Key, data: Bytes, mime: string, o: Outcome) returns (err: Option<Error>)
      modifies this
      ensures objects == Effect(o, old(objects), old(objects)[key := Object(data, mime)])
      ensures err == Ending(o, None)
    {
      if !o.Lost? {
        objects := objects[key := Object(data, mime)];
      }
      err := Ending(o, None);
    }

    method Get(key: Key, o: Outcome) returns (r: Result<Object, Error>)
      ensures r == if o.Fine? then FindObject(objects, key) else Err(Dependency)
    {
      if !o.Fine? {
        return Err(Dependency);
      }
      if key !in objects {
        return Err(ObjectNotFound);
      }
      return Ok(objects[key]);
    }

    method Delete(key: Key, o: Outcome) returns (err: Option<Error>)
      modifies this
      ensures objects == Effect(o, old(objects), old(objects) - {key})
      ensures err == Ending(o, None)
    {
      if !o.Lost? {
        objects := objects - {key};
      }
      err := Ending(o, None);
    }

    method Exists(key: Key, o: Outcome) returns (r: Result<bool, Error>)
      ensures r == if o.Fine? then Ok(key in objects) else Err(Dependency)
    {
      if !o.Fine? {
        return Err(Dependency);
      }
      return Ok(key in objects);
    }
  }

  /** The two queues, as multisets of avatar identifiers not yet acknowledged. */
  class Broker {
    var uploads: multiset<Id>
    var deletes: multiset<Id>

    constructor ()
      ensures uploads == deletes == multiset{}
    {
      uploads, deletes := multiset{}, multiset{};
    }

    method PublishUploaded(id: Id, o: Outcome) returns (err: Option<Error>)
      modifies this
      ensures uploads == Effect(o, old(uploads), old(uploads) + multiset{id})
      ensures deletes == old(deletes)
      ensures err == Ending(o, None)
    {
      if !o.Lost? {
        uploads := uploads + multiset{id};
      }
      err := Ending(o, None);
    }

    method PublishDeleteRequested(id: Id, o: Outcome) returns (err: Option<Error>)
      modifies this
      ensures deletes == Effect(o, old(deletes), old(deletes) + multiset{id})
      ensures uploads == old(uploads)
      ensures err == Ending(o, None)
    {
      if !o.Lost? {
        deletes := deletes + multiset{id};
      }
      err := Ending(o, None);
    }
  }
}
