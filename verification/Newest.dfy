/** The user-based reads and deletes over runs: of two live uploads of a user, the one requested later
    comes first in every listing, is served, and is deleted. */
module Newest {
  import opened Domain
  import opened Store
  import opened Protocol
  import opened ProtocolSafety
  import opened ProtocolTheorems
  import opened ProtocolRequests
  import opened Sequential
  import opened Service
  import opened Drain

  /** In this state of the run, uploads `early` and `late` of the same user are live, `late` requested at a
      later time. */
  ghost predicate LaterUpload(c: Config, states: seq<State>, steps: seq<Step>, j: nat, early: nat, late: nat) {
    && IsRun(c, states, steps) && early < j && late < j && j <= |steps|
    && steps[early].StartUpload? && steps[late].StartUpload?
    && steps[early].input.user == steps[late].input.user && steps[early].now < steps[late].now
    && LiveIn(states[j].db.avatars, steps[early].id) && LiveIn(states[j].db.avatars, steps[late].id)
  }

  /** What the records say of two such uploads. */
  ghost predicate Newer(db: Db, user: User, early: Id, late: Id) {
    && Keyed(db.avatars) && LiveIn(db.avatars, early) && LiveIn(db.avatars, late)
    && db.avatars[early].user == user && db.avatars[late].user == user
    && db.avatars[early].createdAt < db.avatars[late].createdAt
    && Serves(db.objects, db.avatars[late], SizeOriginal)
  }

  lemma InvKeyed(c: Config, s: State)
    requires Inv(c, s)
    ensures Keyed(s.db.avatars)
  {
    forall id | id in s.db.avatars
      ensures s.db.avatars[id].id == id
    {
      assert RecordOk(s.db.history.inputs, id, s.db.avatars[id]);
    }
    hide Inv;
  }

  lemma LaterIsNewer(c: Config, states: seq<State>, steps: seq<Step>, j: nat, early: nat, late: nat)
    requires LaterUpload(c, states, steps, j, early, late)
    ensures Newer(states[j].db, steps[early].input.user, steps[early].id, steps[late].id)
  {
    RunKeeps(c, states, steps, j);
    InvKeyed(c, states[j]);
    LiveDataIsFresh(c, states, steps, j, steps[late].id);
    hide Inv, IsRun;
    CreatedWhenUploaded(c, states, steps, early, j, steps[early].id);
    CreatedWhenUploaded(c, states, steps, late, j, steps[late].id);
  }

  lemma ListedFirst(db: Db, user: User, early: Id, late: Id, listing: seq<Avatar>)
    requires Newer(db, user, early, late) && IsListing(db.avatars, user, listing)
    ensures exists a, b :: 0 <= a < b < |listing| && listing[a] == db.avatars[late] && listing[b] == db.avatars[early]
  {
    assert Listed(db.avatars, db.avatars.Keys, user, db.avatars[late]) && db.avatars[late] in listing;
    assert Listed(db.avatars, db.avatars.Keys, user, db.avatars[early]) && db.avatars[early] in listing;
    var a :| 0 <= a < |listing| && listing[a] == db.avatars[late];
    var b :| 0 <= b < |listing| && listing[b] == db.avatars[early];
  }

  /** In every listing the later upload comes first. */
  lemma LaterListedFirst(c: Config, states: seq<State>, steps: seq<Step>, j: nat, early: nat, late: nat,
      listing: seq<Avatar>)
    requires LaterUpload(c, states, steps, j, early, late)
    requires IsListing(states[j].db.avatars, steps[early].input.user, listing)
    ensures exists a, b :: 0 <= a < b < |listing| && listing[a].id == steps[late].id && listing[b].id == steps[early].id
  {
    LaterIsNewer(c, states, steps, j, early, late);
    hide LaterUpload, IsListing;
    var (db, first, second) := (states[j].db, steps[late].id, steps[early].id);
    ListedFirst(db, steps[early].input.user, second, first, listing);
    var a, b :| 0 <= a < b < |listing| && listing[a] == db.avatars[first] && listing[b] == db.avatars[second];
    assert listing[a].id == first && listing[b].id == second;
  }

  lemma ServedFirst(db: Db, user: User, early: Id, late: Id, listing: seq<Avatar>, size: Size, k: nat)
    requires Newer(db, user, early, late) && IsListing(db.avatars, user, listing)
    requires FirstServed(db.objects, listing, size, AllFine, k) && Serves(db.objects, db.avatars[late], size)
    ensures listing[k].id != early
  {
    ListedFirst(db, user, early, late, listing);
    var a, b :| 0 <= a < b < |listing| && listing[a] == db.avatars[late] && listing[b] == db.avatars[early];
    assert AllFine(1 + a).Fine?;
    assert k <= a;
  }

  /** The older one is not what ReadUserAvatar serves, at full size or at any size the later one has. */
  lemma OlderNotServed(c: Config, states: seq<State>, steps: seq<Step>, j: nat, early: nat, late: nat,
      listing: seq<Avatar>, size: Size, k: nat)
    requires LaterUpload(c, states, steps, j, early, late)
    requires IsListing(states[j].db.avatars, steps[early].input.user, listing)
    requires FirstServed(states[j].db.objects, listing, size, AllFine, k)
    requires size == SizeOriginal || Serves(states[j].db.objects, states[j].db.avatars[steps[late].id], size)
    ensures listing[k].id != steps[early].id
  {
    LaterIsNewer(c, states, steps, j, early, late);
    assert Newer(states[j].db, steps[early].input.user, steps[early].id, steps[late].id);
    hide LaterUpload, IsListing, FirstServed, Serves;
    ServedFirst(states[j].db, steps[early].input.user, steps[early].id, steps[late].id, listing, size, k);
  }

  lemma DeletedFirst(c: Config, db: Db, user: User, early: Id, late: Id, listing: seq<Avatar>, now: Time)
    requires Newer(db, user, early, late) && IsListing(db.avatars, user, listing)
    ensures var (db', err) := DeleteCurrent(c, db, user, now, listing);
            err == None && LiveIn(db'.avatars, early)
  {
    assert Current(db, user, late) && late in CurrentIds(db, user);
    DeletesNewest(c, db, user, now, listing);
    FirstIsNewest(db, user, listing);
    hide DeleteCurrent, Serves, IsListing, Readable;
  }

  /** Nor is it what DeleteCurrentUserAvatar deletes: that call succeeds, and leaves it alive. */
  lemma OlderNotDeleted(c: Config, states: seq<State>, steps: seq<Step>, j: nat, early: nat, late: nat,
      listing: seq<Avatar>, now: Time)
    requires LaterUpload(c, states, steps, j, early, late)
    requires IsListing(states[j].db.avatars, steps[early].input.user, listing)
    ensures var (db', err) := DeleteCurrent(c, states[j].db, steps[early].input.user, now, listing);
            err == None && LiveIn(db'.avatars, steps[early].id)
  {
    LaterIsNewer(c, states, steps, j, early, late);
    hide IsListing, DeleteCurrent, Newer;
    DeletedFirst(c, states[j].db, steps[early].input.user, steps[early].id, steps[late].id, listing, now);
  }
}
