/** A process that runs with nothing in between: what the methods of the service and the worker
    compute, as one of the interleavings of the protocol. */
module Sequential {
  import opened Domain
  import opened Store
  import opened Protocol

  /** How the n-th call of a process ends. */
  type Outcomes = nat -> Outcome

  function AllFine(n: nat): Outcome { Fine }

  function Stage(pc: Pc): nat {
    match pc
    case UpPut(_, _, _) => 4
    case UpCreate(_, _, _) => 3
    case UpPublish(_) => 2
    case UpMark(_) => 1
    case CurList(_, _) => 5
    case CurScan(_, _, _) => 4
    case DelGet(_, _, _) => 3
    case DelSoft(_, _, _) => 2
    case DelPublish(_) => 1
    case UhGet(_) => 6
    case UhRead(_, _) => 5
    case UhPut100(_, _, _) => 4
    case UhPut300(_, _) => 3
    case UhUpdate(_) => 2
    case UhFail(_, _) => 1
    case DhGet(_) => 2
    case DhDel(_, _) => 1
  }

  /** What is left of a list a process goes through. */
  function Remaining(pc: Pc): nat {
    match pc
    case CurScan(_, _, items) => |items|
    case DhDel(_, keys) => |keys|
    case _ => 0
  }

  /** The whole run of a process from `pc` on; its next call is the n-th. */
  function Solo(c: Config, db: Db, pc: Pc, os: Outcomes, n: nat): (Db, Option<Error>)
    requires !pc.CurList?
    decreases Stage(pc), Remaining(pc)
  {
    var (db', next) := Micro(c, db, pc, Choice(os(n), []));
    match next
    case Return(err) => (db', err)
    case Go(pc') => Solo(c, db', pc', os, n + 1)
  }

  /** `steps` lead from `s` to `s'`. */
  ghost predicate Path(c: Config, s: State, steps: seq<Step>, s': State)
    decreases steps
  {
    if steps == [] then s == s'
    else Enabled(s, steps[0]) && Path(c, Do(c, s, steps[0]), steps[1..], s')
  }

  /** An uninterrupted process is an interleaving: its calls, one after the other, lead to the stores
      `Solo` computes, with a failed delivery queued again and the process gone. */
  lemma {:induction false} SoloIsInterleaving(c: Config, s: State, pid: Pid, os: Outcomes, n: nat)
    returns (steps: seq<Step>)
    requires pid in s.procs && !s.procs[pid].CurList?
    ensures var (db, err) := Solo(c, s.db, s.procs[pid], os, n);
            Path(c, s, steps, State(if err.Some? then Requeue(db, s.procs[pid]) else db, s.procs - {pid}))
    ensures forall step :: step in steps ==> step.Advance?
    decreases Stage(s.procs[pid]), Remaining(s.procs[pid])
  {
    var pc, ch := s.procs[pid], Choice(os(n), []);
    var step := Advance(pid, ch, false);
    var (db', next) := Micro(c, s.db, pc, ch);
    var s' := Do(c, s, step);
    CallProgresses(c, s.db, pc, ch);
    SameDelivery(c, s.db, pc, ch);
    assert Enabled(s, step);
    hide Micro, Requeue, Enabled;
    match next
    case Return(err) =>
      steps := [step];
      assert Path(c, s', [], s');
    case Go(pc') =>
      assert s' == State(db', s.procs[pid := pc']);
      hide Do;
      var rest := SoloIsInterleaving(c, s', pid, os, n + 1);
      steps := [step] + rest;
      assert s'.procs - {pid} == s.procs - {pid};
      assert steps[1..] == rest;
      RequeueSame(Solo(c, db', pc', os, n + 1).0, pc, pc');
  }

  /** Every call brings a process closer to its end. */
  lemma CallProgresses(c: Config, db: Db, pc: Pc, ch: Choice)
    requires !pc.CurList?
    ensures var next := Micro(c, db, pc, ch).1;
            next.Go? ==>
              && !next.pc.CurList?
              && (Stage(next.pc) < Stage(pc) || (Stage(next.pc) == Stage(pc) && Remaining(next.pc) < Remaining(pc)))
  {
  }

  lemma RequeueSame(db: Db, pc: Pc, pc': Pc)
    requires pc'.UploadHandler() == pc.UploadHandler() && pc'.DeleteHandler() == pc.DeleteHandler()
    requires pc.Handler() ==> pc'.id == pc.id
    ensures Requeue(db, pc') == Requeue(db, pc)
  {
  }

  /** A process goes on with the delivery it has. */
  lemma SameDelivery(c: Config, db: Db, pc: Pc, ch: Choice)
    ensures var next := Micro(c, db, pc, ch).1;
            next.Go? ==>
              && next.pc.UploadHandler() == pc.UploadHandler()
              && next.pc.DeleteHandler() == pc.DeleteHandler()
              && (pc.Handler() ==> next.pc.id == pc.id)
  {
  }

  // What the handlers achieve when nothing fails

  function Thumbnailed(c: Config, db: Db, id: Id, data: Bytes): Db
    requires id in db.avatars && Thumbnailable(c, data)
  {
    db.(objects := db.objects[Thumb100(id) := Object(c.thumbnail(data, Size100).value, JpegMime())]
                             [Thumb300(id) := Object(c.thumbnail(data, Size300).value, JpegMime())],
        avatars := Processed(db.avatars, id, Thumb100(id), Thumb300(id)).0)
  }

  function Rejected(db: Db, id: Id): Db {
    db.(avatars := Processed(db.avatars, id, NoKey, NoKey).0)
  }

  predicate NeedsWork(db: Db, id: Id) {
    id in db.avatars && db.avatars[id].Live()
    && !(db.avatars[id].status == Completed && db.avatars[id].thumb100Available && db.avatars[id].thumb300Available)
  }

  /** An upload event is acknowledged at once if the avatar is gone, deleted or completed; else the
      avatar is completed with both thumbnails if they can be generated, and marked failed if not. */
  lemma UploadHandled(c: Config, db: Db, id: Id)
    ensures var r := Solo(c, db, UhGet(id), AllFine, 0);
            if !NeedsWork(db, id) then r == (db, None)
            else if db.avatars[id].originalKey !in db.objects then r == (Rejected(db, id), Some(ObjectNotFound))
            else
              var data := db.objects[db.avatars[id].originalKey].data;
              if Thumbnailable(c, data) then r == (Thumbnailed(c, db, id, data), None)
              else r == (Rejected(db, id), Some(ThumbnailFailed))
  {
    if NeedsWork(db, id) {
      var key := db.avatars[id].originalKey;
      assert Solo(c, db, UhGet(id), AllFine, 0) == Solo(c, db, UhRead(id, key), AllFine, 1);
      if key in db.objects && Thumbnailable(c, db.objects[key].data) {
        var data := db.objects[key].data;
        ThumbnailsStored(c, db, id, c.thumbnail(data, Size100).value, c.thumbnail(data, Size300).value);
      } else {
        var e := if key in db.objects then ThumbnailFailed else ObjectNotFound;
        assert Solo(c, db, UhRead(id, key), AllFine, 1) == Solo(c, db, UhFail(id, e), AllFine, 2);
      }
    }
  }

  lemma ThumbnailsStored(c: Config, db: Db, id: Id, t100: Bytes, t300: Bytes)
    requires id in db.avatars
    ensures Solo(c, db, UhPut100(id, t100, t300), AllFine, 2) ==
            (db.(objects := db.objects[Thumb100(id) := Object(t100, JpegMime())]
                                      [Thumb300(id) := Object(t300, JpegMime())],
                 avatars := Processed(db.avatars, id, Thumb100(id), Thumb300(id)).0), None)
  {
    var one := db.(objects := db.objects[Thumb100(id) := Object(t100, JpegMime())]);
    var two := one.(objects := one.objects[Thumb300(id) := Object(t300, JpegMime())]);
    assert Solo(c, db, UhPut100(id, t100, t300), AllFine, 2) == Solo(c, one, UhPut300(id, t300), AllFine, 3);
    assert Solo(c, one, UhPut300(id, t300), AllFine, 3) == Solo(c, two, UhUpdate(id), AllFine, 4);
  }

  /** Handling the same upload event again changes nothing, whether it succeeded or failed. */
  lemma UploadHandlerIdempotent(c: Config, db: Db, id: Id)
    ensures var once := Solo(c, db, UhGet(id), AllFine, 0);
            Solo(c, once.0, UhGet(id), AllFine, 0) == once
  {
    hide Solo;
    UploadHandled(c, db, id);
    UploadHandled(c, Solo(c, db, UhGet(id), AllFine, 0).0, id);
    if NeedsWork(db, id) {
      assert Rejected(Rejected(db, id), id).avatars == Rejected(db, id).avatars;
    }
  }

  /** A delete event leaves the store without the keys its record lists, and changes nothing else. */
  lemma DeleteHandled(c: Config, db: Db, id: Id)
    ensures Solo(c, db, DhGet(id), AllFine, 0) ==
            (if id !in db.avatars then db
             else db.(objects := db.objects - set k | k in KeysOf(db.avatars[id])), None)
  {
    if id in db.avatars {
      var keys := KeysOf(db.avatars[id]);
      assert Solo(c, db, DhGet(id), AllFine, 0) == Solo(c, db, DhDel(id, keys), AllFine, 1);
      KeysDeleted(c, db, id, keys, 1);
    }
  }

  lemma {:induction false} KeysDeleted(c: Config, db: Db, id: Id, keys: seq<Key>, n: nat)
    ensures Solo(c, db, DhDel(id, keys), AllFine, n) == (db.(objects := db.objects - set k | k in keys), None)
    decreases |keys|
  {
    if keys == [] {
      assert db.objects - (set k | k in keys) == db.objects;
    } else {
      var db' := db.(objects := db.objects - {keys[0]});
      KeysDeleted(c, db', id, keys[1..], n + 1);
      assert Solo(c, db, DhDel(id, keys), AllFine, n) == Solo(c, db', DhDel(id, keys[1..]), AllFine, n + 1);
      assert (set k | k in keys) == {keys[0]} + set k | k in keys[1..];
      assert db.objects - {keys[0]} - (set k | k in keys[1..]) == db.objects - set k | k in keys;
    }
  }

  /** Handling the same delete event again changes nothing. */
  lemma DeleteHandlerIdempotent(c: Config, db: Db, id: Id)
    ensures var once := Solo(c, db, DhGet(id), AllFine, 0);
            Solo(c, once.0, DhGet(id), AllFine, 0) == once
  {
    hide Solo;
    var once := Solo(c, db, DhGet(id), AllFine, 0).0;
    DeleteHandled(c, db, id);
    DeleteHandled(c, once, id);
    if id in db.avatars {
      var gone := set k | k in KeysOf(db.avatars[id]);
      assert db.objects - gone - gone == db.objects - gone;
    }
  }

  predicate AnyStored(objects: Objects, keys: seq<Key>) {
    exists k :: k in keys && k in objects
  }

  /** However its calls end, a removal that succeeds has removed every key. */
  lemma {:induction false} RemovalComplete(c: Config, db: Db, id: Id, keys: seq<Key>, os: Outcomes, n: nat)
    ensures var (db', err) := Solo(c, db, DhDel(id, keys), os, n);
            && (forall k :: k in db'.objects ==> k in db.objects)
            && (err.None? ==> !AnyStored(db'.objects, keys))
    decreases |keys|
  {
    if keys == [] {
    } else if os(n).Fine? {
      var rest := db.(objects := db.objects - {keys[0]});
      assert Solo(c, db, DhDel(id, keys), os, n) == Solo(c, rest, DhDel(id, keys[1..]), os, n + 1);
      RemovalComplete(c, rest, id, keys[1..], os, n + 1);
      hide Solo;
      assert forall k :: k in keys <==> k == keys[0] || k in keys[1..];
    } else {
      assert Solo(c, db, DhDel(id, keys), os, n).1 == Some(Dependency);
    }
  }

  /** Physical deletion, however the calls of the handler end: it answers with success and yet leaves an
      object behind iff its lookup failed and there was one. In every other case an object is left only
      with an error, so that the event is queued again. */
  lemma DeletionLostExactly(c: Config, db: Db, id: Id, os: Outcomes)
    requires id in db.avatars
    ensures var (db', err) := Solo(c, db, DhGet(id), os, 0);
            var keys := KeysOf(db.avatars[id]);
            (err.None? && AnyStored(db'.objects, keys)) <==> (!os(0).Fine? && AnyStored(db.objects, keys))
  {
    var keys := KeysOf(db.avatars[id]);
    if os(0).Fine? {
      assert Solo(c, db, DhGet(id), os, 0) == Solo(c, db, DhDel(id, keys), os, 1);
      RemovalComplete(c, db, id, keys, os, 1);
    } else {
      assert Solo(c, db, DhGet(id), os, 0) == (db, None);
    }
  }
}
