/** How the read methods agree with each other, and what they find in any state of any run. */
module ReadSide {
  import opened Domain
  import opened Store
  import opened Protocol
  import opened ProtocolSafety
  import opened ProtocolTheorems
  import opened Service

  /** ReadAvatar succeeds, or fails, for exactly these reasons. */
  lemma ReadAvatarCases(db: Db, id: Id, size: Size)
    ensures var r := ReadAvatarOf(db, id, size);
            && (r == Err(NotFound) <==> !LiveIn(db.avatars, id))
            && (r == Err(VariantNotReady) <==> LiveIn(db.avatars, id) && !db.avatars[id].VariantKey(size).1)
            && (r == Err(ObjectNotFound) <==> LiveIn(db.avatars, id) && db.avatars[id].VariantKey(size).1
                                              && db.avatars[id].VariantKey(size).0 !in db.objects)
            && (r.Ok? <==> LiveIn(db.avatars, id) && Serves(db.objects, db.avatars[id], size))
  {
  }

  /** `size`, if ReadAvatar succeeds at that size. */
  function Shown(db: Db, id: Id, size: Size): seq<Size> {
    if ReadAvatarOf(db, id, size).Ok? then [size] else []
  }

  /** Metadata lists a thumbnail iff ReadAvatar succeeds at that size, smaller first and each once, and
      reports a live avatar as failed when its original cannot be read. */
  lemma MetadataAgrees(db: Db, id: Id)
    ensures MetadataOf(db, id).Ok? <==> LiveIn(db.avatars, id)
    ensures MetadataOf(db, id).Ok? ==>
              var dto := MetadataOf(db, id).value;
              && Names(dto, db.avatars[id]) && dto.url == AvatarURL(db.avatars[id].id)
              && dto.thumbnails == Shown(db, id, Size100) + Shown(db, id, Size300)
              && dto.status ==
                 (if ReadAvatarOf(db, id, SizeOriginal).Ok? then db.avatars[id].ExternalStatus() else Failed)
  {
  }

  /** The gallery shows a listed avatar iff ReadAvatar serves its original, in listing order. */
  lemma GalleryAgrees(db: Db, user: User, items: seq<Avatar>)
    requires IsListing(db.avatars, user, items)
    ensures forall a :: a in items ==> (a in Readable(db.objects, items) <==> ReadAvatarOf(db, a.id, SizeOriginal).Ok?)
    ensures forall i, j :: 0 <= i < j < |Readable(db.objects, items)| ==>
              && Readable(db.objects, items)[i].id != Readable(db.objects, items)[j].id
              && Readable(db.objects, items)[i].createdAt >= Readable(db.objects, items)[j].createdAt
  {
    ReadableInOrder(db.objects, items);
  }

  lemma {:induction false} ReadableInOrder(objects: Objects, items: seq<Avatar>)
    requires forall i, j :: 0 <= i < j < |items| ==>
               items[i].id != items[j].id && items[i].createdAt >= items[j].createdAt
    ensures forall i, j :: 0 <= i < j < |Readable(objects, items)| ==>
              && Readable(objects, items)[i].id != Readable(objects, items)[j].id
              && Readable(objects, items)[i].createdAt >= Readable(objects, items)[j].createdAt
  {
    if items == [] {
    } else {
      ReadableInOrder(objects, items[1..]);
      var rest := Readable(objects, items[1..]);
      forall j | 0 <= j < |rest|
        ensures rest[j].id != items[0].id && items[0].createdAt >= rest[j].createdAt
      {
        assert rest[j] in items[1..];
      }
    }
  }

  /** In every state of every run, a read of a live avatar never finds its object missing: the original
      is what was uploaded, and a thumbnail is either not ready or the thumbnail of that upload. */
  lemma ReadsAreFresh(c: Config, states: seq<State>, steps: seq<Step>, i: nat, id: Id, size: Size)
    requires IsRun(c, states, steps) && i <= |steps| && LiveIn(states[i].db.avatars, id)
    requires !size.OtherSize?
    ensures id in states[i].db.history.inputs
    ensures var (db, input) := (states[i].db, states[i].db.history.inputs[id]);
            match ReadAvatarOf(db, id, size)
            case Ok(o) =>
              if size == SizeOriginal then o == Object(input.content, input.mime)
              else c.thumbnail(input.content, size) == Some(o.data) && o.mime == "image/jpeg"
            case Err(e) => e == VariantNotReady && size != SizeOriginal
  {
    RunKeeps(c, states, steps, i);
    InvFresh(c, states[i], id);
    hide Inv;
    var db := states[i].db;
    ReadAvatarCases(db, id, size);
    assert Fresh(c, db, db.avatars[id]);
  }

  /** In every state of every run, Metadata of a live avatar lists just the thumbnails the record flags,
      each of them can be read and is that of the upload, and the status is the record's, which says
      completed only if both are listed. */
  lemma MetadataIsFresh(c: Config, states: seq<State>, steps: seq<Step>, i: nat, id: Id)
    requires IsRun(c, states, steps) && i <= |steps| && LiveIn(states[i].db.avatars, id)
    ensures id in states[i].db.history.inputs && MetadataOf(states[i].db, id).Ok?
    ensures var (db, input, dto) :=
              (states[i].db, states[i].db.history.inputs[id], MetadataOf(states[i].db, id).value);
            var a := db.avatars[id];
            && dto.id == id && dto.user == input.user && dto.createdAt == a.createdAt && dto.url == AvatarURL(id)
            && dto.status == a.status
            && (forall size :: size in dto.thumbnails <==>
                  !size.OtherSize? && size != SizeOriginal && a.VariantKey(size).1)
            && (forall size :: size in dto.thumbnails ==>
                  var read := ReadAvatarOf(db, id, size);
                  read.Ok? && c.thumbnail(input.content, size) == Some(read.value.data))
            && (dto.status == Completed ==> dto.thumbnails == [Size100, Size300])
  {
    RunKeeps(c, states, steps, i);
    var db := states[i].db;
    ReadsAreFresh(c, states, steps, i, id, SizeOriginal);
    ReadsAreFresh(c, states, steps, i, id, Size100);
    ReadsAreFresh(c, states, steps, i, id, Size300);
    MetadataAgrees(db, id);
    assert RecordOk(db.history.inputs, id, db.avatars[id]);
    hide Inv, IsRun, MetadataOf;
  }
}
