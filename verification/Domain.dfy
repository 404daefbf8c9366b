/** Avatars, their storage keys and what the API derives from them (internal/domain/domain.go). */
module Domain {

  type Id = string
  type User = string
  type Time = int
  type Bytes = seq<bv8>

  datatype Option<+T> = None | Some(value: T)

  datatype Result<+T, +E> = Ok(value: T) | Err(error: E)

  /** The errors a caller can tell apart. `Dependency` is any failure of a store or of the broker. */
  datatype Error =
    | NotFound
    | Forbidden
    | VariantNotReady
    | ObjectNotFound
    | InvalidUserID
    | CircuitOpen
    | ThumbnailFailed
    | Dependency

  /** `OtherStatus` is any further string a stored row might hold. */
  datatype Status = Processing | Completed | Failed | OtherStatus(raw: string)

  datatype Size = SizeOriginal | Size100 | Size300 | OtherSize(raw: string)

  /** Storage keys. `NoKey` is the empty string of a variant that was never stored. */
  datatype Key = NoKey | Original(id: Id, ext: string) | Thumb100(id: Id) | Thumb300(id: Id) {
    /** The avatar whose directory the key lies in. */
    predicate OwnedBy(owner: Id) {
      !NoKey? && id == owner
    }

    /** The last component of the key's path. */
    function Leaf(): string
      requires !NoKey?
    {
      match this
      case Original(_, ext) => "original" + ext
      case Thumb100(_) => "thumb_100x100.jpg"
      case Thumb300(_) => "thumb_300x300.jpg"
    }

    function Render(): string {
      if NoKey? then "" else "avatars/" + (id + "/" + Leaf())
    }

    predicate SlashFree() {
      NoKey? || '/' !in id
    }
  }

  lemma SlashAt(a: string, x: string)
    requires '/' !in a
    ensures (a + "/" + x)[|a|] == '/'
    ensures forall i :: 0 <= i < |a| ==> (a + "/" + x)[i] != '/'
    ensures (a + "/" + x)[..|a|] == a && (a + "/" + x)[|a| + 1..] == x
  {
    forall i | 0 <= i < |a|
      ensures (a + "/" + x)[i] != '/'
    {
      assert (a + "/" + x)[i] == a[i] && a[i] in a;
    }
  }

  lemma FirstSlash(a: string, b: string, x: string, y: string)
    requires '/' !in a && '/' !in b && a + "/" + x == b + "/" + y
    ensures a == b && x == y
  {
    SlashAt(a, x);
    SlashAt(b, y);
    assert |a| == |b|;
  }

  lemma LeafInjective(k: Key, l: Key)
    requires !k.NoKey? && !l.NoKey? && k.Leaf() == l.Leaf() && k.id == l.id
    ensures k == l
  {
    var s := k.Leaf();
    assert k.Original? <==> s[0] == 'o';
    assert l.Original? <==> s[0] == 'o';
    if k.Original? && l.Original? {
      assert k.ext == s[8..] == l.ext;
    } else if !k.Original? {
      assert k.Thumb100? <==> s[6] == '1';
      assert l.Thumb100? <==> s[6] == '1';
    }
  }

  /** Keys of identifiers without a slash never collide as strings, so the stores of this model,
      which are indexed by `Key`, behave like the string-keyed ones of the program. */
  lemma RenderInjective(k: Key, l: Key)
    requires k.SlashFree() && l.SlashFree() && k.Render() == l.Render()
    ensures k == l
  {
    if !k.NoKey? && !l.NoKey? {
      assert k.Render()[8..] == k.id + "/" + k.Leaf();
      assert l.Render()[8..] == l.id + "/" + l.Leaf();
      FirstSlash(k.id, l.id, k.Leaf(), l.Leaf());
      LeafInjective(k, l);
    }
  }

  /** The suffix from the last dot of the last slash-separated element, as `filepath.Ext` gives it. */
  function FileExt(path: string): string {
    if path == "" || path[|path| - 1] == '/' then ""
    else if path[|path| - 1] == '.' then "."
    else
      var shorter := FileExt(path[..|path| - 1]);
      if shorter == "" then "" else shorter + [path[|path| - 1]]
  }

  /** It starts at a dot, the last one, and no slash follows that. */
  lemma {:induction false} FileExtAtLastDot(path: string)
    ensures var ext := FileExt(path);
            ext != "" ==>
              && |ext| <= |path| && ext == path[|path| - |ext|..] && ext[0] == '.'
              && forall i :: 0 < i < |ext| ==> ext[i] != '.' && ext[i] != '/'
  {
    if path == "" || path[|path| - 1] == '/' || path[|path| - 1] == '.' {
    } else {
      var front, last := path[..|path| - 1], path[|path| - 1];
      var ext := FileExt(front);
      FileExtAtLastDot(front);
      if ext != "" {
        assert FileExt(path) == ext + [last];
        assert path[|path| - |ext + [last]|..] == front[|front| - |ext|..] + [last];
      }
    }
  }

  /** It is empty only if no dot follows the last slash. */
  lemma {:induction false} NoFileExt(path: string, i: nat)
    requires FileExt(path) == "" && i < |path| && path[i] == '.'
    ensures exists j :: i < j < |path| && path[j] == '/'
  {
    var n := |path| - 1;
    if path[n] == '/' {
    } else if path[n] != '.' {
      NoFileExt(path[..n], i);
      var j :| i < j < n && path[..n][j] == '/';
      assert path[j] == '/';
    }
  }

  /** The extension of an original is never empty, and never leads out of the avatar's directory. It is
      the file extension of the MIME string if that has one, and else tells the three accepted types from
      each other and from the rest. */
  lemma ExtensionIsSafe(mime: string)
    ensures var ext := ExtForMime(mime);
            && |ext| >= 1 && ext[0] == '.' && '/' !in ext
            && (FileExt(mime) != "" ==> ext == FileExt(mime))
            && (FileExt(mime) == "" ==>
                  && ext in [".jpg", ".png", ".webp", ".bin"]
                  && (ext == ".jpg" <==> mime == "image/jpeg")
                  && (ext == ".png" <==> mime == "image/png")
                  && (ext == ".webp" <==> mime == "image/webp"))
  {
    FileExtAtLastDot(mime);
    NoDotNoExt("image/jpeg");
    NoDotNoExt("image/png");
    NoDotNoExt("image/webp");
  }

  lemma {:induction false} NoDotNoExt(path: string)
    requires '.' !in path
    ensures FileExt(path) == ""
  {
    if path == "" || path[|path| - 1] == '/' {
    } else {
      assert path[|path| - 1] in path;
      NoDotNoExt(path[..|path| - 1]);
    }
  }

  function ExtForMime(mime: string): string {
    if mime == "image/jpeg" then ".jpg"
    else if mime == "image/png" then ".png"
    else if mime == "image/webp" then ".webp"
    else
      var ext := FileExt(mime);
      if ext == "" || '/' in ext then ".bin" else ext
  }

  predicate ValidUserID(user: User) {
    1 <= |user| <= 255 &&
    forall i :: 0 <= i < |user| ==>
      'A' <= user[i] <= 'Z' || 'a' <= user[i] <= 'z' || '0' <= user[i] <= '9' || user[i] in "._@-"
  }

  /** The fields of an avatar that some branch of the program reads. */
  datatype Avatar = Avatar(
    id: Id,
    user: User,
    originalKey: Key,
    thumb100Key: Key,
    thumb300Key: Key,
    originalAvailable: bool,
    thumb100Available: bool,
    thumb300Available: bool,
    status: Status,
    createdAt: Time,
    deletedAt: Option<Time>)
  {
    predicate Live() {
      deletedAt.None?
    }

    function VariantKey(size: Size): (Key, bool) {
      match size
      case SizeOriginal => (originalKey, originalAvailable)
      case Size100 => (thumb100Key, thumb100Available)
      case Size300 => (thumb300Key, thumb300Available)
      case OtherSize(_) => (NoKey, false)
    }

    /** One of the three known statuses: the record's own, or failed. */
    function ExternalStatus(): (s: Status)
      ensures !s.OtherStatus? && (s != Failed ==> originalAvailable && s == status)
      ensures originalAvailable && !status.OtherStatus? ==> s == status
    {
      if !originalAvailable then Failed
      else match status
        case OtherStatus(_) => Failed
        case s => s
    }
  }

  function SizeName(size: Size): string {
    match size
    case SizeOriginal => "original"
    case Size100 => "100x100"
    case Size300 => "300x300"
    case OtherSize(raw) => raw
  }

  /** The sizes a request may name; no name stands for the original. */
  function ParseSize(raw: string): (r: Option<Size>)
    ensures r.Some? ==> !r.value.OtherSize? && (raw == SizeName(r.value) || (raw == "" && r.value == SizeOriginal))
    ensures r.None? ==> raw != "" && forall size :: SizeName(size) == raw ==> size.OtherSize?
  {
    match raw
    case "" => Some(SizeOriginal)
    case "original" => Some(SizeOriginal)
    case "100x100" => Some(Size100)
    case "300x300" => Some(Size300)
    case _ => None
  }

  datatype AvatarDTO =
    AvatarDTO(id: Id, user: User, url: string, status: Status, createdAt: Time, thumbnails: seq<Size>)

  function AvatarURL(id: Id): string {
    "/api/v1/avatars/" + id
  }

  function Dto(a: Avatar): AvatarDTO {
    AvatarDTO(a.id, a.user, AvatarURL(a.id), a.ExternalStatus(), a.createdAt, [])
  }
}
