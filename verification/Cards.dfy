/** What the cards of different avatars cannot share: their links. */
module Cards {
  import opened Domain
  import opened Service

  /** The first occurrence of a separator splits a string in one way. */
  lemma SplitOnce(a: string, b: string, x: string, y: string, mark: char)
    requires mark !in a && mark !in b && a + [mark] + x == b + [mark] + y
    ensures a == b && x == y
  {
    var s := a + [mark] + x;
    assert s[|a|] == mark && s[|b|] == mark;
    assert forall i :: 0 <= i < |a| ==> s[i] == a[i];
    assert forall i :: 0 <= i < |b| ==> s[i] == b[i];
    assert |a| == |b|;
    assert a == s[..|a|] == b && x == s[|a| + 1..] == y;
  }

  lemma URLNames(a: Id, b: Id)
    requires AvatarURL(a) == AvatarURL(b)
    ensures a == b
  {
    var prefix := AvatarURL("");
    assert AvatarURL(a)[|prefix|..] == a && AvatarURL(b)[|prefix|..] == b;
  }

  /** The links of metadata and gallery cards tell avatars apart. */
  lemma LinksDiffer(a: Avatar, b: Avatar)
    ensures Dto(a).url == Dto(b).url <==> a.id == b.id
  {
    if Dto(a).url == Dto(b).url {
      URLNames(a.id, b.id);
    }
  }

  lemma NoMark(id: Id)
    requires '?' !in id
    ensures '?' !in AvatarURL(id)
  {
    assert '?' !in AvatarURL("");
    assert AvatarURL(id) == AvatarURL("") + id;
  }

  /** What the query says is the size. */
  lemma NameParses(size: Size)
    requires !size.OtherSize?
    ensures ParseSize(SizeName(size)) == Some(size)
  {
  }

  lemma QueryOf(a: Avatar, size: Size)
    ensures Card(a, size).url == AvatarURL(a.id) + ['?'] + ("size=" + SizeName(size))
    ensures ("size=" + SizeName(size))[5..] == SizeName(size)
  {
    hide AvatarURL, SizeName;
    assert AvatarURL(a.id) + "?size=" + SizeName(size) == AvatarURL(a.id) + ['?'] + ("size=" + SizeName(size));
  }

  /** So do the links of the cards that come with bytes, which also tell the sizes apart. */
  lemma SizedLinksDiffer(a: Avatar, b: Avatar, size: Size, other: Size)
    requires '?' !in a.id && '?' !in b.id && !size.OtherSize? && !other.OtherSize?
    ensures Card(a, size).url == Card(b, other).url <==> a.id == b.id && size == other
  {
    QueryOf(a, size);
    QueryOf(b, other);
    hide AvatarURL, SizeName, ParseSize, Card;
    if Card(a, size).url == Card(b, other).url {
      NoMark(a.id);
      NoMark(b.id);
      SplitOnce(AvatarURL(a.id), AvatarURL(b.id), "size=" + SizeName(size), "size=" + SizeName(other), '?');
      URLNames(a.id, b.id);
      NameParses(size);
      NameParses(other);
    }
  }
}
