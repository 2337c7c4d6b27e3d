/** Round trip, merge law, packed encodings and sizes of the social-network messages. */
module MessageLaws {
  import opened Common
  import opened Wire
  import opened Utf8
  import opened Messages

  /** Folding a first part, then the rest. */
  lemma FoldThen<M>(apply: (M, Rec) -> Option<M>, xs: seq<Rec>, ys: seq<Rec>, m: M, m': M)
    requires Fold(apply, xs, m) == Some(m')
    ensures Fold(apply, xs + ys, m) == Fold(apply, ys, m')
  {
    FoldAppend(apply, xs, ys, m);
  }

  lemma FoldFails<M>(apply: (M, Rec) -> Option<M>, xs: seq<Rec>, ys: seq<Rec>, m: M)
    requires Fold(apply, xs, m) == None
    ensures Fold(apply, xs + ys, m) == None
  {
    FoldAppend(apply, xs, ys, m);
  }

  lemma FoldOne<M>(apply: (M, Rec) -> Option<M>, r: Rec, m: M)
    ensures Fold(apply, [r], m) == apply(m, r)
  {
  }

  lemma FoldCons<M>(apply: (M, Rec) -> Option<M>, r: Rec, rs: seq<Rec>, m: M)
    ensures Fold(apply, [r] + rs, m) == match apply(m, r) case None => None case Some(m') => Fold(apply, rs, m')
  {
    assert ([r] + rs)[1..] == rs;
  }

  lemma EncodedAlone<M>(apply: (M, Rec) -> Option<M>, rs: seq<Rec>, m: M)
    requires Fits(rs)
    ensures Parse(apply, EncodeAll(rs), m) == Fold(apply, rs, m)
  {
    assert EncodeAll(rs) + [] == EncodeAll(rs);
    ParseEncoded(apply, rs, [], m);
  }

  // ---- unknown fields ----

  /** Reading records a type does not know keeps their bytes. */
  lemma {:induction false} KeptFold<M(!new)>(apply: (M, Rec) -> Option<M>, knows: Rec -> bool, keep: (M, seq<byte>) -> M, us: seq<Rec>, m: M)
    requires forall i :: 0 <= i < |us| ==> !knows(us[i])
    requires forall x: M, r: Rec :: !knows(r) ==> apply(x, r) == Some(keep(x, EncodeRec(r)))
    requires forall x: M, a: seq<byte>, b: seq<byte> :: keep(keep(x, a), b) == keep(x, a + b)
    requires forall x: M :: keep(x, []) == x
    ensures Fold(apply, us, m) == Some(keep(m, EncodeAll(us)))
    decreases us
  {
    if us != [] {
      assert apply(m, us[0]) == Some(keep(m, EncodeRec(us[0])));
      KeptFold(apply, knows, keep, us[1..], keep(m, EncodeRec(us[0])));
    }
  }

  /** Known records, then unknown bytes. */
  lemma EncodedThenKept<M(!new)>(apply: (M, Rec) -> Option<M>, knows: Rec -> bool, keep: (M, seq<byte>) -> M, rs: seq<Rec>, u: seq<byte>, m: M)
    requires Fits(rs) && Kept(knows, u)
    requires forall x: M, r: Rec :: !knows(r) ==> apply(x, r) == Some(keep(x, EncodeRec(r)))
    requires forall x: M, a: seq<byte>, b: seq<byte> :: keep(keep(x, a), b) == keep(x, a + b)
    requires forall x: M :: keep(x, []) == x
    ensures Parse(apply, EncodeAll(rs) + u, m) == match Fold(apply, rs, m) case None => None case Some(m') => Some(keep(m', u))
  {
    ParseEncoded(apply, rs, u, m);
    if Fold(apply, rs, m).Some? {
      var us :| KeptAs(knows, u, us);
      var m' := Fold(apply, rs, m).value;
      EncodedAlone(apply, us, m');
      KeptFold(apply, knows, keep, us, m');
    }
  }

  lemma ProfileThenKept(rs: seq<Rec>, u: seq<byte>, m: Profile)
    requires Fits(rs) && Kept(ProfileKnows, u)
    ensures ParseProfile(EncodeAll(rs) + u, m) ==
      match Fold(ApplyProfile, rs, m) case None => None case Some(m') => Some(KeepProfile(m', u))
  {
    forall x: Profile, a: seq<byte>, b: seq<byte> ensures KeepProfile(KeepProfile(x, a), b) == KeepProfile(x, a + b) {
      assert x.unknown + a + b == x.unknown + (a + b);
    }
    forall x: Profile ensures KeepProfile(x, []) == x { assert x.unknown + [] == x.unknown; }
    EncodedThenKept(ApplyProfile, ProfileKnows, KeepProfile, rs, u, m);
  }

  lemma LinkThenKept(rs: seq<Rec>, u: seq<byte>, m: Link)
    requires Fits(rs) && Kept(LinkKnows, u)
    ensures ParseLink(EncodeAll(rs) + u, m) ==
      match Fold(ApplyLink, rs, m) case None => None case Some(m') => Some(KeepLink(m', u))
  {
    forall x: Link, a: seq<byte>, b: seq<byte> ensures KeepLink(KeepLink(x, a), b) == KeepLink(x, a + b) {
      assert x.unknown + a + b == x.unknown + (a + b);
    }
    forall x: Link ensures KeepLink(x, []) == x { assert x.unknown + [] == x.unknown; }
    EncodedThenKept(ApplyLink, LinkKnows, KeepLink, rs, u, m);
  }

  lemma PostThenKept(rs: seq<Rec>, u: seq<byte>, m: Post)
    requires Fits(rs) && Kept(PostKnows, u)
    ensures ParsePost(EncodeAll(rs) + u, m) ==
      match Fold(ApplyPost, rs, m) case None => None case Some(m') => Some(KeepPost(m', u))
  {
    forall x: Post, a: seq<byte>, b: seq<byte> ensures KeepPost(KeepPost(x, a), b) == KeepPost(x, a + b) {
      assert x.unknown + a + b == x.unknown + (a + b);
    }
    forall x: Post ensures KeepPost(x, []) == x { assert x.unknown + [] == x.unknown; }
    EncodedThenKept(ApplyPost, PostKnows, KeepPost, rs, u, m);
  }

  lemma ReqThenKept(rs: seq<Rec>, u: seq<byte>, m: ReadReq)
    requires Fits(rs) && Kept(ReqKnows, u)
    ensures ParseReq(EncodeAll(rs) + u, m) ==
      match Fold(ApplyReq, rs, m) case None => None case Some(m') => Some(KeepReq(m', u))
  {
    forall x: ReadReq, a: seq<byte>, b: seq<byte> ensures KeepReq(KeepReq(x, a), b) == KeepReq(x, a + b) {
      assert x.unknown + a + b == x.unknown + (a + b);
    }
    forall x: ReadReq ensures KeepReq(x, []) == x { assert x.unknown + [] == x.unknown; }
    EncodedThenKept(ApplyReq, ReqKnows, KeepReq, rs, u, m);
  }

  // ---- the flat messages ----

  /** Reading a written profile into any profile merges it, exactly when its text is valid. */
  lemma ProfileMerges(m: Profile, p: Profile)
    requires ProfileFits(p)
    ensures ParseProfile(EncodeProfile(p), m) == if ProfileText(p) then Some(MergeProfile(m, p)) else None
  {
    ProfileThenKept(ProfileRecs(p), p.unknown, m);
    var m1 := m.(id := Later(m.id, p.id));
    assert Fold(ApplyProfile, Int64Recs(1, p.id), m) == Some(m1) by {
      if p.id.Some? { FoldOne(ApplyProfile, Num(1, ToU64(p.id.value)), m); I64RoundTrip(p.id.value); }
    }
    FoldThen(ApplyProfile, Int64Recs(1, p.id), BlobRecs(2, p.name), m, m1);
    if p.name.Some? { FoldOne(ApplyProfile, Blob(2, p.name.value), m1); }
  }

  lemma LinkMerges(m: Link, l: Link)
    requires LinkFits(l)
    ensures ParseLink(EncodeLink(l), m) == if LinkText(l) then Some(MergeLink(m, l)) else None
  {
    LinkThenKept(LinkRecs(l), l.unknown, m);
    var m1 := m.(shortened := Later(m.shortened, l.shortened));
    if TextOk(l.shortened) {
      assert Fold(ApplyLink, BlobRecs(1, l.shortened), m) == Some(m1) by {
        if l.shortened.Some? { FoldOne(ApplyLink, Blob(1, l.shortened.value), m); }
      }
      FoldThen(ApplyLink, BlobRecs(1, l.shortened), BlobRecs(2, l.expanded), m, m1);
      if l.expanded.Some? { FoldOne(ApplyLink, Blob(2, l.expanded.value), m1); }
    } else {
      FoldOne(ApplyLink, Blob(1, l.shortened.value), m);
      FoldFails(ApplyLink, BlobRecs(1, l.shortened), BlobRecs(2, l.expanded), m);
    }
  }

  // ---- the fields of a post, one after the other ----

  lemma PostNumField(m: Post, f: nat, o: Option<i64>)
    requires f == 1 || f == 3 || f == 8
    ensures Fold(ApplyPost, Int64Recs(f, o), m) ==
      Some(if f == 1 then m.(postId := Later(m.postId, o))
           else if f == 3 then m.(reqId := Later(m.reqId, o))
           else m.(timestamp := Later(m.timestamp, o)))
  {
    if o.Some? {
      FoldOne(ApplyPost, Num(f, ToU64(o.value)), m);
      I64RoundTrip(o.value);
    }
  }

  lemma PostTypeField(m: Post, o: Option<i32>)
    ensures Fold(ApplyPost, EnumRecs(9, o), m) == Some(m.(postType := Later(m.postType, o)))
  {
    if o.Some? {
      FoldOne(ApplyPost, Num(9, ExtendI32(o.value)), m);
      I32RoundTrip(o.value);
    }
  }

  lemma CreatorField(m: Post, o: Option<Profile>)
    requires o.Some? ==> ProfileFits(o.value)
    ensures Fold(ApplyPost, CreatorRecs(o), m) ==
      if o.Some? && !ProfileText(o.value) then None else Some(m.(creator := MergeCreator(m.creator, o)))
  {
    if o.Some? {
      FoldOne(ApplyPost, Blob(2, EncodeProfile(o.value)), m);
      ProfileMerges(OrEmpty(m.creator), o.value);
    }
  }

  lemma TextField(m: Post, o: Option<seq<byte>>)
    ensures Fold(ApplyPost, BlobRecs(4, o), m) == if TextOk(o) then Some(m.(text := Later(m.text, o))) else None
  {
    if o.Some? { FoldOne(ApplyPost, Blob(4, o.value), m); }
  }

  /** Appending one profile to the repeated field `f`. */
  function WithProfiles(m: Post, f: nat, ps: seq<Profile>): (r: Post) {
    if f == 5 then m.(mentions := m.mentions + ps) else m.(media := m.media + ps)
  }

  lemma OneProfile(m: Post, f: nat, p: Profile)
    requires (f == 5 || f == 6) && ProfileFits(p)
    ensures ApplyPost(m, Blob(f, EncodeProfile(p))) == if ProfileText(p) then Some(WithProfiles(m, f, [p])) else None
  {
    ProfileMerges(NO_PROFILE, p);
    assert MergeProfile(NO_PROFILE, p) == p;
  }

  lemma {:induction false} ProfilesField(m: Post, f: nat, ps: seq<Profile>)
    requires (f == 5 || f == 6) && ProfilesFit(ps)
    ensures Fold(ApplyPost, ProfilesRecs(f, ps), m) == if ProfilesText(ps) then Some(WithProfiles(m, f, ps)) else None
    decreases ps
  {
    if ps == [] {
      assert m.mentions + ps == m.mentions && m.media + ps == m.media;
    } else {
      OneProfile(m, f, ps[0]);
      FoldCons(ApplyPost, Blob(f, EncodeProfile(ps[0])), ProfilesRecs(f, ps[1..]), m);
      if ProfileText(ps[0]) {
        ProfilesField(WithProfiles(m, f, [ps[0]]), f, ps[1..]);
        MoreProfiles(m, f, ps);
      }
    }
  }

  lemma MoreProfiles(m: Post, f: nat, ps: seq<Profile>)
    requires ps != []
    ensures WithProfiles(WithProfiles(m, f, [ps[0]]), f, ps[1..]) == WithProfiles(m, f, ps)
  {
    assert [ps[0]] + ps[1..] == ps;
    assert m.mentions + [ps[0]] + ps[1..] == m.mentions + ps;
    assert m.media + [ps[0]] + ps[1..] == m.media + ps;
  }

  lemma LinkAlone(l: Link)
    requires LinkFits(l)
    ensures ParseLink(EncodeLink(l), NO_LINK) == if LinkText(l) then Some(l) else None
  {
    LinkMerges(NO_LINK, l);
    assert MergeLink(NO_LINK, l) == l by { assert [] + l.unknown == l.unknown; }
  }

  lemma LinkBlob(m: Post, b: seq<byte>)
    ensures ApplyPost(m, Blob(7, b))
         == match ParseLink(b, NO_LINK) case None => None case Some(l) => Some(WithLinks(m, [l]))
  {
  }

  lemma OneLink(m: Post, l: Link)
    requires LinkFits(l)
    ensures ApplyPost(m, Blob(7, EncodeLink(l))) == if LinkText(l) then Some(WithLinks(m, [l])) else None
  {
    LinkAlone(l);
    LinkBlob(m, EncodeLink(l));
  }

  function WithLinks(m: Post, ls: seq<Link>): (r: Post) { m.(urls := m.urls + ls) }

  lemma MoreLinks(m: Post, ls: seq<Link>)
    ensures ls == [] ==> WithLinks(m, ls) == m
    ensures ls != [] ==> WithLinks(WithLinks(m, [ls[0]]), ls[1..]) == WithLinks(m, ls)
  {
    if ls == [] {
      assert m.urls + ls == m.urls;
    } else {
      assert m.urls + [ls[0]] + ls[1..] == m.urls + ls;
    }
  }

  lemma {:induction false} LinksField(m: Post, ls: seq<Link>)
    requires LinksFit(ls)
    ensures Fold(ApplyPost, LinksRecs(7, ls), m) == if LinksText(ls) then Some(WithLinks(m, ls)) else None
    decreases ls
  {
    MoreLinks(m, ls);
    if ls != [] {
      OneLink(m, ls[0]);
      FoldCons(ApplyPost, Blob(7, EncodeLink(ls[0])), LinksRecs(7, ls[1..]), m);
      if LinkText(ls[0]) { LinksField(WithLinks(m, [ls[0]]), ls[1..]); }
    }
  }

  // ---- the whole post ----

  /** The fields from number 4 on. */
  lemma LaterFields(m: Post, p: Post)
    requires ProfilesFit(p.mentions) && ProfilesFit(p.media) && LinksFit(p.urls)
    ensures Fold(ApplyPost, BlobRecs(4, p.text) + (ProfilesRecs(5, p.mentions) + (ProfilesRecs(6, p.media)
              + (LinksRecs(7, p.urls) + (Int64Recs(8, p.timestamp) + EnumRecs(9, p.postType))))), m)
      == if TextOk(p.text) && ProfilesText(p.mentions) && ProfilesText(p.media) && LinksText(p.urls)
         then Some(m.(text := Later(m.text, p.text), mentions := m.mentions + p.mentions, media := m.media + p.media,
                      urls := m.urls + p.urls, timestamp := Later(m.timestamp, p.timestamp),
                      postType := Later(m.postType, p.postType)))
         else None
  {
    var s9 := EnumRecs(9, p.postType);
    var s8 := Int64Recs(8, p.timestamp) + s9;
    var s7 := LinksRecs(7, p.urls) + s8;
    var s6 := ProfilesRecs(6, p.media) + s7;
    var s5 := ProfilesRecs(5, p.mentions) + s6;
    TextField(m, p.text);
    FoldAppend(ApplyPost, BlobRecs(4, p.text), s5, m);
    if TextOk(p.text) {
      var m4 := m.(text := Later(m.text, p.text));
      ProfilesField(m4, 5, p.mentions);
      FoldAppend(ApplyPost, ProfilesRecs(5, p.mentions), s6, m4);
      if ProfilesText(p.mentions) {
        var m5 := m4.(mentions := m.mentions + p.mentions);
        ProfilesField(m5, 6, p.media);
        FoldAppend(ApplyPost, ProfilesRecs(6, p.media), s7, m5);
        if ProfilesText(p.media) {
          LinkTail(m5.(media := m.media + p.media), p);
        }
      }
    }
  }

  lemma LinkTail(m: Post, p: Post)
    requires LinksFit(p.urls)
    ensures Fold(ApplyPost, LinksRecs(7, p.urls) + (Int64Recs(8, p.timestamp) + EnumRecs(9, p.postType)), m)
      == if LinksText(p.urls)
         then Some(m.(urls := m.urls + p.urls, timestamp := Later(m.timestamp, p.timestamp),
                      postType := Later(m.postType, p.postType)))
         else None
  {
    LinksField(m, p.urls);
    FoldAppend(ApplyPost, LinksRecs(7, p.urls), Int64Recs(8, p.timestamp) + EnumRecs(9, p.postType), m);
    var m7 := m.(urls := m.urls + p.urls);
    PostNumField(m7, 8, p.timestamp);
    FoldAppend(ApplyPost, Int64Recs(8, p.timestamp), EnumRecs(9, p.postType), m7);
    PostTypeField(m7.(timestamp := Later(m.timestamp, p.timestamp)), p.postType);
  }

  /**
    Merge law.  Reading a written post into any post is merging it: scalars last one wins, repeated
    fields append, the creator merges field by field; it fails exactly if some string is not valid UTF-8.
  */
  lemma PostMerges(m: Post, p: Post)
    requires PostSize(p) <= MAX_LENGTH && PostKept(p)
    ensures ParsePost(EncodePost(p), m) == if PostText(p) then Some(MergePost(m, p)) else None
  {
    SmallPostFits(p);
    PostThenKept(PostRecs(p), p.unknown, m);
    var s4 := BlobRecs(4, p.text) + (ProfilesRecs(5, p.mentions) + (ProfilesRecs(6, p.media)
              + (LinksRecs(7, p.urls) + (Int64Recs(8, p.timestamp) + EnumRecs(9, p.postType)))));
    var s3 := Int64Recs(3, p.reqId) + s4;
    var s2 := CreatorRecs(p.creator) + s3;
    PostNumField(m, 1, p.postId);
    FoldAppend(ApplyPost, Int64Recs(1, p.postId), s2, m);
    var m1 := m.(postId := Later(m.postId, p.postId));
    CreatorField(m1, p.creator);
    FoldAppend(ApplyPost, CreatorRecs(p.creator), s3, m1);
    var m2 := m1.(creator := MergeCreator(m.creator, p.creator));
    PostNumField(m2, 3, p.reqId);
    FoldAppend(ApplyPost, Int64Recs(3, p.reqId), s4, m2);
    LaterFields(m2.(reqId := Later(m.reqId, p.reqId)), p);
  }

  /** Round trip: a written post reads back field for field and presence for presence. */
  lemma PostRoundTrip(p: Post)
    requires PostSize(p) <= MAX_LENGTH && PostKept(p)
    ensures ParsePost(EncodePost(p), NO_POST) == if PostText(p) then Some(p) else None
  {
    PostMerges(NO_POST, p);
    MergeIntoEmpty(p);
  }

  lemma MergeIntoEmpty(p: Post)
    ensures MergePost(NO_POST, p) == p
  {
    assert p.creator.Some? ==> MergeProfile(NO_PROFILE, p.creator.value) == p.creator.value;
    assert [] + p.mentions == p.mentions && [] + p.media == p.media && [] + p.urls == p.urls;
    assert [] + p.unknown == p.unknown;
  }

  lemma ProfileRoundTrip(p: Profile)
    requires ProfileSize(p) <= MAX_LENGTH && ProfileKept(p)
    ensures ParseProfile(EncodeProfile(p), NO_PROFILE) == if ProfileText(p) then Some(p) else None
  {
    SmallProfileFits(p);
    ProfileMerges(NO_PROFILE, p);
    assert [] + p.unknown == p.unknown;
  }

  /** The bytes of two posts, one after the other, read as the merge of the second into the first. */
  lemma ConcatenatedPostsMerge(a: Post, b: Post)
    requires PostSize(a) <= MAX_LENGTH && PostSize(b) <= MAX_LENGTH && PostText(a) && PostText(b) && PostKept(a) && PostKept(b)
    ensures ParsePost(EncodePost(a) + EncodePost(b), NO_POST) == Some(MergePost(a, b))
  {
    PostRoundTrip(a);
    ParseConcat(ApplyPost, EncodePost(a), EncodePost(b), NO_POST);
    PostMerges(a, b);
  }

  lemma ConcatenatedProfilesMerge(a: Profile, b: Profile)
    requires ProfileSize(a) <= MAX_LENGTH && ProfileSize(b) <= MAX_LENGTH && ProfileText(a) && ProfileText(b)
    requires ProfileKept(a) && ProfileKept(b)
    ensures ParseProfile(EncodeProfile(a) + EncodeProfile(b), NO_PROFILE) == Some(MergeProfile(a, b))
  {
    ProfileRoundTrip(a);
    SmallProfileFits(b);
    ParseConcat(ApplyProfile, EncodeProfile(a), EncodeProfile(b), NO_PROFILE);
    ProfileMerges(a, b);
  }

  // ---- packed and unpacked numbers ----

  /** One number in front of a run. */
  lemma RunBack(v: u64, rest: seq<byte>, ys: seq<i64>)
    requires ParsePacked(rest) == Some(ys)
    ensures ParsePacked(Varint(v) + rest) == Some([ToI64(v)] + ys)
  {
    Size64(v);
    ReadBack(v, rest, 10);
    assert (Varint(v) + rest)[|Varint(v)|..] == rest;
    assert v % TWO64 == v;
  }

  lemma {:induction false} PackedBack(xs: seq<i64>)
    ensures ParsePacked(Packed(xs)) == Some(xs)
  {
    if xs != [] {
      PackedBack(xs[1..]);
      RunBack(ToU64(xs[0]), Packed(xs[1..]), xs[1..]);
      I64RoundTrip(xs[0]);
      assert [xs[0]] + xs[1..] == xs;
    }
  }

  /** How a repeated number may arrive: single values and packed runs, in any mixture. */
  datatype Chunk = One(x: i64) | Many(xs: seq<i64>)

  function ChunkValues(c: Chunk): (xs: seq<i64>) { if c.One? then [c.x] else c.xs }

  function ChunkRec(c: Chunk): (r: Rec) { if c.One? then Num(1, ToU64(c.x)) else Blob(1, Packed(c.xs)) }

  function ChunksValues(cs: seq<Chunk>): (xs: seq<i64>) {
    if cs == [] then [] else ChunkValues(cs[0]) + ChunksValues(cs[1..])
  }

  function ChunksRecs(cs: seq<Chunk>): (rs: seq<Rec>) {
    if cs == [] then [] else [ChunkRec(cs[0])] + ChunksRecs(cs[1..])
  }

  lemma OneChunk(m: ReadReq, c: Chunk)
    ensures ApplyReq(m, ChunkRec(c)) == Some(m.(postIds := m.postIds + ChunkValues(c)))
  {
    if c.One? { I64RoundTrip(c.x); } else { PackedBack(c.xs); }
  }

  function WithIds(m: ReadReq, xs: seq<i64>): (r: ReadReq) { m.(postIds := m.postIds + xs) }

  lemma MoreIds(m: ReadReq, xs: seq<i64>, ys: seq<i64>)
    ensures WithIds(m, []) == m && WithIds(WithIds(m, xs), ys) == WithIds(m, xs + ys)
  {
    assert m.postIds + [] == m.postIds;
    assert m.postIds + xs + ys == m.postIds + (xs + ys);
  }

  lemma {:induction false} ChunksFold(m: ReadReq, cs: seq<Chunk>)
    ensures Fold(ApplyReq, ChunksRecs(cs), m) == Some(WithIds(m, ChunksValues(cs)))
    decreases cs
  {
    if cs == [] {
      MoreIds(m, [], []);
    } else {
      OneChunk(m, cs[0]);
      FoldCons(ApplyReq, ChunkRec(cs[0]), ChunksRecs(cs[1..]), m);
      ChunksFold(WithIds(m, ChunkValues(cs[0])), cs[1..]);
      MoreIds(m, ChunkValues(cs[0]), ChunksValues(cs[1..]));
    }
  }

  /** However the same numbers are cut into packed runs and single values, they read the same. */
  lemma PackingDoesNotMatter(m: ReadReq, cs: seq<Chunk>, ds: seq<Chunk>, rest: seq<byte>)
    requires ChunksValues(cs) == ChunksValues(ds) && Fits(ChunksRecs(cs)) && Fits(ChunksRecs(ds))
    ensures ParseReq(EncodeAll(ChunksRecs(cs)) + rest, m) == ParseReq(EncodeAll(ChunksRecs(ds)) + rest, m)
    ensures ParseReq(EncodeAll(ChunksRecs(cs)) + rest, m)
         == ParseReq(rest, m.(postIds := m.postIds + ChunksValues(cs)))
  {
    ChunksFold(m, cs);
    ChunksFold(m, ds);
    ParseEncoded(ApplyReq, ChunksRecs(cs), rest, m);
    ParseEncoded(ApplyReq, ChunksRecs(ds), rest, m);
  }

  lemma PackedField(m: ReadReq, xs: seq<i64>)
    ensures Fold(ApplyReq, PackedRecs(xs), m) == Some(m.(postIds := m.postIds + xs))
  {
    if xs == [] {
      assert m.postIds + xs == m.postIds;
    } else {
      FoldOne(ApplyReq, Blob(1, Packed(xs)), m);
      PackedBack(xs);
    }
  }

  lemma RpcTypeField(m: ReadReq, o: Option<u32>)
    ensures Fold(ApplyReq, UintRecs(2, o), m) == Some(m.(rpcType := Later(m.rpcType, o)))
  {
    if o.Some? { FoldOne(ApplyReq, Num(2, o.value), m); }
  }

  /** Reading a written request into any request merges it. */
  lemma ReqMerges(m: ReadReq, q: ReadReq)
    requires ReqSize(q) <= MAX_LENGTH && ReqKept(q)
    ensures ParseReq(EncodeReq(q), m) == Some(MergeReq(m, q))
  {
    SmallReqFits(q);
    ReqThenKept(ReqRecs(q), q.unknown, m);
    var m1 := m.(postIds := m.postIds + q.postIds);
    PackedField(m, q.postIds);
    FoldThen(ApplyReq, PackedRecs(q.postIds), UintRecs(2, q.rpcType), m, m1);
    RpcTypeField(m1, q.rpcType);
  }

  lemma ReqRoundTrip(q: ReadReq)
    requires ReqSize(q) <= MAX_LENGTH && ReqKept(q)
    ensures ParseReq(EncodeReq(q), NO_REQ) == Some(q)
  {
    ReqMerges(NO_REQ, q);
    assert [] + q.postIds == q.postIds && [] + q.unknown == q.unknown;
  }

  lemma ConcatenatedReqsMerge(a: ReadReq, b: ReadReq)
    requires ReqSize(a) <= MAX_LENGTH && ReqSize(b) <= MAX_LENGTH && ReqKept(a) && ReqKept(b)
    ensures ParseReq(EncodeReq(a) + EncodeReq(b), NO_REQ) == Some(MergeReq(a, b))
  {
    ReqRoundTrip(a);
    ParseConcat(ApplyReq, EncodeReq(a), EncodeReq(b), NO_REQ);
    ReqMerges(a, b);
  }

  // ---- sizes ----

  function LengthDelimited(n: nat): (s: nat) { n + VarintSize(n) }

  function Int64Size(o: Option<i64>): (n: nat) { if o.None? then 0 else 1 + VarintSize(ToU64(o.value)) }

  function BlobSize(o: Option<seq<byte>>): (n: nat) { if o.None? then 0 else 1 + LengthDelimited(|o.value|) }

  function ProfileSize(p: Profile): (n: nat) { BlobSize(p.name) + Int64Size(p.id) + |p.unknown| }

  function LinkSize(l: Link): (n: nat) { BlobSize(l.shortened) + BlobSize(l.expanded) + |l.unknown| }

  function ProfilesSize(ps: seq<Profile>): (n: nat) {
    if ps == [] then 0 else LengthDelimited(ProfileSize(ps[0])) + ProfilesSize(ps[1..])
  }

  function LinksSize(ls: seq<Link>): (n: nat) {
    if ls == [] then 0 else LengthDelimited(LinkSize(ls[0])) + LinksSize(ls[1..])
  }

  /** Repeated fields first, then the optional ones in the order of their presence bits. */
  function PostSize(p: Post): (n: nat) {
    |p.mentions| + ProfilesSize(p.mentions) + |p.media| + ProfilesSize(p.media) + |p.urls| + LinksSize(p.urls)
    + BlobSize(p.text)
    + (if p.creator.None? then 0 else 1 + LengthDelimited(ProfileSize(p.creator.value)))
    + Int64Size(p.postId) + Int64Size(p.reqId) + Int64Size(p.timestamp)
    + (if p.postType.None? then 0 else 1 + VarintSize(ExtendI32(p.postType.value)))
    + |p.unknown|
  }

  function PackedSize(xs: seq<i64>): (n: nat) {
    if xs == [] then 0 else VarintSize(ToU64(xs[0])) + PackedSize(xs[1..])
  }

  function ReqSize(q: ReadReq): (n: nat) {
    var data := PackedSize(q.postIds);
    (if data > 0 then 1 + VarintSize(data) else 0) + data
    + (if q.rpcType.None? then 0 else 1 + VarintSize(q.rpcType.value))
    + |q.unknown|
  }

  lemma SmallTag(f: nat, w: nat)
    requires f < 16 && w < 8
    ensures |Varint(8 * f + w)| == 1
  {
  }

  lemma RecSize(r: Rec)
    requires r.field < 16 && !r.Fixed?
    ensures |EncodeRec(r)| == 1 + if r.Num? then VarintSize(r.value) else LengthDelimited(|r.payload|)
  {
    if r.Num? {
      SmallTag(r.field, 0);
      VarintLength(r.value);
    } else {
      SmallTag(r.field, 2);
      VarintLength(|r.payload|);
    }
  }

  lemma OneRecSize(r: Rec)
    ensures EncodeAll([r]) == EncodeRec(r)
  {
    assert EncodeRec(r) + [] == EncodeRec(r);
  }

  lemma Int64RecsSize(f: nat, o: Option<i64>)
    requires f < 16
    ensures |EncodeAll(Int64Recs(f, o))| == Int64Size(o)
  {
    if o.Some? { OneRecSize(Num(f, ToU64(o.value))); RecSize(Num(f, ToU64(o.value))); }
  }

  lemma BlobRecsSize(f: nat, o: Option<seq<byte>>)
    requires f < 16
    ensures |EncodeAll(BlobRecs(f, o))| == BlobSize(o)
  {
    if o.Some? { OneRecSize(Blob(f, o.value)); RecSize(Blob(f, o.value)); }
  }

  lemma ProfileSizeIsLength(p: Profile)
    ensures |EncodeProfile(p)| == ProfileSize(p)
  {
    EncodeAppend(Int64Recs(1, p.id), BlobRecs(2, p.name));
    Int64RecsSize(1, p.id);
    BlobRecsSize(2, p.name);
  }

  lemma LinkSizeIsLength(l: Link)
    ensures |EncodeLink(l)| == LinkSize(l)
  {
    EncodeAppend(BlobRecs(1, l.shortened), BlobRecs(2, l.expanded));
    BlobRecsSize(1, l.shortened);
    BlobRecsSize(2, l.expanded);
  }

  lemma {:induction false} ProfilesRecsSize(f: nat, ps: seq<Profile>)
    requires f < 16
    ensures |EncodeAll(ProfilesRecs(f, ps))| == |ps| + ProfilesSize(ps)
    decreases ps
  {
    if ps != [] {
      var r := Blob(f, EncodeProfile(ps[0]));
      ProfileSizeIsLength(ps[0]);
      RecSize(r);
      EncodeAppend([r], ProfilesRecs(f, ps[1..]));
      OneRecSize(r);
      ProfilesRecsSize(f, ps[1..]);
    }
  }

  lemma {:induction false} LinksRecsSize(f: nat, ls: seq<Link>)
    requires f < 16
    ensures |EncodeAll(LinksRecs(f, ls))| == |ls| + LinksSize(ls)
    decreases ls
  {
    if ls != [] {
      var r := Blob(f, EncodeLink(ls[0]));
      LinkSizeIsLength(ls[0]);
      RecSize(r);
      EncodeAppend([r], LinksRecs(f, ls[1..]));
      OneRecSize(r);
      LinksRecsSize(f, ls[1..]);
    }
  }

  lemma CreatorRecsSize(o: Option<Profile>)
    ensures |EncodeAll(CreatorRecs(o))| == if o.None? then 0 else 1 + LengthDelimited(ProfileSize(o.value))
  {
    if o.Some? {
      ProfileSizeIsLength(o.value);
      OneRecSize(Blob(2, EncodeProfile(o.value)));
      RecSize(Blob(2, EncodeProfile(o.value)));
    }
  }

  lemma EnumRecsSize(o: Option<i32>)
    ensures |EncodeAll(EnumRecs(9, o))| == if o.None? then 0 else 1 + VarintSize(ExtendI32(o.value))
  {
    if o.Some? {
      OneRecSize(Num(9, ExtendI32(o.value)));
      RecSize(Num(9, ExtendI32(o.value)));
    }
  }

  /** The computed size of a post is the number of bytes written for it. */
  lemma PostSizeIsLength(p: Post)
    ensures |EncodePost(p)| == PostSize(p)
  {
    var s8 := Int64Recs(8, p.timestamp) + EnumRecs(9, p.postType);
    var s7 := LinksRecs(7, p.urls) + s8;
    var s6 := ProfilesRecs(6, p.media) + s7;
    var s5 := ProfilesRecs(5, p.mentions) + s6;
    var s4 := BlobRecs(4, p.text) + s5;
    var s3 := Int64Recs(3, p.reqId) + s4;
    var s2 := CreatorRecs(p.creator) + s3;
    EncodeAppend(Int64Recs(1, p.postId), s2);
    EncodeAppend(CreatorRecs(p.creator), s3);
    EncodeAppend(Int64Recs(3, p.reqId), s4);
    EncodeAppend(BlobRecs(4, p.text), s5);
    EncodeAppend(ProfilesRecs(5, p.mentions), s6);
    EncodeAppend(ProfilesRecs(6, p.media), s7);
    EncodeAppend(LinksRecs(7, p.urls), s8);
    EncodeAppend(Int64Recs(8, p.timestamp), EnumRecs(9, p.postType));
    Int64RecsSize(1, p.postId);
    CreatorRecsSize(p.creator);
    Int64RecsSize(3, p.reqId);
    BlobRecsSize(4, p.text);
    ProfilesRecsSize(5, p.mentions);
    ProfilesRecsSize(6, p.media);
    LinksRecsSize(7, p.urls);
    Int64RecsSize(8, p.timestamp);
    EnumRecsSize(p.postType);
  }

  lemma {:induction false} PackedSizeIsLength(xs: seq<i64>)
    ensures |Packed(xs)| == PackedSize(xs) && (xs != [] ==> PackedSize(xs) > 0)
  {
    if xs != [] {
      VarintLength(ToU64(xs[0]));
      PackedSizeIsLength(xs[1..]);
    }
  }

  /** The computed size of a request is the number of bytes written for it. */
  lemma ReqSizeIsLength(q: ReadReq)
    ensures |EncodeReq(q)| == ReqSize(q)
  {
    EncodeAppend(PackedRecs(q.postIds), UintRecs(2, q.rpcType));
    PackedSizeIsLength(q.postIds);
    if q.postIds != [] {
      OneRecSize(Blob(1, Packed(q.postIds)));
      RecSize(Blob(1, Packed(q.postIds)));
    }
    if q.rpcType.Some? {
      OneRecSize(Num(2, q.rpcType.value));
      RecSize(Num(2, q.rpcType.value));
    }
  }

  // ---- every message below the two-gigabyte limit fits ----

  /** No payload is longer than the whole encoding. */
  lemma {:induction false} PayloadsWithinWhole(rs: seq<Rec>, i: nat)
    requires i < |rs| && rs[i].Blob?
    ensures |rs[i].payload| <= |EncodeAll(rs)|
    decreases rs
  {
    if i > 0 { PayloadsWithinWhole(rs[1..], i - 1); }
  }

  predicate FieldsOk(rs: seq<Rec>) { rs != [] ==> 0 < rs[0].field < 16 && !rs[0].Fixed? && FieldsOk(rs[1..]) }

  lemma {:induction false} FieldAt(rs: seq<Rec>, i: nat)
    requires FieldsOk(rs) && i < |rs|
    ensures 0 < rs[i].field < 16 && !rs[i].Fixed?
    decreases rs
  {
    if i > 0 { FieldAt(rs[1..], i - 1); }
  }

  lemma SmallFits(rs: seq<Rec>)
    requires FieldsOk(rs) && |EncodeAll(rs)| <= MAX_LENGTH
    ensures Fits(rs)
  {
    forall i | 0 <= i < |rs| ensures RecOk(rs[i]) {
      FieldAt(rs, i);
      if rs[i].Blob? { PayloadsWithinWhole(rs, i); }
    }
  }

  lemma SmallProfileFits(p: Profile)
    requires ProfileSize(p) <= MAX_LENGTH && ProfileKept(p)
    ensures ProfileFits(p)
  {
    ProfileSizeIsLength(p);
    SmallFits(ProfileRecs(p));
  }

  lemma SmallLinkFits(l: Link)
    requires LinkSize(l) <= MAX_LENGTH && LinkKept(l)
    ensures LinkFits(l)
  {
    LinkSizeIsLength(l);
    SmallFits(LinkRecs(l));
  }

  lemma {:induction false} SmallProfilesFit(f: nat, ps: seq<Profile>)
    requires ProfilesSize(ps) <= MAX_LENGTH && 0 < f < 16 && ProfilesKept(ps)
    ensures ProfilesFit(ps) && FieldsOk(ProfilesRecs(f, ps))
    decreases ps
  {
    if ps != [] {
      SmallProfileFits(ps[0]);
      SmallProfilesFit(f, ps[1..]);
    }
  }

  lemma {:induction false} SmallLinksFit(f: nat, ls: seq<Link>)
    requires LinksSize(ls) <= MAX_LENGTH && 0 < f < 16 && LinksKept(ls)
    ensures LinksFit(ls) && FieldsOk(LinksRecs(f, ls))
    decreases ls
  {
    if ls != [] {
      SmallLinkFits(ls[0]);
      SmallLinksFit(f, ls[1..]);
    }
  }

  lemma {:induction false} FieldsAppend(xs: seq<Rec>, ys: seq<Rec>)
    requires FieldsOk(xs) && FieldsOk(ys)
    ensures FieldsOk(xs + ys)
    decreases xs
  {
    if xs == [] {
      assert xs + ys == ys;
    } else {
      assert (xs + ys)[1..] == xs[1..] + ys;
      FieldsAppend(xs[1..], ys);
    }
  }

  lemma FieldsOfSome(p: Post)
    ensures FieldsOk(Int64Recs(1, p.postId)) && FieldsOk(CreatorRecs(p.creator)) && FieldsOk(Int64Recs(3, p.reqId))
    ensures FieldsOk(BlobRecs(4, p.text)) && FieldsOk(Int64Recs(8, p.timestamp)) && FieldsOk(EnumRecs(9, p.postType))
  {
  }

  lemma FieldsOfThree(xs: seq<Rec>, ys: seq<Rec>, zs: seq<Rec>)
    requires FieldsOk(xs) && FieldsOk(ys) && FieldsOk(zs)
    ensures FieldsOk(xs + (ys + zs))
  {
    FieldsAppend(ys, zs);
    FieldsAppend(xs, ys + zs);
  }

  lemma PostFieldsOk(p: Post, s5: seq<Rec>, s6: seq<Rec>, s7: seq<Rec>)
    requires s5 == ProfilesRecs(5, p.mentions) && s6 == ProfilesRecs(6, p.media) && s7 == LinksRecs(7, p.urls)
    requires FieldsOk(s5) && FieldsOk(s6) && FieldsOk(s7)
    ensures FieldsOk(PostRecs(p))
  {
    FieldsOfSome(p);
    var s8, s9 := Int64Recs(8, p.timestamp), EnumRecs(9, p.postType);
    FieldsOfThree(s7, s8, s9);
    FieldsOfThree(s5, s6, s7 + (s8 + s9));
    FieldsOfThree(Int64Recs(3, p.reqId), BlobRecs(4, p.text), s5 + (s6 + (s7 + (s8 + s9))));
    FieldsOfThree(Int64Recs(1, p.postId), CreatorRecs(p.creator),
                  Int64Recs(3, p.reqId) + (BlobRecs(4, p.text) + (s5 + (s6 + (s7 + (s8 + s9))))));
  }

  lemma SmallPostFits(p: Post)
    requires PostSize(p) <= MAX_LENGTH && PostKept(p)
    ensures PostFits(p)
  {
    if p.creator.Some? { SmallProfileFits(p.creator.value); }
    assert ProfilesFit(p.mentions) && FieldsOk(ProfilesRecs(5, p.mentions)) by { SmallProfilesFit(5, p.mentions); }
    assert ProfilesFit(p.media) && FieldsOk(ProfilesRecs(6, p.media)) by { SmallProfilesFit(6, p.media); }
    assert LinksFit(p.urls) && FieldsOk(LinksRecs(7, p.urls)) by { SmallLinksFit(7, p.urls); }
    assert Fits(PostRecs(p)) by {
      PostFieldsOk(p, ProfilesRecs(5, p.mentions), ProfilesRecs(6, p.media), LinksRecs(7, p.urls));
      PostSizeIsLength(p);
      SmallFits(PostRecs(p));
    }
  }

  lemma SmallReqFits(q: ReadReq)
    requires ReqSize(q) <= MAX_LENGTH && ReqKept(q)
    ensures Fits(ReqRecs(q))
  {
    ReqSizeIsLength(q);
    SmallFits(ReqRecs(q));
  }

  lemma NothingUnknown(knows: Rec -> bool)
    ensures Kept(knows, [])
  {
    assert KeptAs(knows, [], []);
  }

  /** A name of the single byte 0xff is written without complaint and refused when read. */
  lemma InvalidTextIsRefused(m: Profile)
    ensures var p := NO_PROFILE.(name := Some([0xff]));
      ProfileSize(p) <= MAX_LENGTH && ParseProfile(EncodeProfile(p), m) == None
  {
    var p := NO_PROFILE.(name := Some([0xff]));
    assert !ValidUtf8([0xff]);
    NothingUnknown(ProfileKnows);
    ProfileMerges(m, p);
  }
}
