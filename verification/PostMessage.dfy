/** Post: optional scalars, an owned creator and owned repeated sub-messages. */
module PostMessage {
  import opened Common
  import opened Wire
  import opened WireIo
  import opened Utf8
  import opened Messages
  import opened MessageLaws
  import opened MessageObjects
  import opened PostObject

  // ---- a message written field by field ----

  ghost function KnownChunks(p: Post): (chunks: seq<seq<byte>>)
    ensures |chunks| == 9
  {
    [EncodeAll(Int64Recs(1, p.postId)), EncodeAll(CreatorRecs(p.creator)), EncodeAll(Int64Recs(3, p.reqId)),
     EncodeAll(BlobRecs(4, p.text)), EncodeAll(ProfilesRecs(5, p.mentions)), EncodeAll(ProfilesRecs(6, p.media)),
     EncodeAll(LinksRecs(7, p.urls)), EncodeAll(Int64Recs(8, p.timestamp)), EncodeAll(EnumRecs(9, p.postType))]
  }

  /** The chunks of the known fields, in order, are their encoding. */
  lemma KnownChunksArePost(p: Post)
    ensures Flat(KnownChunks(p), |KnownChunks(p)|) == EncodeAll(PostRecs(p))
  {
    var c := KnownChunks(p);
    FlatAndRest(c, 9);
    assert Flat(c, 9) + [] == Flat(c, 9);
    var r8 := Int64Recs(8, p.timestamp) + EnumRecs(9, p.postType);
    var r7 := LinksRecs(7, p.urls) + r8;
    var r6 := ProfilesRecs(6, p.media) + r7;
    var r5 := ProfilesRecs(5, p.mentions) + r6;
    var r4 := BlobRecs(4, p.text) + r5;
    var r3 := Int64Recs(3, p.reqId) + r4;
    var r2 := CreatorRecs(p.creator) + r3;
    EncodeAppend(Int64Recs(1, p.postId), r2);
    EncodeAppend(CreatorRecs(p.creator), r3);
    EncodeAppend(Int64Recs(3, p.reqId), r4);
    EncodeAppend(BlobRecs(4, p.text), r5);
    EncodeAppend(ProfilesRecs(5, p.mentions), r6);
    EncodeAppend(ProfilesRecs(6, p.media), r7);
    EncodeAppend(LinksRecs(7, p.urls), r8);
    EncodeAppend(Int64Recs(8, p.timestamp), EnumRecs(9, p.postType));
    assert c[8] + [] == c[8];
    assert Rest(c, 8) == c[8] && Rest(c, 7) == EncodeAll(r8) && Rest(c, 6) == EncodeAll(r7);
    assert Rest(c, 5) == EncodeAll(r6) && Rest(c, 4) == EncodeAll(r5) && Rest(c, 3) == EncodeAll(r4);
    assert Rest(c, 2) == EncodeAll(r3) && Rest(c, 1) == EncodeAll(r2);
  }

  lemma {:induction false} FlatOfPrefix(c: seq<seq<byte>>, last: seq<byte>, i: nat)
    requires i <= |c|
    ensures Flat(c + [last], i) == Flat(c, i)
  {
    if i > 0 { FlatOfPrefix(c, last, i - 1); }
  }

  ghost predicate HeadChunks(p: Post, chunks: seq<seq<byte>>) {
    && |chunks| == 10 && chunks[0] == EncodeAll(Int64Recs(1, p.postId))
    && chunks[1] == EncodeAll(CreatorRecs(p.creator)) && chunks[2] == EncodeAll(Int64Recs(3, p.reqId))
    && chunks[3] == EncodeAll(BlobRecs(4, p.text))
  }

  ghost predicate ListChunks(p: Post, chunks: seq<seq<byte>>) {
    && |chunks| == 10 && chunks[4] == EncodeAll(ProfilesRecs(5, p.mentions))
    && chunks[5] == EncodeAll(ProfilesRecs(6, p.media)) && chunks[6] == EncodeAll(LinksRecs(7, p.urls))
  }

  ghost predicate TailChunks(p: Post, chunks: seq<seq<byte>>) {
    && |chunks| == 10 && chunks[7] == EncodeAll(Int64Recs(8, p.timestamp))
    && chunks[8] == EncodeAll(EnumRecs(9, p.postType)) && chunks[9] == p.unknown
  }

  lemma FlatWithLast(c: seq<seq<byte>>, last: seq<byte>)
    ensures Flat(c + [last], |c| + 1) == Flat(c, |c|) + last
  {
    FlatOfPrefix(c, last, |c|);
  }

  lemma ChunksInPlace(p: Post, chunks: seq<seq<byte>>)
    requires chunks == KnownChunks(p) + [p.unknown]
    ensures HeadChunks(p, chunks) && ListChunks(p, chunks) && TailChunks(p, chunks)
  {
  }

  /** The known fields and the unknown bytes, chunk by chunk. */
  lemma PostChunks(p: Post) returns (chunks: seq<seq<byte>>)
    ensures HeadChunks(p, chunks) && ListChunks(p, chunks) && TailChunks(p, chunks)
    ensures Flat(chunks, |chunks|) == EncodePost(p)
  {
    var known := KnownChunks(p);
    chunks := known + [p.unknown];
    ChunksInPlace(p, chunks);
    KnownChunksArePost(p);
    FlatWithLast(known, p.unknown);
  }

  lemma {:induction false} ProfilesRecsAt(f: nat, ps: seq<Profile>)
    ensures |ProfilesRecs(f, ps)| == |ps|
    ensures forall i :: 0 <= i < |ps| ==> ProfilesRecs(f, ps)[i] == Blob(f, EncodeProfile(ps[i]))
    decreases ps
  {
    if ps != [] { ProfilesRecsAt(f, ps[1..]); }
  }

  lemma {:induction false} LinksRecsAt(f: nat, ls: seq<Link>)
    ensures |LinksRecs(f, ls)| == |ls|
    ensures forall i :: 0 <= i < |ls| ==> LinksRecs(f, ls)[i] == Blob(f, EncodeLink(ls[i]))
    decreases ls
  {
    if ls != [] { LinksRecsAt(f, ls[1..]); }
  }

  /** A repeated sub-message field. */
  method WriteMentions(f: nat, ms: seq<ProfileMsg>, ghost ps: seq<Profile>, target: array<byte>, at: nat)
    returns (next: nat)
    requires 0 < f < 16 && Hold(ms, ps) && Sized(ms, ps) && at + |EncodeAll(ProfilesRecs(f, ps))| <= target.Length
    modifies target
    ensures var d := EncodeAll(ProfilesRecs(f, ps)); next == at + |d| && Wrote(old(target[..]), target[..], at, d)
  {
    ghost var rs := ProfilesRecs(f, ps);
    ghost var chunks := RecChunks(rs);
    FlatIsEncoding(rs);
    ProfilesRecsAt(f, ps);
    next := WriteProfiles(f, ms, chunks, target, at);
  }

  method WriteUrls(f: nat, ms: seq<LinkMsg>, ghost ls: seq<Link>, target: array<byte>, at: nat) returns (next: nat)
    requires 0 < f < 16 && LinksHold(ms, ls) && LinksSized(ms, ls) && at + |EncodeAll(LinksRecs(f, ls))| <= target.Length
    modifies target
    ensures var d := EncodeAll(LinksRecs(f, ls)); next == at + |d| && Wrote(old(target[..]), target[..], at, d)
  {
    ghost var rs := LinksRecs(f, ls);
    ghost var chunks := RecChunks(rs);
    FlatIsEncoding(rs);
    LinksRecsAt(f, ls);
    next := WriteLinks(f, ms, chunks, target, at);
  }

  method WriteListChunk(f: nat, ms: seq<ProfileMsg>, ghost ps: seq<Profile>, ghost chunks: seq<seq<byte>>, ghost k: nat,
                        target: array<byte>, ghost at: nat, pos: nat, ghost s0: seq<byte>)
    returns (next: nat)
    requires 0 < f < 16 && Hold(ms, ps) && Sized(ms, ps)
    requires k < |chunks| && chunks[k] == EncodeAll(ProfilesRecs(f, ps)) && Stage(s0, target[..], at, chunks, k, pos)
    modifies target
    ensures Stage(s0, target[..], at, chunks, k + 1, next)
  {
    ghost var s := target[..];
    StageRoom(s0, s, at, chunks, k, pos);
    next := WriteMentions(f, ms, ps, target, pos);
    StageNext(s0, s, target[..], at, chunks, k, pos);
  }

  method WriteUrlChunk(ms: seq<LinkMsg>, ghost ls: seq<Link>, ghost chunks: seq<seq<byte>>, target: array<byte>,
                       ghost at: nat, pos: nat, ghost s0: seq<byte>)
    returns (next: nat)
    requires LinksHold(ms, ls) && LinksSized(ms, ls) && |chunks| == 10
    requires chunks[6] == EncodeAll(LinksRecs(7, ls)) && Stage(s0, target[..], at, chunks, 6, pos)
    modifies target
    ensures Stage(s0, target[..], at, chunks, 7, next)
  {
    ghost var s := target[..];
    StageRoom(s0, s, at, chunks, 6, pos);
    next := WriteUrls(7, ms, ls, target, pos);
    StageNext(s0, s, target[..], at, chunks, 6, pos);
  }

  method CopyProfiles(ms: seq<ProfileMsg>, ghost ps: seq<Profile>) returns (copies: seq<ProfileMsg>)
    requires Hold(ms, ps)
    ensures Hold(copies, ps) && forall i :: 0 <= i < |copies| ==> fresh(copies[i])
    ensures forall i, j | 0 <= i < j < |copies| :: copies[i] != copies[j]
  {
    copies := [];
    for i := 0 to |ms|
      invariant |copies| == i && forall j :: 0 <= j < i ==> fresh(copies[j]) && copies[j].Value() == ps[j]
      invariant forall j, k | 0 <= j < k < i :: copies[j] != copies[k]
    {
      var m := new ProfileMsg();
      m.MergeFrom(ms[i]);
      copies := copies + [m];
    }
  }

  method CopyLinks(ms: seq<LinkMsg>, ghost ls: seq<Link>) returns (copies: seq<LinkMsg>)
    requires LinksHold(ms, ls)
    ensures LinksHold(copies, ls) && forall i :: 0 <= i < |copies| ==> fresh(copies[i])
  {
    copies := [];
    for i := 0 to |ms|
      invariant |copies| == i && forall j :: 0 <= j < i ==> fresh(copies[j]) && copies[j].Value() == ls[j]
    {
      var m := new LinkMsg();
      m.MergeFrom(ms[i]);
      copies := copies + [m];
    }
  }

  class PostMsg {
    var postId: i64
    var hasPostId: bool
    var creator: ProfileMsg?
    var reqId: i64
    var hasReqId: bool
    var text: seq<byte>
    var hasText: bool
    var mentions: seq<ProfileMsg>
    var media: seq<ProfileMsg>
    var urls: seq<LinkMsg>
    var timestamp: i64
    var hasTimestamp: bool
    var postType: i32
    var hasPostType: bool
    var unknown: seq<byte>
    var cached: nat

    ghost function Creators(): (s: set<ProfileMsg>)
      reads `creator
    {
      if creator == null then {} else {creator}
    }

    /** Sub-messages have one owner each. */
    ghost predicate Valid()
      reads `creator, `mentions, `media
    {
      && (forall c :: c in Creators() ==> c !in mentions && c !in media)
      && (forall m :: m in mentions ==> m !in media)
    }

    ghost predicate ScalarsAre(p: Post)
      reads `postId, `hasPostId, `reqId, `hasReqId, `text, `hasText, `timestamp, `hasTimestamp, `postType, `hasPostType, `unknown
    {
      && p.unknown == unknown
      && p.postId == (if hasPostId then Some(postId) else None)
      && p.reqId == (if hasReqId then Some(reqId) else None)
      && p.text == (if hasText then Some(text) else None)
      && p.timestamp == (if hasTimestamp then Some(timestamp) else None)
      && p.postType == (if hasPostType then Some(postType) else None)
    }

    ghost predicate CreatorIs(o: Option<Profile>)
      reads `creator, Creators()
    {
      o == if creator == null then None else Some(creator.Value())
    }

    ghost predicate ListsAre(p: Post)
      reads `mentions, `media, `urls, mentions, media, urls
    {
      Hold(mentions, p.mentions) && Hold(media, p.media) && LinksHold(urls, p.urls)
    }

    /** The message holds the value `p`. */
    ghost predicate Is(p: Post)
      reads this, Creators(), mentions, media, urls
    {
      ScalarsAre(p) && CreatorIs(p.creator) && ListsAre(p)
    }

    ghost predicate CreatorSized()
      reads `creator, Creators()
    {
      creator != null ==> creator.cached == ProfileSize(creator.Value())
    }

    ghost predicate ListsSized(p: Post)
      reads `mentions, `media, `urls, mentions, media, urls
    {
      Sized(mentions, p.mentions) && Sized(media, p.media) && LinksSized(urls, p.urls)
    }

    constructor ()
      ensures Valid() && Is(NO_POST)
    {
      postId, hasPostId, creator, reqId, hasReqId, text, hasText := 0, false, null, 0, false, [], false;
      mentions, media, urls := [], [], [];
      timestamp, hasTimestamp, postType, hasPostType, unknown, cached := 0, false, 0, false, [], 0;
    }

    method SizeOptional(ghost p: Post) returns (n: nat)
      requires ScalarsAre(p) && CreatorIs(p.creator)
      modifies Creators()`cached
      ensures CreatorIs(p.creator) && CreatorSized()
      ensures n == BlobSize(p.text)
                   + (if p.creator.None? then 0 else 1 + LengthDelimited(ProfileSize(p.creator.value)))
                   + Int64Size(p.postId) + Int64Size(p.reqId) + Int64Size(p.timestamp)
                   + (if p.postType.None? then 0 else 1 + VarintSize(ExtendI32(p.postType.value))) + |p.unknown|
    {
      n := 0;
      if hasText { n := n + 1 + LengthDelimited(|text|); }
      if creator != null {
        var k := creator.ByteSize();
        n := n + 1 + LengthDelimited(k);
      }
      if hasPostId { n := n + 1 + VarintSize(ToU64(postId)); }
      if hasReqId { n := n + 1 + VarintSize(ToU64(reqId)); }
      if hasTimestamp { n := n + 1 + VarintSize(ToU64(timestamp)); }
      if hasPostType { n := n + 1 + VarintSize(ExtendI32(postType)); }
      n := n + |unknown|;
    }

    method SizeProfileLists(ghost ps: seq<Profile>, ghost qs: seq<Profile>) returns (n: nat)
      requires Valid() && Hold(mentions, ps) && Hold(media, qs)
      modifies mentions, media
      ensures n == |ps| + ProfilesSize(ps) + |qs| + ProfilesSize(qs)
      ensures Hold(mentions, ps) && Hold(media, qs) && Sized(mentions, ps) && Sized(media, qs)
    {
      var k := SizeProfiles(mentions, ps);
      n := SizeProfiles(media, qs);
      n := |mentions| + k + |media| + n;
    }

    method SizeUrls(ghost p: Post) returns (n: nat)
      requires ListsAre(p) && Sized(mentions, p.mentions) && Sized(media, p.media)
      modifies urls
      ensures n == LinksSize(p.urls) && ListsAre(p) && ListsSized(p)
    {
      n := SizeLinks(urls, p.urls);
    }

    method SizeRepeated(ghost p: Post) returns (n: nat)
      requires Valid() && ListsAre(p)
      modifies mentions, media, urls
      ensures n == |p.mentions| + ProfilesSize(p.mentions) + |p.media| + ProfilesSize(p.media)
                   + |p.urls| + LinksSize(p.urls)
      ensures ListsAre(p) && ListsSized(p)
    {
      n := SizeProfileLists(p.mentions, p.media);
      var k := SizeUrls(p);
      n := n + |urls| + k;
    }

    method SizeListsKeepingCreator(ghost p: Post) returns (n: nat)
      requires Valid() && ListsAre(p) && CreatorIs(p.creator)
      modifies mentions, media, urls
      ensures n == |p.mentions| + ProfilesSize(p.mentions) + |p.media| + ProfilesSize(p.media)
                   + |p.urls| + LinksSize(p.urls)
      ensures ListsAre(p) && ListsSized(p) && CreatorIs(p.creator)
    {
      n := SizeRepeated(p);
    }

    method SizeOptionalKeepingLists(ghost p: Post) returns (n: nat)
      requires Valid() && Is(p) && ListsSized(p)
      modifies Creators()`cached
      ensures Is(p) && ListsSized(p) && CreatorSized()
      ensures n == BlobSize(p.text)
                   + (if p.creator.None? then 0 else 1 + LengthDelimited(ProfileSize(p.creator.value)))
                   + Int64Size(p.postId) + Int64Size(p.reqId) + Int64Size(p.timestamp)
                   + (if p.postType.None? then 0 else 1 + VarintSize(ExtendI32(p.postType.value))) + |p.unknown|
    {
      n := SizeOptional(p);
    }

    method SetCachedSize(n: nat, ghost p: Post)
      requires Valid() && Is(p) && CreatorSized() && ListsSized(p)
      modifies `cached
      ensures cached == n && Valid() && Is(p) && CreatorSized() && ListsSized(p)
    {
      cached := n;
    }

    /** Sizes everything and leaves every sub-message with its size cached. */
    method ByteSize(ghost p: Post) returns (total: nat)
      requires Valid() && Is(p)
      modifies `cached, Creators()`cached, mentions, media, urls
      ensures total == cached == PostSize(p) && Valid() && Is(p) && CreatorSized() && ListsSized(p)
    {
      total := SizeListsKeepingCreator(p);
      var k := SizeOptionalKeepingLists(p);
      total := total + k;
      SetCachedSize(total, p);
    }

    method WriteCreator(ghost o: Option<Profile>, target: array<byte>, at: nat) returns (next: nat)
      requires CreatorIs(o) && CreatorSized() && at + |EncodeAll(CreatorRecs(o))| <= target.Length
      modifies target
      ensures var d := EncodeAll(CreatorRecs(o)); next == at + |d| && Wrote(old(target[..]), target[..], at, d)
    {
      if creator == null {
        WroteNothing(target[..], at);
        return at;
      }
      OneRecSize(Blob(2, EncodeProfile(creator.Value())));
      next := WriteProfile(2, creator, target, at, EncodeAll(CreatorRecs(o)));
    }

    method WriteEnum(ghost o: Option<i32>, target: array<byte>, at: nat) returns (next: nat)
      requires o == if hasPostType then Some(postType) else None
      requires at + |EncodeAll(EnumRecs(9, o))| <= target.Length
      modifies target
      ensures var d := EncodeAll(EnumRecs(9, o)); next == at + |d| && Wrote(old(target[..]), target[..], at, d)
    {
      if !hasPostType {
        WroteNothing(target[..], at);
        return at;
      }
      OneRecSize(Num(9, ExtendI32(postType)));
      RecSize(Num(9, ExtendI32(postType)));
      next := WriteNumber(9, ExtendI32(postType), target, at);
    }

    /** Fields 1 to 4. */
    method WriteHead(ghost p: Post, ghost chunks: seq<seq<byte>>, target: array<byte>, at: nat, ghost s0: seq<byte>)
      returns (next: nat)
      requires ScalarsAre(p) && CreatorIs(p.creator) && CreatorSized()
      requires HeadChunks(p, chunks) && Stage(s0, target[..], at, chunks, 0, at)
      modifies target
      ensures Stage(s0, target[..], at, chunks, 4, next)
    {
      ghost var s := target[..];
      StageRoom(s0, s, at, chunks, 0, at);
      next := WriteInt64(1, hasPostId, postId, target, at, chunks[0]);
      StageNext(s0, s, target[..], at, chunks, 0, at);
      ghost var s1, pos1 := target[..], next;
      StageRoom(s0, s1, at, chunks, 1, pos1);
      next := WriteCreator(p.creator, target, next);
      StageNext(s0, s1, target[..], at, chunks, 1, pos1);
      next := WriteReqIdAndText(p, chunks, target, at, next, s0);
    }

    method WriteReqIdAndText(ghost p: Post, ghost chunks: seq<seq<byte>>, target: array<byte>, ghost at: nat, pos: nat,
                             ghost s0: seq<byte>)
      returns (next: nat)
      requires ScalarsAre(p) && |chunks| == 10 && chunks[2] == EncodeAll(Int64Recs(3, p.reqId))
      requires chunks[3] == EncodeAll(BlobRecs(4, p.text)) && Stage(s0, target[..], at, chunks, 2, pos)
      modifies target
      ensures Stage(s0, target[..], at, chunks, 4, next)
    {
      ghost var s := target[..];
      StageRoom(s0, s, at, chunks, 2, pos);
      next := WriteInt64(3, hasReqId, reqId, target, pos, chunks[2]);
      StageNext(s0, s, target[..], at, chunks, 2, pos);
      ghost var s1, pos1 := target[..], next;
      StageRoom(s0, s1, at, chunks, 3, pos1);
      next := WriteString(4, hasText, text, target, next, chunks[3]);
      StageNext(s0, s1, target[..], at, chunks, 3, pos1);
    }

    /** Fields 5 to 7. */
    method WriteLists(ghost p: Post, ghost chunks: seq<seq<byte>>, target: array<byte>, ghost at: nat, pos: nat,
                      ghost s0: seq<byte>)
      returns (next: nat)
      requires ListsAre(p) && ListsSized(p) && ListChunks(p, chunks) && Stage(s0, target[..], at, chunks, 4, pos)
      modifies target
      ensures Stage(s0, target[..], at, chunks, 7, next)
    {
      next := WriteListChunk(5, mentions, p.mentions, chunks, 4, target, at, pos, s0);
      next := WriteListChunk(6, media, p.media, chunks, 5, target, at, next, s0);
      next := WriteUrlChunk(urls, p.urls, chunks, target, at, next, s0);
    }

    /** Fields 8 and 9, then the unknown bytes. */
    method WriteTail(ghost p: Post, ghost chunks: seq<seq<byte>>, target: array<byte>, ghost at: nat, pos: nat,
                     ghost s0: seq<byte>)
      returns (next: nat)
      requires ScalarsAre(p) && TailChunks(p, chunks) && Stage(s0, target[..], at, chunks, 7, pos)
      modifies target
      ensures Stage(s0, target[..], at, chunks, |chunks|, next)
    {
      ghost var s := target[..];
      StageRoom(s0, s, at, chunks, 7, pos);
      next := WriteInt64(8, hasTimestamp, timestamp, target, pos, chunks[7]);
      StageNext(s0, s, target[..], at, chunks, 7, pos);
      ghost var s1, pos1 := target[..], next;
      StageRoom(s0, s1, at, chunks, 8, pos1);
      next := WriteEnum(p.postType, target, next);
      StageNext(s0, s1, target[..], at, chunks, 8, pos1);
      ghost var s2, pos2 := target[..], next;
      StageRoom(s0, s2, at, chunks, 9, pos2);
      next := WriteBytes(unknown, target, next);
      StageNext(s0, s2, target[..], at, chunks, 9, pos2);
    }

    method WriteFields(ghost p: Post, ghost chunks: seq<seq<byte>>, target: array<byte>, at: nat) returns (next: nat)
      requires Is(p) && CreatorSized() && ListsSized(p) && at + |Flat(chunks, |chunks|)| <= target.Length
      requires HeadChunks(p, chunks) && ListChunks(p, chunks) && TailChunks(p, chunks)
      modifies target
      ensures Stage(old(target[..]), target[..], at, chunks, |chunks|, next)
    {
      ghost var s0 := target[..];
      next := WriteHead(p, chunks, target, at, s0);
      next := WriteLists(p, chunks, target, at, next, s0);
      next := WriteTail(p, chunks, target, at, next, s0);
    }

    /** Writes the fields in ascending order; needs the sizes cached since the last change. */
    method Serialize(ghost p: Post, target: array<byte>, at: nat) returns (next: nat)
      requires Is(p) && CreatorSized() && ListsSized(p) && at + PostSize(p) <= target.Length
      modifies target
      ensures next == at + PostSize(p) && Wrote(old(target[..]), target[..], at, EncodePost(p))
    {
      ghost var chunks := PostChunks(p);
      PostSizeIsLength(p);
      next := WriteFields(p, chunks, target, at);
    }

    // ---- reading ----

    /** The scalars, once the presence bits collected so far are joined. */
    ghost predicate ScalarsNow(p: Post, seen: Seen)
      reads `postId, `hasPostId, `reqId, `hasReqId, `text, `hasText, `timestamp, `hasTimestamp, `postType, `hasPostType, `unknown
    {
      && p.unknown == unknown
      && p.postId == (if hasPostId || seen.postId then Some(postId) else None)
      && p.reqId == (if hasReqId || seen.reqId then Some(reqId) else None)
      && p.text == (if hasText then Some(text) else None)
      && p.timestamp == (if hasTimestamp || seen.timestamp then Some(timestamp) else None)
      && p.postType == (if hasPostType then Some(postType) else None)
    }

    ghost predicate Now(p: Post, seen: Seen)
      reads this, Creators(), mentions, media, urls
    {
      ScalarsNow(p, seen) && CreatorIs(p.creator) && ListsAre(p)
    }

    method TakeNumber(f: nat, v: u64, seen: Seen, ghost p: Post) returns (seen': Seen)
      requires Now(p, seen) && Valid()
      modifies this
      ensures creator == old(creator) && Valid() && Now(ApplyPostNum(p, f, v), seen')
    {
      seen' := seen;
      if f == 1 {
        postId, seen' := ToI64(v), seen.(postId := true);
      } else if f == 3 {
        reqId, seen' := ToI64(v), seen.(reqId := true);
      } else if f == 8 {
        timestamp, seen' := ToI64(v), seen.(timestamp := true);
      } else if f == 9 {
        postType, hasPostType := TruncateI32(v), true;
      } else {
        unknown := unknown + EncodeRec(Num(f, v));
      }
    }

    /** A record of a field the type does not know, or with a wire type it does not take. */
    method TakeUnknown(r: Rec, seen: Seen, ghost p: Post)
      requires Now(p, seen) && Valid()
      modifies `unknown
      ensures Valid() && Now(KeepPost(p, EncodeRec(r)), seen)
    {
      unknown := unknown + EncodeRec(r);
    }

    /** A creator record is read into the creator already there, or into a new one. */
    method TakeCreator(b: seq<byte>, seen: Seen, ghost p: Post) returns (ok: bool)
      requires Now(p, seen) && Valid()
      modifies `creator, Creators()
      ensures Valid() && forall c :: c in Creators() ==> c in old(Creators()) || fresh(c)
      ensures ok == ApplyPostBlob(p, 2, b).Some?
      ensures ok ==> Now(ApplyPostBlob(p, 2, b).value, seen)
    {
      if creator == null { creator := new ProfileMsg(); }
      assert creator.Value() == OrEmpty(p.creator);
      ok := creator.ParseFrom(b);
    }

    method TakeText(b: seq<byte>, seen: Seen, ghost p: Post) returns (ok: bool)
      requires Now(p, seen) && Valid()
      modifies `text, `hasText
      ensures Valid() && ok == ApplyPostBlob(p, 4, b).Some?
      ensures ok ==> Now(ApplyPostBlob(p, 4, b).value, seen)
    {
      text, hasText := b, true;
      ok := ValidUtf8(text);
    }

    method AddMention(m: ProfileMsg, ghost ps: seq<Profile>)
      requires Valid() && Hold(mentions, ps) && m !in media && m !in Creators()
      modifies `mentions
      ensures Valid() && Hold(mentions, ps + [m.Value()])
    {
      mentions := mentions + [m];
    }

    method AddMedia(m: ProfileMsg, ghost ps: seq<Profile>)
      requires Valid() && Hold(media, ps) && m !in mentions && m !in Creators()
      modifies `media
      ensures Valid() && Hold(media, ps + [m.Value()])
    {
      media := media + [m];
    }

    method AddUrl(m: LinkMsg, ghost ls: seq<Link>)
      requires LinksHold(urls, ls)
      modifies `urls
      ensures LinksHold(urls, ls + [m.Value()])
    {
      urls := urls + [m];
    }

    method TakeMention(b: seq<byte>, seen: Seen, ghost p: Post) returns (ok: bool)
      requires Now(p, seen) && Valid()
      modifies `mentions
      ensures Valid() && ok == ApplyPostBlob(p, 5, b).Some?
      ensures ok ==> Now(ApplyPostBlob(p, 5, b).value, seen)
    {
      var m := new ProfileMsg();
      ok := m.ParseFrom(b);
      AddMention(m, p.mentions);
    }

    method TakeMedia(b: seq<byte>, seen: Seen, ghost p: Post) returns (ok: bool)
      requires Now(p, seen) && Valid()
      modifies `media
      ensures Valid() && ok == ApplyPostBlob(p, 6, b).Some?
      ensures ok ==> Now(ApplyPostBlob(p, 6, b).value, seen)
    {
      var m := new ProfileMsg();
      ok := m.ParseFrom(b);
      AddMedia(m, p.media);
    }

    method TakeUrl(b: seq<byte>, seen: Seen, ghost p: Post) returns (ok: bool)
      requires Now(p, seen) && Valid()
      modifies `urls
      ensures Valid() && ok == ApplyPostBlob(p, 7, b).Some?
      ensures ok ==> Now(ApplyPostBlob(p, 7, b).value, seen)
    {
      var m := new LinkMsg();
      ok := m.ParseFrom(b);
      AddUrl(m, p.urls);
    }

    method TakeBlob(f: nat, b: seq<byte>, seen: Seen, ghost p: Post) returns (ok: bool)
      requires Now(p, seen) && Valid()
      modifies this, Creators()
      ensures Valid() && forall c :: c in Creators() ==> c in old(Creators()) || fresh(c)
      ensures ok == ApplyPostBlob(p, f, b).Some?
      ensures ok ==> Now(ApplyPostBlob(p, f, b).value, seen)
    {
      if f == 2 { ok := TakeCreator(b, seen, p); }
      else if f == 4 { ok := TakeText(b, seen, p); }
      else if f == 5 { ok := TakeMention(b, seen, p); }
      else if f == 6 { ok := TakeMedia(b, seen, p); }
      else if f == 7 { ok := TakeUrl(b, seen, p); }
      else {
        TakeUnknown(Blob(f, b), seen, p);
        ok := true;
      }
    }

    /** One turn of the switch. */
    method Take(r: Rec, seen: Seen, ghost p: Post) returns (ok: bool, seen': Seen, ghost q: Post)
      requires Now(p, seen) && Valid()
      modifies this, Creators()
      ensures Valid() && forall c :: c in Creators() ==> c in old(Creators()) || fresh(c)
      ensures ok == ApplyPost(p, r).Some?
      ensures ok ==> ApplyPost(p, r) == Some(q) && Now(q, seen')
    {
      ok, seen' := true, seen;
      if r.Num? {
        seen' := TakeNumber(r.field, r.value, seen, p);
      } else if r.Blob? {
        ok := TakeBlob(r.field, r.payload, seen, p);
      } else {
        TakeUnknown(r, seen, p);
      }
      q := if ok then ApplyPost(p, r).value else p;
    }

    method JoinBits(seen: Seen, ghost p: Post)
      requires ScalarsNow(p, seen)
      modifies `hasPostId, `hasReqId, `hasTimestamp
      ensures ScalarsAre(p)
    {
      hasPostId, hasReqId, hasTimestamp := hasPostId || seen.postId, hasReqId || seen.reqId, hasTimestamp || seen.timestamp;
    }

    method Join(seen: Seen, ghost p: Post)
      requires Now(p, seen) && Valid()
      modifies `hasPostId, `hasReqId, `hasTimestamp
      ensures Is(p) && Valid()
    {
      JoinBits(seen, p);
    }

    /** One turn of the loop: reads a record and takes it. */
    method Turn(b: seq<byte>, pos: nat, seen: Seen, ghost start: Post, ghost q: Post, ghost t: Trail<Post>)
      returns (ok: bool, next: nat, seen': Seen, ghost q': Post, ghost t': Trail<Post>)
      requires Valid() && Now(q, seen) && pos < |b| && OnTrail(ApplyPost, b, start, t, pos, q)
      modifies this, Creators()
      ensures Valid() && forall c :: c in Creators() ==> c in old(Creators()) || fresh(c)
      ensures if ok then pos < next && Now(q', seen') && OnTrail(ApplyPost, b, start, t', next, q') else ParsePost(b, start) == None
    {
      next, seen', q', t' := pos, seen, q, t;
      var r := ReadRecord(b, pos);
      if r.Malformed? { Stuck(ApplyPost, b, start, t, pos, q, r); return false, next, seen', q', t'; }
      ok, seen', q' := Take(r.rec, seen, q);
      if !ok { Stuck(ApplyPost, b, start, t, pos, q, r); return; }
      Onward(ApplyPost, b, start, t, pos, q, r, q');
      next := pos + r.used;
      t' := Longer(t, next, q');
    }

    /** Reads bytes into the message, on top of what it holds. */
    method ParseFrom(b: seq<byte>, ghost p: Post) returns (ok: bool)
      requires Is(p) && Valid()
      modifies this, Creators()
      ensures Valid() && ok == ParsePost(b, p).Some?
      ensures ok ==> Is(ParsePost(b, p).value)
    {
      var pos, seen := 0, Seen(false, false, false);
      ghost var q, t := p, Trail([0], [p]);
      while pos < |b|
        invariant Valid() && Now(q, seen) && OnTrail(ApplyPost, b, p, t, pos, q)
        invariant forall c :: c in Creators() ==> c in old(Creators()) || fresh(c)
        decreases |b| - pos
      {
        ok, pos, seen, q, t := Turn(b, pos, seen, p, q, t);
        if !ok { return; }
      }
      Join(seen, q);
      Arrived(ApplyPost, b, p, t, q);
      ok := true;
    }

    method MergeIds(other: PostMsg)
      requires other != this
      modifies `postId, `hasPostId, `reqId, `hasReqId
      ensures hasPostId == (old(hasPostId) || other.hasPostId) && hasReqId == (old(hasReqId) || other.hasReqId)
      ensures postId == (if other.hasPostId then other.postId else old(postId))
      ensures reqId == (if other.hasReqId then other.reqId else old(reqId))
    {
      if other.hasPostId { postId, hasPostId := other.postId, true; }
      if other.hasReqId { reqId, hasReqId := other.reqId, true; }
    }

    method MergeRest(other: PostMsg)
      requires other != this
      modifies `text, `hasText, `timestamp, `hasTimestamp, `postType, `hasPostType, `unknown
      ensures unknown == old(unknown) + other.unknown
      ensures hasText == (old(hasText) || other.hasText) && hasTimestamp == (old(hasTimestamp) || other.hasTimestamp)
      ensures hasPostType == (old(hasPostType) || other.hasPostType)
      ensures text == (if other.hasText then other.text else old(text))
      ensures timestamp == (if other.hasTimestamp then other.timestamp else old(timestamp))
      ensures postType == (if other.hasPostType then other.postType else old(postType))
    {
      if other.hasText { text, hasText := other.text, true; }
      if other.hasTimestamp { timestamp, hasTimestamp := other.timestamp, true; }
      if other.hasPostType { postType, hasPostType := other.postType, true; }
      unknown := unknown + other.unknown;
    }

    method MergeScalars(other: PostMsg, ghost p: Post, ghost q: Post)
      requires ScalarsAre(p) && other.ScalarsAre(q) && other != this
      modifies `postId, `hasPostId, `reqId, `hasReqId, `text, `hasText, `timestamp, `hasTimestamp, `postType, `hasPostType, `unknown
      ensures ScalarsAre(MergePost(p, q))
    {
      MergeIds(other);
      MergeRest(other);
    }

    method MergeMentions(other: PostMsg, ghost ps: seq<Profile>, ghost qs: seq<Profile>)
      requires Valid() && Hold(mentions, ps) && Hold(other.mentions, qs)
      modifies `mentions
      ensures Valid() && Hold(mentions, ps + qs)
    {
      var copies := CopyProfiles(other.mentions, qs);
      mentions := mentions + copies;
    }

    method MergeMedia(other: PostMsg, ghost ps: seq<Profile>, ghost qs: seq<Profile>)
      requires Valid() && Hold(media, ps) && Hold(other.media, qs)
      modifies `media
      ensures Valid() && Hold(media, ps + qs)
    {
      var copies := CopyProfiles(other.media, qs);
      media := media + copies;
    }

    method MergeUrls(other: PostMsg, ghost ls: seq<Link>, ghost ks: seq<Link>)
      requires Valid() && LinksHold(urls, ls) && LinksHold(other.urls, ks)
      modifies `urls
      ensures Valid() && LinksHold(urls, ls + ks)
    {
      var copies := CopyLinks(other.urls, ks);
      urls := urls + copies;
    }

    /** Repeated fields are extended with copies of the other message's elements. */
    method MergeLists(other: PostMsg, ghost p: Post, ghost q: Post)
      requires Valid() && ListsAre(p) && other.ListsAre(q) && other != this
      modifies `mentions, `media, `urls
      ensures Valid() && ListsAre(MergePost(p, q))
    {
      MergeMentions(other, p.mentions, q.mentions);
      MergeMedia(other, p.media, q.media);
      MergeUrls(other, p.urls, q.urls);
    }

    method MergeCreatorFrom(other: PostMsg, ghost p: Post, ghost q: Post)
      requires Valid() && CreatorIs(p.creator) && other.CreatorIs(q.creator) && ListsAre(p) && other != this
      modifies `creator, Creators()
      ensures Valid() && CreatorIs(MergeCreator(p.creator, q.creator)) && ListsAre(p)
    {
      if other.creator != null {
        if creator == null { creator := new ProfileMsg(); }
        creator.MergeFrom(other.creator);
      }
    }

    method MergeFields(other: PostMsg, ghost p: Post, ghost q: Post)
      requires Valid() && ScalarsAre(p) && ListsAre(p) && other.ScalarsAre(q) && other.ListsAre(q) && other != this
      modifies this
      ensures Valid() && ScalarsAre(MergePost(p, q)) && ListsAre(MergePost(p, q)) && creator == old(creator)
    {
      MergeLists(other, p, q);
      MergeScalars(other, p, q);
    }

    method MergeFrom(other: PostMsg, ghost p: Post, ghost q: Post)
      requires Valid() && Is(p) && other.Is(q) && other != this && Creators() !! other.Creators()
      requires forall c :: c in Creators() ==> c !in other.mentions && c !in other.media
      modifies this, Creators()
      ensures Valid() && Is(MergePost(p, q))
    {
      MergeCreatorFrom(other, p, q);
      assert other.ScalarsAre(q) && other.ListsAre(q);
      MergeFields(other, p, q);
    }
  }

  /** Presence bits a parse collects locally. */
  datatype Seen = Seen(postId: bool, reqId: bool, timestamp: bool)
}
