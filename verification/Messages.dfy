/**
  The social-network messages as values: what is written for them, what reading does to a message that
  is already partly filled, and how two messages merge.  Fields a type does not know are kept as bytes and
  written again after the known ones.
*/
module Messages {
  import opened Common
  import opened Wire
  import opened Utf8

  /** Creator, UserMention and Media: an int64 field 1 and a string field 2. */
  datatype Profile = Profile(id: Option<i64>, name: Option<seq<byte>>, unknown: seq<byte>)

  /** Url: two string fields. */
  datatype Link = Link(shortened: Option<seq<byte>>, expanded: Option<seq<byte>>, unknown: seq<byte>)

  datatype Post = Post(postId: Option<i64>, creator: Option<Profile>, reqId: Option<i64>, text: Option<seq<byte>>,
                       mentions: seq<Profile>, media: seq<Profile>, urls: seq<Link>,
                       timestamp: Option<i64>, postType: Option<i32>, unknown: seq<byte>)

  datatype ReadReq = ReadReq(postIds: seq<i64>, rpcType: Option<u32>, unknown: seq<byte>)

  const NO_PROFILE: Profile := Profile(None, None, [])
  const NO_LINK: Link := Link(None, None, [])
  const NO_POST: Post := Post(None, None, None, None, [], [], [], None, None, [])
  const NO_REQ: ReadReq := ReadReq([], None, [])

  // ---- what is written ----

  function Int64Recs(f: nat, o: Option<i64>): (rs: seq<Rec>) { if o.None? then [] else [Num(f, ToU64(o.value))] }

  function EnumRecs(f: nat, o: Option<i32>): (rs: seq<Rec>) { if o.None? then [] else [Num(f, ExtendI32(o.value))] }

  function UintRecs(f: nat, o: Option<u32>): (rs: seq<Rec>) { if o.None? then [] else [Num(f, o.value)] }

  function BlobRecs(f: nat, o: Option<seq<byte>>): (rs: seq<Rec>) { if o.None? then [] else [Blob(f, o.value)] }

  function ProfileRecs(p: Profile): (rs: seq<Rec>) { Int64Recs(1, p.id) + BlobRecs(2, p.name) }

  function LinkRecs(l: Link): (rs: seq<Rec>) { BlobRecs(1, l.shortened) + BlobRecs(2, l.expanded) }

  function EncodeProfile(p: Profile): (b: seq<byte>) { EncodeAll(ProfileRecs(p)) + p.unknown }

  function EncodeLink(l: Link): (b: seq<byte>) { EncodeAll(LinkRecs(l)) + l.unknown }

  function CreatorRecs(o: Option<Profile>): (rs: seq<Rec>) { if o.None? then [] else [Blob(2, EncodeProfile(o.value))] }

  function ProfilesRecs(f: nat, ps: seq<Profile>): (rs: seq<Rec>) {
    if ps == [] then [] else [Blob(f, EncodeProfile(ps[0]))] + ProfilesRecs(f, ps[1..])
  }

  function LinksRecs(f: nat, ls: seq<Link>): (rs: seq<Rec>) {
    if ls == [] then [] else [Blob(f, EncodeLink(ls[0]))] + LinksRecs(f, ls[1..])
  }

  /** Fields in ascending order of their numbers. */
  function PostRecs(p: Post): (rs: seq<Rec>) {
    Int64Recs(1, p.postId) + (CreatorRecs(p.creator) + (Int64Recs(3, p.reqId) + (BlobRecs(4, p.text)
      + (ProfilesRecs(5, p.mentions) + (ProfilesRecs(6, p.media) + (LinksRecs(7, p.urls)
        + (Int64Recs(8, p.timestamp) + EnumRecs(9, p.postType))))))))
  }

  function EncodePost(p: Post): (b: seq<byte>) { EncodeAll(PostRecs(p)) + p.unknown }

  function Packed(xs: seq<i64>): (b: seq<byte>) {
    if xs == [] then [] else Varint(ToU64(xs[0])) + Packed(xs[1..])
  }

  function PackedRecs(xs: seq<i64>): (rs: seq<Rec>) { if xs == [] then [] else [Blob(1, Packed(xs))] }

  function ReqRecs(q: ReadReq): (rs: seq<Rec>) { PackedRecs(q.postIds) + UintRecs(2, q.rpcType) }

  function EncodeReq(q: ReadReq): (b: seq<byte>) { EncodeAll(ReqRecs(q)) + q.unknown }

  // ---- what reading one record does ----

  function ApplyProfile(m: Profile, r: Rec): (o: Option<Profile>) {
    if r.Num? && r.field == 1 then Some(m.(id := Some(ToI64(r.value))))
    else if r.Blob? && r.field == 2 then if ValidUtf8(r.payload) then Some(m.(name := Some(r.payload))) else None
    else Some(KeepProfile(m, EncodeRec(r)))
  }

  function ApplyLink(m: Link, r: Rec): (o: Option<Link>) {
    if r.Blob? && r.field == 1 then if ValidUtf8(r.payload) then Some(m.(shortened := Some(r.payload))) else None
    else if r.Blob? && r.field == 2 then if ValidUtf8(r.payload) then Some(m.(expanded := Some(r.payload))) else None
    else Some(KeepLink(m, EncodeRec(r)))
  }

  /** A field that is not known, or comes with another wire type, is kept. */
  function KeepProfile(m: Profile, u: seq<byte>): (r: Profile) { m.(unknown := m.unknown + u) }

  function KeepLink(m: Link, u: seq<byte>): (r: Link) { m.(unknown := m.unknown + u) }

  function KeepPost(m: Post, u: seq<byte>): (r: Post) { m.(unknown := m.unknown + u) }

  function KeepReq(m: ReadReq, u: seq<byte>): (r: ReadReq) { m.(unknown := m.unknown + u) }

  function ParseProfile(b: seq<byte>, m: Profile): (o: Option<Profile>) { Parse(ApplyProfile, b, m) }

  function ParseLink(b: seq<byte>, m: Link): (o: Option<Link>) { Parse(ApplyLink, b, m) }

  function OrEmpty(o: Option<Profile>): (p: Profile) { if o.None? then NO_PROFILE else o.value }

  /** Length-delimited fields of a post; a second creator is read into the first. */
  function ApplyPostBlob(m: Post, f: nat, b: seq<byte>): (o: Option<Post>) {
    if f == 2 then
      match ParseProfile(b, OrEmpty(m.creator)) case None => None case Some(c) => Some(m.(creator := Some(c)))
    else if f == 4 then if ValidUtf8(b) then Some(m.(text := Some(b))) else None
    else if f == 5 then
      match ParseProfile(b, NO_PROFILE) case None => None case Some(x) => Some(m.(mentions := m.mentions + [x]))
    else if f == 6 then
      match ParseProfile(b, NO_PROFILE) case None => None case Some(x) => Some(m.(media := m.media + [x]))
    else if f == 7 then
      match ParseLink(b, NO_LINK) case None => None case Some(x) => Some(m.(urls := m.urls + [x]))
    else Some(KeepPost(m, EncodeRec(Blob(f, b))))
  }

  function ApplyPostNum(m: Post, f: nat, v: u64): (r: Post) {
    if f == 1 then m.(postId := Some(ToI64(v)))
    else if f == 3 then m.(reqId := Some(ToI64(v)))
    else if f == 8 then m.(timestamp := Some(ToI64(v)))
    else if f == 9 then m.(postType := Some(TruncateI32(v)))
    else KeepPost(m, EncodeRec(Num(f, v)))
  }

  function ApplyPost(m: Post, r: Rec): (o: Option<Post>) {
    match r
    case Num(f, v) => Some(ApplyPostNum(m, f, v))
    case Blob(f, b) => ApplyPostBlob(m, f, b)
    case Fixed(_, _) => Some(KeepPost(m, EncodeRec(r)))
  }

  function ParsePost(b: seq<byte>, m: Post): (o: Option<Post>) { Parse(ApplyPost, b, m) }

  function ParsePacked(b: seq<byte>): (o: Option<seq<i64>>)
    decreases |b|
  {
    if b == [] then Some([])
    else
      match ReadVarint(b, 10)
      case Bad => None
      case Got(v, n) =>
        match ParsePacked(b[n..]) case None => None case Some(xs) => Some([ToI64(v % TWO64)] + xs)
  }

  /** A repeated number is taken packed or one at a time. */
  function ApplyReq(m: ReadReq, r: Rec): (o: Option<ReadReq>) {
    match r
    case Num(f, v) =>
      if f == 1 then Some(m.(postIds := m.postIds + [ToI64(v)]))
      else if f == 2 then Some(m.(rpcType := Some(v % TWO32)))
      else Some(KeepReq(m, EncodeRec(r)))
    case Blob(f, b) =>
      if f != 1 then Some(KeepReq(m, EncodeRec(r)))
      else (match ParsePacked(b) case None => None case Some(xs) => Some(m.(postIds := m.postIds + xs)))
    case Fixed(_, _) => Some(KeepReq(m, EncodeRec(r)))
  }

  function ParseReq(b: seq<byte>, m: ReadReq): (o: Option<ReadReq>) { Parse(ApplyReq, b, m) }

  // ---- merging ----

  function Later<T>(a: Option<T>, b: Option<T>): (o: Option<T>) { if b.Some? then b else a }

  function MergeProfile(a: Profile, b: Profile): (m: Profile) {
    Profile(Later(a.id, b.id), Later(a.name, b.name), a.unknown + b.unknown)
  }

  function MergeLink(a: Link, b: Link): (m: Link) {
    Link(Later(a.shortened, b.shortened), Later(a.expanded, b.expanded), a.unknown + b.unknown)
  }

  function MergeCreator(a: Option<Profile>, b: Option<Profile>): (o: Option<Profile>) {
    if b.None? then a else Some(MergeProfile(OrEmpty(a), b.value))
  }

  function MergePost(a: Post, b: Post): (m: Post) {
    Post(Later(a.postId, b.postId), MergeCreator(a.creator, b.creator), Later(a.reqId, b.reqId), Later(a.text, b.text),
         a.mentions + b.mentions, a.media + b.media, a.urls + b.urls,
         Later(a.timestamp, b.timestamp), Later(a.postType, b.postType), a.unknown + b.unknown)
  }

  function MergeReq(a: ReadReq, b: ReadReq): (m: ReadReq) {
    ReadReq(a.postIds + b.postIds, Later(a.rpcType, b.rpcType), a.unknown + b.unknown)
  }

  // ---- which messages can be read back ----

  predicate TextOk(o: Option<seq<byte>>) { o.Some? ==> ValidUtf8(o.value) }

  predicate ProfileText(p: Profile) { TextOk(p.name) }

  predicate LinkText(l: Link) { TextOk(l.shortened) && TextOk(l.expanded) }

  predicate ProfilesText(ps: seq<Profile>) { ps != [] ==> ProfileText(ps[0]) && ProfilesText(ps[1..]) }

  predicate LinksText(ls: seq<Link>) { ls != [] ==> LinkText(ls[0]) && LinksText(ls[1..]) }

  /** Every string in the post is valid UTF-8. */
  predicate PostText(p: Post) {
    && (p.creator.Some? ==> ProfileText(p.creator.value)) && TextOk(p.text)
    && ProfilesText(p.mentions) && ProfilesText(p.media) && LinksText(p.urls)
  }

  // ---- what the unknown bytes of a message are ----

  predicate ProfileKnows(r: Rec) { (r.Num? && r.field == 1) || (r.Blob? && r.field == 2) }

  predicate LinkKnows(r: Rec) { r.Blob? && (r.field == 1 || r.field == 2) }

  predicate PostKnows(r: Rec) {
    || (r.Num? && (r.field == 1 || r.field == 3 || r.field == 8 || r.field == 9))
    || (r.Blob? && (r.field == 2 || 4 <= r.field <= 7))
  }

  predicate ReqKnows(r: Rec) { (!r.Fixed? && r.field == 1) || (r.Num? && r.field == 2) }

  /** The bytes are those of records the type does not know. */
  ghost predicate KeptAs(knows: Rec -> bool, u: seq<byte>, us: seq<Rec>) {
    u == EncodeAll(us) && forall i :: 0 <= i < |us| ==> RecOk(us[i]) && !knows(us[i])
  }

  ghost predicate Kept(knows: Rec -> bool, u: seq<byte>) { exists us :: KeptAs(knows, u, us) }

  ghost predicate ProfileKept(p: Profile) { Kept(ProfileKnows, p.unknown) }

  ghost predicate LinkKept(l: Link) { Kept(LinkKnows, l.unknown) }

  ghost predicate ProfilesKept(ps: seq<Profile>) { ps != [] ==> ProfileKept(ps[0]) && ProfilesKept(ps[1..]) }

  ghost predicate LinksKept(ls: seq<Link>) { ls != [] ==> LinkKept(ls[0]) && LinksKept(ls[1..]) }

  /** So it is in the post and all its parts. */
  ghost predicate PostKept(p: Post) {
    && Kept(PostKnows, p.unknown) && (p.creator.Some? ==> ProfileKept(p.creator.value))
    && ProfilesKept(p.mentions) && ProfilesKept(p.media) && LinksKept(p.urls)
  }

  ghost predicate ReqKept(q: ReadReq) { Kept(ReqKnows, q.unknown) }

  /** No record is longer than the parser accepts. */
  ghost predicate Fits(rs: seq<Rec>) { forall i :: 0 <= i < |rs| ==> RecOk(rs[i]) }

  ghost predicate ProfileFits(p: Profile) { Fits(ProfileRecs(p)) && ProfileKept(p) }

  ghost predicate LinkFits(l: Link) { Fits(LinkRecs(l)) && LinkKept(l) }

  ghost predicate ProfilesFit(ps: seq<Profile>) { ps != [] ==> ProfileFits(ps[0]) && ProfilesFit(ps[1..]) }

  ghost predicate LinksFit(ls: seq<Link>) { ls != [] ==> LinkFits(ls[0]) && LinksFit(ls[1..]) }

  ghost predicate PostFits(p: Post) {
    && Fits(PostRecs(p)) && Kept(PostKnows, p.unknown)
    && (p.creator.Some? ==> ProfileFits(p.creator.value))
    && ProfilesFit(p.mentions) && ProfilesFit(p.media) && LinksFit(p.urls)
  }
}
