/** The bytes on the wire, tag by tag, and how the reader tells the wire types apart. */
module MessageFormat {
  import opened Common
  import opened Wire
  import opened Messages
  import opened MessageLaws

  // ---- fields by their tag bytes ----

  function NumberField(tag: byte, o: Option<u64>): (b: seq<byte>) { if o.None? then [] else [tag] + Varint(o.value) }

  function BytesField(tag: byte, o: Option<seq<byte>>): (b: seq<byte>) {
    if o.None? then [] else [tag] + Varint(|o.value|) + o.value
  }

  function Repeated(tag: byte, bs: seq<seq<byte>>): (b: seq<byte>) {
    if bs == [] then [] else BytesField(tag, Some(bs[0])) + Repeated(tag, bs[1..])
  }

  function Signed(o: Option<i64>): (v: Option<u64>) { if o.None? then None else Some(ToU64(o.value)) }

  function Unsigned(o: Option<u32>): (v: Option<u64>) { if o.None? then None else Some(o.value) }

  function Enumerated(o: Option<i32>): (v: Option<u64>) { if o.None? then None else Some(ExtendI32(o.value)) }

  function Encodings(ps: seq<Profile>): (bs: seq<seq<byte>>) { seq(|ps|, i requires 0 <= i < |ps| => EncodeProfile(ps[i])) }

  function LinkEncodings(ls: seq<Link>): (bs: seq<seq<byte>>) { seq(|ls|, i requires 0 <= i < |ls| => EncodeLink(ls[i])) }

  function CreatorBytes(o: Option<Profile>): (b: Option<seq<byte>>) { if o.None? then None else Some(EncodeProfile(o.value)) }

  lemma NumberOnWire(f: nat, tag: byte, v: u64)
    requires f < 16 && tag == 8 * f
    ensures EncodeAll([Num(f, v)]) == NumberField(tag, Some(v))
  {
    OneRecSize(Num(f, v));
  }

  lemma BytesOnWire(f: nat, tag: byte, b: seq<byte>)
    requires f < 16 && tag == 8 * f + 2
    ensures EncodeAll([Blob(f, b)]) == BytesField(tag, Some(b))
  {
    OneRecSize(Blob(f, b));
    assert Varint(tag) == [tag];
  }

  lemma ProfileOnWire(p: Profile)
    ensures EncodeProfile(p) == NumberField(0x08, Signed(p.id)) + BytesField(0x12, p.name) + p.unknown
  {
    EncodeAppend(Int64Recs(1, p.id), BlobRecs(2, p.name));
    if p.id.Some? { NumberOnWire(1, 0x08, ToU64(p.id.value)); }
    if p.name.Some? { BytesOnWire(2, 0x12, p.name.value); }
  }

  lemma LinkOnWire(l: Link)
    ensures EncodeLink(l) == BytesField(0x0a, l.shortened) + BytesField(0x12, l.expanded) + l.unknown
  {
    EncodeAppend(BlobRecs(1, l.shortened), BlobRecs(2, l.expanded));
    if l.shortened.Some? { BytesOnWire(1, 0x0a, l.shortened.value); }
    if l.expanded.Some? { BytesOnWire(2, 0x12, l.expanded.value); }
  }

  lemma RequestOnWire(q: ReadReq)
    ensures EncodeReq(q)
         == BytesField(0x0a, if q.postIds == [] then None else Some(Packed(q.postIds)))
            + NumberField(0x10, Unsigned(q.rpcType)) + q.unknown
  {
    EncodeAppend(PackedRecs(q.postIds), UintRecs(2, q.rpcType));
    if q.postIds != [] { BytesOnWire(1, 0x0a, Packed(q.postIds)); }
    if q.rpcType.Some? { NumberOnWire(2, 0x10, q.rpcType.value); }
  }

  function BlobsRecs(f: nat, bs: seq<seq<byte>>): (rs: seq<Rec>) {
    if bs == [] then [] else [Blob(f, bs[0])] + BlobsRecs(f, bs[1..])
  }

  lemma {:induction false} RepeatedOnWire(f: nat, tag: byte, bs: seq<seq<byte>>)
    requires f < 16 && tag == 8 * f + 2
    ensures EncodeAll(BlobsRecs(f, bs)) == Repeated(tag, bs)
  {
    if bs != [] {
      RepeatedOnWire(f, tag, bs[1..]);
      BytesOnWire(f, tag, bs[0]);
      EncodeAppend([Blob(f, bs[0])], BlobsRecs(f, bs[1..]));
    }
  }

  lemma {:induction false} ProfilesAreBlobs(f: nat, ps: seq<Profile>)
    ensures ProfilesRecs(f, ps) == BlobsRecs(f, Encodings(ps))
  {
    if ps != [] {
      ProfilesAreBlobs(f, ps[1..]);
      assert Encodings(ps)[1..] == Encodings(ps[1..]);
    }
  }

  lemma {:induction false} LinksAreBlobs(f: nat, ls: seq<Link>)
    ensures LinksRecs(f, ls) == BlobsRecs(f, LinkEncodings(ls))
  {
    if ls != [] {
      LinksAreBlobs(f, ls[1..]);
      assert LinkEncodings(ls)[1..] == LinkEncodings(ls[1..]);
    }
  }

  lemma ProfilesOnWire(f: nat, tag: byte, ps: seq<Profile>)
    requires f < 16 && tag == 8 * f + 2
    ensures EncodeAll(ProfilesRecs(f, ps)) == Repeated(tag, Encodings(ps))
  {
    ProfilesAreBlobs(f, ps);
    RepeatedOnWire(f, tag, Encodings(ps));
  }

  lemma LinksOnWire(f: nat, tag: byte, ls: seq<Link>)
    requires f < 16 && tag == 8 * f + 2
    ensures EncodeAll(LinksRecs(f, ls)) == Repeated(tag, LinkEncodings(ls))
  {
    LinksAreBlobs(f, ls);
    RepeatedOnWire(f, tag, LinkEncodings(ls));
  }

  lemma SignedOnWire(f: nat, tag: byte, o: Option<i64>)
    requires f < 16 && tag == 8 * f
    ensures EncodeAll(Int64Recs(f, o)) == NumberField(tag, Signed(o))
  {
    if o.Some? { NumberOnWire(f, tag, ToU64(o.value)); }
  }

  lemma Joined(r: seq<Rec>, rest: seq<Rec>, head: seq<byte>, tail: seq<byte>)
    requires EncodeAll(r) == head && EncodeAll(rest) == tail
    ensures EncodeAll(r + rest) == head + tail
  {
    EncodeAppend(r, rest);
  }

  lemma TextOnWire(f: nat, tag: byte, o: Option<seq<byte>>)
    requires f < 16 && tag == 8 * f + 2
    ensures EncodeAll(BlobRecs(f, o)) == BytesField(tag, o)
  {
    if o.Some? { BytesOnWire(f, tag, o.value); }
  }

  lemma EnumOnWire(f: nat, tag: byte, o: Option<i32>)
    requires f < 16 && tag == 8 * f
    ensures EncodeAll(EnumRecs(f, o)) == NumberField(tag, Enumerated(o))
  {
    if o.Some? { NumberOnWire(f, tag, ExtendI32(o.value)); }
  }

  lemma CreatorOnWire(o: Option<Profile>)
    ensures EncodeAll(CreatorRecs(o)) == BytesField(0x12, CreatorBytes(o))
  {
    if o.Some? { BytesOnWire(2, 0x12, EncodeProfile(o.value)); }
  }

  // ---- the fields of a post, from the last one back ----

  ghost predicate WrittenAs(rs: seq<Rec>, b: seq<byte>) { EncodeAll(rs) == b }

  lemma LastOnWire(p: Post)
    ensures WrittenAs(Int64Recs(8, p.timestamp) + EnumRecs(9, p.postType),
                      NumberField(0x40, Signed(p.timestamp)) + NumberField(0x48, Enumerated(p.postType)))
  {
    SignedOnWire(8, 0x40, p.timestamp);
    EnumOnWire(9, 0x48, p.postType);
    Joined(Int64Recs(8, p.timestamp), EnumRecs(9, p.postType),
           NumberField(0x40, Signed(p.timestamp)), NumberField(0x48, Enumerated(p.postType)));
  }

  lemma ListsOnWire(p: Post, rest: seq<Rec>, tail: seq<byte>)
    requires WrittenAs(rest, tail)
    ensures WrittenAs(ProfilesRecs(5, p.mentions) + (ProfilesRecs(6, p.media) + (LinksRecs(7, p.urls) + rest)),
                      Repeated(0x2a, Encodings(p.mentions)) + (Repeated(0x32, Encodings(p.media))
                        + (Repeated(0x3a, LinkEncodings(p.urls)) + tail)))
  {
    ProfilesOnWire(5, 0x2a, p.mentions);
    ProfilesOnWire(6, 0x32, p.media);
    LinksOnWire(7, 0x3a, p.urls);
    ThreeJoined(ProfilesRecs(5, p.mentions), ProfilesRecs(6, p.media), LinksRecs(7, p.urls), rest,
                Repeated(0x2a, Encodings(p.mentions)), Repeated(0x32, Encodings(p.media)),
                Repeated(0x3a, LinkEncodings(p.urls)), tail);
  }

  lemma ThreeJoined(r: seq<Rec>, s: seq<Rec>, t: seq<Rec>, rest: seq<Rec>,
                    a: seq<byte>, b: seq<byte>, c: seq<byte>, tail: seq<byte>)
    requires WrittenAs(r, a) && WrittenAs(s, b) && WrittenAs(t, c) && WrittenAs(rest, tail)
    ensures WrittenAs(r + (s + (t + rest)), a + (b + (c + tail)))
  {
    Joined(t, rest, c, tail);
    TwoJoined(r, s, t + rest, a, b, c + tail);
  }

  lemma TwoJoined(r: seq<Rec>, s: seq<Rec>, rest: seq<Rec>, a: seq<byte>, b: seq<byte>, tail: seq<byte>)
    requires WrittenAs(r, a) && WrittenAs(s, b) && WrittenAs(rest, tail)
    ensures WrittenAs(r + (s + rest), a + (b + tail))
  {
    Joined(s, rest, b, tail);
    Joined(r, s + rest, a, b + tail);
  }

  lemma FirstOnWire(p: Post, rest: seq<Rec>, tail: seq<byte>)
    requires WrittenAs(rest, tail)
    ensures WrittenAs(Int64Recs(1, p.postId) + (CreatorRecs(p.creator) + (Int64Recs(3, p.reqId) + rest)),
                      NumberField(0x08, Signed(p.postId)) + (BytesField(0x12, CreatorBytes(p.creator))
                        + (NumberField(0x18, Signed(p.reqId)) + tail)))
  {
    SignedOnWire(1, 0x08, p.postId);
    CreatorOnWire(p.creator);
    SignedOnWire(3, 0x18, p.reqId);
    ThreeJoined(Int64Recs(1, p.postId), CreatorRecs(p.creator), Int64Recs(3, p.reqId), rest,
                NumberField(0x08, Signed(p.postId)), BytesField(0x12, CreatorBytes(p.creator)),
                NumberField(0x18, Signed(p.reqId)), tail);
  }

  /** A post, each field under its own tag byte, in ascending order, then what was unknown. */
  function PostBytes(p: Post): (b: seq<byte>) {
    NumberField(0x08, Signed(p.postId)) + (BytesField(0x12, CreatorBytes(p.creator)) + (NumberField(0x18, Signed(p.reqId))
      + (BytesField(0x22, p.text)
        + (Repeated(0x2a, Encodings(p.mentions)) + (Repeated(0x32, Encodings(p.media))
          + (Repeated(0x3a, LinkEncodings(p.urls))
            + (NumberField(0x40, Signed(p.timestamp)) + NumberField(0x48, Enumerated(p.postType)))))))))
  }

  lemma LaterOnWire(p: Post) returns (rest: seq<Rec>, tail: seq<byte>)
    ensures rest == BlobRecs(4, p.text) + (ProfilesRecs(5, p.mentions) + (ProfilesRecs(6, p.media)
                      + (LinksRecs(7, p.urls) + (Int64Recs(8, p.timestamp) + EnumRecs(9, p.postType)))))
    ensures tail == BytesField(0x22, p.text)
        + (Repeated(0x2a, Encodings(p.mentions)) + (Repeated(0x32, Encodings(p.media))
          + (Repeated(0x3a, LinkEncodings(p.urls))
            + (NumberField(0x40, Signed(p.timestamp)) + NumberField(0x48, Enumerated(p.postType))))))
    ensures WrittenAs(rest, tail)
  {
    LastOnWire(p);
    rest := Int64Recs(8, p.timestamp) + EnumRecs(9, p.postType);
    tail := NumberField(0x40, Signed(p.timestamp)) + NumberField(0x48, Enumerated(p.postType));
    ListsOnWire(p, rest, tail);
    TextOnWire(4, 0x22, p.text);
    rest := ProfilesRecs(5, p.mentions) + (ProfilesRecs(6, p.media) + (LinksRecs(7, p.urls) + rest));
    tail := Repeated(0x2a, Encodings(p.mentions)) + (Repeated(0x32, Encodings(p.media))
              + (Repeated(0x3a, LinkEncodings(p.urls)) + tail));
    Joined(BlobRecs(4, p.text), rest, BytesField(0x22, p.text), tail);
    rest, tail := BlobRecs(4, p.text) + rest, BytesField(0x22, p.text) + tail;
  }

  lemma PostOnWire(p: Post)
    ensures EncodePost(p) == PostBytes(p) + p.unknown
  {
    var rest, tail := LaterOnWire(p);
    FirstOnWire(p, rest, tail);
  }

  // ---- what the reader makes of a tag ----

  lemma TagOf(f: nat, w: nat, rest: seq<byte>)
    requires 0 < f < 16 && w < 8
    ensures ReadRec([8 * f + w] + rest) == ReadValue(8 * f + w, [8 * f + w] + rest, 1)
  {
    assert ReadVarint([8 * f + w] + rest, 5) == Got(8 * f + w, 1);
  }

  /** Eight bytes under wire type 1 and four under wire type 5. */
  lemma FixedTypes(f: nat, p: seq<byte>, rest: seq<byte>)
    requires 0 < f < 16 && (|p| == 8 || |p| == 4)
    ensures ReadRec([8 * f + if |p| == 8 then 1 else 5] + (p + rest)) == Record(Fixed(f, p), 1 + |p|)
  {
    var w := if |p| == 8 then 1 else 5;
    var b := [8 * f + w] + (p + rest);
    TagOf(f, w, p + rest);
    assert b[1..1 + |p|] == p;
  }

  /** Groups, wire types 3 and 4, and the unassigned types 6 and 7 are refused. */
  lemma RefusedTypes(f: nat, w: nat, rest: seq<byte>)
    requires 0 < f < 16 && (w == 3 || w == 4 || w == 6 || w == 7)
    ensures ReadRec([8 * f + w] + rest) == Malformed
  {
    TagOf(f, w, rest);
  }

  /** Seven bits to a byte, the lowest first, the top bit set on all but the last. */
  lemma VarintOf300()
    ensures Varint(300) == [0xac, 0x02] && ReadVarint([0xac, 0x02], 10) == Got(300, 2)
  {
    assert [0xac, 0x02][1..] == [0x02];
  }
}
