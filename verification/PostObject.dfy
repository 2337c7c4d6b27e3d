/** Post: optional scalars, an owned creator and owned repeated sub-messages. */
module PostObject {
  import opened Common
  import opened Wire
  import opened WireIo
  import opened Messages
  import opened MessageLaws
  import opened MessageObjects

  // ---- lists of sub-messages ----

  /** The objects hold these values. */
  ghost predicate Hold(ms: seq<ProfileMsg>, ps: seq<Profile>)
    reads ms
  {
    |ms| == |ps| && forall i :: 0 <= i < |ms| ==> ms[i].Value() == ps[i]
  }

  ghost predicate LinksHold(ms: seq<LinkMsg>, ls: seq<Link>)
    reads ms
  {
    |ms| == |ls| && forall i :: 0 <= i < |ms| ==> ms[i].Value() == ls[i]
  }

  // ---- sizes, counting up as the loops do ----

  ghost function SizeTo(ps: seq<Profile>, i: nat): (n: nat)
    requires i <= |ps|
  {
    if i == 0 then 0 else SizeTo(ps, i - 1) + LengthDelimited(ProfileSize(ps[i - 1]))
  }

  /** Counting up from any start and down to the end is the whole. */
  lemma {:induction false} SizeSplit(ps: seq<Profile>, i: nat)
    requires i <= |ps|
    ensures SizeTo(ps, i) + ProfilesSize(ps[i..]) == ProfilesSize(ps)
  {
    if i == 0 {
      assert ps[0..] == ps;
    } else {
      SizeSplit(ps, i - 1);
      assert ps[i - 1..][1..] == ps[i..];
    }
  }

  ghost function LinkSizeTo(ls: seq<Link>, i: nat): (n: nat)
    requires i <= |ls|
  {
    if i == 0 then 0 else LinkSizeTo(ls, i - 1) + LengthDelimited(LinkSize(ls[i - 1]))
  }

  lemma {:induction false} LinkSizeSplit(ls: seq<Link>, i: nat)
    requires i <= |ls|
    ensures LinkSizeTo(ls, i) + LinksSize(ls[i..]) == LinksSize(ls)
  {
    if i == 0 {
      assert ls[0..] == ls;
    } else {
      LinkSizeSplit(ls, i - 1);
      assert ls[i - 1..][1..] == ls[i..];
    }
  }

  /** A list of records, chunk by chunk. */
  ghost function RecChunks(rs: seq<Rec>): (chunks: seq<seq<byte>>)
    ensures |chunks| == |rs| && forall i :: 0 <= i < |rs| ==> chunks[i] == EncodeRec(rs[i])
  {
    if rs == [] then [] else [EncodeRec(rs[0])] + RecChunks(rs[1..])
  }

  lemma {:induction false} RestIsEncoding(rs: seq<Rec>, i: nat)
    requires i <= |rs|
    ensures Rest(RecChunks(rs), i) == EncodeAll(rs[i..])
    decreases |rs| - i
  {
    if i < |rs| {
      RestIsEncoding(rs, i + 1);
      assert rs[i..][1..] == rs[i + 1..];
    }
  }

  lemma FlatIsEncoding(rs: seq<Rec>)
    ensures Flat(RecChunks(rs), |rs|) == EncodeAll(rs)
  {
    var c := RecChunks(rs);
    FlatAndRest(c, |rs|);
    RestIsEncoding(rs, 0);
    assert rs[0..] == rs && Flat(c, |rs|) + [] == Flat(c, |rs|);
  }

  /** The sizes of the messages are cached, as the writer expects. */
  ghost predicate Sized(ms: seq<ProfileMsg>, ps: seq<Profile>)
    reads ms
  {
    |ms| <= |ps| && forall i :: 0 <= i < |ms| ==> ms[i].cached == ProfileSize(ps[i])
  }

  ghost predicate LinksSized(ms: seq<LinkMsg>, ls: seq<Link>)
    reads ms
  {
    |ms| <= |ls| && forall i :: 0 <= i < |ms| ==> ms[i].cached == LinkSize(ls[i])
  }

  method SizeProfiles(ms: seq<ProfileMsg>, ghost ps: seq<Profile>) returns (n: nat)
    requires Hold(ms, ps)
    modifies ms
    ensures n == ProfilesSize(ps) && Hold(ms, ps) && Sized(ms, ps)
  {
    n := 0;
    for i := 0 to |ms|
      invariant n == SizeTo(ps, i) && Hold(ms, ps)
      invariant forall j :: 0 <= j < i ==> ms[j].cached == ProfileSize(ps[j])
    {
      var k := ms[i].ByteSize();
      n := n + LengthDelimited(k);
    }
    SizeSplit(ps, |ps|);
  }

  method SizeLinks(ms: seq<LinkMsg>, ghost ls: seq<Link>) returns (n: nat)
    requires LinksHold(ms, ls)
    modifies ms
    ensures n == LinksSize(ls) && LinksHold(ms, ls) && LinksSized(ms, ls)
  {
    n := 0;
    for i := 0 to |ms|
      invariant n == LinkSizeTo(ls, i) && LinksHold(ms, ls)
      invariant forall j :: 0 <= j < i ==> ms[j].cached == LinkSize(ls[j])
    {
      var k := ms[i].ByteSize();
      n := n + LengthDelimited(k);
    }
    LinkSizeSplit(ls, |ls|);
  }

  // ---- sub-messages on their way out: tag, cached size, then the message itself ----

  /** The message itself, whose length is known. */
  method WriteBody(m: ProfileMsg, target: array<byte>, at: nat, ghost body: seq<byte>) returns (next: nat)
    requires body == EncodeProfile(m.Value()) && at + |body| <= target.Length
    modifies target
    ensures next == at + |body| && Wrote(old(target[..]), target[..], at, body)
  {
    ghost var p := m.Value();
    ProfileSizeIsLength(p);
    next := m.Serialize(target, at);
    assert m.Value() == p;
  }

  method WriteLinkBody(m: LinkMsg, target: array<byte>, at: nat, ghost body: seq<byte>) returns (next: nat)
    requires body == EncodeLink(m.Value()) && at + |body| <= target.Length
    modifies target
    ensures next == at + |body| && Wrote(old(target[..]), target[..], at, body)
  {
    ghost var l := m.Value();
    LinkSizeIsLength(l);
    next := m.Serialize(target, at);
    assert m.Value() == l;
  }

  /** `head` and `body` are the two parts of what is written. */
  method WriteProfileParts(f: nat, m: ProfileMsg, target: array<byte>, at: nat, ghost head: seq<byte>, ghost body: seq<byte>)
    returns (next: nat)
    requires 0 < f < 16 && head == Header(f, m.cached) && |head| == 1 + VarintSize(m.cached)
    requires body == EncodeProfile(m.Value()) && at + |head| + |body| <= target.Length
    modifies target
    ensures next == at + |head| + |body| && Wrote(old(target[..]), target[..], at, head + body)
  {
    ghost var s0, p := target[..], m.Value();
    next := WriteHeader(f, m.cached, target, at, head);
    ghost var s1 := target[..];
    assert m.Value() == p;
    next := WriteBody(m, target, next, body);
    WroteThen(s0, s1, target[..], at, head, body);
  }

  method WriteLinkParts(f: nat, m: LinkMsg, target: array<byte>, at: nat, ghost head: seq<byte>, ghost body: seq<byte>)
    returns (next: nat)
    requires 0 < f < 16 && head == Header(f, m.cached) && |head| == 1 + VarintSize(m.cached)
    requires body == EncodeLink(m.Value()) && at + |head| + |body| <= target.Length
    modifies target
    ensures next == at + |head| + |body| && Wrote(old(target[..]), target[..], at, head + body)
  {
    ghost var s0, l := target[..], m.Value();
    next := WriteHeader(f, m.cached, target, at, head);
    ghost var s1 := target[..];
    assert m.Value() == l;
    next := WriteLinkBody(m, target, next, body);
    WroteThen(s0, s1, target[..], at, head, body);
  }

  lemma ProfileInParts(f: nat, p: Profile) returns (head: seq<byte>, body: seq<byte>)
    requires 0 < f < 16
    ensures head == Header(f, ProfileSize(p)) && |head| == 1 + VarintSize(ProfileSize(p)) && body == EncodeProfile(p)
    ensures EncodeRec(Blob(f, EncodeProfile(p))) == head + body
  {
    ProfileSizeIsLength(p);
    body := EncodeProfile(p);
    HeaderThenBody(f, body);
    head := Header(f, |body|);
  }

  lemma LinkInParts(f: nat, l: Link) returns (head: seq<byte>, body: seq<byte>)
    requires 0 < f < 16
    ensures head == Header(f, LinkSize(l)) && |head| == 1 + VarintSize(LinkSize(l)) && body == EncodeLink(l)
    ensures EncodeRec(Blob(f, EncodeLink(l))) == head + body
  {
    LinkSizeIsLength(l);
    body := EncodeLink(l);
    HeaderThenBody(f, body);
    head := Header(f, |body|);
  }

  /** One sub-message; `d` is its record. */
  method WriteProfile(f: nat, m: ProfileMsg, target: array<byte>, at: nat, ghost d: seq<byte>) returns (next: nat)
    requires 0 < f < 16 && m.cached == ProfileSize(m.Value())
    requires d == EncodeRec(Blob(f, EncodeProfile(m.Value()))) && at + |d| <= target.Length
    modifies target
    ensures next == at + |d| && Wrote(old(target[..]), target[..], at, d)
  {
    ghost var head, body := ProfileInParts(f, m.Value());
    next := WriteProfileParts(f, m, target, at, head, body);
  }

  method WriteLink(f: nat, m: LinkMsg, target: array<byte>, at: nat, ghost d: seq<byte>) returns (next: nat)
    requires 0 < f < 16 && m.cached == LinkSize(m.Value())
    requires d == EncodeRec(Blob(f, EncodeLink(m.Value()))) && at + |d| <= target.Length
    modifies target
    ensures next == at + |d| && Wrote(old(target[..]), target[..], at, d)
  {
    ghost var head, body := LinkInParts(f, m.Value());
    next := WriteLinkParts(f, m, target, at, head, body);
  }

  /** These chunks are what the sized messages are to be written as. */
  ghost predicate WritesAs(ms: seq<ProfileMsg>, f: nat, chunks: seq<seq<byte>>)
    reads ms
  {
    |ms| == |chunks| && forall i {:trigger ms[i]} :: 0 <= i < |ms| ==>
      ms[i].cached == ProfileSize(ms[i].Value()) && chunks[i] == EncodeRec(Blob(f, EncodeProfile(ms[i].Value())))
  }

  ghost predicate LinksWriteAs(ms: seq<LinkMsg>, f: nat, chunks: seq<seq<byte>>)
    reads ms
  {
    |ms| == |chunks| && forall i {:trigger ms[i]} :: 0 <= i < |ms| ==>
      ms[i].cached == LinkSize(ms[i].Value()) && chunks[i] == EncodeRec(Blob(f, EncodeLink(ms[i].Value())))
  }

  /** One message of a list. */
  method WriteNthProfile(f: nat, ms: seq<ProfileMsg>, i: nat, target: array<byte>, pos: nat,
                         ghost chunks: seq<seq<byte>>, ghost s0: seq<byte>, ghost at: nat)
    returns (next: nat)
    requires 0 < f < 16 && WritesAs(ms, f, chunks) && i < |ms| && at + |Flat(chunks, |chunks|)| <= target.Length
    requires Stage(s0, target[..], at, chunks, i, pos)
    modifies target
    ensures Stage(s0, target[..], at, chunks, i + 1, next)
  {
    ghost var s1 := target[..];
    StageRoom(s0, s1, at, chunks, i, pos);
    next := WriteProfile(f, ms[i], target, pos, chunks[i]);
    StageNext(s0, s1, target[..], at, chunks, i, pos);
  }

  method WriteNthLink(f: nat, ms: seq<LinkMsg>, i: nat, target: array<byte>, pos: nat,
                      ghost chunks: seq<seq<byte>>, ghost s0: seq<byte>, ghost at: nat)
    returns (next: nat)
    requires 0 < f < 16 && LinksWriteAs(ms, f, chunks) && i < |ms| && at + |Flat(chunks, |chunks|)| <= target.Length
    requires Stage(s0, target[..], at, chunks, i, pos)
    modifies target
    ensures Stage(s0, target[..], at, chunks, i + 1, next)
  {
    ghost var s1 := target[..];
    StageRoom(s0, s1, at, chunks, i, pos);
    next := WriteLink(f, ms[i], target, pos, chunks[i]);
    StageNext(s0, s1, target[..], at, chunks, i, pos);
  }

  method WriteProfiles(f: nat, ms: seq<ProfileMsg>, ghost chunks: seq<seq<byte>>, target: array<byte>, at: nat)
    returns (next: nat)
    requires 0 < f < 16 && WritesAs(ms, f, chunks) && at + |Flat(chunks, |chunks|)| <= target.Length
    modifies target
    ensures next == at + |Flat(chunks, |chunks|)| && Wrote(old(target[..]), target[..], at, Flat(chunks, |chunks|))
  {
    ghost var s0 := target[..];
    next := at;
    for i := 0 to |ms|
      invariant WritesAs(ms, f, chunks)
      invariant Stage(s0, target[..], at, chunks, i, next)
    {
      next := WriteNthProfile(f, ms, i, target, next, chunks, s0, at);
    }
  }

  method WriteLinks(f: nat, ms: seq<LinkMsg>, ghost chunks: seq<seq<byte>>, target: array<byte>, at: nat)
    returns (next: nat)
    requires 0 < f < 16 && LinksWriteAs(ms, f, chunks) && at + |Flat(chunks, |chunks|)| <= target.Length
    modifies target
    ensures next == at + |Flat(chunks, |chunks|)| && Wrote(old(target[..]), target[..], at, Flat(chunks, |chunks|))
  {
    ghost var s0 := target[..];
    next := at;
    for i := 0 to |ms|
      invariant LinksWriteAs(ms, f, chunks)
      invariant Stage(s0, target[..], at, chunks, i, next)
    {
      next := WriteNthLink(f, ms, i, target, next, chunks, s0, at);
    }
  }
}
