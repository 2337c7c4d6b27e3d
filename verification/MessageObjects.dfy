/**
  The message objects: fields with presence bits and cached sizes, filled by the parse loops, measured
  by ByteSize and written by Serialize, which relies on the sizes ByteSize has cached.
*/
module MessageObjects {
  import opened Common
  import opened Wire
  import opened WireIo
  import opened Utf8
  import opened Messages
  import opened MessageLaws

  // ---- what a parse loop has done so far ----

  /** Reading one record takes the loop from position `p` with `m` to `p'` with `m'`. */
  ghost predicate Hop<M>(apply: (M, Rec) -> Option<M>, b: seq<byte>, p: nat, m: M, p': nat, m': M) {
    p < |b| && match ReadRec(b[p..]) case Malformed => false case Record(r, n) => p' == p + n && apply(m, r) == Some(m')
  }

  /** Positions and values of the loop, from its start to now. */
  datatype Trail<M> = Trail(at: seq<nat>, vals: seq<M>)

  ghost predicate OnTrail<M>(apply: (M, Rec) -> Option<M>, b: seq<byte>, start: M, t: Trail<M>, pos: nat, m: M) {
    && |t.at| == |t.vals| > 0 && t.at[0] == 0 && t.vals[0] == start
    && t.at[|t.at| - 1] == pos <= |b| && t.vals[|t.at| - 1] == m
    && (forall i :: 0 <= i < |t.at| - 1 ==> Hop(apply, b, t.at[i], t.vals[i], t.at[i + 1], t.vals[i + 1]))
  }

  /** Every point of the trail leads to the same end. */
  lemma {:induction false} TrailLeads<M>(apply: (M, Rec) -> Option<M>, b: seq<byte>, start: M, t: Trail<M>, pos: nat, m: M, i: nat)
    requires OnTrail(apply, b, start, t, pos, m) && i < |t.at| && t.at[i] <= |b|
    ensures Parse(apply, b[t.at[i]..], t.vals[i]) == Parse(apply, b[pos..], m)
    decreases |t.at| - i
  {
    if i < |t.at| - 1 {
      var p, p' := t.at[i], t.at[i + 1];
      assert Hop(apply, b, p, t.vals[i], p', t.vals[i + 1]);
      assert b[p..][p' - p..] == b[p'..];
      TrailLeads(apply, b, start, t, pos, m, i + 1);
    }
  }

  lemma TrailAgrees<M>(apply: (M, Rec) -> Option<M>, b: seq<byte>, start: M, t: Trail<M>, pos: nat, m: M)
    requires OnTrail(apply, b, start, t, pos, m)
    ensures Parse(apply, b, start) == Parse(apply, b[pos..], m)
  {
    TrailLeads(apply, b, start, t, pos, m, 0);
    assert b[0..] == b;
  }

  lemma Arrived<M>(apply: (M, Rec) -> Option<M>, b: seq<byte>, start: M, t: Trail<M>, m: M)
    requires OnTrail(apply, b, start, t, |b|, m)
    ensures Parse(apply, b, start) == Some(m)
  {
    TrailAgrees(apply, b, start, t, |b|, m);
  }

  lemma Stuck<M>(apply: (M, Rec) -> Option<M>, b: seq<byte>, start: M, t: Trail<M>, pos: nat, m: M, r: Read)
    requires OnTrail(apply, b, start, t, pos, m) && pos < |b| && r == ReadRec(b[pos..])
    requires r.Record? ==> apply(m, r.rec).None?
    ensures Parse(apply, b, start) == None
  {
    TrailAgrees(apply, b, start, t, pos, m);
  }

  function Longer<M>(t: Trail<M>, pos: nat, m: M): (r: Trail<M>) { Trail(t.at + [pos], t.vals + [m]) }

  lemma Onward<M>(apply: (M, Rec) -> Option<M>, b: seq<byte>, start: M, t: Trail<M>, pos: nat, m: M, r: Read, m': M)
    requires OnTrail(apply, b, start, t, pos, m) && pos < |b| && r == ReadRec(b[pos..])
    requires r.Record? && apply(m, r.rec) == Some(m')
    ensures pos < pos + r.used <= |b| && OnTrail(apply, b, start, Longer(t, pos + r.used, m'), pos + r.used, m')
  {
    assert Hop(apply, b, pos, m, pos + r.used, m');
  }

  // ---- optional fields on their way out ----

  /** `d` is the encoding of the field; nothing is written for an absent one. */
  method WriteInt64(f: nat, has: bool, x: i64, target: array<byte>, at: nat, ghost d: seq<byte>) returns (next: nat)
    requires 0 < f < 16 && d == EncodeAll(Int64Recs(f, if has then Some(x) else None)) && at + |d| <= target.Length
    modifies target
    ensures next == at + |d| && Wrote(old(target[..]), target[..], at, d)
  {
    if has {
      OneRecSize(Num(f, ToU64(x)));
      RecSize(Num(f, ToU64(x)));
      next := WriteNumber(f, ToU64(x), target, at);
    } else {
      next := at;
      WroteNothing(target[..], at);
    }
  }

  method WriteString(f: nat, has: bool, s: seq<byte>, target: array<byte>, at: nat, ghost d: seq<byte>) returns (next: nat)
    requires 0 < f < 16 && d == EncodeAll(BlobRecs(f, if has then Some(s) else None)) && at + |d| <= target.Length
    modifies target
    ensures next == at + |d| && Wrote(old(target[..]), target[..], at, d)
  {
    if has {
      OneRecSize(Blob(f, s));
      RecSize(Blob(f, s));
      next := WriteBlob(f, s, target, at);
    } else {
      next := at;
      WroteNothing(target[..], at);
    }
  }

  /** Two parts written one after the other are the encoding of both. */
  lemma WroteBoth(a: seq<byte>, b: seq<byte>, c: seq<byte>, at: nat, xs: seq<Rec>, ys: seq<Rec>)
    requires Wrote(a, b, at, EncodeAll(xs)) && Wrote(b, c, at + |EncodeAll(xs)|, EncodeAll(ys))
    ensures Wrote(a, c, at, EncodeAll(xs + ys))
    ensures |EncodeAll(xs + ys)| == |EncodeAll(xs)| + |EncodeAll(ys)|
  {
    WroteThen(a, b, c, at, EncodeAll(xs), EncodeAll(ys));
    EncodeAppend(xs, ys);
  }

  /** Tag and length of a sub-message. */
  ghost function Header(f: nat, size: nat): (d: seq<byte>) { Varint(8 * f + 2) + Varint(size) }

  lemma HeaderLength(f: nat, size: nat)
    requires f < 16
    ensures |Header(f, size)| == 1 + VarintSize(size)
  {
    SmallTag(f, 2);
    VarintLength(size);
  }

  lemma HeaderThenBody(f: nat, body: seq<byte>)
    requires f < 16
    ensures EncodeRec(Blob(f, body)) == Header(f, |body|) + body && |Header(f, |body|)| == 1 + VarintSize(|body|)
  {
    HeaderLength(f, |body|);
  }

  method WriteHeader(f: nat, size: nat, target: array<byte>, at: nat, ghost head: seq<byte>) returns (next: nat)
    requires 0 < f < 16 && head == Header(f, size) && at + 1 + VarintSize(size) <= target.Length
    modifies target
    ensures next == at + |head| && Wrote(old(target[..]), target[..], at, head)
  {
    ghost var s0 := target[..];
    next := WriteVarint(8 * f + 2, target, at);
    ghost var s1 := target[..];
    next := WriteVarint(size, target, next);
    WroteThen(s0, s1, target[..], at, Varint(8 * f + 2), Varint(size));
  }

  lemma FlatThree(chunks: seq<seq<byte>>)
    requires |chunks| == 3
    ensures Flat(chunks, 0) == [] && Flat(chunks, 1) == chunks[0] && Flat(chunks, 3) == chunks[0] + chunks[1] + chunks[2]
  {
    assert [] + chunks[0] == chunks[0];
  }

  /** A profile is its two fields and its unknown bytes, chunk by chunk. */
  lemma ProfileParts(p: Profile) returns (chunks: seq<seq<byte>>)
    ensures |chunks| == 3 && chunks[0] == EncodeAll(Int64Recs(1, p.id)) && chunks[1] == EncodeAll(BlobRecs(2, p.name))
    ensures chunks[2] == p.unknown && EncodeProfile(p) == Flat(chunks, 3) && |EncodeProfile(p)| == ProfileSize(p)
  {
    chunks := [EncodeAll(Int64Recs(1, p.id)), EncodeAll(BlobRecs(2, p.name)), p.unknown];
    EncodeAppend(Int64Recs(1, p.id), BlobRecs(2, p.name));
    FlatThree(chunks);
    ProfileSizeIsLength(p);
  }

  lemma LinkParts(l: Link) returns (chunks: seq<seq<byte>>)
    ensures |chunks| == 3 && chunks[0] == EncodeAll(BlobRecs(1, l.shortened)) && chunks[1] == EncodeAll(BlobRecs(2, l.expanded))
    ensures chunks[2] == l.unknown && EncodeLink(l) == Flat(chunks, 3) && |EncodeLink(l)| == LinkSize(l)
  {
    chunks := [EncodeAll(BlobRecs(1, l.shortened)), EncodeAll(BlobRecs(2, l.expanded)), l.unknown];
    EncodeAppend(BlobRecs(1, l.shortened), BlobRecs(2, l.expanded));
    FlatThree(chunks);
    LinkSizeIsLength(l);
  }

  /** Creator, UserMention and Media. */
  class ProfileMsg {
    var id: i64
    var hasId: bool
    var name: seq<byte>
    var hasName: bool
    var unknown: seq<byte>
    var cached: nat

    constructor ()
      ensures Value() == NO_PROFILE
    {
      id, hasId, name, hasName, unknown, cached := 0, false, [], false, [], 0;
    }

    ghost function Value(): (p: Profile)
      reads this
    {
      Profile(if hasId then Some(id) else None, if hasName then Some(name) else None, unknown)
    }

    method ByteSize() returns (total: nat)
      modifies this`cached
      ensures total == cached == ProfileSize(Value())
    {
      total := 0;
      if hasName {
        var n := |name|;
        total := total + 1 + n + VarintSize(n);
      }
      if hasId { total := total + 1 + VarintSize(ToU64(id)); }
      total := total + |unknown|;
      cached := total;
    }

    /** The two fields and the unknown bytes, chunk after chunk. */
    method WriteParts(target: array<byte>, at: nat, ghost chunks: seq<seq<byte>>) returns (next: nat)
      requires |chunks| == 3 && chunks[0] == EncodeAll(Int64Recs(1, Value().id)) && chunks[2] == unknown
      requires chunks[1] == EncodeAll(BlobRecs(2, Value().name)) && Stage(target[..], target[..], at, chunks, 0, at)
      modifies target
      ensures Stage(old(target[..]), target[..], at, chunks, 3, next)
    {
      ghost var s0 := target[..];
      StageRoom(s0, s0, at, chunks, 0, at);
      next := WriteInt64(1, hasId, id, target, at, chunks[0]);
      StageNext(s0, s0, target[..], at, chunks, 0, at);
      ghost var s1, pos := target[..], next;
      StageRoom(s0, s1, at, chunks, 1, pos);
      next := WriteString(2, hasName, name, target, next, chunks[1]);
      StageNext(s0, s1, target[..], at, chunks, 1, pos);
      ghost var s2, pos2 := target[..], next;
      StageRoom(s0, s2, at, chunks, 2, pos2);
      next := WriteBytes(unknown, target, next);
      StageNext(s0, s2, target[..], at, chunks, 2, pos2);
    }

    method Serialize(target: array<byte>, at: nat) returns (next: nat)
      requires at + ProfileSize(Value()) <= target.Length
      modifies target
      ensures next == at + |EncodeProfile(Value())|
      ensures Wrote(old(target[..]), target[..], at, EncodeProfile(Value()))
    {
      ghost var p := Value();
      ghost var chunks := ProfileParts(p);
      next := WriteParts(target, at, chunks);
      assert Value() == p;
    }

    /** The value once the presence bit collected so far is joined. */
    ghost function Current(seenId: bool): (p: Profile)
      reads this
    {
      Value().(id := if hasId || seenId then Some(id) else None)
    }

    /** One turn of the switch. */
    method Take(r: Rec, seenId: bool) returns (ok: bool, seen: bool)
      modifies this
      ensures cached == old(cached)
      ensures ok <==> old(ApplyProfile(Current(seenId), r)).Some?
      ensures ok ==> Current(seen) == old(ApplyProfile(Current(seenId), r)).value
    {
      seen := seenId;
      if r.Num? && r.field == 1 {
        id, seen := ToI64(r.value), true;
      } else if r.Blob? && r.field == 2 {
        name, hasName := r.payload, true;
        if !ValidUtf8(name) { return false, seen; }
      } else {
        unknown := unknown + EncodeRec(r);
      }
      ok := true;
    }

    /** Presence of the number is collected in a local bit and joined at the end, as for every message. */
    method ParseFrom(b: seq<byte>) returns (ok: bool)
      modifies this
      ensures cached == old(cached)
      ensures ok <==> ParseProfile(b, old(Value())).Some?
      ensures ok ==> Value() == ParseProfile(b, old(Value())).value
    {
      var pos, seenId := 0, false;
      ghost var start, t := Value(), Trail([0], [Value()]);
      while pos < |b|
        invariant OnTrail(ApplyProfile, b, start, t, pos, Current(seenId))
        invariant cached == old(cached)
        decreases |b| - pos
      {
        ghost var m := Current(seenId);
        var r := ReadRecord(b, pos);
        if r.Malformed? { Stuck(ApplyProfile, b, start, t, pos, m, r); return false; }
        ok, seenId := Take(r.rec, seenId);
        if !ok { Stuck(ApplyProfile, b, start, t, pos, m, r); return false; }
        Onward(ApplyProfile, b, start, t, pos, m, r, Current(seenId));
        pos := pos + r.used;
        t := Longer(t, pos, Current(seenId));
      }
      hasId := hasId || seenId;
      Arrived(ApplyProfile, b, start, t, Value());
      ok := true;
    }

    method MergeFrom(other: ProfileMsg)
      modifies this
      ensures Value() == MergeProfile(old(Value()), old(other.Value()))
    {
      if other.hasName { name, hasName := other.name, true; }
      if other.hasId { id, hasId := other.id, true; }
      unknown := unknown + other.unknown;
    }
  }

  /** Url. */
  class LinkMsg {
    var shortened: seq<byte>
    var hasShortened: bool
    var expanded: seq<byte>
    var hasExpanded: bool
    var unknown: seq<byte>
    var cached: nat

    constructor ()
      ensures Value() == NO_LINK
    {
      shortened, hasShortened, expanded, hasExpanded, unknown, cached := [], false, [], false, [], 0;
    }

    ghost function Value(): (l: Link)
      reads this
    {
      Link(if hasShortened then Some(shortened) else None, if hasExpanded then Some(expanded) else None, unknown)
    }

    method ByteSize() returns (total: nat)
      modifies this`cached
      ensures total == cached == LinkSize(Value())
    {
      total := 0;
      if hasShortened { total := total + 1 + LengthDelimited(|shortened|); }
      if hasExpanded { total := total + 1 + LengthDelimited(|expanded|); }
      total := total + |unknown|;
      cached := total;
    }

    method WriteParts(target: array<byte>, at: nat, ghost chunks: seq<seq<byte>>) returns (next: nat)
      requires |chunks| == 3 && chunks[0] == EncodeAll(BlobRecs(1, Value().shortened)) && chunks[2] == unknown
      requires chunks[1] == EncodeAll(BlobRecs(2, Value().expanded)) && Stage(target[..], target[..], at, chunks, 0, at)
      modifies target
      ensures Stage(old(target[..]), target[..], at, chunks, 3, next)
    {
      ghost var s0 := target[..];
      StageRoom(s0, s0, at, chunks, 0, at);
      next := WriteString(1, hasShortened, shortened, target, at, chunks[0]);
      StageNext(s0, s0, target[..], at, chunks, 0, at);
      ghost var s1, pos := target[..], next;
      StageRoom(s0, s1, at, chunks, 1, pos);
      next := WriteString(2, hasExpanded, expanded, target, next, chunks[1]);
      StageNext(s0, s1, target[..], at, chunks, 1, pos);
      ghost var s2, pos2 := target[..], next;
      StageRoom(s0, s2, at, chunks, 2, pos2);
      next := WriteBytes(unknown, target, next);
      StageNext(s0, s2, target[..], at, chunks, 2, pos2);
    }

    method Serialize(target: array<byte>, at: nat) returns (next: nat)
      requires at + LinkSize(Value()) <= target.Length
      modifies target
      ensures next == at + |EncodeLink(Value())|
      ensures Wrote(old(target[..]), target[..], at, EncodeLink(Value()))
    {
      ghost var l := Value();
      ghost var chunks := LinkParts(l);
      next := WriteParts(target, at, chunks);
      assert Value() == l;
    }

    method Take(r: Rec) returns (ok: bool)
      modifies this
      ensures cached == old(cached)
      ensures ok <==> old(ApplyLink(Value(), r)).Some?
      ensures ok ==> Value() == old(ApplyLink(Value(), r)).value
    {
      if r.Blob? && r.field == 1 {
        shortened, hasShortened := r.payload, true;
        if !ValidUtf8(shortened) { return false; }
      } else if r.Blob? && r.field == 2 {
        expanded, hasExpanded := r.payload, true;
        if !ValidUtf8(expanded) { return false; }
      } else {
        unknown := unknown + EncodeRec(r);
      }
      ok := true;
    }

    method ParseFrom(b: seq<byte>) returns (ok: bool)
      modifies this
      ensures cached == old(cached)
      ensures ok <==> ParseLink(b, old(Value())).Some?
      ensures ok ==> Value() == ParseLink(b, old(Value())).value
    {
      var pos := 0;
      ghost var start, t := Value(), Trail([0], [Value()]);
      while pos < |b|
        invariant OnTrail(ApplyLink, b, start, t, pos, Value())
        invariant cached == old(cached)
        decreases |b| - pos
      {
        ghost var m := Value();
        var r := ReadRecord(b, pos);
        if r.Malformed? { Stuck(ApplyLink, b, start, t, pos, m, r); return false; }
        ok := Take(r.rec);
        if !ok { Stuck(ApplyLink, b, start, t, pos, m, r); return false; }
        Onward(ApplyLink, b, start, t, pos, m, r, Value());
        pos := pos + r.used;
        t := Longer(t, pos, Value());
      }
      Arrived(ApplyLink, b, start, t, Value());
      ok := true;
    }

    method MergeFrom(other: LinkMsg)
      modifies this
      ensures Value() == MergeLink(old(Value()), old(other.Value()))
    {
      if other.hasShortened { shortened, hasShortened := other.shortened, true; }
      if other.hasExpanded { expanded, hasExpanded := other.expanded, true; }
      unknown := unknown + other.unknown;
    }
  }
}
