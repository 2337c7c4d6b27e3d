/** PostStorageReadReq: a packed repeated field whose encoded size is cached between sizing and writing. */
module RequestObject {
  import opened Common
  import opened Wire
  import opened WireIo
  import opened Messages
  import opened MessageLaws
  import opened MessageObjects

  lemma {:induction false} PackedSnoc(xs: seq<i64>, x: i64)
    ensures Packed(xs + [x]) == Packed(xs) + Varint(ToU64(x))
    ensures PackedSize(xs + [x]) == PackedSize(xs) + VarintSize(ToU64(x))
  {
    if xs == [] {
      assert Varint(ToU64(x)) + [] == Varint(ToU64(x));
    } else {
      assert (xs + [x])[1..] == xs[1..] + [x];
      PackedSnoc(xs[1..], x);
    }
  }

  lemma {:induction false} PackedSizeUpTo(xs: seq<i64>, i: nat)
    requires i <= |xs|
    ensures PackedSize(xs[..i]) <= PackedSize(xs)
    decreases |xs| - i
  {
    if i == |xs| {
      assert xs[..i] == xs;
    } else {
      assert xs[..i + 1] == xs[..i] + [xs[i]];
      PackedSnoc(xs[..i], xs[i]);
      PackedSizeUpTo(xs, i + 1);
    }
  }

  /** One more number of a packed run. */
  lemma PackedStep(xs: seq<i64>, i: nat)
    requires i < |xs|
    ensures Packed(xs[..i + 1]) == Packed(xs[..i]) + Varint(ToU64(xs[i]))
    ensures |Packed(xs[..i])| + VarintSize(ToU64(xs[i])) <= PackedSize(xs)
  {
    assert xs[..i + 1] == xs[..i] + [xs[i]];
    PackedSnoc(xs[..i], xs[i]);
    PackedSizeIsLength(xs[..i]);
    PackedSizeUpTo(xs, i + 1);
  }

  /** A run that is not empty is a header and its numbers. */
  lemma RunInParts(xs: seq<i64>) returns (head: seq<byte>)
    ensures head == Header(1, PackedSize(xs)) && |head| == 1 + VarintSize(PackedSize(xs))
    ensures PackedSize(xs) == |Packed(xs)|
    ensures EncodeAll(PackedRecs(xs)) == if PackedSize(xs) == 0 then [] else head + Packed(xs)
  {
    PackedSizeIsLength(xs);
    head := Header(1, |Packed(xs)|);
    HeaderThenBody(1, Packed(xs));
    if xs != [] { OneRecSize(Blob(1, Packed(xs))); }
  }

  lemma RequestInParts(q: ReadReq) returns (ids: seq<byte>, kind: seq<byte>)
    ensures ids == EncodeAll(PackedRecs(q.postIds)) && kind == EncodeAll(UintRecs(2, q.rpcType))
    ensures EncodeReq(q) == ids + kind + q.unknown && |ids| + |kind| + |q.unknown| == ReqSize(q)
  {
    ids, kind := EncodeAll(PackedRecs(q.postIds)), EncodeAll(UintRecs(2, q.rpcType));
    EncodeAppend(PackedRecs(q.postIds), UintRecs(2, q.rpcType));
    ReqSizeIsLength(q);
  }

  /** What a packed run still to be read adds to what has been read. */
  ghost function Remaining(b: seq<byte>, pos: nat, xs: seq<i64>): (o: Option<seq<i64>>)
    requires pos <= |b|
  {
    match ParsePacked(b[pos..]) case None => None case Some(ys) => Some(xs + ys)
  }

  lemma OneMore(b: seq<byte>, pos: nat, xs: seq<i64>, r: Number)
    requires pos < |b| && r == ReadVarint(b[pos..], 10)
    ensures r.Bad? ==> Remaining(b, pos, xs) == None
    ensures r.Got? ==> pos + r.used <= |b| &&
                       Remaining(b, pos, xs) == Remaining(b, pos + r.used, xs + [ToI64(r.value % TWO64)])
  {
    if r.Got? {
      assert b[pos..][r.used..] == b[pos + r.used..];
      var rest := ParsePacked(b[pos + r.used..]);
      if rest.Some? {
        var x := ToI64(r.value % TWO64);
        assert xs + ([x] + rest.value) == xs + [x] + rest.value;
      }
    }
  }

  method ReadPacked(b: seq<byte>) returns (ok: bool, xs: seq<i64>)
    ensures ok <==> ParsePacked(b).Some?
    ensures ok ==> xs == ParsePacked(b).value
  {
    var pos := 0;
    xs := [];
    assert b[0..] == b;
    assert Remaining(b, 0, []) == ParsePacked(b) by {
      assert ParsePacked(b).Some? ==> [] + ParsePacked(b).value == ParsePacked(b).value;
    }
    while pos < |b|
      invariant pos <= |b| && Remaining(b, pos, xs) == ParsePacked(b)
      decreases |b| - pos
    {
      var r := ReadVarintAt(b, pos, 10);
      OneMore(b, pos, xs, r);
      if r.Bad? { return false, xs; }
      pos, xs := pos + r.used, xs + [ToI64(r.value % TWO64)];
    }
    assert b[|b|..] == [] && xs + [] == xs;
    ok := true;
  }

  class ReadReqMsg {
    var postIds: seq<i64>
    var rpcType: u32
    var hasRpcType: bool
    var unknown: seq<byte>
    var packedCached: nat
    var cached: nat

    constructor ()
      ensures Value() == NO_REQ
    {
      postIds, rpcType, hasRpcType, unknown, packedCached, cached := [], 0, false, [], 0, 0;
    }

    ghost function Value(): (q: ReadReq)
      reads this
    {
      ReadReq(postIds, if hasRpcType then Some(rpcType) else None, unknown)
    }

    method ByteSize() returns (total: nat)
      modifies this`cached, this`packedCached
      ensures total == cached == ReqSize(Value()) && packedCached == PackedSize(postIds)
    {
      var data := 0;
      for i := 0 to |postIds|
        invariant data == PackedSize(postIds[..i])
      {
        assert postIds[..i + 1] == postIds[..i] + [postIds[i]];
        PackedSnoc(postIds[..i], postIds[i]);
        data := data + VarintSize(ToU64(postIds[i]));
      }
      assert postIds[..|postIds|] == postIds;
      total := 0;
      if data > 0 { total := 1 + VarintSize(data); }
      packedCached := data;
      total := total + data;
      if hasRpcType { total := total + 1 + VarintSize(rpcType); }
      total := total + |unknown|;
      cached := total;
    }

    method WritePacked(target: array<byte>, at: nat) returns (next: nat)
      requires at + PackedSize(postIds) <= target.Length
      modifies target
      ensures next == at + |Packed(postIds)| && Wrote(old(target[..]), target[..], at, Packed(postIds))
    {
      next := at;
      ghost var s0 := target[..];
      WroteNothing(s0, at);
      for i := 0 to |postIds|
        invariant next == at + |Packed(postIds[..i])|
        invariant Wrote(s0, target[..], at, Packed(postIds[..i]))
      {
        PackedStep(postIds, i);
        ghost var s1 := target[..];
        next := WriteVarint(ToU64(postIds[i]), target, next);
        WroteThen(s0, s1, target[..], at, Packed(postIds[..i]), Varint(ToU64(postIds[i])));
      }
      assert postIds[..|postIds|] == postIds;
    }

    /** The tag, the cached length and the numbers of a run that is not empty. */
    method WriteRun(target: array<byte>, at: nat, ghost head: seq<byte>)
      returns (next: nat)
      requires packedCached == PackedSize(postIds) && head == Header(1, packedCached) && |head| == 1 + VarintSize(packedCached)
      requires at + |head| + packedCached <= target.Length
      modifies target
      ensures next == at + |head| + |Packed(postIds)|
      ensures Wrote(old(target[..]), target[..], at, head + Packed(postIds))
    {
      ghost var s0 := target[..];
      next := WriteHeader(1, packedCached, target, at, head);
      ghost var s1 := target[..];
      next := WritePacked(target, next);
      WroteThen(s0, s1, target[..], at, head, Packed(postIds));
    }

    /** Tag, cached length and numbers, which is `d`; nothing when the cached length is zero. */
    method WritePostIds(target: array<byte>, at: nat, ghost d: seq<byte>) returns (next: nat)
      requires packedCached == PackedSize(postIds) && d == EncodeAll(PackedRecs(postIds)) && at + |d| <= target.Length
      modifies target
      ensures next == at + |d| && Wrote(old(target[..]), target[..], at, d)
    {
      ghost var head := RunInParts(postIds);
      if packedCached == 0 {
        WroteNothing(target[..], at);
        return at;
      }
      next := WriteRun(target, at, head);
    }

    method WriteRpcType(target: array<byte>, at: nat, ghost d: seq<byte>) returns (next: nat)
      requires d == EncodeAll(UintRecs(2, Value().rpcType)) && at + |d| <= target.Length
      modifies target
      ensures next == at + |d| && Wrote(old(target[..]), target[..], at, d)
    {
      if hasRpcType {
        OneRecSize(Num(2, rpcType));
        RecSize(Num(2, rpcType));
        next := WriteNumber(2, rpcType, target, at);
      } else {
        next := at;
        WroteNothing(target[..], at);
      }
    }

    /** The known fields, one after the other. */
    method WriteKnown(target: array<byte>, at: nat, ghost ids: seq<byte>, ghost kind: seq<byte>) returns (next: nat)
      requires packedCached == PackedSize(postIds) && at + |ids| + |kind| <= target.Length
      requires ids == EncodeAll(PackedRecs(postIds)) && kind == EncodeAll(UintRecs(2, Value().rpcType))
      modifies target
      ensures next == at + |ids| + |kind| && Wrote(old(target[..]), target[..], at, ids + kind)
    {
      ghost var s0 := target[..];
      next := WritePostIds(target, at, ids);
      ghost var s1 := target[..];
      next := WriteRpcType(target, next, kind);
      WroteThen(s0, s1, target[..], at, ids, kind);
    }

    method WriteParts(target: array<byte>, at: nat, ghost ids: seq<byte>, ghost kind: seq<byte>) returns (next: nat)
      requires packedCached == PackedSize(postIds) && at + |ids| + |kind| + |unknown| <= target.Length
      requires ids == EncodeAll(PackedRecs(postIds)) && kind == EncodeAll(UintRecs(2, Value().rpcType))
      modifies target
      ensures next == at + |ids| + |kind| + |unknown|
      ensures Wrote(old(target[..]), target[..], at, ids + kind + unknown)
    {
      ghost var s0 := target[..];
      next := WriteKnown(target, at, ids, kind);
      ghost var s1 := target[..];
      next := WriteBytes(unknown, target, next);
      WroteThen(s0, s1, target[..], at, ids + kind, unknown);
    }

    /** The length prefix is the cached size, so the sizes must have been computed since the last change. */
    method Serialize(target: array<byte>, at: nat) returns (next: nat)
      requires packedCached == PackedSize(postIds) && at + ReqSize(Value()) <= target.Length
      modifies target
      ensures next == at + |EncodeReq(Value())|
      ensures Wrote(old(target[..]), target[..], at, EncodeReq(Value()))
    {
      ghost var ids, kind := RequestInParts(Value());
      next := WriteParts(target, at, ids, kind);
    }

    ghost function Current(seenType: bool): (q: ReadReq)
      reads this
    {
      Value().(rpcType := if hasRpcType || seenType then Some(rpcType) else None)
    }

    method Take(r: Rec, seenType: bool) returns (ok: bool, seen: bool)
      modifies this`postIds, this`rpcType, this`unknown
      ensures ok <==> old(ApplyReq(Current(seenType), r)).Some?
      ensures ok ==> Current(seen) == old(ApplyReq(Current(seenType), r)).value
    {
      ok, seen := true, seenType;
      if r.Blob? && r.field == 1 {
        var xs;
        ok, xs := ReadPacked(r.payload);
        if ok { postIds := postIds + xs; }
      } else if r.Num? && r.field == 1 {
        postIds := postIds + [ToI64(r.value)];
      } else if r.Num? && r.field == 2 {
        rpcType, seen := r.value % TWO32, true;
      } else {
        unknown := unknown + EncodeRec(r);
      }
    }

    method ParseFrom(b: seq<byte>) returns (ok: bool)
      modifies this
      ensures ok <==> ParseReq(b, old(Value())).Some?
      ensures ok ==> Value() == ParseReq(b, old(Value())).value
    {
      var pos, seenType := 0, false;
      ghost var start, t := Value(), Trail([0], [Value()]);
      while pos < |b|
        invariant OnTrail(ApplyReq, b, start, t, pos, Current(seenType))
        decreases |b| - pos
      {
        ghost var m := Current(seenType);
        var r := ReadRecord(b, pos);
        if r.Malformed? { Stuck(ApplyReq, b, start, t, pos, m, r); return false; }
        ok, seenType := Take(r.rec, seenType);
        if !ok { Stuck(ApplyReq, b, start, t, pos, m, r); return false; }
        Onward(ApplyReq, b, start, t, pos, m, r, Current(seenType));
        pos := pos + r.used;
        t := Longer(t, pos, Current(seenType));
      }
      hasRpcType := hasRpcType || seenType;
      Arrived(ApplyReq, b, start, t, Value());
      ok := true;
    }

    method MergeFrom(other: ReadReqMsg)
      modifies this
      ensures Value() == MergeReq(old(Value()), old(other.Value()))
    {
      postIds := postIds + other.postIds;
      if other.hasRpcType { rpcType, hasRpcType := other.rpcType, true; }
      unknown := unknown + other.unknown;
    }
  }
}
