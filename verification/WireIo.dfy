/** The loops that move varints and strings in and out of a buffer. */
module WireIo {
  import opened Common
  import opened Wire

  /** `after` is `before` with `data` written at position `at`. */
  ghost predicate Wrote(before: seq<byte>, after: seq<byte>, at: nat, data: seq<byte>) {
    && at + |data| <= |before| && |after| == |before|
    && (forall i :: 0 <= i < at ==> after[i] == before[i])
    && (forall i :: at <= i < at + |data| ==> after[i] == data[i - at])
    && (forall i :: at + |data| <= i < |before| ==> after[i] == before[i])
  }

  lemma WroteThen(a: seq<byte>, b: seq<byte>, c: seq<byte>, at: nat, x: seq<byte>, y: seq<byte>)
    requires Wrote(a, b, at, x) && Wrote(b, c, at + |x|, y)
    ensures Wrote(a, c, at, x + y)
  {
  }

  lemma WroteNothing(a: seq<byte>, at: nat)
    requires at <= |a|
    ensures Wrote(a, a, at, [])
  {
  }

  method WriteVarint(v: nat, target: array<byte>, at: nat) returns (next: nat)
    requires at + VarintSize(v) <= target.Length
    modifies target
    ensures next == at + |Varint(v)| && Wrote(old(target[..]), target[..], at, Varint(v))
  {
    VarintLength(v);
    var rest := v;
    next := at;
    ghost var done: seq<byte> := [];
    WroteNothing(target[..], at);
    while rest >= 128
      invariant done + Varint(rest) == Varint(v) && next == at + |done|
      invariant VarintSize(rest) == VarintSize(v) - |done|
      invariant Wrote(old(target[..]), target[..], at, done)
    {
      ghost var before, low: byte := target[..], 128 + rest % 128;
      target[next] := 128 + rest % 128;
      assert Wrote(before, target[..], next, [low]);
      WroteThen(old(target[..]), before, target[..], at, done, [low]);
      assert Varint(rest) == [low] + Varint(rest / 128);
      done, rest, next := done + [low], rest / 128, next + 1;
    }
    ghost var before := target[..];
    target[next] := rest;
    assert Wrote(before, target[..], next, [rest]);
    WroteThen(old(target[..]), before, target[..], at, done, [rest]);
    next := next + 1;
  }

  method WriteBytes(p: seq<byte>, target: array<byte>, at: nat) returns (next: nat)
    requires at + |p| <= target.Length
    modifies target
    ensures next == at + |p| && Wrote(old(target[..]), target[..], at, p)
  {
    for i := 0 to |p|
      invariant Wrote(old(target[..]), target[..], at, p[..i])
    {
      target[at + i] := p[i];
    }
    assert p[..|p|] == p;
    next := at + |p|;
  }

  /** `x` shifted left by `7 * i` bits. */
  function Shift7(x: nat, i: nat): (r: nat)
    decreases i
  {
    if i == 0 then x else Shift7(128 * x, i - 1)
  }

  lemma {:induction false} Shift7Adds(x: nat, y: nat, i: nat)
    ensures Shift7(x + y, i) == Shift7(x, i) + Shift7(y, i)
    decreases i
  {
    if i > 0 { Shift7Adds(128 * x, 128 * y, i - 1); }
  }

  /** A number whose lower `i` bytes have been read as `value`. */
  ghost function Shifted(r: Number, value: nat, i: nat): (s: Number) {
    if r.Bad? then Bad else Got(value + Shift7(r.value, i), i + r.used)
  }

  lemma NextByte(r: Number, value: nat, low: nat, i: nat)
    ensures Shifted(if r.Bad? then Bad else Got(low + 128 * r.value, r.used + 1), value, i)
         == Shifted(r, value + Shift7(low, i), i + 1)
  {
    if r.Got? { Shift7Adds(low, 128 * r.value, i); }
  }

  /** Reads a varint of at most `max` bytes at `at`, low bits first. */
  method ReadVarintAt(b: seq<byte>, at: nat, max: nat) returns (r: Number)
    requires at <= |b|
    ensures r == ReadVarint(b[at..], max)
  {
    var value: nat, i: nat := 0, 0;
    while at + i < |b| && i < max && b[at + i] >= 128
      invariant at + i <= |b| && i <= max
      invariant ReadVarint(b[at..], max) == Shifted(ReadVarint(b[at + i..], max - i), value, i)
    {
      var low: nat := b[at + i] - 128;
      assert b[at + i..][1..] == b[at + i + 1..];
      NextByte(ReadVarint(b[at + i + 1..], max - i - 1), value, low, i);
      value, i := value + Shift7(low, i), i + 1;
    }
    if at + i == |b| || i == max { return Bad; }
    return Got(value + Shift7(b[at + i], i), i + 1);
  }

  /** The value of a length-delimited field: a length, then that many bytes. */
  method ReadBlobAt(b: seq<byte>, at: nat, tag: nat, used: nat) returns (r: Read)
    requires at + used <= |b| && 0 < used && tag % 8 == 2 && tag / 8 != 0
    ensures r == ReadValue(tag, b[at..], used)
  {
    var pos := at + used;
    assert b[pos..] == b[at..][used..];
    var n := ReadVarintAt(b, pos, 5);
    if n.Bad? || n.value > MAX_LENGTH || pos + n.used + n.value > |b| { return Malformed; }
    var from := pos + n.used;
    assert b[from..from + n.value] == b[at..][used + n.used..used + n.used + n.value];
    return Record(Blob(tag / 8, b[from..from + n.value]), used + n.used + n.value);
  }

  method ReadNumberAt(b: seq<byte>, at: nat, tag: nat, used: nat) returns (r: Read)
    requires at + used <= |b| && 0 < used && tag % 8 == 0 && tag / 8 != 0
    ensures r == ReadValue(tag, b[at..], used)
  {
    assert b[at + used..] == b[at..][used..];
    var v := ReadVarintAt(b, at + used, 10);
    if v.Bad? { return Malformed; }
    return Record(Num(tag / 8, v.value % TWO64), used + v.used);
  }

  method ReadFixedAt(b: seq<byte>, at: nat, tag: nat, used: nat) returns (r: Read)
    requires at + used <= |b| && 0 < used && (tag % 8 == 1 || tag % 8 == 5) && tag / 8 != 0
    ensures r == ReadValue(tag, b[at..], used)
  {
    var pos, width := at + used, if tag % 8 == 1 then 8 else 4;
    if pos + width > |b| { return Malformed; }
    assert b[pos..pos + width] == b[at..][used..used + width];
    return Record(Fixed(tag / 8, b[pos..pos + width]), used + width);
  }

  /** Reads one record at `at`: the tag, then the value its wire type says. */
  method ReadRecord(b: seq<byte>, at: nat) returns (r: Read)
    requires at <= |b|
    ensures r == ReadRec(b[at..])
  {
    var t := ReadVarintAt(b, at, 5);
    if t.Bad? { return Malformed; }
    var tag := t.value % TWO32;
    if tag / 8 == 0 { return Malformed; }
    if tag % 8 == 0 {
      r := ReadNumberAt(b, at, tag, t.used);
    } else if tag % 8 == 2 {
      r := ReadBlobAt(b, at, tag, t.used);
    } else if tag % 8 == 1 || tag % 8 == 5 {
      r := ReadFixedAt(b, at, tag, t.used);
    } else {
      r := Malformed;
    }
  }

  /** Tag byte, length and bytes of a length-delimited field. */
  method WriteBlob(f: nat, p: seq<byte>, target: array<byte>, at: nat) returns (next: nat)
    requires 0 < f < 16 && at + 1 + VarintSize(|p|) + |p| <= target.Length
    modifies target
    ensures next == at + |EncodeRec(Blob(f, p))|
    ensures Wrote(old(target[..]), target[..], at, EncodeRec(Blob(f, p)))
  {
    ghost var s0 := target[..];
    next := WriteVarint(8 * f + 2, target, at);
    ghost var s1 := target[..];
    VarintLength(|p|);
    next := WriteVarint(|p|, target, next);
    ghost var s2 := target[..];
    WroteThen(s0, s1, s2, at, Varint(8 * f + 2), Varint(|p|));
    next := WriteBytes(p, target, next);
    WroteThen(s0, s2, target[..], at, Varint(8 * f + 2) + Varint(|p|), p);
  }

  method WriteNumber(f: nat, v: u64, target: array<byte>, at: nat) returns (next: nat)
    requires 0 < f < 16 && at + 1 + VarintSize(v) <= target.Length
    modifies target
    ensures next == at + |EncodeRec(Num(f, v))|
    ensures Wrote(old(target[..]), target[..], at, EncodeRec(Num(f, v)))
  {
    ghost var s0 := target[..];
    next := WriteVarint(8 * f, target, at);
    ghost var s1 := target[..];
    next := WriteVarint(v, target, next);
    WroteThen(s0, s1, target[..], at, Varint(8 * f), Varint(v));
  }

  // ---- writing chunk after chunk ----

  /** The first `i` chunks. */
  ghost function Flat(chunks: seq<seq<byte>>, i: nat): (b: seq<byte>)
    requires i <= |chunks|
  {
    if i == 0 then [] else Flat(chunks, i - 1) + chunks[i - 1]
  }

  lemma {:induction false} FlatGrows(chunks: seq<seq<byte>>, i: nat, j: nat)
    requires i <= j <= |chunks|
    ensures |Flat(chunks, i)| <= |Flat(chunks, j)|
    decreases j
  {
    if i < j { FlatGrows(chunks, i, j - 1); }
  }

  /** The first `i` chunks are in the buffer, and there is room for all. */
  ghost predicate Stage(s0: seq<byte>, s: seq<byte>, at: nat, chunks: seq<seq<byte>>, i: nat, next: nat) {
    && i <= |chunks| && next == at + |Flat(chunks, i)| && Wrote(s0, s, at, Flat(chunks, i))
    && at + |Flat(chunks, |chunks|)| <= |s|
  }

  lemma StageRoom(s0: seq<byte>, s: seq<byte>, at: nat, chunks: seq<seq<byte>>, i: nat, next: nat)
    requires Stage(s0, s, at, chunks, i, next) && i < |chunks|
    ensures next + |chunks[i]| <= |s|
  {
    FlatGrows(chunks, i + 1, |chunks|);
  }

  lemma StageNext(s0: seq<byte>, s1: seq<byte>, s2: seq<byte>, at: nat, chunks: seq<seq<byte>>, i: nat, pos: nat)
    requires Stage(s0, s1, at, chunks, i, pos) && i < |chunks| && Wrote(s1, s2, pos, chunks[i])
    ensures Stage(s0, s2, at, chunks, i + 1, pos + |chunks[i]|)
  {
    WroteThen(s0, s1, s2, at, Flat(chunks, i), chunks[i]);
  }

  /** What is left of the chunks, last to first. */
  ghost function Rest(chunks: seq<seq<byte>>, i: nat): (b: seq<byte>)
    requires i <= |chunks|
    decreases |chunks| - i
  {
    if i == |chunks| then [] else chunks[i] + Rest(chunks, i + 1)
  }

  lemma {:induction false} FlatAndRest(chunks: seq<seq<byte>>, i: nat)
    requires i <= |chunks|
    ensures Flat(chunks, i) + Rest(chunks, i) == Rest(chunks, 0)
  {
    if i > 0 {
      FlatAndRest(chunks, i - 1);
      assert Flat(chunks, i - 1) + (chunks[i - 1] + Rest(chunks, i)) == Flat(chunks, i - 1) + chunks[i - 1] + Rest(chunks, i);
    }
  }
}
