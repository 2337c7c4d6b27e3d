/**
  The protobuf wire format as the generated code uses it: base-128 varints, tags and the record shapes
  (varint, length-delimited, and the fixed-width ones that only unknown fields have).  Sections "Base 128 Varints" and "Message Structure" of the
  Protocol Buffers Encoding specification.
*/
module Wire {
  import opened Common

  type i64 = x: int | -0x8000_0000_0000_0000 <= x < 0x8000_0000_0000_0000
  type u32 = x: int | 0 <= x < 0x1_0000_0000
  type i32 = x: int | -0x8000_0000 <= x < 0x8000_0000

  const TWO32: nat := 0x1_0000_0000

  /** Largest length the parser accepts: INT_MAX less the 16 bytes it may read ahead. */
  const MAX_LENGTH: nat := 0x7fff_ffef

  // ---- two's complement ----

  function ToU64(x: i64): (v: u64) { if x < 0 then x + TWO64 else x }

  function ToI64(v: u64): (x: i64)
    ensures ToU64(x) == v
  {
    if v < 0x8000_0000_0000_0000 then v else v - TWO64
  }

  /** An enum or int32 is sign-extended to 64 bits on the wire and truncated when read. */
  function ExtendI32(x: i32): (v: u64) { if x < 0 then x + TWO64 else x }

  function TruncateI32(v: u64): (x: i32) {
    var low := v % TWO32;
    if low < 0x8000_0000 then low else low - TWO32
  }

  /** Two's complement: a number and its 64-bit word differ by a multiple of 2^64, for enums as for int64. */
  lemma SignedIsTwosComplement(x: i64, y: i32)
    ensures (ToU64(x) - x) % TWO64 == 0 && ExtendI32(y) == ToU64(y)
  {
  }

  lemma I64RoundTrip(x: i64)
    ensures ToI64(ToU64(x)) == x
  {
  }

  lemma I32RoundTrip(x: i32)
    ensures TruncateI32(ExtendI32(x)) == x
  {
    if x < 0 {
      assert x + TWO64 == 0xffff_ffff * TWO32 + (x + TWO32);
      assert (x + TWO64) % TWO32 == x + TWO32;
    }
  }

  // ---- varints ----

  function Varint(v: nat): (b: seq<byte>)
    ensures |b| > 0
  {
    if v < 128 then [v] else [128 + v % 128] + Varint(v / 128)
  }

  function VarintSize(v: nat): (n: nat)
    ensures n > 0
  {
    if v < 128 then 1 else 1 + VarintSize(v / 128)
  }

  datatype Number = Bad | Got(value: nat, used: nat)

  /** Reads at most `max` bytes; higher bits than the caller keeps are dropped by the caller. */
  function ReadVarint(b: seq<byte>, max: nat): (r: Number)
    ensures r.Got? ==> 0 < r.used <= |b| && r.used <= max
  {
    if b == [] || max == 0 then Bad
    else if b[0] < 128 then Got(b[0], 1)
    else
      match ReadVarint(b[1..], max - 1)
      case Bad => Bad
      case Got(v, n) => Got(b[0] - 128 + 128 * v, n + 1)
  }

  lemma {:induction false} VarintLength(v: nat)
    ensures |Varint(v)| == VarintSize(v)
  {
    if v >= 128 { VarintLength(v / 128); }
  }

  lemma {:induction false} ReadBack(v: nat, rest: seq<byte>, max: nat)
    requires VarintSize(v) <= max
    ensures ReadVarint(Varint(v) + rest, max) == Got(v, |Varint(v)|)
  {
    if v >= 128 {
      assert (Varint(v) + rest)[1..] == Varint(v / 128) + rest;
      ReadBack(v / 128, rest, max - 1);
    }
  }

  /** More input does not change a number that was already complete. */
  lemma {:induction false} ReadIsStable(b: seq<byte>, c: seq<byte>, max: nat)
    requires ReadVarint(b, max).Got?
    ensures ReadVarint(b + c, max) == ReadVarint(b, max)
  {
    if b[0] >= 128 {
      assert (b + c)[1..] == b[1..] + c;
      ReadIsStable(b[1..], c, max - 1);
    }
  }

  function Pow128(k: nat): (p: nat)
    ensures p > 0
  {
    if k == 0 then 1 else 128 * Pow128(k - 1)
  }

  lemma {:induction false} SizeBound(v: nat, k: nat)
    requires 0 < k && v < Pow128(k)
    ensures VarintSize(v) <= k
  {
    if v >= 128 {
      assert k > 1;
      SizeBound(v / 128, k - 1);
    }
  }

  lemma Size64(v: nat)
    requires v < TWO64
    ensures VarintSize(v) <= 10
  {
    assert Pow128(5) == 0x8_0000_0000;
    assert Pow128(10) == 128 * 128 * 128 * 128 * 128 * Pow128(5);
    SizeBound(v, 10);
  }

  lemma Size32(v: nat)
    requires v < TWO32
    ensures VarintSize(v) <= 5
  {
    assert Pow128(5) == 0x8_0000_0000;
    SizeBound(v, 5);
  }

  // ---- records ----

  datatype Rec = Num(field: nat, value: u64) | Blob(field: nat, payload: seq<byte>) | Fixed(field: nat, raw: seq<byte>)

  predicate RecOk(r: Rec) {
    && 0 < r.field < 0x2000_0000
    && (r.Blob? ==> |r.payload| <= MAX_LENGTH) && (r.Fixed? ==> |r.raw| == 8 || |r.raw| == 4)
  }

  /** Wire type of a fixed-width value. */
  function FixedType(n: nat): (w: nat) { if n == 8 then 1 else 5 }

  function EncodeRec(r: Rec): (b: seq<byte>)
    ensures |b| > 0
  {
    match r
    case Num(f, v) => Varint(8 * f) + Varint(v)
    case Blob(f, p) => Varint(8 * f + 2) + Varint(|p|) + p
    case Fixed(f, p) => Varint(8 * f + FixedType(|p|)) + p
  }

  datatype Read = Malformed | Record(rec: Rec, used: nat)

  /** Reads the value that belongs to a tag; field 0 and groups are not handled here. */
  function ReadValue(tag: nat, b: seq<byte>, at: nat): (r: Read)
    requires 0 < at <= |b|
    ensures r.Record? ==> at <= r.used <= |b|
  {
    if tag / 8 == 0 then Malformed
    else if tag % 8 == 0 then
      match ReadVarint(b[at..], 10)
      case Bad => Malformed
      case Got(v, n) => Record(Num(tag / 8, v % TWO64), at + n)
    else if tag % 8 == 2 then
      match ReadVarint(b[at..], 5)
      case Bad => Malformed
      case Got(len, n) =>
        if len > MAX_LENGTH || at + n + len > |b| then Malformed
        else Record(Blob(tag / 8, b[at + n..at + n + len]), at + n + len)
    else if tag % 8 == 1 then
      if at + 8 > |b| then Malformed else Record(Fixed(tag / 8, b[at..at + 8]), at + 8)
    else if tag % 8 == 5 then
      if at + 4 > |b| then Malformed else Record(Fixed(tag / 8, b[at..at + 4]), at + 4)
    else Malformed
  }

  function ReadRec(b: seq<byte>): (r: Read)
    ensures r.Record? ==> 0 < r.used <= |b|
  {
    match ReadVarint(b, 5)
    case Bad => Malformed
    case Got(t, n) => ReadValue(t % TWO32, b, n)
  }

  lemma NumRead(f: nat, v: u64, b: seq<byte>, at: nat, used: nat)
    requires f > 0 && 0 < at <= |b| && ReadVarint(b[at..], 10) == Got(v, used)
    ensures ReadValue(8 * f, b, at) == Record(Num(f, v), at + used)
  {
  }

  lemma NumBack(f: nat, v: u64, head: seq<byte>, rest: seq<byte>)
    requires |head| > 0 && f > 0
    ensures ReadValue(8 * f, head + (Varint(v) + rest), |head|) == Record(Num(f, v), |head| + |Varint(v)|)
  {
    var b := head + (Varint(v) + rest);
    assert b[|head|..] == Varint(v) + rest;
    Size64(v);
    ReadBack(v, rest, 10);
    NumRead(f, v, b, |head|, |Varint(v)|);
  }

  lemma BlobBack(f: nat, p: seq<byte>, head: seq<byte>, rest: seq<byte>)
    requires |head| > 0 && f > 0 && |p| <= MAX_LENGTH
    ensures ReadValue(8 * f + 2, head + (Varint(|p|) + (p + rest)), |head|)
         == Record(Blob(f, p), |head| + |Varint(|p|)| + |p|)
  {
    var size := Varint(|p|);
    var b := head + (size + (p + rest));
    assert b[|head|..] == size + (p + rest);
    Size32(|p|);
    ReadBack(|p|, p + rest, 5);
    assert b[|head| + |size|..|head| + |size| + |p|] == p;
  }

  lemma FixedBack(f: nat, p: seq<byte>, head: seq<byte>, rest: seq<byte>)
    requires |head| > 0 && f > 0 && (|p| == 8 || |p| == 4)
    ensures ReadValue(8 * f + FixedType(|p|), head + (p + rest), |head|) == Record(Fixed(f, p), |head| + |p|)
  {
    var b := head + (p + rest);
    assert b[|head|..|head| + |p|] == p;
  }

  lemma TagBack(tag: nat, rest: seq<byte>)
    requires tag < TWO32
    ensures ReadRec(Varint(tag) + rest) == ReadValue(tag, Varint(tag) + rest, |Varint(tag)|)
  {
    Size32(tag);
    ReadBack(tag, rest, 5);
    TagRead(tag, Varint(tag) + rest, |Varint(tag)|);
  }

  lemma TagRead(tag: nat, b: seq<byte>, used: nat)
    requires tag < TWO32 && ReadVarint(b, 5) == Got(tag, used)
    ensures 0 < used <= |b| && ReadRec(b) == ReadValue(tag, b, used)
  {
    assert tag % TWO32 == tag;
  }

  lemma NumRecBack(f: nat, v: u64, rest: seq<byte>)
    requires 0 < f < 0x2000_0000
    ensures ReadRec(EncodeRec(Num(f, v)) + rest) == Record(Num(f, v), |EncodeRec(Num(f, v))|)
  {
    var head := Varint(8 * f);
    assert EncodeRec(Num(f, v)) + rest == head + (Varint(v) + rest);
    TagBack(8 * f, Varint(v) + rest);
    NumBack(f, v, head, rest);
  }

  lemma BlobRecBack(f: nat, p: seq<byte>, rest: seq<byte>)
    requires 0 < f < 0x2000_0000 && |p| <= MAX_LENGTH
    ensures ReadRec(EncodeRec(Blob(f, p)) + rest) == Record(Blob(f, p), |EncodeRec(Blob(f, p))|)
  {
    var head := Varint(8 * f + 2);
    assert EncodeRec(Blob(f, p)) + rest == head + (Varint(|p|) + (p + rest));
    TagBack(8 * f + 2, Varint(|p|) + (p + rest));
    BlobBack(f, p, head, rest);
  }

  lemma FixedRecBack(f: nat, p: seq<byte>, rest: seq<byte>)
    requires 0 < f < 0x2000_0000 && (|p| == 8 || |p| == 4)
    ensures ReadRec(EncodeRec(Fixed(f, p)) + rest) == Record(Fixed(f, p), |EncodeRec(Fixed(f, p))|)
  {
    var head := Varint(8 * f + FixedType(|p|));
    assert EncodeRec(Fixed(f, p)) + rest == head + (p + rest);
    TagBack(8 * f + FixedType(|p|), p + rest);
    FixedBack(f, p, head, rest);
  }

  /** A record that was written is read back exactly, whatever follows it. */
  lemma RecBack(r: Rec, rest: seq<byte>)
    requires RecOk(r)
    ensures ReadRec(EncodeRec(r) + rest) == Record(r, |EncodeRec(r)|)
  {
    match r
    case Num(f, v) => NumRecBack(f, v, rest);
    case Blob(f, p) => BlobRecBack(f, p, rest);
    case Fixed(f, p) => FixedRecBack(f, p, rest);
  }

  /** What is read is fit to be written. */
  lemma ReadIsOk(b: seq<byte>)
    ensures ReadRec(b).Record? ==> RecOk(ReadRec(b).rec)
  {
  }

  lemma ValueIsStable(tag: nat, b: seq<byte>, c: seq<byte>, at: nat)
    requires 0 < at <= |b| && ReadValue(tag, b, at).Record?
    ensures ReadValue(tag, b + c, at) == ReadValue(tag, b, at)
  {
    assert (b + c)[at..] == b[at..] + c;
    if tag % 8 == 0 {
      ReadIsStable(b[at..], c, 10);
    } else if tag % 8 == 1 {
      assert (b + c)[at..at + 8] == b[at..at + 8];
    } else if tag % 8 == 5 {
      assert (b + c)[at..at + 4] == b[at..at + 4];
    } else {
      ReadIsStable(b[at..], c, 5);
      var n := ReadVarint(b[at..], 5).used;
      var len := ReadVarint(b[at..], 5).value;
      assert (b + c)[at + n..at + n + len] == b[at + n..at + n + len];
    }
  }

  /** A complete record reads the same whatever is appended. */
  lemma RecIsStable(b: seq<byte>, c: seq<byte>)
    requires ReadRec(b).Record?
    ensures ReadRec(b + c) == ReadRec(b)
  {
    ReadIsStable(b, c, 5);
    var t := ReadVarint(b, 5);
    ValueIsStable(t.value % TWO32, b, c, t.used);
  }

  // ---- messages as sequences of records ----

  function EncodeAll(rs: seq<Rec>): (b: seq<byte>) {
    if rs == [] then [] else EncodeRec(rs[0]) + EncodeAll(rs[1..])
  }

  /** Applies records in order; stops at the first one the message type does not take. */
  function Fold<M>(apply: (M, Rec) -> Option<M>, rs: seq<Rec>, m: M): (r: Option<M>) {
    if rs == [] then Some(m)
    else
      match apply(m, rs[0])
      case None => None
      case Some(m') => Fold(apply, rs[1..], m')
  }

  /** The parse loop of a message type, from the bytes. */
  function Parse<M>(apply: (M, Rec) -> Option<M>, b: seq<byte>, m: M): (r: Option<M>)
    decreases |b|
  {
    if b == [] then Some(m)
    else
      match ReadRec(b)
      case Malformed => None
      case Record(rec, n) =>
        match apply(m, rec)
        case None => None
        case Some(m') => Parse(apply, b[n..], m')
  }

  lemma {:induction false} EncodeAppend(xs: seq<Rec>, ys: seq<Rec>)
    ensures EncodeAll(xs + ys) == EncodeAll(xs) + EncodeAll(ys)
  {
    if xs == [] {
      assert xs + ys == ys;
    } else {
      assert (xs + ys)[1..] == xs[1..] + ys;
      EncodeAppend(xs[1..], ys);
    }
  }

  lemma {:induction false} FoldAppend<M>(apply: (M, Rec) -> Option<M>, xs: seq<Rec>, ys: seq<Rec>, m: M)
    ensures Fold(apply, xs + ys, m) ==
      match Fold(apply, xs, m) case None => None case Some(m') => Fold(apply, ys, m')
  {
    if xs == [] {
      assert xs + ys == ys;
    } else {
      assert (xs + ys)[1..] == xs[1..] + ys;
      match apply(m, xs[0])
      case None =>
      case Some(m') => FoldAppend(apply, xs[1..], ys, m');
    }
  }

  /** One record at the head of the input, given how it reads. */
  lemma ParseHead<M>(apply: (M, Rec) -> Option<M>, head: seq<byte>, tail: seq<byte>, r: Rec, m: M)
    requires |head| > 0 && ReadRec(head + tail) == Record(r, |head|)
    ensures Parse(apply, head + tail, m) ==
      match apply(m, r) case None => None case Some(m') => Parse(apply, tail, m')
  {
    assert (head + tail)[|head|..] == tail;
  }

  lemma ParseOne<M>(apply: (M, Rec) -> Option<M>, r: Rec, tail: seq<byte>, m: M)
    requires RecOk(r)
    ensures Parse(apply, EncodeRec(r) + tail, m) ==
      match apply(m, r) case None => None case Some(m') => Parse(apply, tail, m')
  {
    RecBack(r, tail);
    ParseHead(apply, EncodeRec(r), tail, r, m);
  }

  /** Parsing what was written is applying the records that were written, then parsing the rest. */
  lemma {:induction false} ParseEncoded<M>(apply: (M, Rec) -> Option<M>, rs: seq<Rec>, rest: seq<byte>, m: M)
    requires forall i :: 0 <= i < |rs| ==> RecOk(rs[i])
    ensures Parse(apply, EncodeAll(rs) + rest, m) ==
      match Fold(apply, rs, m) case None => None case Some(m') => Parse(apply, rest, m')
    decreases rs
  {
    if rs == [] {
      assert EncodeAll(rs) + rest == rest;
    } else {
      var tail := EncodeAll(rs[1..]) + rest;
      assert EncodeAll(rs) + rest == EncodeRec(rs[0]) + tail;
      ParseOne(apply, rs[0], tail, m);
      match apply(m, rs[0])
      case None =>
      case Some(m') => ParseEncoded(apply, rs[1..], rest, m');
    }
  }

  /** Concatenation: parsing a complete message and then more is parsing the more into that message. */
  lemma {:induction false} ParseConcat<M>(apply: (M, Rec) -> Option<M>, a: seq<byte>, b: seq<byte>, m: M)
    requires Parse(apply, a, m).Some?
    ensures Parse(apply, a + b, m) == Parse(apply, b, Parse(apply, a, m).value)
    decreases |a|
  {
    if a == [] {
      assert a + b == b;
    } else {
      var r := ReadRec(a);
      RecIsStable(a, b);
      assert (a + b)[r.used..] == a[r.used..] + b;
      ParseConcat(apply, a[r.used..], b, apply(m, r.rec).value);
    }
  }
}
