/** Structural validity of UTF-8, section 4 of RFC 3629. */
module Utf8 {
  import opened Common

  predicate Tail(b: byte) { 0x80 <= b <= 0xbf }

  predicate Second(lead: byte, b: byte) {
    if lead == 0xe0 then 0xa0 <= b <= 0xbf
    else if lead == 0xed then 0x80 <= b <= 0x9f
    else if lead == 0xf0 then 0x90 <= b <= 0xbf
    else if lead == 0xf4 then 0x80 <= b <= 0x8f
    else Tail(b)
  }

  predicate ValidUtf8(s: seq<byte>)
    decreases |s|
  {
    if s == [] then true
    else if s[0] <= 0x7f then ValidUtf8(s[1..])
    else if 0xc2 <= s[0] <= 0xdf then |s| >= 2 && Tail(s[1]) && ValidUtf8(s[2..])
    else if 0xe0 <= s[0] <= 0xef then |s| >= 3 && Second(s[0], s[1]) && Tail(s[2]) && ValidUtf8(s[3..])
    else if 0xf0 <= s[0] <= 0xf4 then
      |s| >= 4 && Second(s[0], s[1]) && Tail(s[2]) && Tail(s[3]) && ValidUtf8(s[4..])
    else false
  }

  // ---- what validity means ----

  /** A Unicode scalar value: a code point that is not a surrogate. */
  type Scalar = c: int | 0 <= c < 0x11_0000 && !(0xd800 <= c < 0xe000)

  /** Its encoding, section 3 of RFC 3629: the bits of the code point from the lowest up, six to a trailing byte. */
  function EncodeScalar(c: Scalar): (s: seq<byte>)
    ensures 0 < |s| <= 4
  {
    if c < 0x80 then [c]
    else if c < 0x800 then [0xc0 + c / 0x40, 0x80 + c % 0x40]
    else if c < 0x1_0000 then [0xe0 + c / 0x1000, 0x80 + c / 0x40 % 0x40, 0x80 + c % 0x40]
    else [0xf0 + c / 0x4_0000, 0x80 + c / 0x1000 % 0x40, 0x80 + c / 0x40 % 0x40, 0x80 + c % 0x40]
  }

  function EncodeText(cs: seq<Scalar>): (s: seq<byte>) {
    if cs == [] then [] else EncodeScalar(cs[0]) + EncodeText(cs[1..])
  }

  /** Which second bytes the lead bytes at the edges of the ranges get. */
  lemma EdgesOfThree(c: Scalar)
    requires 0x800 <= c < 0x1_0000
    ensures c / 0x1000 == 0 ==> c / 0x40 % 0x40 >= 0x20
    ensures c / 0x1000 == 0xd ==> c / 0x40 % 0x40 < 0x20
  {
  }

  lemma EdgesOfFour(c: Scalar)
    requires 0x1_0000 <= c
    ensures c / 0x4_0000 == 0 ==> c / 0x1000 % 0x40 >= 0x10
    ensures c / 0x4_0000 == 4 ==> c / 0x1000 % 0x40 < 0x10
    ensures c / 0x4_0000 <= 4
  {
  }

  /** In front of any bytes, the encoding of a scalar value does not change whether they are valid. */
  lemma ScalarIsValid(c: Scalar, rest: seq<byte>)
    ensures ValidUtf8(EncodeScalar(c) + rest) <==> ValidUtf8(rest)
  {
    var e := EncodeScalar(c);
    assert (e + rest)[|e|..] == rest;
    if c >= 0x1_0000 { EdgesOfFour(c); } else if c >= 0x800 { EdgesOfThree(c); }
  }

  lemma {:induction false} TextIsValid(cs: seq<Scalar>)
    ensures ValidUtf8(EncodeText(cs))
  {
    if cs != [] {
      TextIsValid(cs[1..]);
      ScalarIsValid(cs[0], EncodeText(cs[1..]));
    }
  }

  /** The scalar value that valid bytes begin with. */
  lemma FirstScalar(s: seq<byte>) returns (c: Scalar)
    requires s != [] && ValidUtf8(s)
    ensures var n := |EncodeScalar(c)|; n <= |s| && s[..n] == EncodeScalar(c) && ValidUtf8(s[n..])
  {
    if s[0] <= 0x7f {
      c := s[0];
    } else if s[0] <= 0xdf {
      c := TwoBytes(s[0] - 0xc0, s[1] - 0x80);
    } else if s[0] <= 0xef {
      c := ThreeBytes(s[0] - 0xe0, s[1] - 0x80, s[2] - 0x80);
    } else {
      c := FourBytes(s[0] - 0xf0, s[1] - 0x80, s[2] - 0x80, s[3] - 0x80);
    }
  }

  lemma TwoBytes(a: nat, b: nat) returns (c: Scalar)
    requires 2 <= a < 0x20 && b < 0x40
    ensures EncodeScalar(c) == [0xc0 + a, 0x80 + b]
  {
    c := 0x40 * a + b;
  }

  lemma ThreeBytes(a: nat, b: nat, d: nat) returns (c: Scalar)
    requires a < 0x10 && b < 0x40 && d < 0x40 && (a == 0 ==> b >= 0x20) && (a == 0xd ==> b < 0x20)
    ensures EncodeScalar(c) == [0xe0 + a, 0x80 + b, 0x80 + d]
  {
    c := 0x1000 * a + 0x40 * b + d;
    assert c / 0x40 == 0x40 * a + b;
  }

  /** A number and its six-bit groups. */
  lemma SixBitGroups(c: nat, a: nat, b: nat, d: nat, e: nat)
    requires b < 0x40 && d < 0x40 && e < 0x40 && c == 0x4_0000 * a + 0x1000 * b + 0x40 * d + e
    ensures c / 0x4_0000 == a && c / 0x1000 % 0x40 == b && c / 0x40 % 0x40 == d && c % 0x40 == e
  {
    DivMod(c, 0x40, 0x1000 * a + 0x40 * b + d, e);
    DivMod(c / 0x40, 0x40, 0x40 * a + b, d);
    DivMod(c, 0x1000, 0x40 * a + b, 0x40 * d + e);
    DivMod(c / 0x1000, 0x40, a, b);
    DivMod(c, 0x4_0000, a, 0x1000 * b + 0x40 * d + e);
  }

  lemma FourBytes(a: nat, b: nat, d: nat, e: nat) returns (c: Scalar)
    requires a < 5 && b < 0x40 && d < 0x40 && e < 0x40 && (a == 0 ==> b >= 0x10) && (a == 4 ==> b < 0x10)
    ensures EncodeScalar(c) == [0xf0 + a, 0x80 + b, 0x80 + d, 0x80 + e]
  {
    c := 0x4_0000 * a + 0x1000 * b + 0x40 * d + e;
    SixBitGroups(c, a, b, d, e);
  }

  lemma TextWith(c: Scalar, cs: seq<Scalar>)
    ensures EncodeText([c] + cs) == EncodeScalar(c) + EncodeText(cs)
  {
    assert ([c] + cs)[1..] == cs;
  }

  lemma {:induction false} ValidIsText(s: seq<byte>) returns (cs: seq<Scalar>)
    requires ValidUtf8(s)
    ensures s == EncodeText(cs)
    decreases |s|
  {
    if s == [] {
      cs := [];
    } else {
      var c := FirstScalar(s);
      var n := |EncodeScalar(c)|;
      var rest := ValidIsText(s[n..]);
      cs := [c] + rest;
      TextWith(c, rest);
      assert s == s[..n] + s[n..];
    }
  }

  ghost predicate IsText(s: seq<byte>) { exists cs: seq<Scalar> :: s == EncodeText(cs) }

  /** Bytes are valid if and only if they are the encodings of some scalar values, one after the other. */
  lemma ValidUtf8Iff(s: seq<byte>)
    ensures ValidUtf8(s) <==> IsText(s)
  {
    if ValidUtf8(s) {
      var cs := ValidIsText(s);
      assert s == EncodeText(cs);
    }
    if IsText(s) {
      var cs: seq<Scalar> :| s == EncodeText(cs);
      TextIsValid(cs);
    }
  }

  /** The code point an encoding stands for. */
  function ScalarOf(e: seq<byte>): (c: int)
    requires 0 < |e| <= 4
  {
    var high: int := e[0];
    if |e| == 1 then high
    else
      var next: int := e[1];
      if |e| == 2 then (high - 0xc0) * 0x40 + (next - 0x80)
      else
        var third: int := e[2];
        if |e| == 3 then (high - 0xe0) * 0x1000 + (next - 0x80) * 0x40 + (third - 0x80)
        else
          var low: int := e[3];
          (high - 0xf0) * 0x4_0000 + (next - 0x80) * 0x1000 + (third - 0x80) * 0x40 + (low - 0x80)
  }

  function LengthOf(lead: byte): (n: nat)
    ensures 0 < n <= 4
  {
    if lead < 0xc0 then 1 else if lead < 0xe0 then 2 else if lead < 0xf0 then 3 else 4
  }

  lemma ScalarReadsBack(c: Scalar)
    ensures ScalarOf(EncodeScalar(c)) == c && LengthOf(EncodeScalar(c)[0]) == |EncodeScalar(c)|
  {
    var q, e := c / 0x40, c % 0x40;
    var p, d := q / 0x40, q % 0x40;
    SixBitGroups(c, p / 0x40, p % 0x40, d, e);
    DivMod(c, 0x1000, p, 0x40 * d + e);
  }

  /** Different texts have different encodings. */
  lemma {:induction false} TextIsUnique(cs: seq<Scalar>, ds: seq<Scalar>)
    requires EncodeText(cs) == EncodeText(ds)
    ensures cs == ds
  {
    if cs != [] && ds != [] {
      ScalarReadsBack(cs[0]);
      ScalarReadsBack(ds[0]);
      var n := |EncodeScalar(cs[0])|;
      assert EncodeText(cs)[0] == EncodeText(ds)[0];
      assert EncodeText(cs)[..n] == EncodeScalar(cs[0]) && EncodeText(ds)[..n] == EncodeScalar(ds[0]);
      assert EncodeText(cs)[n..] == EncodeText(cs[1..]) && EncodeText(ds)[n..] == EncodeText(ds[1..]);
      TextIsUnique(cs[1..], ds[1..]);
      assert cs == [cs[0]] + cs[1..] && ds == [ds[0]] + ds[1..];
    }
  }
}
