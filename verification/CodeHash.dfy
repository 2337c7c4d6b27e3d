/** The hash of published code, 64-bit FNV-1a, and why it notices a damaged byte. */
module CodeHash {
  import opened Common

  /** Bitwise exclusive or, from the lowest bit up. */
  function XorNat(a: nat, b: nat): (r: nat)
    decreases a + b
  {
    if a == 0 && b == 0 then 0 else (if a % 2 == b % 2 then 0 else 1) + 2 * XorNat(a / 2, b / 2)
  }

  function Mix(h: u64, b: byte): (r: u64) { XorNat(h, b) * 1099511628211 % TWO64 }

  function Hash(code: seq<byte>): (h: u64) {
    if code == [] then 14695981039346656037 else Mix(Hash(code[..|code| - 1]), code[|code| - 1])
  }

  method HashOf(code: seq<byte>) returns (h: u64)
    ensures h == Hash(code)
  {
    h := 14695981039346656037;
    for i := 0 to |code|
      invariant h == Hash(code[..i])
    {
      assert code[..i + 1][..i] == code[..i];
      h := Mix(h, code[i]);
    }
    assert code[..|code|] == code;
  }

  // ---- each step can be undone ----

  lemma {:induction false} XorKeepsApart(g: nat, h: nat, b: nat)
    requires XorNat(g, b) == XorNat(h, b)
    ensures g == h
    decreases g + h + b
  {
    if g + h + b > 0 {
      XorOdd(g, b);
      XorOdd(h, b);
      XorKeepsApart(g / 2, h / 2, b / 2);
    }
  }

  lemma XorOdd(a: nat, b: nat)
    ensures XorNat(a, b) % 2 == (if a % 2 == b % 2 then 0 else 1) && XorNat(a, b) / 2 == XorNat(a / 2, b / 2)
  {
  }

  lemma {:induction false} XorCommutes(a: nat, b: nat)
    ensures XorNat(a, b) == XorNat(b, a)
    decreases a + b
  {
    if a + b > 0 { XorCommutes(a / 2, b / 2); }
  }

  lemma XorTellsApart(h: nat, b: nat, d: nat)
    requires XorNat(h, b) == XorNat(h, d)
    ensures b == d
  {
    XorCommutes(h, b);
    XorCommutes(h, d);
    XorKeepsApart(b, d, h);
  }

  /** The multiplier is odd: 1099511628211 times 14886173955864302971 leaves 1 modulo 2^64. */
  lemma ProductsDiffer(g: u64, h: u64)
    requires g * 1099511628211 % TWO64 == h * 1099511628211 % TWO64
    ensures g == h
  {
    var p, q := g * 1099511628211 / TWO64, h * 1099511628211 / TWO64;
    assert (g - h) * 1099511628211 == (p - q) * TWO64;
    var t := (p - q) * 14886173955864302971 - (g - h) * 887285111055;
    assert g - h == t * TWO64;
  }

  lemma {:induction false} XorZero(a: nat)
    ensures XorNat(a, 0) == a
  {
    if a > 0 { XorZero(a / 2); }
  }

  lemma XorSixteenth(a: nat, b: nat)
    ensures XorNat(a, b) / 16 == XorNat(a / 16, b / 16)
  {
    XorOdd(a, b);
    XorOdd(a / 2, b / 2);
    XorOdd(a / 4, b / 4);
    XorOdd(a / 8, b / 8);
    assert a / 2 / 2 == a / 4 && a / 4 / 2 == a / 8 && a / 8 / 2 == a / 16;
    assert b / 2 / 2 == b / 4 && b / 4 / 2 == b / 8 && b / 8 / 2 == b / 16;
  }

  lemma SixteenthTwice(a: nat)
    ensures a / 16 / 16 == a / 256
  {
  }

  lemma XorLowByte(h: nat, b: byte)
    ensures XorNat(h, b) / 256 == h / 256
  {
    XorSixteenth(h, b);
    XorSixteenth(h / 16, b / 16);
    SixteenthTwice(h);
    SixteenthTwice(XorNat(h, b));
    XorZero(h / 256);
  }

  /** A byte touches the lowest byte only, so a word stays a word. */
  lemma XorStaysWord(h: u64, b: byte)
    ensures XorNat(h, b) < TWO64
  {
    XorLowByte(h, b);
  }

  lemma MixKeepsApart(g: u64, h: u64, b: byte)
    requires Mix(g, b) == Mix(h, b)
    ensures g == h
  {
    XorStaysWord(g, b);
    XorStaysWord(h, b);
    ProductsDiffer(XorNat(g, b), XorNat(h, b));
    XorKeepsApart(g, h, b);
  }

  lemma MixTellsBytesApart(h: u64, b: byte, d: byte)
    requires Mix(h, b) == Mix(h, d)
    ensures b == d
  {
    XorStaysWord(h, b);
    XorStaysWord(h, d);
    ProductsDiffer(XorNat(h, b), XorNat(h, d));
    XorTellsApart(h, b, d);
  }

  /** Code with one byte changed never has the same hash. */
  lemma {:induction false} OneByteChangesHash(code: seq<byte>, i: nat, b: byte)
    requires i < |code| && b != code[i]
    ensures Hash(code[i := b]) != Hash(code)
    decreases |code|
  {
    var n, other := |code| - 1, code[i := b];
    if i == n {
      assert other[..n] == code[..n];
      if Hash(other) == Hash(code) {
        MixTellsBytesApart(Hash(code[..n]), b, code[n]);
        assert false;
      }
    } else {
      assert other[..n] == code[..n][i := b] && other[n] == code[n];
      OneByteChangesHash(code[..n], i, b);
      if Hash(other) == Hash(code) {
        MixKeepsApart(Hash(other[..n]), Hash(code[..n]), code[n]);
        assert false;
      }
    }
  }
}
