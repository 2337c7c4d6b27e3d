/** Bytes as eight bits, least significant first, and their exclusive or. */
module Bits {

  type Byte = s: seq<bool> | |s| == 8 witness [false, false, false, false, false, false, false, false]

  function Value(s: seq<bool>): (n: nat) {
    if s == [] then 0 else (if s[0] then 1 else 0) + 2 * Value(s[1..])
  }

  /** The low `k` bits of a number. */
  function BitsOf(n: nat, k: nat): (s: seq<bool>)
    ensures |s| == k
    decreases k
  {
    if k == 0 then [] else [n % 2 == 1] + BitsOf(n / 2, k - 1)
  }

  function Low(n: nat): (x: Byte) { BitsOf(n, 8) }

  function Pow2(k: nat): (p: nat)
    ensures p > 0
  {
    if k == 0 then 1 else 2 * Pow2(k - 1)
  }

  lemma {:induction false} BitsComeBack(n: nat, k: nat)
    requires n < Pow2(k)
    ensures Value(BitsOf(n, k)) == n
    decreases k
  {
    if k > 0 { BitsComeBack(n / 2, k - 1); }
  }

  lemma {:induction false} ValueFits(s: seq<bool>)
    ensures Value(s) < Pow2(|s|)
  {
    if s != [] { ValueFits(s[1..]); }
  }

  /** Only the low bits count. */
  lemma {:induction false} BitsIgnoreHigh(n: nat, high: nat, k: nat)
    ensures BitsOf(n + high * Pow2(k), k) == BitsOf(n, k)
    decreases k
  {
    if k > 0 {
      var p := Pow2(k - 1);
      assert high * Pow2(k) == 2 * (high * p);
      assert (n + 2 * (high * p)) / 2 == n / 2 + high * p;
      BitsIgnoreHigh(n / 2, high, k - 1);
    }
  }

  function Xor(a: Byte, b: Byte): (r: Byte) { seq(8, i requires 0 <= i < 8 => a[i] != b[i]) }

  /** A mask loses nothing: masked bytes are equal exactly if the bytes are. */
  lemma XorCancels(a: Byte, b: Byte, mask: Byte)
    ensures Xor(a, mask) == Xor(b, mask) <==> a == b
  {
    if Xor(a, mask) == Xor(b, mask) {
      forall i | 0 <= i < 8 ensures a[i] == b[i] {
        assert Xor(a, mask)[i] == Xor(b, mask)[i];
      }
    }
  }
}
