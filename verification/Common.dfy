/** Vocabulary the components share: options, machine words, list removal, products and quotients, error numbers. */
module Common {
  datatype Option<+T> = None | Some(value: T)

  type byte = x: int | 0 <= x < 256
  type u64 = x: int | 0 <= x < 0x1_0000_0000_0000_0000

  const TWO64: nat := 0x1_0000_0000_0000_0000

  /** The list without its k-th element. */
  function RemoveAt<T>(s: seq<T>, k: nat): (r: seq<T>)
    requires k < |s|
    ensures |r| == |s| - 1
  {
    s[..k] + s[k + 1..]
  }

  lemma {:induction false} ProductGrows(a: int, b: int, m: nat)
    requires a <= b
    ensures a * m <= b * m
    decreases b - a
  {
    if a < b {
      ProductGrows(a, b - 1, m);
      assert b * m == (b - 1) * m + m;
    }
  }

  lemma NotAbove(p: int, q: int, m: nat, r: int, s: int)
    requires p * m + r == q * m + s && 0 <= r && s < m
    ensures p <= q
  {
    var d := if p > q then p else q + 1;
    assert (q + 1) * m == q * m + m;
    ProductGrows(q + 1, d, m);
  }

  /** Quotient and remainder are determined by the division equation. */
  lemma DivMod(e: int, m: int, q: int, r: int)
    requires 0 <= r < m && e == q * m + r
    ensures e / m == q && e % m == r
  {
    var p, s := e / m, e % m;
    assert e == p * m + s;
    NotAbove(p, q, m, s, r);
    NotAbove(q, p, m, r, s);
  }

  const EPERM: int := 1
  const ENOENT: int := 2
  const EAGAIN: int := 11
  const ENOMEM: int := 12
  const EBUSY: int := 16
  const EXDEV: int := 18
  const EINVAL: int := 22
  const ENOSPC: int := 28
  const EPIPE: int := 32
  const EPROTO: int := 71
  const EBADMSG: int := 74
  const ENOTCONN: int := 107
  const ESTALE: int := 116
  const ERESTARTSYS: int := 512
}
