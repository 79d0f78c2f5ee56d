/**
 * The two pieces of C# integer semantics the model relies on: the `>>`
 * operator on `int` (used for every level-of-detail and downsample shift)
 * and 32-bit wrap-around of `int` multiplication (used by the thread-group
 * check).
 */
module CSharp {

  /** 2^k. */
  function Pow2(k: nat): (r: nat)
    ensures r >= 1
    ensures k >= 1 ==> r >= 2
  {
    if k == 0 then 1 else 2 * Pow2(k - 1)
  }

  /**
   * C#'s `x >> n` on `int`: the shift count is taken modulo 32 (`n & 31`),
   * and the shift is arithmetic, i.e. rounds toward negative infinity,
   * which is what Dafny's `/` does for a positive divisor.
   */
  function Shr(x: int, n: int): (r: int)
    ensures x >= 0 ==> 0 <= r <= x
  {
    x / Pow2(n % 32)
  }

  /** A non-negative size survives a shift unchanged exactly when it is 0 or
      the effective shift count is 0. */
  lemma ShrFixedIff(x: int, n: int)
    requires x >= 0
    ensures Shr(x, n) == x <==> (x == 0 || n % 32 == 0)
  {
    var p := Pow2(n % 32);
    if x > 0 && n % 32 != 0 {
      var q := x / p;
      assert q >= 0 && q * p <= x;
      assert q * 2 <= q * p;
      assert q < x;
    }
  }

  const IntMin: int := -0x8000_0000
  const IntMax: int := 0x7FFF_FFFF

  predicate InInt32(v: int) { IntMin <= v <= IntMax }

  /** Two's complement wrap-around of an unbounded integer into `int`. */
  function Wrap32(v: int): (r: int)
    ensures InInt32(r)
    ensures (r - v) % 0x1_0000_0000 == 0
    ensures InInt32(v) ==> r == v
  {
    var m := v % 0x1_0000_0000;
    if m <= IntMax then m else m - 0x1_0000_0000
  }

  /** `a * b` on C# `int` in an unchecked context. */
  function MulInt(a: int, b: int): (r: int)
    requires InInt32(a) && InInt32(b)
    ensures InInt32(r)
    ensures InInt32(a * b) ==> r == a * b
  {
    Wrap32(a * b)
  }
}
