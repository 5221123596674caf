/**
 * Go's `int` on a 64-bit platform: a signed 64-bit integer whose arithmetic wraps
 * around modulo 2^64, and whose `/` truncates toward zero.
 */
module GoInt {

  const MinInt64: int := -0x8000_0000_0000_0000
  const MaxInt64: int := 0x7fff_ffff_ffff_ffff

  newtype int64 = x: int | -0x8000_0000_0000_0000 <= x < 0x8000_0000_0000_0000

  /** The int64 that Go's wrapping arithmetic produces for the mathematical value `x`. */
  function Wrap(x: int): (r: int64)
    ensures MinInt64 <= x <= MaxInt64 ==> r as int == x
    ensures (x - r as int) % 0x1_0000_0000_0000_0000 == 0
  {
    ((x + 0x8000_0000_0000_0000) % 0x1_0000_0000_0000_0000 - 0x8000_0000_0000_0000) as int64
  }

  /** Go's `a / b` for a positive divisor: the quotient rounded toward zero. */
  function Quo(a: int64, b: int64): (q: int64)
    requires b > 0
    ensures 0 <= a ==> 0 <= a as int - q as int * b as int < b as int
    ensures a < 0 ==> -(b as int) < a as int - q as int * b as int <= 0
  {
    if a >= 0 then
      QuoBound(a as int, b as int);
      (a as int / b as int) as int64
    else
      QuoBound(-(a as int), b as int);
      (-((-(a as int)) / b as int)) as int64
  }

  lemma QuoBound(n: nat, d: int)
    requires d > 0
    ensures 0 <= n / d <= n
    ensures 0 <= n - (n / d) * d < d
  {
    var q, r := n / d, n % d;
    assert n == q * d + r && 0 <= r < d;
    ProductSign(-q - 1, d);
    ProductSign(q, d - 1);
  }

  lemma ProductSign(x: int, y: int)
    ensures x >= 0 && y >= 0 ==> x * y >= 0
  {
  }
}
