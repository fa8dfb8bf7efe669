/** Small arithmetic helpers shared by the loader, the batcher and the publisher. */
module Prelude {

  function Min(a: int, b: int): (m: int)
    ensures m <= a && m <= b
    ensures m == a || m == b
  {
    if a <= b then a else b
  }

  /** Ceiling division: the least number of `d`-sized pieces that cover `n`.
      This is the length of `range(0, n, d)` in Python. */
  function CeilDiv(n: nat, d: nat): (q: nat)
    requires d > 0
    ensures q * d >= n
    ensures q == 0 || (q - 1) * d < n
    ensures q == 0 <==> n == 0
  {
    if n == 0 then 0 else 1 + CeilDiv(if n <= d then 0 else n - d, d)
  }
}
