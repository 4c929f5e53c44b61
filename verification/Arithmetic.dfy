/** Powers of two and bounds, as back-off computations use them. */
module Arithmetic {

  function Min(a: int, b: int): int { if a <= b then a else b }

  function Max(a: int, b: int): int { if a >= b then a else b }

  function Pow2(n: nat): (p: nat)
    ensures p > n
  {
    if n == 0 then 1 else 2 * Pow2(n - 1)
  }

  lemma {:induction false} Pow2Grows(m: nat, n: nat)
    requires m <= n
    ensures Pow2(m) <= Pow2(n)
    decreases n
  {
    if m < n {
      Pow2Grows(m, n - 1);
    }
  }
}
