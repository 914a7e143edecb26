/** The bit operators the codec uses on non-negative numbers below 2^24.  `x >>> k`, `x << k` and
    `x & (2^k - 1)` are division, multiplication and remainder by 2^k. */
module Bits {

  function BitOr(a: nat, b: nat): nat
    decreases a + b
  {
    if a == 0 && b == 0 then 0
    else 2 * BitOr(a / 2, b / 2) + (if a % 2 == 1 || b % 2 == 1 then 1 else 0)
  }

  function Pow2(k: nat): nat { if k == 0 then 1 else 2 * Pow2(k - 1) }

  /** Putting b under the k empty low bits of a is adding it. */
  lemma {:induction false} OrIsSum(m: nat, k: nat, b: nat)
    requires b < Pow2(k)
    ensures BitOr(m * Pow2(k), b) == m * Pow2(k) + b
  {
    if k == 0 {
      OrZero(m);
    } else {
      assert m * Pow2(k) == 2 * (m * Pow2(k - 1));
      OrIsSum(m, k - 1, b / 2);
    }
  }

  lemma {:induction false} OrZero(a: nat)
    ensures BitOr(a, 0) == a
  {
    if a != 0 { OrZero(a / 2); }
  }
}
