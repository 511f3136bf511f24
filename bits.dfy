/**
 * Powers of two and bit counts, used to state that every entry of a
 * flag table written as `1 << k` is a single bit.
 */
module Bits {

  /**
   * 2 to the power k. For shift counts below 31 this is the value of
   * JavaScript's 32-bit `1 << k`; the flag tables shift by at most 15.
   */
  function Pow2(k: nat): (r: nat)
    ensures r >= 1
    ensures k > 0 ==> r % 2 == 0
  {
    if k == 0 then 1 else 2 * Pow2(k - 1)
  }

  /** The number of one bits in the binary representation of n. */
  function PopCount(n: nat): nat
  {
    if n == 0 then 0 else n % 2 + PopCount(n / 2)
  }

  /** `1 << k` has exactly one bit set. */
  lemma {:induction false} Pow2HasOneBit(k: nat)
    ensures PopCount(Pow2(k)) == 1
  {
    if k > 0 {
      Pow2HasOneBit(k - 1);
      assert Pow2(k) / 2 == Pow2(k - 1);
    }
  }

  /** Distinct shift counts give distinct values. */
  lemma {:induction false} Pow2Injective(a: nat, b: nat)
    ensures Pow2(a) == Pow2(b) <==> a == b
  {
    if a > 0 && b > 0 {
      Pow2Injective(a - 1, b - 1);
    } else if a > 0 {
      assert Pow2(a) == 2 * Pow2(a - 1) >= 2;
    } else if b > 0 {
      assert Pow2(b) == 2 * Pow2(b - 1) >= 2;
    }
  }
}
