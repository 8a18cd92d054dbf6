/** Bitwise or of unsigned words, on naturals. */
module Bits {

  const WORD: nat := 0x1_0000_0000

  function Or(a: nat, b: nat): nat {
    if a == 0 then b
    else if b == 0 then a
    else 2 * Or(a / 2, b / 2) + if a % 2 == 1 || b % 2 == 1 then 1 else 0
  }

  function Pow2(k: nat): (p: nat)
    ensures p > 0
  {
    if k == 0 then 1 else 2 * Pow2(k - 1)
  }

  function Shl(x: nat, k: nat): nat {
    if k == 0 then x else 2 * Shl(x, k - 1)
  }

  /** Where the bits do not overlap, or is addition. */
  lemma {:induction false} OrAdds(a: nat, x: nat, k: nat)
    requires a < Pow2(k)
    ensures Or(a, Shl(x, k)) == a + Shl(x, k)
  {
    if k > 0 && a > 0 && Shl(x, k) > 0 {
      OrAdds(a / 2, x, k - 1);
    }
  }

  lemma {:induction false} ShlIsTimes(x: nat, k: nat)
    ensures Shl(x, k) == Pow2(k) * x
  {
    if k > 0 {
      ShlIsTimes(x, k - 1);
    }
  }

  lemma PowTwo(k: nat)
    ensures Pow2(k + 2) == 4 * Pow2(k)
  {
    assert Pow2(k + 1) == 2 * Pow2(k);
  }

  lemma PowEight(k: nat)
    ensures Pow2(k + 8) == 256 * Pow2(k)
  {
    PowTwo(k);
    PowTwo(k + 2);
    PowTwo(k + 4);
    PowTwo(k + 6);
  }

  /** The weights of the breaker's fields. */
  lemma Weights()
    ensures Pow2(3) == 0x8 && Pow2(19) == 0x8_0000 && Pow2(21) == 0x20_0000
    ensures Pow2(23) == 0x80_0000 && Pow2(25) == 0x200_0000
    ensures Pow2(27) == 0x800_0000 && Pow2(29) == 0x2000_0000
  {
    PowTwo(1);
    PowEight(3);
    PowEight(11);
    PowTwo(19);
    PowTwo(21);
    PowTwo(23);
    PowTwo(25);
    PowTwo(27);
  }
}
