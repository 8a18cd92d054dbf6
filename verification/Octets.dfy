/** A byte as a number, and as eight bits. */
module Octets {

  type Byte = n: int | 0 <= n < 256
  type Octet = bv8

  function Bits(b: Byte): Octet { b as Octet }

  function Number(o: Octet): Byte { o as int }

  lemma ThereAndBack(n: int)
    requires 0 <= n < 256
    ensures (n as bv8) as int == n
  {
    if n < 16 {
    } else if n < 32 {
    } else if n < 64 {
    } else if n < 128 {
    }
  }

  lemma NumberOfBits(b: Byte)
    ensures Number(Bits(b)) == b
  {
    ThereAndBack(b);
  }

  lemma BitsOfNumber(o: Octet)
    ensures Bits(Number(o)) == o
  {
  }
}
