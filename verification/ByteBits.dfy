/** The two ways to look at eight bits. */
module ByteBits {

  lemma ThereAndBack(b: int)
    requires 0 <= b < 0x100
    ensures (b as bv8) as int == b
  {
  }

  lemma BackAndThere(x: bv8)
    ensures 0 <= x as int < 0x100 && (x as int) as bv8 == x
  {
  }

  lemma XorBack(x: bv8, y: bv8)
    ensures (x ^ y) ^ y == x
  {
  }

  function Xor(a: int, b: int): (x: int)
    requires 0 <= a < 0x100 && 0 <= b < 0x100
    ensures 0 <= x < 0x100
  {
    BackAndThere((a as bv8) ^ (b as bv8));
    ((a as bv8) ^ (b as bv8)) as int
  }

  lemma XorTwice(a: int, b: int)
    requires 0 <= a < 0x100 && 0 <= b < 0x100
    ensures Xor(Xor(a, b), b) == a
  {
    BackAndThere((a as bv8) ^ (b as bv8));
    XorBack(a as bv8, b as bv8);
    ThereAndBack(a);
  }
}
