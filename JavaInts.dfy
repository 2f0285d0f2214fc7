/** Java's 32-bit `int` and its two's-complement arithmetic. */
module JavaInts {
  const TwoTo32: int := 0x1_0000_0000
  const TwoTo31: int := 0x8000_0000

  /** Java's int. */
  newtype Int32 = x: int | -0x8000_0000 <= x < 0x8000_0000

  /** Two's-complement wrap-around: the Int32 congruent to x modulo 2^32. */
  function Wrap32(x: int): (r: Int32)
    ensures -TwoTo31 <= x < TwoTo31 ==> r as int == x
    ensures (x - r as int) % TwoTo32 == 0
  {
    ((x + TwoTo31) % TwoTo32 - TwoTo31) as Int32
  }

  /** A result just past the largest int wraps round to the negative end. */
  lemma WrapAbove(x: int)
    requires TwoTo31 <= x < TwoTo31 + TwoTo32
    ensures Wrap32(x) as int == x - TwoTo32
  {
    assert -TwoTo31 <= x - TwoTo32 < TwoTo31;
    assert Wrap32(x - TwoTo32) as int == x - TwoTo32;
    assert (x + TwoTo31) % TwoTo32 == (x - TwoTo32 + TwoTo31) % TwoTo32;
  }
}
