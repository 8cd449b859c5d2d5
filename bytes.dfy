/** Eight-bit values as the ATmega328P holds them in its registers and in
    the `volatile uint8_t` globals of the firmware. */
module Bytes {

  /** A `uint8_t`: an integer in [0, 255]. */
  type Byte = x: int | 0 <= x < 256

  /** 2 to the power `k`, the value of `1 << k` while it fits. */
  function Pow2(k: nat): (r: nat)
    ensures r >= 1
  {
    if k == 0 then 1 else 2 * Pow2(k - 1)
  }

  /** Bit `k` of `b` (0 = least significant), as 0 or 1. */
  function Bit(b: Byte, k: nat): (r: nat)
    ensures r < 2
  {
    (b / Pow2(k)) % 2
  }

  /** The first eight powers of two, written out. */
  lemma {:induction false} Pow2Table()
    ensures Pow2(0) == 1 && Pow2(1) == 2 && Pow2(2) == 4 && Pow2(3) == 8
    ensures Pow2(4) == 16 && Pow2(5) == 32 && Pow2(6) == 64 && Pow2(7) == 128
  {
  }
}
