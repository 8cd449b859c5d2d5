/** What one pass of the main loop puts on the two output ports: the
    pattern of the digit under the cursor on the segment port, and the
    active-low digit-select byte on the scanning port. */
module Multiplexer {
  import opened Bytes
  import opened Scheduler
  import opened Classifier

  /** `~(1 << i)` stored into the 8-bit scanning port: the `int` complement
      `-x - 1`, then the conversion to `uint8_t`, which keeps the value
      modulo 256. The port byte is 0xFF less bit `i`. */
  function ScanByte(i: nat): (r: Byte)
    requires i < DigitCount
    ensures r + Pow2(i) == 0xFF
  {
    Pow2Table();
    (-(Pow2(i) as int) - 1) % 256
  }

  /** Active-low one-cold select: on the scanning port exactly bit `i` is
      cleared (that digit is driven) and every other bit of the byte is
      set. */
  lemma ScanByteSelectsOnlyDigit(i: nat, k: nat)
    requires i < DigitCount && k < 8
    ensures Bit(ScanByte(i), k) == 0 <==> k == i
  {
    Pow2Table();
    assert ScanByte(i) in {0xFE, 0xFD, 0xFB, 0xF7};
  }

  /** The segment port value of one pass: the pattern at the cursor. */
  function Shown(d: DigitSet, i: nat): (r: Byte)
    requires i < DigitCount
    ensures r in {d.thousands, d.hundreds, d.tens, d.units}
  {
    AsSeq(d)[i]
  }

  /** The segment-port values of `n` passes starting with cursor `c0`, while
      the digits stay `d`: pass `k` shows the digit at cursor `StepN(c0, k)`. */
  function Frames(d: DigitSet, c0: Byte, n: nat): (s: seq<Byte>)
    requires c0 < DigitCount
    ensures |s| == n
  {
    if n == 0 then [] else Frames(d, c0, n - 1) + [Shown(d, StepN(c0, n - 1))]
  }

  /** Pass `k` of a run from cursor `c0` shows the digit at `(c0 + k) % 4`. */
  lemma {:induction false} FramesAt(d: DigitSet, c0: Byte, n: nat, k: nat)
    requires c0 < DigitCount && k < n
    ensures Frames(d, c0, n)[k] == AsSeq(d)[(c0 + k) % DigitCount]
  {
    if k < n - 1 {
      FramesAt(d, c0, n - 1, k);
    } else {
      StepNClosedForm(c0, k);
    }
  }

  /** One full cycle from the thousands digit shows the four patterns in
      order, thousands to units. */
  lemma {:induction false} FullCycleShowsDigits(d: DigitSet)
    ensures Frames(d, 0, 4) == AsSeq(d)
  {
    forall k | 0 <= k < 4
      ensures Frames(d, 0, 4)[k] == AsSeq(d)[k]
    {
      FramesAt(d, 0, 4, k);
    }
  }

  /** For a reading `v`, one full multiplex cycle shows the band's message. */
  lemma {:induction false} CycleShowsMessage(v: Byte, prev: DigitSet)
    ensures Frames(Classify(v, prev), 0, 4) == AsSeq(Row(BandOf(v)))
    ensures v == 0 ==> Frames(Classify(v, prev), 0, 4) == [0x7C, 0xF7, 0x0E, 0xF7]
    ensures v == 75 ==> Frames(Classify(v, prev), 0, 4) == [0x7C, 0x06, 0xF9, 0x54]
    ensures v == 200 ==> Frames(Classify(v, prev), 0, 4) == [0xF7, 0x38, 0x78, 0xF7]
  {
  }

  /** A loop pass advances the cursor, and so may a timer tick before the
      next pass. With one tick between two passes from cursor `c0`, the
      second pass shows the digit at `(c0 + 2) % 4`, and the digit at
      `(c0 + 1) % 4` is shown by neither pass. */
  lemma {:induction false} TickBetweenPassesSkipsDigit(d: DigitSet, c0: Byte)
    requires c0 < DigitCount
    ensures Shown(d, Step(Step(c0))) == AsSeq(d)[(c0 + 2) % DigitCount]
    ensures (c0 + 1) % DigitCount != c0 && (c0 + 1) % DigitCount != Step(Step(c0))
  {
    StepNClosedForm(c0, 2);
  }
}
