/** The firmware's shared state and its three event handlers, each run as
    one atomic step: the timer-compare interrupt, the conversion-complete
    interrupt, and one pass of the `while (1)` loop in `main`. */
module Firmware {
  import opened Bytes
  import opened Scheduler
  import opened Classifier
  import opened Multiplexer

  /** The `volatile uint8_t` globals `i`, `thousands`, `hundreds`, `tens`,
      `units`, and the two output ports: `display` (PORTB, the segments) and
      `scan` (PORTC, the active-low digit selects). */
  class Board {
    var i: Byte
    var thousands: Byte
    var hundreds: Byte
    var tens: Byte
    var units: Byte
    var display: Byte
    var scan: Byte

    /** The cursor is a digit position. Holds from start-up on. */
    ghost predicate Valid()
      reads this
    {
      i < DigitCount
    }

    /** The four published digit patterns as one value. */
    function Digits(): (d: DigitSet)
      reads this
      ensures AsSeq(d) == [thousands, hundreds, tens, units]
    {
      DigitSet(thousands, hundreds, tens, units)
    }

    /** Start-up: the globals are zero-initialised (`i = 0`), and both
        ports come out of reset at zero. */
    constructor ()
      ensures Valid()
      ensures i == 0
      ensures Digits() == DigitSet(0, 0, 0, 0)
      ensures display == 0 && scan == 0
    {
      i := 0;
      thousands, hundreds, tens, units := 0, 0, 0, 0;
      display, scan := 0, 0;
    }

    /** The timer-compare interrupt: advance the cursor, wrapping 3 to 0. */
    method TimerCompare()
      modifies this`i
      ensures i == Step(old(i))
      ensures i < DigitCount && (old(i) < DigitCount ==> i == (old(i) + 1) % DigitCount)
    {
      i := Step(i);
    }

    /** The conversion-complete interrupt for the 8-bit reading `reading`:
        the three guarded writes, in source order. Afterwards the digits
        are the table row of the reading's band, whatever they were
        before. */
    method ConversionComplete(reading: Byte)
      modifies this`thousands, this`hundreds, this`tens, this`units
      ensures Digits() == Classify(reading, old(Digits()))
      ensures Digits() == Row(BandOf(reading))
    {
      if 0 <= reading <= 50 {
        thousands := 0x7C;
        hundreds := 0xF7;
        tens := 0x0E;
        units := 0xF7;
      }
      if 51 <= reading <= 100 {
        thousands := 0x7C;
        hundreds := 0x06;
        tens := 0xF9;
        units := 0x54;
      }
      if 101 <= reading <= 255 {
        thousands := 0xF7;
        hundreds := 0x38;
        tens := 0x78;
        units := 0xF7;
      }
    }

    /** One pass of the main loop. Turning the converter on and waiting for
        it to settle has no effect on this state. For a cursor in
        {0,1,2,3} the segment port gets the digit under the cursor and the
        scanning port clears exactly that digit's bit; a cursor outside that
        range matches no branch and leaves both ports alone. Then the cursor
        advances by the same rule as the timer's. The digits are only
        read. */
    method LoopIteration()
      modifies this`display, this`scan, this`i
      ensures old(i) < DigitCount ==> display == Shown(Digits(), old(i)) && scan == ScanByte(old(i))
      ensures old(i) >= DigitCount ==> display == old(display) && scan == old(scan)
      ensures i == Step(old(i))
    {
      if i == 0 {
        display := thousands;
        scan := ScanByte(i);
      } else if i == 1 {
        display := hundreds;
        scan := ScanByte(i);
      } else if i == 2 {
        display := tens;
        scan := ScanByte(i);
      } else if i == 3 {
        display := units;
        scan := ScanByte(i);
      }
      i := Step(i);
    }

    /** `n` passes of the main loop with no interrupt in between. `shown`
        lists what the segment port received, pass by pass: pass `k` shows
        the digit at `(c0 + k) % 4` for the starting cursor `c0`. */
    method Run(n: nat) returns (shown: seq<Byte>)
      requires Valid()
      modifies this`display, this`scan, this`i
      ensures Valid()
      ensures i == StepN(old(i), n)
      ensures shown == Frames(Digits(), old(i), n)
      ensures n > 0 ==> display == shown[n - 1] && scan == ScanByte(StepN(old(i), n - 1))
      ensures n == 0 ==> display == old(display) && scan == old(scan)
    {
      shown := [];
      var k := 0;
      while k < n
        invariant k <= n
        invariant i == StepN(old(i), k)
        invariant shown == Frames(Digits(), old(i), k)
        invariant k > 0 ==> display == shown[k - 1] && scan == ScanByte(StepN(old(i), k - 1))
        invariant k == 0 ==> display == old(display) && scan == old(scan)
      {
        LoopIteration();
        shown := shown + [display];
        k := k + 1;
      }
    }
  }

  /** From start-up, one reading and then one full cycle of the loop shows
      the band's message, thousands digit first. */
  method StartAndShow(reading: Byte) returns (shown: seq<Byte>)
    ensures shown == AsSeq(Row(BandOf(reading)))
  {
    var board := new Board();
    board.ConversionComplete(reading);
    shown := board.Run(4);
    CycleShowsMessage(reading, DigitSet(0, 0, 0, 0));
  }

  /** The cursor has two writers. A timer tick that lands between two loop
      passes advances the cursor a second time, so the second pass shows the
      digit two places on and the digit in between is not shown in that
      frame. From start-up with a low reading, the hundreds pattern is
      skipped: the passes show thousands (0x7C), then tens (0x0E). */
  method TickBetweenPasses(reading: Byte) returns (shown: seq<Byte>)
    ensures shown == [AsSeq(Row(BandOf(reading)))[0], AsSeq(Row(BandOf(reading)))[2]]
    ensures InLow(reading) ==> shown == [0x7C, 0x0E]
  {
    var board := new Board();
    board.ConversionComplete(reading);
    board.LoopIteration();
    shown := [board.display];
    board.TimerCompare();
    board.LoopIteration();
    shown := shown + [board.display];
  }
}
