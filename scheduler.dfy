/** The digit cursor `i`: which of the four digits (0 = thousands,
    3 = units) is lit. The timer-compare interrupt advances it, and so does
    the bottom of every main-loop iteration, with the same wrap rule. */
module Scheduler {
  import opened Bytes

  /** Number of digit positions on the display. */
  const DigitCount: nat := 4

  /** One advance of the cursor: any value from 3 up goes back to 0, any
      smaller value moves on by one. For a cursor already in {0,1,2,3} this
      is the successor modulo 4; from any byte at all it lands in range. */
  function Step(i: Byte): (r: Byte)
    ensures r < DigitCount
    ensures i < DigitCount ==> r == (i + 1) % DigitCount
    ensures i >= DigitCount ==> r == 0
  {
    if i >= 3 then 0 else i + 1
  }

  /** The cursor after `n` advances from `i`. */
  function StepN(i: Byte, n: nat): (r: Byte)
    ensures n > 0 || i < DigitCount ==> r < DigitCount
  {
    if n == 0 then i else Step(StepN(i, n - 1))
  }

  /** Closed form: from a cursor in range, `n` advances give `(c0 + n) % 4`. */
  lemma {:induction false} StepNClosedForm(c0: Byte, n: nat)
    requires c0 < DigitCount
    ensures StepN(c0, n) == (c0 + n) % DigitCount
  {
    if n > 0 {
      StepNClosedForm(c0, n - 1);
      assert StepN(c0, n) == (StepN(c0, n - 1) + 1) % DigitCount;
      ModSucc(c0 + n - 1);
    }
  }

  /** Starting from the initial value 0, the cursor is in {0,1,2,3} after
      any number of advances. */
  lemma {:induction false} ReachableInRange(n: nat)
    ensures StepN(0, n) < DigitCount
    ensures StepN(0, n) == n % DigitCount
  {
    StepNClosedForm(0, n);
  }

  /** Four advances bring the cursor back where it started. */
  lemma {:induction false} StepNPeriod(c0: Byte, n: nat)
    requires c0 < DigitCount
    ensures StepN(c0, n + DigitCount) == StepN(c0, n)
  {
    StepNClosedForm(c0, n);
    StepNClosedForm(c0, n + DigitCount);
  }

  /** No digit is skipped: the four cursors of one cycle are all distinct
      and together are every position. */
  lemma {:induction false} CycleVisitsEveryDigit(c0: Byte)
    requires c0 < DigitCount
    ensures {StepN(c0, 0), StepN(c0, 1), StepN(c0, 2), StepN(c0, 3)} == {0, 1, 2, 3}
  {
  }

  /** Taking the remainder before or after adding one gives the same
      position. */
  lemma ModSucc(a: nat)
    ensures (a % DigitCount + 1) % DigitCount == (a + 1) % DigitCount
  {
  }
}
