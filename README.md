# Seven-segment ADC display — verified model

A model of the control logic of `ADC.c`, the ATmega328P firmware that drives
a 4-digit, 7-segment display from one analog input. Three pieces of logic
share the firmware's globals: the cursor `i` and the four digit patterns
`thousands`, `hundreds`, `tens` and `units`. The model covers all three:

- **Digit scheduler.** The timer-compare interrupt advances the cursor `i`.
  Any value from 3 up wraps to 0; any smaller value goes up by one.
- **Sampler/classifier.** The conversion-complete interrupt reads the 8-bit
  result. It tests the reading against the closed ranges [0,50], [51,100]
  and [101,255]. It writes that band's fixed message ("bAJA", "bIEn" or
  "ALtA") into the four digit patterns.
- **Display multiplexer.** One pass of the `while (1)` loop in `main` does
  three things. It writes the pattern under the cursor to the segment port
  (PORTB, `DISPLAY`). It writes `~(1 << i)`, truncated to a byte, to the
  digit-select port (PORTC, `SCANNING_PORT`). Then it advances the cursor
  by the same wrap rule as the timer.

Modules, one file each:

- `Bytes` (`bytes.dfy`): the `uint8_t` range, powers of two and bit
  extraction.
- `Scheduler` (`scheduler.dfy`): the cursor step `Step`, its iterate
  `StepN`, and their closed form.
- `Classifier` (`classifier.dfy`): the guards, the band/row table and the
  three-`if` handler `Classify`.
- `Multiplexer` (`multiplexer.dfy`): the scan-port byte, the displayed
  digit, and the sequence of displayed patterns over `n` passes.
- `Firmware` (`firmware.dfy`): class `Board`. It holds the globals and the
  two output ports. Its methods are the two interrupt handlers and the
  loop pass, each one atomic step.

The cursor is advanced in two places in the code: by the timer interrupt
(ADC.c:136-146) and at the end of every main-loop pass (ADC.c:81-88).
`Board.TimerCompare` and `Board.LoopIteration` both advance it with the one
`Scheduler.Step`. A consequence is that a timer tick between two loop
passes makes the second pass show the digit two places on, so one digit is
not shown in that frame (`Multiplexer.TickBetweenPassesSkipsDigit`,
`Firmware.TickBetweenPasses`). The "no digit is skipped" property of
`Scheduler.CycleVisitsEveryDigit` holds for advances with nothing in
between.

## Model

| member | source | states |
|---|---|---|
| `Scheduler.Step` | ADC.c:138-145 | The advanced cursor is always in {0,1,2,3}. From a cursor already in range it is the successor modulo 4. From any value of 4 or more it is 0. |
| `Scheduler.StepN` | ADC.c:81-88 | Any positive number of advances, or none from an in-range cursor, leaves the cursor in {0,1,2,3}. |
| `Scheduler.StepNClosedForm` | ADC.c:138-145 | After `n` advances from `c0` in {0..3}, the cursor is `(c0 + n) % 4`. |
| `Scheduler.ReachableInRange` | ADC.c:47 | From the initial value 0, the cursor after `n` advances is `n % 4`, so it never leaves {0,1,2,3}. |
| `Scheduler.StepNPeriod` | ADC.c:136-146 | Four advances return the cursor to where it was. |
| `Scheduler.CycleVisitsEveryDigit` | ADC.c:136-146 | Four consecutive advances, with no other advance between them, give exactly the cursors {0,1,2,3}. So loop passes with no timer tick between them skip no digit. |
| `Classifier.BandOf` | ADC.c:182-196 | The band of a reading is Low, Mid or High exactly when the matching range guard holds. So exactly one guard holds for every byte. |
| `Classifier.Row` | ADC.c:184-201 | Each band maps to one of the three fixed messages. |
| `Classifier.Classify` | ADC.c:180-203 | The three guarded writes, applied to any previous digits, give the table row of the reading's band. The result is always one of the three messages. |
| `Classifier.GuardsPartition` | ADC.c:182-196 | The three ranges cover [0,255] and are pairwise disjoint. |
| `Classifier.ClassifyRows` | ADC.c:182-202 | Readings in [0,50] give (0x7C, 0xF7, 0x0E, 0xF7). Readings in [51,100] give (0x7C, 0x06, 0xF9, 0x54). Readings in [101,255] give (0xF7, 0x38, 0x78, 0xF7). |
| `Classifier.ClassifyIdempotent` | ADC.c:180-203 | The result does not depend on the previous digits. Classifying the same reading twice equals classifying it once. |
| `Multiplexer.ScanByte` | ADC.c:64-79 | `~(1 << i)` stored in a byte, for `i` in {0..3}, is 0xFF minus `2^i`. |
| `Multiplexer.ScanByteSelectsOnlyDigit` | ADC.c:64-79 | In that byte, bit `k` (for `k` in 0..7) is clear exactly when `k == i`. So only digit `i` is selected, active-low. |
| `Multiplexer.Shown` | ADC.c:61-80 | The segment-port value for cursor `i` is one of the four digit patterns. |
| `Multiplexer.Frames` | ADC.c:58-89 | `n` loop passes write `n` segment-port values. |
| `Multiplexer.FramesAt` | ADC.c:58-89 | Pass `k` of a run from cursor `c0` shows digit `(c0 + k) % 4`. |
| `Multiplexer.FullCycleShowsDigits` | ADC.c:61-80 | Four passes from cursor 0 show thousands, hundreds, tens, units in that order. |
| `Multiplexer.TickBetweenPassesSkipsDigit` | ADC.c:81-88 | With a timer tick between two loop passes from cursor `c0`, the second pass shows digit `(c0 + 2) % 4`. Digit `(c0 + 1) % 4` is shown by neither pass. |
| `Multiplexer.CycleShowsMessage` | ADC.c:180-203 | After one reading, a full cycle shows the band's message. Readings 0, 75 and 200 show [0x7C,0xF7,0x0E,0xF7], [0x7C,0x06,0xF9,0x54] and [0xF7,0x38,0x78,0xF7]. |
| `Firmware.Board.Digits` | ADC.c:43-46 | The four globals, in display order, as one pattern set. |
| `Firmware.Board.constructor` | ADC.c:43-47 | Start-up: cursor 0, which is in range. All digits and both ports are 0. |
| `Firmware.Board.TimerCompare` | ADC.c:136-146 | The new cursor is `Step` of the old one: in range, and the successor modulo 4 of an in-range cursor. Only `i` changes. |
| `Firmware.Board.ConversionComplete` | ADC.c:180-203 | The new digits are `Classify` of the reading and the old digits. That equals the row of the reading's band. Only the four digits change. |
| `Firmware.Board.LoopIteration` | ADC.c:58-89 | For a cursor in {0..3}, the segment port gets the digit under the cursor and the scan port gets `ScanByte` of the cursor. Any other cursor leaves both ports alone. The cursor advances by `Step`. The digits are unchanged. |
| `Firmware.Board.Run` | ADC.c:58-89 | `n` passes from a valid state keep it valid. The cursor becomes `StepN(i, n)`. The segment port receives exactly `Frames(digits, i, n)`. The ports end on the last pass's values, and zero passes leave them unchanged. |
| `Firmware.StartAndShow` | ADC.c:50-89 | From start-up, one conversion followed by one full cycle of the loop shows the band's message, thousands first. |
| `Firmware.TickBetweenPasses` | ADC.c:136-146 | From start-up, one conversion, a loop pass, a timer tick and a loop pass show the thousands and then the tens pattern of the band's message. For a reading in [0,50] that is [0x7C, 0x0E]: the hundreds digit is skipped. |

## Left out

- Register setup (`init_ports`, `init_timer0`, `on_timer0`, `off_timer0`, `ADC_init`, ADC.c:93-169): hardware configuration with no logic of its own.
- `ADC_on` (ADC.c:171-178): it sets the enable and start bits and waits 20 ms. Both are hardware effects, so a loop pass treats it as doing nothing.
- The source of the reading and all timing (prescaler, `OCR0A = 156`, `F_CPU`): the reading is a parameter of `Board.ConversionComplete`, and time is not modelled.
- Interrupts preempting the loop, `cli`/`sei`, and torn reads or writes of the four `volatile` digits: each handler and each loop pass is one atomic step. The model therefore does not capture a digit pattern set that is half old and half new, or a cursor that changes between the loop's test and its write.
- The handler reads the volatile `ADCH` up to six times, twice per guard (ADC.c:182, 189, 196). The model reads it once, since the register does not change during the handler in the sequential model.
- The infinite `while (1)`: the model gives one pass (`Board.LoopIteration`) and `n` passes (`Board.Run`).
