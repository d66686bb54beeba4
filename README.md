# KY-040 rotary encoder decoder, modelled in Dafny

The KY-040 reader watches the CLK, DT and SW lines of a quadrature rotary
encoder through GPIO edge events and decides, once per decode cycle, whether
the knob was turned clockwise (`CW`, 20), counter-clockwise (`CCW`, 21) or
not at all (`IDLE`, 22). A cycle drains the edge-event buffer four times,
keeps only the last event of each drain, turns it into a two-bit digit
(rising edge adds 1, an edge from the CLK line, offset 27, adds 2), weights
the four digits by 1, 2, 4 and 8 and classifies the sum against two fixed
sets of codes. Before the loop starts, the program checks that each of its
three lines is free from the consumer the chip reports for it.

The project has five files:

- `defs.dfy` (module `Ky040Defs`): the line offsets, tuner values and return codes of `KY-040.hpp`.
- `encoding.dfy` (module `Encoding`): edges, digits, the weighted code and the classifier.
- `quadrature.dfy` (module `Quadrature`): the table of the eight edge sequences in the source
  comment (KY-040.cpp:141-145), and an independent model of the two switch lines stepping through the quadrature
  cycle (`Turn`). It proves that every four consecutive edges of an uninterrupted turn
  decode to that turn's direction.
- `decoder.dfy` (module `Decoding`): the slot-filling rule, with its burst coalescing and
  stale-slot carry-over, as a function, and the class `Decoder`. The class holds the last
  event read (`edgeType`, `edgeOS`) and its method `Cycle` runs the two nested loops of one
  cycle.
- `lines.dfy` (module `LineCheck`): the line-ownership decision of `GPIOLineFree` and the
  startup scan over the three lines.

The source comment says the code of a sequence is unique among all 256 four-edge
sequences. The code does not make it so. DT rising, DT falling, CLK rising, DT falling
also has code 13 and is reported clockwise (`Quadrature.CodeCollision`). The model
therefore proves distinctness only for the eight legitimate sequences. The comment's
worked sums for three clockwise rows (KY-040.cpp:209-211), and its label "CLKR is 10", contain typos. All
codes here are derived from the code. The eight totals the comment lists agree with it.

## Model

| member | source | states |
|---|---|---|
| `Encoding.TuneValue` | KY-040.hpp:19-21 | the three outcomes map to the tuner values 20, 21 and 22, and distinct outcomes give distinct values |
| `Encoding.Digit` | KY-040.cpp:352-358 | a slot's digit is in 0..3; its low bit is set exactly for a rising edge and its high bit exactly for an edge from offset `NTUNERCLK` (27) |
| `Encoding.WeightedDigit` | KY-040.cpp:352-358 | the two separate additions of a slot, its weight for a rising edge and twice its weight for a CLK edge, add up to the weight times the slot's digit |
| `Encoding.PartialCode` | KY-040.cpp:339-358 | the accumulator after k slots never exceeds 3 times the sum of the first k weights |
| `Encoding.Encode` | KY-040.cpp:339-368 | the code of four slots is digit0 + 2·digit1 + 4·digit2 + 8·digit3, and lies in [0, 45] |
| `Encoding.Classify` | KY-040.cpp:370-383 | the outcome is `CW` exactly for codes in {13,29,22,26}, `CCW` exactly for codes in {19,32,16,23}, and `IDLE` for every other code |
| `Encoding.CodeSetsDisjoint` | KY-040.cpp:372-378 | the clockwise and counter-clockwise code sets are disjoint and together hold 8 codes |
| `Encoding.NonClkReadsAsDt` | KY-040.cpp:356-358 | an edge from any offset other than CLK, the switch line (offset 4) included, gets the same digit as a DT edge of the same type |
| `Quadrature.StepEdge` | KY-040.cpp:136-151 | one step of the knob moves the line the quadrature cycle designates, with a rising edge exactly when that line was low |
| `Quadrature.Turn` | KY-040.cpp:177-183 | an uninterrupted turn of n steps produces n edges, the first being the edge of the first step |
| `Quadrature.TablesAreTurns` | KY-040.cpp:141-145 | each of the eight rows of the table in the source comment is four steps of a turn in its direction, one row per starting level pair |
| `Quadrature.TableCodes` | KY-040.cpp:207-217 | the rows encode to 13, 29, 22, 26 (clockwise) and 19, 32, 16, 23 (counter-clockwise), in row order, and classify as `CW` and `CCW`; these lists are exactly the two code sets |
| `Quadrature.TableCodesDistinct` | KY-040.cpp:198-217 | the eight rows get eight pairwise distinct codes |
| `Quadrature.TurningBackUndoesCw` | KY-040.cpp:141-145 | a clockwise row returns the lines to the levels it started from, and turning back from there undoes its edges in reverse order with opposite edge types, which is the counter-clockwise row from those levels |
| `Quadrature.FourStepsDecode` | KY-040.cpp:370-383 | four steps of a turn from any line levels classify as the direction of the turn |
| `Quadrature.TurnSuffix` | KY-040.cpp:183-190 | the edges of a turn after its first i steps are the turn from the levels reached after i steps |
| `Quadrature.TurnPrefix` | KY-040.cpp:183-190 | the first m edges of a turn are the turn of m steps |
| `Quadrature.AnyWindowDecodes` | KY-040.cpp:177-190 | any four consecutive edges of an uninterrupted turn, however long, classify as the direction of the turn |
| `Quadrature.CodeCollision` | KY-040.cpp:198-202 | DT rising, DT falling, CLK rising, DT falling is not a table row, yet has code 13 and is reported `CW`: the code is not unique among all sequences |
| `Quadrature.ClkRiseBurstIsIdle` | KY-040.cpp:370-383 | four CLK rising edges give the largest code, 45, which is `IDLE` |
| `Decoding.LastEvent` | KY-040.cpp:344-350 | a drain yields an event exactly when it read one, and the event is one it read |
| `Decoding.LastEventWins` | KY-040.cpp:345-350 | a drain that ends in event e yields e, whatever events came before it in the same drain |
| `Decoding.Slots` | KY-040.cpp:344-358 | each slot holds the last event of its drain; an empty drain repeats the previous slot, or for slot 0 the event held from before the cycle |
| `Decoding.SameLastEventsSameSlots` | KY-040.cpp:344-350 | two cycles whose drains end in the same events fill the same slots, whatever the bursts before those events held |
| `Decoding.SingleEventDrains` | KY-040.cpp:342-350 | drains of exactly one event each fill the slots with those events in order |
| `Decoding.EmptyCycleIsIdle` | KY-040.cpp:342-358 | a cycle of four empty drains repeats the held event four times, has code 15 times its digit and is always `IDLE` |
| `Decoding.StaleTailIsIdle` | KY-040.cpp:342-358 | when the three drains after the first come back empty, all four slots repeat the first drain's last event (or the held one) and the cycle is `IDLE` whatever that event is |
| `Decoding.ClockwiseScenario` | KY-040.cpp:337-383 | one event per drain, CLK rising, DT rising, CLK falling, DT falling, decodes to `CW` from any held event, also when the first drain is a burst ending in CLK rising |
| `Decoding.TurnThroughDrainsDecodes` | KY-040.cpp:337-383 | drains ending in four consecutive edges of a turn decode to the turn's direction, whatever else they read |
| `Decoding.Decoder.constructor` | KY-040.cpp:252-253 | the decoder starts holding the given event |
| `Decoding.Decoder.Cycle` | KY-040.cpp:337-383 | one cycle returns the code of the slots its four drains fill and the tuner value (20, 21 or 22) of that code's classification, and leaves the decoder holding the event of the last slot |
| `Decoding.RepeatedCycles` | KY-040.cpp:331-387 | on one decoder, a clean clockwise cycle reports `CW` (20); an all-empty cycle after it reuses the held DT falling edge and reports `IDLE` (22) with code 0 |
| `LineCheck.GpioLineFree` | KY-040.cpp:16-83 | a failed info read gives `ERRREADINFO`, consumer "KY-040" gives `ERRKY040OWNED`, any other consumer gives `ERRGPIOINUSE`, and no consumer gives `OKGPIOLINEFREE`. `ERRLINENOTFREE` is never returned. The line name (or "unnamed") is copied only for a free line |
| `LineCheck.StartupScan` | KY-040.cpp:269-279 | the scan returns `OKGPIOLINEFREE` exactly when every line is free, and otherwise the code of the first line that is not free |

## Left out

- All libgpiod calls are outside the model: opening the chip, line settings and configuration,
  the line request, value reads, waiting for edges, reading the event buffer and copying events.
  Each cycle's four drains are a parameter (`seq<seq<Edge>>`), and each line's info is a
  parameter (`Option<LineInfo>`).
- The endless `while (true)` loop and its blocking wait are not modelled. One cycle is
  `Decoder.Cycle`, and repetition is repeated calls on the same decoder, which keep the
  held event.
- The return value of the wait is not modelled. A `-1` from the buffer read, stored into
  an unsigned count, is not modelled either. Both are left out because the program does
  not check them, and their effect depends on the hardware layer.
- The copied edge event is never freed (it leaks). Memory is not modelled.
- `edgeType` and `edgeOS` are uninitialised before the first event is read. The
  `Decoder` constructor takes an explicit initial event instead.
- `InitGPIOActivity` and `FreeGPIOActivity` are not modelled. They only allocate and
  free library objects.
- All console output is left out, including the header flag of `GPIOLineFree`, the line
  direction, polarity and debounce it prints, and the direction string of the main loop.
- `LineCheck.GpioLineFree`: the `strcpy` into the 32-byte name field is modelled as
  returning the name. An overflow for names of 32 bytes or more is not modelled.
- `LineCheck.StartupScan`: it starts from `OKGPIOLINEFREE`, where the program's return
  value is uninitialised. With three lines that value is never returned. Closing the
  chip on failure is not modelled.
- The unused variables of the main loop (`state`, `select`, `lastGPIOInTuneValues`,
  `value`) are not modelled.
- The chip-open failure path, which returns an uninitialised value, is not modelled.
