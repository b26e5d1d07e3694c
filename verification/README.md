# Pen plotter motion core in Dafny

This project models the motion core of a three-axis pen plotter driven by
28BYJ-48 stepper motors on ULN2003 drivers. The model covers three parts.

- **Motion engine** (`plotter_sketch/src/motor_control.h`).
  - Each axis has a half-step phase counter in 0..7 and an 8-entry coil table.
  - `stepMotor` walks an axis's phase counter with wrap-around.
  - `moveTo` turns millimetre deltas into step counts with the C++ `(int)`
    cast. It lifts the pen before the X/Y travel, co-steps X and Y, lowers the
    pen afterwards, and stores the requested target as the new position.
  - `homeMotors`, `penUp`, `penDown` and `stopAllMotors` are built on top.
- **G-code interpreter** (`plotter_sketch/src/gcode_parser.h`).
  - `executeGCode` trims and upper-cases a line and skips blanks and comments.
  - It cuts the mnemonic at the first space and resolves X/Y/Z against the
    current position, in absolute (`G90`) or relative (`G91`) mode.
  - It dispatches `G0`, `G1`, `G28`, `G90`, `G91`, `M3`, `M5`, `M114` and
    `M18`/`M84`.
  - `executeGCodeBlock` runs each newline-separated segment and counts the
    lines that succeeded.
- **Bench-test sketch** (`motor_test_project/src/main.cpp`).
  - One phase counter is shared by all three drivers.
  - `rotateMotor`, `setMotorStep`, `stopMotor` and `stopAllMotors` are modelled.
  - The test cycle of `loop()` is modelled too.

How the firmware becomes a model:

- All state is an immutable value.
  - `Plotter` holds the believed position in millimetres and three drivers.
  - Each driver holds a phase and the levels of its four coils.
  - `Machine` adds the positioning-mode flag.
  - `BenchState` is the test sketch's shared counter plus three coil sets.
- Every operation is a pure function from state to state.
  - Operations that step motors also return a trace: the sequence of unit
    steps they issue (`StepEvent(axis, clockwise)`), in order.
  - Coil writes are modelled as the coil levels they leave behind.
- Millimetre coordinates are `real`.
  - `Base.Trunc` is the `(int)` cast: truncation toward zero, not `Floor`.
  - Phases use Dafny's Euclidean `%`, proved equal to the firmware's
    increment-and-reset code.
- Step counts are the `(int)` cast's truncation toward zero, not rounding
  (`motor_control.h` lines 168-170).
- Empty interior segments of a block are executed as blank lines and counted
  as successes (`gcode_parser.h` lines 152-165).

Files:

- `base.dfy`: optional values, `Abs`/`Min`/`Max`, truncation.
- `half_step.dfy`: the half-step table and one phase step.
- `schedule.dfy`: runs of repeated steps, their pairwise interleaving, and
  the round-by-round loop that produces it.
- `motion.dfy`: the motion engine.
- `motion_props.dfy`: properties of `moveTo`, such as step counts, pen
  ordering, co-stepping shape and idempotence.
- `text.dfy`: `trim`, `toUpperCase`, `indexOf` and the block's newline scan.
- `number.dfy`: the decimal-prefix reading of `String::toFloat`.
- `gcode.dfy`: `executeGCode`, block execution, and the count and
  composition laws of a block.
- `gcode_props.dfy`: parsing properties, such as first-occurrence
  parameters, space-only separation, case and space insensitivity, and comments.
- `scenarios.dfy`: concrete sessions, such as relative moves accumulating,
  absolute moves overriding, and a block with an unknown line.
- `bench.dfy`: the bench-test sketch.

## Model

| member | source | states |
|---|---|---|
| Base.Trunc | plotter_sketch/src/motor_control.h:168-170 | The `(int)` cast has the sign of its argument and lies less than one unit closer to zero than it. |
| Base.TruncNegate | plotter_sketch/src/motor_control.h:168 | Truncation is symmetric: negating the product before the cast negates the count. This is why mirroring X only flips the direction. |
| Base.TruncMagnitude | plotter_sketch/src/motor_control.h:168-170 | The count's magnitude is at most the exact product's magnitude, and less than one step short of it. |
| HalfStep.Advance | plotter_sketch/src/motor_control.h:142-150 | Increment-with-reset-at-8 is `(p + 1) mod 8`, and decrement-with-reset-below-0 is `(p - 1) mod 8`. The result is always a valid table index. |
| HalfStep.AdvanceInverse | plotter_sketch/src/motor_control.h:144-150 | A step in one direction followed by a step in the other restores the phase, across the 7/0 wrap as well. |
| HalfStep.NeighboursDifferInOneCoil | plotter_sketch/src/motor_control.h:36-45 | Consecutive table entries, including entry 7 to entry 0, differ in exactly one coil. |
| HalfStep.EnergisedCoilCount | plotter_sketch/src/motor_control.h:36-45 | Even entries energise one coil and odd entries two. No entry is all-off. |
| Motion.SetMotorStep | plotter_sketch/src/motor_control.h:104-123 | The named axis's coils show table entry `step mod 8`. Its phase, the other drivers and the position are unchanged. An unknown axis letter changes nothing. |
| Motion.StepOnce | plotter_sketch/src/motor_control.h:144-153 | One pass of the loop body moves the phase one step and writes the new phase's pattern. Nothing else changes. |
| Motion.StepRepeat | plotter_sketch/src/motor_control.h:142-157 | `k` passes move the phase by `k` in one direction modulo 8, leave the coils showing the final phase, leave other drivers and the position alone, and issue `k` identical unit steps. |
| Motion.StepMotor | plotter_sketch/src/motor_control.h:130-158 | `stepMotor(axis, n)` moves that axis's phase by `n` modulo 8 and issues `abs(n)` unit steps in the direction of the sign of `n`. Only that axis's phase and coils change. `n == 0` or an unknown axis changes nothing. |
| Motion.StepMotorRoundTrip | plotter_sketch/src/motor_control.h:139-150 | Stepping an axis by `n` and then by `-n` restores its phase. |
| Motion.UnitStepWhile | plotter_sketch/src/motor_control.h:183-189 | One axis's share of loop iteration `i` is one unit step toward the sign of its count while `i < abs(count)`, and nothing after. |
| Motion.CoIteration | plotter_sketch/src/motor_control.h:181-191 | Iteration `i` steps X if and only if `i < abs(xSteps)`, and Y if and only if `i < abs(ySteps)`, X first. Z and the position are untouched. |
| Motion.CoStep | plotter_sketch/src/motor_control.h:179-191 | The whole co-stepping loop moves X by `xSteps` and Y by `ySteps`. Its trace is exactly the pairwise interleaving of the two runs of unit steps. |
| Motion.MoveTo | plotter_sketch/src/motor_control.h:166-203 | The position becomes exactly the request, whatever truncation issued. Each phase moves by its axis's truncated signed count modulo 8. The trace is the pen lift, then the X/Y interleaving, then the pen drop. |
| Motion.HomeMotors | plotter_sketch/src/motor_control.h:208-212 | Homing ends at (0, 0, 5) from any state. Nothing is sensed. |
| Motion.PenUp | plotter_sketch/src/motor_control.h:217-219 | Only Z moves, to 5 mm. X and Y keep position, phase and coils, and the trace holds Z steps only. |
| Motion.PenDown | plotter_sketch/src/motor_control.h:224-226 | Only Z moves, to 0 mm. X and Y keep position, phase and coils, and the trace holds Z steps only. |
| Motion.StopAllMotors | plotter_sketch/src/motor_control.h:231-246 | Every coil goes LOW. Phases and position are kept. |
| MotionProperties.MoveToIdempotent | plotter_sketch/src/motor_control.h:199-202 | Repeating a `moveTo` to the same target issues no step and changes nothing. |
| MotionProperties.StepCountsTruncate | plotter_sketch/src/motor_control.h:168-170 | The counts are the truncated products with 40, 40 and 50 steps per mm. X is mirrored; Y and Z are not. Each count is less than one step short of the exact product. |
| MotionProperties.SubStepMoveIssuesNothing | plotter_sketch/src/motor_control.h:168-202 | A request closer than one step on every axis issues no step, yet the stored position becomes the request. The dropped fraction is never made up. |
| MotionProperties.MoveTraceCounts | plotter_sketch/src/motor_control.h:173-197 | Each axis receives exactly `abs(count)` unit steps, all in the direction of the count's sign, and none in the other direction. |
| MotionProperties.PenOrdering | plotter_sketch/src/motor_control.h:173-197 | If the pen rises, every Z step precedes every X/Y step. If it falls, every Z step follows them. Otherwise Z does not step. Z never moves on both sides of the travel. |
| MotionProperties.CoSteppingShape | plotter_sketch/src/motor_control.h:179-191 | The X/Y part of a move equals the `max(abs(xSteps), abs(ySteps))` rounds of the loop. It strictly alternates X and Y for `2 * min` steps and then steps only the longer axis: a diagonal and a straight tail, not a uniform slope. |
| MotionProperties.ShorterAxisFinishesFirst | plotter_sketch/src/motor_control.h:179-191 | When the counts differ, every step of the shorter axis comes before the travel's final step, which belongs to the longer axis. |
| Schedule.InterleaveMultiset | plotter_sketch/src/motor_control.h:179-191 | Interleaving loses and invents no step: its multiset is the union of the two runs. |
| Schedule.InterleaveRunsShape | plotter_sketch/src/motor_control.h:179-191 | An interleaving of two runs alternates for `2 * min(a, b)` positions and then repeats the longer run's element. |
| Schedule.RoundsAreInterleaving | plotter_sketch/src/motor_control.h:179-191 | The round-by-round loop from round `i` emits the interleaving of the runs still owed, and every round before `max(a, b)` emits something. |
| Schedule.ShorterRunFinishesFirst | plotter_sketch/src/motor_control.h:179-191 | With distinct elements and different lengths, the last element belongs to the longer run. Every element of the shorter run sits within the diagonal, before it. |
| Text.Trim | plotter_sketch/src/gcode_parser.h:21 | The trimmed line is a contiguous slice starting after the leading white space, and neither starts nor ends with white space. |
| Text.TrimRemovesOnlySpace | plotter_sketch/src/gcode_parser.h:21 | Only white space is removed, at both ends. The result is empty exactly when the line is all white space. |
| Text.TrimKeeps | plotter_sketch/src/gcode_parser.h:21 | A line that neither starts nor ends with white space is its own trim. |
| Text.UpperNormalises | plotter_sketch/src/gcode_parser.h:22 | After upper-casing no lower-case letter is left, and upper-casing again changes nothing. |
| Text.Upper | plotter_sketch/src/gcode_parser.h:22 | `toUpperCase` keeps the length and upper-cases each character on its own; nothing else in the line changes. |
| Text.UpperKeeps | plotter_sketch/src/gcode_parser.h:22 | Text without lower-case letters is its own upper-case form. |
| Text.TrimUpper | plotter_sketch/src/gcode_parser.h:21-22 | `trim` and `toUpperCase` commute: upper-casing never creates or removes white space. |
| Text.IndexOf | plotter_sketch/src/gcode_parser.h:34 | `indexOf` is -1 exactly when the character is absent. Otherwise it is a position holding the character, with no earlier occurrence. |
| Text.IndexFromIsFirst | plotter_sketch/src/gcode_parser.h:153 | The scan from `startIndex` finds the first newline at or after it; nothing between holds one. |
| Text.SegmentsHaveNoNewline | plotter_sketch/src/gcode_parser.h:152-165 | No segment the block visits contains a newline. |
| Text.SegmentsOfTerminated | plotter_sketch/src/gcode_parser.h:152-165 | Splitting text in which every line ends with a newline gives back exactly those lines. A trailing newline adds no segment. |
| Text.SegmentsOfJoined | plotter_sketch/src/gcode_parser.h:152-165 | Splitting newline-separated lines gives them back, interior empty lines included, provided the last line is not empty. |
| Number.ParseNumber | plotter_sketch/src/gcode_parser.h:50 | `toFloat` gives a negative value only when the number, after leading white space, starts with a minus sign. |
| Number.MagnitudeDecimal | plotter_sketch/src/gcode_parser.h:50 | Unsigned digits, a point and fraction digits read back as the integer part plus the fraction digits' value over 10^(their count). |
| Number.ParseDecimal | plotter_sketch/src/gcode_parser.h:50 | `toFloat` reads back any decimal `a.ds`, with or without a minus sign, whatever non-numeric text follows it. |
| Number.ParseRendered | plotter_sketch/src/gcode_parser.h:50 | `toFloat` reads back any integer written in decimal, with or without a minus sign, whatever non-numeric text follows it. |
| Number.NonNumericIsZero | plotter_sketch/src/gcode_parser.h:50 | Text without a leading number reads as 0. It is not an error. |
| GCode.Decode | plotter_sketch/src/gcode_parser.h:72-140 | A mnemonic is unknown exactly when it is not one of the twelve spellings the dispatch compares against. |
| GCode.Mnemonic | plotter_sketch/src/gcode_parser.h:33-39 | With a space after position 0, the command is the non-empty, space-free text before the first space. Otherwise it is the whole line. |
| GCode.Resolve | plotter_sketch/src/gcode_parser.h:47-69 | A parameter is given exactly when its letter occurs. Without it, the target is the current coordinate. |
| GCode.ExecuteLine | plotter_sketch/src/gcode_parser.h:20-141 | The line succeeds exactly when its mnemonic is known. A failing, blank or comment line changes nothing. `G90`/`G91` only set the mode; `M114` changes nothing; `M18`/`M84` clear the coils and keep phases and position. The end positions are: `G0` at (x, y, 5) or (curX, curY, 5); `G1` at (x, y, z) or (curX, curY, 0); `G28` at (0, 0, 5); `M3`/`M5` change only Z, to 0 or 5. |
| GCode.Then | plotter_sketch/src/gcode_parser.h:160-162 | A line adds one to the count exactly when it is recognised. An unrecognised line leaves the running totals and the state as they were. |
| GCode.RunLinesCount | plotter_sketch/src/gcode_parser.h:148-168 | A block's count is the number of lines minus the number of unknown commands, from any starting state. |
| GCode.RunLinesAppend | plotter_sketch/src/gcode_parser.h:152-165 | Running `a + b` is running `a` and then `b` from where `a` left off. Counts add and traces concatenate. |
| GCode.FailingLineIsTransparent | plotter_sketch/src/gcode_parser.h:160-164 | An unknown line never affects the lines after it. The run is the same as if the line were absent. |
| GCode.ModePersists | plotter_sketch/src/gcode_parser.h:96-107 | The positioning mode is unchanged across any run of lines that are neither `G90` nor `G91`. |
| GCode.ExecuteBlock | plotter_sketch/src/gcode_parser.h:148-168 | The scanning loop computes exactly the run of the text's segments: the same count, final state and steps. Its count is the number of segments minus the unknown lines. |
| GCodeProperties.RelativeIsOffset | plotter_sketch/src/gcode_parser.h:51 | Relative mode reads the same number as absolute mode and adds it to the current coordinate. Both keep the coordinate when the letter is absent. |
| GCodeProperties.ReadsAfterFirstOccurrence | plotter_sketch/src/gcode_parser.h:48-53 | A parameter is `toFloat` of all the text after the first occurrence of its letter, added to the current coordinate in relative mode. Earlier text without the letter plays no part. |
| GCodeProperties.ReadsFirstOccurrence | plotter_sketch/src/gcode_parser.h:48-53 | For an integer literal, a parameter is the number right after the first occurrence of its letter, or the current coordinate plus it in relative mode. Whatever follows is ignored, including later occurrences of the letter. |
| GCodeProperties.ReadsFirstDecimal | plotter_sketch/src/gcode_parser.h:48-53 | The same for a decimal literal `[-]a.ds`: the parameter is exactly a + ds/10^\|ds\|, negated after a minus sign, whatever follows it. |
| GCodeProperties.CanonicalLine | plotter_sketch/src/gcode_parser.h:21-22 | A line with no surrounding white space and no lower-case letter is read as it stands. |
| GCodeProperties.NoSpaceNoCommand | plotter_sketch/src/gcode_parser.h:33-39 | `G1X5` is looked up whole and is an unknown command. |
| GCodeProperties.TabIsNoSeparator | plotter_sketch/src/gcode_parser.h:34 | A tab does not end the mnemonic: `G1<tab>X5` is unknown. |
| GCodeProperties.SpaceSeparates | plotter_sketch/src/gcode_parser.h:34-36 | `G1 X5` is a `G1`. |
| GCodeProperties.CaseAndSpaceInsensitive | plotter_sketch/src/gcode_parser.h:21-22 | For every line and state, upper-casing the line, trimming it, or both, changes neither the outcome, the end state nor the steps: case and surrounding white space do not matter. |
| GCodeProperties.PaddedLowerCaseHomes | plotter_sketch/src/gcode_parser.h:21-22 | The padded, lower-case line `  g28\r` homes. |
| GCodeProperties.CommentsSucceed | plotter_sketch/src/gcode_parser.h:21-27 | A line that starts with `;` or `(` once trimmed, or that holds only white space, succeeds and changes nothing. |
| GCodeProperties.DrawWithoutZKeepsHeight | plotter_sketch/src/gcode_parser.h:42-88 | `G1` resolves targets from the position before its own pen-down. With X or Y but no Z, it ends at the height the line started from, not necessarily on the paper (Z = 0). |
| GCodeProperties.TravelIgnoresZ | plotter_sketch/src/gcode_parser.h:72-80 | `G0` always ends with the pen up, whatever Z the line gives. |
| Scenarios.RelativeThenAbsolute | plotter_sketch/src/gcode_parser.h:48-107 | From power-on, `G91`, `G1 X5`, `G1 X5` ends at X = 10: relative moves accumulate. A further `G90`, `G1 X5` ends at X = 5: absolute targets override. |
| Scenarios.XOfDecimalLine | plotter_sketch/src/gcode_parser.h:48-53 | In `G1 X12.34 Y-0.50`, X reads exactly 12.34 in absolute mode. |
| Scenarios.YOfDecimalLine | plotter_sketch/src/gcode_parser.h:56-61 | In the same line, Y reads exactly -0.5. |
| Scenarios.BlockCountsThree | plotter_sketch/src/gcode_parser.h:148-168 | The block `G90\nG1 X5 Y5\nBOGUS\nM5` counts 3 from any state. |
| Scenarios.BlockEndsAtFiveFiveFive | plotter_sketch/src/gcode_parser.h:148-168 | From power-on that block ends at (5, 5, 5). The unknown line in the middle changes nothing. |
| Bench.SetMotorStep | motor_test_project/src/main.cpp:204-221 | The named driver shows the given table entry. Other drivers and the shared counter are untouched, and an unknown letter writes nothing. |
| Bench.RotateMotor | motor_test_project/src/main.cpp:173-197 | The shared counter ends at `(old ± n) mod 8`, or unchanged for `n <= 0`. The named driver shows the final counter's pattern. Every other driver is untouched. |
| Bench.StopMotor | motor_test_project/src/main.cpp:227-244 | Only the named driver goes LOW. The counter is unchanged, and an unknown letter writes nothing. |
| Bench.StopAllMotors | motor_test_project/src/main.cpp:249-253 | All three drivers go LOW and the counter is unchanged. |
| Bench.RevolutionKeepsPhase | motor_test_project/src/main.cpp:45 | 4096 half-steps is a whole number of table turns, so a revolution in either direction returns the counter to where it was. |
| Bench.Exercise | motor_test_project/src/main.cpp:110-113 | One revolution and a stop of an axis leaves the counter unchanged, that axis off, and the other axes untouched. |
| Bench.TestCycle | motor_test_project/src/main.cpp:105-165 | A whole `loop()` cycle leaves the shared counter where it was and every driver off, from any state. |
| Bench.SharedCounter | motor_test_project/src/main.cpp:173-185 | The counter is shared: after `k` clockwise steps of X, one clockwise step of Y shows pattern `k + 1` (mod 8), not pattern 1. |

## Left out

- Hardware I/O and timing are not modelled: `pinMode`, `digitalWrite`, `delay`,
  `delayMicroseconds` and `Serial` output. Coil writes become driver state,
  unit steps become trace events, and timing has no checkable logic.
- The bench sketch's LEDs and progress prints are left out for the same
  reason.
- `initMotors` and `setup` are left out. They only configure pins and drive
  everything LOW; `Initial` and `Start` are their end states.
- Floating-point rounding is not modelled. Coordinates are exact reals, so
  `toFloat`'s decimal-to-binary conversion, `currentX + xValue`,
  `x - currentX` and the product before the cast do not round. A parameter
  such as `12.34` therefore reads exactly in the model, but only as the
  nearest `float` on the board.
- Overflow of the `(int)` cast for huge coordinates is not modelled, because
  the step counts are unbounded integers.
- Number.ParseNumber: reads only an optional sign, digits and an optional
  fraction after leading white space. Exponents, hexadecimal, `inf` and `nan`
  in `String::toFloat` are not modelled, because that library's source is not
  part of this model.
- The web front end (`plotter_sketch/src/main.cpp`, `web_interface.h`) is left
  out. It is network plumbing and client-side JavaScript.
- The globals `lastX`/`lastY`/`lastZ` (`gcode_parser.h` lines 11-13) are left
  out, because they are never read.
- Bench.SetMotorStep: takes a phase in 0..7. The firmware's version has no
  `% 8` guard, and an index outside the table is undefined behaviour in C++.
  `Bench.RotateMotor`'s contract shows the counter it passes always lies in
  0..7.
