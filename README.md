# Chess gantry: move conversion and serial sequencing

A model of `src/index.ts` of the chess-bot gantry. The program reads chess
moves such as `c2c4` at a prompt. For each move it drives an X-Y gantry over
two serial ports:

- the **mover** port receives relative G-code motions;
- the **picker** port receives head and magnet commands.

Each move is converted into three legs:

1. from the park square `a8` (file 0, rank 7) to the source square, then
   pick up;
2. from the source to the target, then put down;
3. from the target back to park.

Each leg is one command `G21 G91 G1 X<dx> Y<dy> F200`. One board square is
half a motion unit. The program waits 286 ms per square of the longer axis
difference before it sends anything else. Picking up and putting down are
`A_DOWN`, `M_ON` or `M_OFF`, then `A_UP`. Each is followed by a fixed delay
(1700, 100 and 1700 ms). Nothing is acknowledged: every gap is a timed
delay. The answer `quit` closes the prompt and both ports.

Modules:

- `Text` (`text.dfy`): `Option`, `IndexOf`, and decimal digit strings.
- `NumberFormat` (`number_format.dfy`):
  - `roundTo3Decimals` on an exact rational, with the result held as a whole
    number of thousandths;
  - how a template string prints such a number;
  - a reader for the printed text.
- `GCode` (`gcode.dfy`): squares, `ParseMove`, legs and their waits,
  `MotionCommand`, `ConvertChessMoveToGCode`.
- `Sequencer` (`sequencer.dfy`):
  - the event trace of one move (`MoveSchedule`) and of many (`Schedules`);
  - the class `MoveSequencer`. Its fields are the lines written to each
    port, the ordered trace of writes and waits, the elapsed clock and a
    closed flag. Its methods are `sendMoverCommand`, `sendPickerCommand`,
    `delay`, one prompt answer, and `promptForMove`.

The code validates nothing and converts whatever it is given. Its numbers
stay numbers whenever the second and fourth characters of the answer are
decimal digits. In that case a file character outside `a`–`h` simply gives a
square off the board.

The code indexes the answer in UTF-16 code units and the model in code
points. Both agree when the first and third characters lie in the Basic
Multilingual Plane. Outside it, the code splits a surrogate pair and prints
`NaN`. The model's domain, `GCode.NumericMove`, is therefore: at least four
characters, digits in positions 1 and 3, and the characters in positions 0
and 2 below U+10000. Board-only facts (waits of at most seven squares, square
names) require the prompt's format `[a-h][1-8][a-h][1-8]`
(`GCode.WellFormedMove`).

`c4` is file 2, rank 3, so the middle leg of `c2c4` is `X0 Y1`
(`GCode.ConvertC2C4`). `c2e4` has the diagonal middle leg `X1 Y1`
(`GCode.ConvertC2E4`).

## Model

| member | source | states |
|---|---|---|
| NumberFormat.RoundTo3Decimals | src/index.ts:41-43 | defined by its body on the exact value `num / den`, in thousandths; its properties are stated by `RoundsToNearestThousandth` and `HalfUnitsSurviveRounding` |
| NumberFormat.RoundsToNearestThousandth | src/index.ts:41-43 | `toFixed(3)` then `parseFloat` gives the thousandth nearest to the magnitude, the larger one on a tie, with the sign kept: `2d·|k| <= 2000·|n| + d < 2d·(|k|+1)` |
| NumberFormat.HalfUnitsSurviveRounding | src/index.ts:70-71 | a difference of `n` squares times 0.5 comes out of the rounding as exactly `500·n` thousandths, so the rounding never changes a delta |
| NumberFormat.RenderNumber | src/index.ts:72 | defined by its body: sign, integer part, nonzero decimals; its properties are stated by `RenderNumberHasNoSpace`, `RenderHalfUnitsAgrees` and `RenderNumberRoundTrip` |
| NumberFormat.RenderNumberHasNoSpace | src/index.ts:72 | the printed value is never empty and contains no space, so `X<dx> Y<dy>` separates at the first space |
| NumberFormat.RenderHalfUnitsAgrees | src/index.ts:70-72 | a rounded multiple of 0.5 prints as sign, `|n| / 2`, then `.5` when `n` is odd (`1`, `-3`, `1.5`, `-0.5`, `0`) |
| NumberFormat.MagnitudeRoundTrip | src/index.ts:72 | the printed magnitude starts with a digit and reads back as the same number of thousandths |
| NumberFormat.RenderNumberRoundTrip | src/index.ts:72 | printing loses nothing: reading the printed text of any value gives the value back |
| NumberFormat.FractionRoundTrip | src/index.ts:72 | the decimals printed without trailing zeros read back as the same fraction |
| Text.ParseNatToString | src/index.ts:72 | the integer part printed in decimal reads back as the same number |
| GCode.SquareOf | src/index.ts:62-65 | defined by its body: character code minus that of `a`, digit minus one; its properties are stated by `SquareOfOnBoard`, `SquareOfToken` and `SquareOfInjective` |
| GCode.SquareOfOnBoard | src/index.ts:62-65 | a token gives a square on the board exactly when it is `[a-h][1-8]`, and then the token is that square's name |
| GCode.SquareOfToken | src/index.ts:62-65 | each of the 64 squares is read back from its own name |
| GCode.SquareOfInjective | src/index.ts:62-65 | two tokens give the same square exactly when they are the same text |
| GCode.ParseMove | src/index.ts:54-55 | defined by its body: source from characters 0-1, target from 2-3; its properties are stated by `ParseMoveOnBoard`, `SameSquareIffSameToken` and `IgnoresTrailingCharacters` |
| GCode.ParseMoveOnBoard | src/index.ts:54-65 | both parsed squares are on the board exactly when the move is in the prompt's format, and then characters 0-1 name the source and 2-3 the target |
| GCode.IgnoresTrailingCharacters | src/index.ts:54-55 | characters after the fourth do not change the result |
| GCode.SameSquareIffSameToken | src/index.ts:54-65 | source and target are the same square exactly when the two tokens are equal |
| GCode.DominantSteps | src/index.ts:74-81 | the wait counts the larger of the two axis differences, and is one of them |
| GCode.LegBetween | src/index.ts:70-81 | defined by its body: both axis differences times 0.5 through the rounding, and 286 ms per square of the dominant axis; its properties are stated by `LegShape`, `LegBounds`, `LegReversed` and `LegStillIffSameSquare` |
| GCode.LegShape | src/index.ts:70-81 | a leg's deltas are exactly half a unit per square on each axis, and its wait is 286 ms per square of the larger difference |
| GCode.LegBounds | src/index.ts:70-81 | on the board every delta is a multiple of 0.5 between -3.5 and 3.5, and every wait is at most 7 × 286 ms |
| GCode.LegReversed | src/index.ts:100-111 | going back along a leg negates both deltas and takes the same wait |
| GCode.LegsReturnToPark | src/index.ts:70-111 | the three legs cancel: the X deltas sum to 0 and so do the Y deltas |
| GCode.MotionCommand | src/index.ts:72 | defined by its body: the template `G21 G91 G1 X<dx> Y<dy> F200`; its properties are stated by `MotionCommandRoundTrip`, `MotionCommandInjective` and `MotionCommandInHalfUnits` |
| GCode.MotionCommandRoundTrip | src/index.ts:72 | the two deltas read back out of the command text unchanged |
| GCode.MotionCommandInjective | src/index.ts:72 | different deltas never give the same command text |
| GCode.MotionCommandInHalfUnits | src/index.ts:70-72 | a command whose deltas are multiples of 0.5 prints them in half-unit form |
| GCode.LegCommandInHalfUnits | src/index.ts:85-87 | a leg's command is `G21 G91 G1 X<Δfile/2> Y<Δrank/2> F200` |
| GCode.ConvertChessMoveToGCode | src/index.ts:45-123 | defined by its body: the commands and waits of the legs park→source, source→target and target→park through the parsed squares; its properties are stated by `CommandsReturnToPark`, `MiddleLegStillIffSameSquare`, `ConvertWaitsBounded`, `IgnoresTrailingCharacters`, `ReturnWaitMirrorsOutbound` and the two examples |
| GCode.CommandsReturnToPark | src/index.ts:68-122 | the X values read back from the three command texts sum to 0, and so do the Y values |
| GCode.ConvertWaitsBounded | src/index.ts:74-111 | for a move on the board no wait exceeds 7 × 286 ms |
| GCode.ReturnWaitMirrorsOutbound | src/index.ts:74-111 | the wait to leave park for a square equals the wait to return from that square to park |
| GCode.LegStillIffSameSquare | src/index.ts:85-96 | a leg waits 0 and its command is `G21 G91 G1 X0 Y0 F200` exactly when it joins a square to itself |
| GCode.MiddleLegStillIffSameSquare | src/index.ts:85-96 | the middle leg is the zero command with wait 0 exactly when source and target tokens are equal, and that command is still sent |
| GCode.ConvertC2C4 | src/index.ts:54-122 | `c2c4` gives `X1 Y-3` / 1716 ms, `X0 Y1` / 572 ms, `X-1 Y2` / 1144 ms |
| GCode.ConvertC2E4 | src/index.ts:54-122 | `c2e4` gives `X1 Y-3` / 1716 ms, `X1 Y1` / 572 ms, `X-2 Y2` / 1144 ms |
| Sequencer.PickerCycleEffects | src/index.ts:161-166 | a pick or drop writes `A_DOWN`, the magnet toggle, `A_UP` to the picker port only, and waits 3500 ms |
| Sequencer.MoveSchedule | src/index.ts:159-178 | defined by its body: the events of one move in source order; its properties are stated by `MoveScheduleEffects` and `MoveDurationBounds`, and `PlayMove` is proved to run it |
| Sequencer.MoveScheduleEffects | src/index.ts:159-178 | one move writes exactly its three commands, in order, to the mover port and the six head/magnet lines to the picker port; it waits the three computed waits plus 7000 ms |
| Sequencer.MoveDurationBounds | src/index.ts:159-178 | a move whose waits are on-board waits takes between 7000 and 7000 + 3 × 7 × 286 ms |
| Sequencer.PlansBeforeQuit | src/index.ts:140-183 | exactly the answers before the first `quit` are converted, one plan each |
| Sequencer.PlansBeforeQuitBounded | src/index.ts:140-183 | when every answer before `quit` is on the board, no converted leg waits more than seven squares |
| Sequencer.SchedulesEffects | src/index.ts:159-180 | over several moves the mover port sees all their commands in order, the picker port six lines per move, and the clock their waits plus 7000 ms per move |
| Sequencer.SchedulesTotals | src/index.ts:159-180 | over `n` on-board moves: `3n` mover lines, `6n` picker lines, and between `7000n` and `(7000 + 3 × 7 × 286)n` ms |
| Sequencer.MoverCommandsAt | src/index.ts:159-177 | the three mover lines of the `i`-th move sit at positions `3i` to `3i + 2` |
| Sequencer.SessionEffects | src/index.ts:140-183 | a prompt session adds to each port and to the clock exactly what the moves before the first `quit` produce |
| Sequencer.AnswerCommandsAt | src/index.ts:151-177 | the mover lines at `3i` to `3i + 2` are the three commands the conversion gives for the `i`-th answer |
| Sequencer.MoveSequencer.constructor | src/index.ts:11-17 | both ports and the prompt start open, with nothing written and no time spent |
| Sequencer.MoveSequencer.SendMoverCommand | src/index.ts:21-29 | the command followed by `\r\n` is appended to the mover port and nothing else changes |
| Sequencer.MoveSequencer.SendPickerCommand | src/index.ts:31-39 | the command followed by `\r\n` is appended to the picker port and nothing else changes |
| Sequencer.MoveSequencer.Delay | src/index.ts:136-138 | the clock advances by the given milliseconds and no port is written |
| Sequencer.MoveSequencer.Motion | src/index.ts:159-160 | a motion command then its computed wait |
| Sequencer.MoveSequencer.PickerCommand | src/index.ts:161-162 | a picker command then its fixed wait |
| Sequencer.MoveSequencer.HeadCycle | src/index.ts:161-166 | head down, magnet toggle, head up, each followed by its delay |
| Sequencer.MoveSequencer.PlayMove | src/index.ts:159-178 | the trace grows by exactly the move's schedule, in source order |
| Sequencer.MoveSequencer.HandleAnswer | src/index.ts:141-178 | `quit` closes and changes nothing else. A move appends its schedule, three mover lines and six picker lines, and advances the clock by its waits plus 7000 ms |
| Sequencer.MoveSequencer.PromptForMove | src/index.ts:140-183 | after a sequence of answers the prompt is closed exactly when `quit` was among them. The trace grows by the schedules of the moves before the first `quit`, in order |

## Left out

- Serial port set-up (paths, baud rate), the `readline` interface, the
  `data`, `error` and `close` listeners, and the write callbacks with their
  error logging are not modelled. Every write is taken to succeed.
- Console logging is not modelled. This includes the second-move line that
  the conversion logs twice.
- Standard input becomes the `answers` parameter. Real timers become a clock
  that `Delay` advances. The asynchronous callback and its `await`s are
  modelled as straight-line code. The re-prompt at the end of the callback is
  a recursive call.
- If the answers run out without `quit`, the model returns with the prompt
  still open; the program would wait for more input.
- Closing is one flag standing for the prompt and both ports. The code never
  writes after closing, so the methods that write require the flag to be
  unset.
- Floating point is not modelled. Every value the conversion prints has at
  most three decimals and is held exactly in thousandths. Number-to-string
  conversion is modelled only for such values, where it never uses exponent
  notation.
- Answers whose first or third character lies outside the Basic
  Multilingual Plane are not modelled: the code splits the surrogate pair
  and prints `NaN`. `GCode.NumericMove` excludes them.
- GCode.ConvertChessMoveToGCode: requires `NumericMove`. Answers shorter than
  four characters, with a non-digit second or fourth character, or with a
  first or third character outside the Basic Multilingual Plane make the
  code print `NaN` in the commands and wait `NaN` ms. These inputs are not
  modelled.
- Sequencer.MoveSequencer.PromptForMove: requires every answer before the
  first `quit` to satisfy `NumericMove`, for the same reason.
- Sequencer.MoveSequencer.HandleAnswer: requires `quit` or an answer
  satisfying `NumericMove`, for the same reason.
