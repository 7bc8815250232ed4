# Stepper, DC-motor, servo and line-finder drivers in Dafny

This project models the motor drivers of a small MicroPython robotics
package, and proves properties of that model. It covers:

- `steppers2.py`: `HBRIDGE` drives a stepper through four H-bridge
  channels of a PCA9685 PWM expander, walking a phase table. `A4899` drives
  a step/direction driver chip through three GPIO pins. Both clamp the
  step counter to `[smin, smax]` and pace their writes against a
  microsecond clock.
- `makerbit.py`: `DCMotors` stores a speed for each of four motors and
  writes two PWM channels per motor. `Servos` keeps eight positions and
  writes a proportional duty per position.
- `stepper.py` and `stepper1.py`: table-driven unipolar steppers on four
  fixed expander channels. `stepper.py` also has a driver that interleaves
  single steps of several steppers.
- `makerbit_linefinder.py`: classifies the readings of two input pins.

## How the model is built

- **The expander.** `Pca9685.Chip` keeps a log of every command sent to
  it: `freq`, `pwm(channel, on, off)` and `duty(channel, value)`. Each
  driver's methods append to that log, and their contracts state exactly
  what they append.
- **GPIO pins.** `A4899` keeps its own log of pin levels (`levels`).
- **The clock.** `HBridge` and `A4899` model it as an integer field,
  `clock`, in µs. A clocked call receives the instant `at` at which it
  begins. Inside the call, only the driver's own sleeps move the clock:
  each busy-wait poll adds 10 µs, and each step pulse adds 10 µs.
- **Emission instants.** A ghost log, `stamps`, records the instant of
  every write that sets `last`. `last` is always the latest stamp, or the
  instant of construction before the first one. Pacing is shown in
  `StepRules`: the emissions of a call follow `Schedule`. Each emission
  happens no earlier than its target. It is less than one poll late
  whenever an emission takes no longer than the interval
  (`FirstRunWithinPoll`). HBRIDGE's emissions take no time. An `A4899`
  pulse takes 10 µs, so the bound needs an interval of at least 10 µs.
  With a shorter interval, every pulse falls further behind
  (`ScheduleFallsBehind`). On a clock aligned to the poll, the emissions
  are exactly one interval apart.
- **Python errors** are explicit results:
  - `beep` divides by zero when its interval rounds to 0. That is `None`.
  - `position` and `rotate` divide by zero when `max_degrees == 0`. That
    is `Reply.DivByZero`.
  - In `stepper.py`, the slice `mode[::0]` raises `ValueError`. `Step`
    returns `false` for that.
- **Glitchy pin reads.** The line finder reads its pins again for every
  test. `LineFinder.Read` therefore takes the successive readings as
  parameters, and `ReadGlitch` exhibits the `-1` result the source can
  return.

### Behaviour of the code worth knowing

- **`pset` ignores its `state` argument.** `HBRIDGE.pset` writes
  `self.istate`, which is fixed at construction (steppers2.py:158-161). So
  `step`, `sleep` and `wake` all write the same four levels, whichever
  phase vector or off-vector they pass: `step` passes `mode[index]` to
  `pset` (steppers2.py:199, 210), whose `state` parameter goes unused.
  The model reproduces the writes as coded: see `HBridge.Pset` and
  `PsetIgnoresTable`. The phase index is still tracked and proved to wrap
  correctly.
- **HBRIDGE's `wake` and `sleep` count as emissions.** They go through
  `pset`, so they update `last` and take part in pacing. `A4899.sleep` and
  `wake` (steppers2.py:274-282) do not touch `last`.
- **Spacing is not exact.** The busy-wait polls every 10 µs. Consecutive
  emissions of one call are exactly one interval apart only when the
  clock is aligned to the poll (`ScheduleExact`). Otherwise each is less
  than 10 µs late, provided an emission takes no longer than the interval
  (`FirstRunWithinPoll`). For `A4899`, whose pulse takes 10 µs, that means
  an interval of at least 10 µs: `sps` up to about 105000 in `step`, and
  `freq` up to about 52600 in `beep` (steppers2.py:295, 336). Above that,
  the lateness grows by 10 − stime µs per pulse (`ScheduleFallsBehind`).
  Both facts hold in the model's clock, which only the driver's own polls
  and pulses advance.
- **No configuration checks.** No constructor rejects an empty table, a
  non-positive rate or `smin > smax`. The model adds no checks of its own
  beyond the `requires` listed under "Left out".
- **The chip argument is ignored.** `HBRIDGE.__init__` (steppers2.py:78),
  `stepper.py`'s `Stepper.__init__` (stepper.py:64) and `stepper1.py`'s
  (stepper1.py:15) never use `pca9685_obj`. Each opens a new
  `PCA9685(__i2c, 0x40)` on the module's `__i2c`. The model takes the chip
  as a parameter instead: every such object is the one expander at
  address 0x40.
- **`beep` does not call `step`.** It inlines its own loop and
  divides by zero from 1 MHz up (`BeepStimeZero`).

## Model

| member | source | states |
|---|---|---|
| Pca9685.PinWrite | steppers2.py:138-142 | a value of 1 turns the channel fully on (on = 4096), and any other value turns it off; the off count is always 0 |
| Pca9685.VectorWrites | steppers2.py:158-161 | setting four pins makes exactly four writes, and write j sets pin j to entry j of the vector |
| Pca9685.RowsWrites | stepper.py:89-93 | a table of n rows takes 4n writes |
| Pca9685.RowsWritesAt | stepper.py:89-93 | row k of a table is written by commands 4k to 4k+3, in pin order |
| Pca9685.ResetWrites | stepper.py:97-102 | reset makes four writes, each turning a pin off |
| Sequences.Reverse | steppers2.py:95-99 | reversal keeps the length |
| Sequences.ReverseAt | steppers2.py:95-99 | element k of the reversed table is element len-1-k of the original |
| Sequences.ReverseReverse | steppers2.py:95-99 | reversing twice gives back the original table |
| Sequences.SumZero | stepper.py:51-54 | a total of non-negative step counts is non-negative, and zero exactly when every count is zero |
| StepRules.Clamp | steppers2.py:169 | the counter stays within [smin, smax]; a request that fits is kept; one that overshoots stops exactly at smax or smin |
| StepRules.ClampNearest | steppers2.py:169 | of all counts that keep the counter in bounds, the clamped count is the one nearest the request |
| StepRules.RoundHalfEven | steppers2.py:180 | rounding a non-negative quotient gives a non-negative result |
| StepRules.RoundHalfEvenNearest | steppers2.py:180 | the rounded quotient is within half a unit of n/d, and even on an exact tie (Python's `round`) |
| StepRules.RoundHalfEvenUnique | steppers2.py:180 | only one integer meets that rounding contract |
| StepRules.Stime | steppers2.py:180 | the interval between steps is never negative |
| StepRules.StimeDefault | steppers2.py:134-180 | the default rate of 200 steps per second gives 5000 µs between steps |
| StepRules.FirstTarget | steppers2.py:182-185 | the first target is 'now' or last+stime, whichever is later |
| StepRules.Settle | steppers2.py:156-157 | the busy-wait never moves the clock back, reaches a non-zero target, and does not wait for a falsy or past target |
| StepRules.SettleNear | steppers2.py:156-157 | the wait overshoots its target by less than 10 µs, and not at all on an aligned clock |
| StepRules.Schedule | steppers2.py:192-211 | n paced emissions have n instants |
| StepRules.ScheduleMeetsTargets | steppers2.py:192-211 | emission k happens no earlier than w + k·stime and no earlier than the clock it found; it is less than one poll late unless the clock was already past the target |
| StepRules.ScheduleWithinPoll | steppers2.py:192-211 | if the first target is not behind the clock and each emission takes no longer than stime, emission k lies in [w + k·stime, w + k·stime + 10) |
| StepRules.FirstRunWithinPoll | steppers2.py:179-211 | the run a call starts from FirstTarget meets every target within one poll whenever the emission gap is at most stime |
| StepRules.ScheduleFallsBehind | steppers2.py:315-322 | with a 10 µs pulse and a 1 µs interval, the third emission comes 18 µs after its target |
| StepRules.ScheduleExact | steppers2.py:192-211 | on an aligned clock, emission k happens exactly at w + k·stime |
| Steppers2.ModesAreBits | steppers2.py:39-58 | the three phase tables hold only 0 and 1, four to a row |
| Steppers2.SelectTable | steppers2.py:82-90 | mode 3 selects a table of 8 states and every other mode one of 4; every state is four pin levels 0 or 1 |
| Steppers2.Table | steppers2.py:82-115 | reversing and inverting keep the number of states of the selected table |
| Steppers2.InvertTable | steppers2.py:102-115 | the nested invert loop computes Invert of the table |
| Steppers2.InvertInvolutive | steppers2.py:102-115 | complementing a bit table twice gives it back |
| Steppers2.TableShape | steppers2.py:82-115 | mode 3 gives 8 states and every other mode 4; after reversal and inversion every row is four bits |
| Steppers2.TableReversed | steppers2.py:94-99 | with reverse=True, state k is state len-1-k of the unreversed table |
| Steppers2.TableInverted | steppers2.py:101-115 | with invert=True, every pin of every state is 1 minus its level without invert |
| Steppers2.StepUp | steppers2.py:205-208 | from an index in 0..imax, the next forward index is again in 0..imax |
| Steppers2.StepDown | steppers2.py:194-197 | from an index in 0..imax, the next backward index is again in 0..imax |
| Steppers2.Walk | steppers2.py:191-211 | any number of steps in either direction keeps an index in 0..imax within 0..imax |
| Steppers2.StepUpMod | steppers2.py:205-208 | a forward index step from a reduced position adds one modulo the table length, and stays within 0..imax |
| Steppers2.StepDownMod | steppers2.py:194-197 | a backward index step subtracts one modulo the table length, and stays within 0..imax |
| Steppers2.WalkMod | steppers2.py:191-211 | n steps move the index by n modulo the table length, forward or backward |
| Steppers2.WalkSigned | steppers2.py:191-211 | a run of effective steps eff leaves the index at (index + eff) mod length, within 0..imax |
| Steppers2.HBridge.constructor | steppers2.py:64-136 | selects, reverses and inverts the table; sets the off-vector, the sleep flag, istate, the pins and the default rate (0 means 200); sends freq(50) |
| Steppers2.HBridge.Pin | steppers2.py:138-142 | logs one PinWrite of the level |
| Steppers2.HBridge.Zero | steppers2.py:144-145 | the step count becomes 0 and nothing else changes |
| Steppers2.HBridge.Pset | steppers2.py:155-162 | waits until Settle(clock, waitfor), writes istate on p1..p4 (whatever state is passed), and records the instant as last |
| Steppers2.HBridge.Sleep | steppers2.py:147-149 | one pset write group at once (no pacing); the motor is marked asleep |
| Steppers2.HBridge.Wake | steppers2.py:151-153 | one pset write group at once (no pacing); the motor is marked awake |
| Steppers2.HBridge.Step | steppers2.py:164-220 | the count moves by the clamped request and is returned; the index walks that many states; the log gets a wake group if asleep, one group per step, and a sleep group if asked; the steps are stamped at Schedule's instants; a call that emits nothing leaves last unchanged |
| Steppers2.HBridge.Drive | steppers2.py:187-215 | wake if off, run the states, sleep if asked: the writes, index, count and instants that Step states |
| Steppers2.HBridge.Run | steppers2.py:191-211 | the stepping loops: n pset groups at the Schedule instants; the index walks n states forward or back; the signed count is ±n |
| Steppers2.PsetIgnoresTable | steppers2.py:155-162 | every group of four writes in a run of psets is the same istate vector |
| Steppers2.StepOps | steppers2.py:302-327 | `step` writes one enable level if asleep, one direction level, two levels per effective step and one disable level if asked to sleep; the direction level follows the optional enable |
| Steppers2.PulseMoves | steppers2.py:320-322 | one step pulse moves the motor one step in the current direction, keeps the direction and counts as one pulse |
| Steppers2.PulsesMove | steppers2.py:315-323 | n step pulses move the motor n steps in the current direction and leave the direction unchanged |
| Steppers2.StepMoves | steppers2.py:284-331 | the pin writes of `step` move the motor by exactly the effective count, with one pulse per step, whatever the previous direction |
| Steppers2.BeepOps | steppers2.py:345-374 | `beep` writes six levels per cycle, plus the optional enable and disable levels |
| Steppers2.CycleMoves | steppers2.py:353-370 | one beep cycle makes two pulses and no net movement, and leaves the direction line at reverse |
| Steppers2.CyclesMove | steppers2.py:350-370 | n beep cycles make 2n pulses and no net movement |
| Steppers2.BeepMoves | steppers2.py:333-381 | `beep` makes two pulses per cycle and leaves the motor where it was |
| Steppers2.BeepStime | steppers2.py:336 | the beep interval is never negative |
| Steppers2.BeepStimeZero | steppers2.py:336-337 | the interval is 0, so the cycle count divides by zero, exactly when freq >= 1000000 |
| Steppers2.BeepCount | steppers2.py:337 | a non-negative duration never gives a negative number of cycles |
| Steppers2.BeepA440 | steppers2.py:333-337 | 440 Hz for 250 ms gives 1136 µs between pulses and 110 cycles |
| Steppers2.A4899.constructor | steppers2.py:231-272 | sets the direction levels from reverse, writes step low, direction forward and enable low, then enable per sleep; step count 0; default rate 200 |
| Steppers2.A4899.Zero | steppers2.py:144-145 | the step count becomes 0 |
| Steppers2.A4899.Sleep | steppers2.py:274-277 | writes enable high and marks the chip off |
| Steppers2.A4899.Wake | steppers2.py:279-282 | writes enable low and marks the chip on |
| Steppers2.A4899.SetLevel | steppers2.py:274-282 | a pin write appends exactly one level to the pin log |
| Steppers2.A4899.Emit | steppers2.py:316-322 | waits for the target, records the instant as last, pulses the step line high then low, and takes 10 µs |
| Steppers2.A4899.Step | steppers2.py:284-331 | the count moves by the clamped request and is returned; the levels are StepOps (wake, the direction once, one pulse per step, sleep); the pulses are stamped at Schedule's instants; a call that emits nothing leaves last unchanged |
| Steppers2.A4899.Drive | steppers2.py:302-327 | wake if off, set the direction, pulse, sleep if asked: the levels and instants that Step states |
| Steppers2.A4899.Pulses | steppers2.py:315-323 | n paced pulses at the Schedule instants; the signed count is ±n |
| Steppers2.A4899.Beep | steppers2.py:333-381 | None and no change when the interval rounds to 0; otherwise the unchanged step count is returned, BeepOps is written, 2n pulses are stamped, and a positive pause adds pause ms; a call that emits nothing leaves last unchanged |
| Steppers2.A4899.Burst | steppers2.py:345-374 | wake if off, n cycles, sleep if asked: BeepOps and the 2n Schedule instants |
| Steppers2.A4899.Cycles | steppers2.py:350-370 | n cycles write Repeat(BeepCycle, n) at 2n Schedule instants |
| Steppers2.A4899.Cycle | steppers2.py:352-370 | direction forward, a paced pulse, direction reverse, a paced pulse one interval later |
| Makerbit.ClampSpeed | makerbit.py:33 | the stored speed lies in [-100, 100], equals the value when in range, and saturates otherwise |
| Makerbit.MotorWrites | makerbit.py:38-47 | two writes, to the motor's positive and then negative channel; one of them is 0, and their difference is 40·speed |
| Makerbit.MotorDutyBound | makerbit.py:33-47 | a clamped speed never asks for more than 4000 duty on either channel |
| Makerbit.BrakeIsSpeedZero | makerbit.py:49-57 | braking writes exactly what setting speed 0 writes |
| Makerbit.DCMotors.constructor | makerbit.py:14-18 | sends freq(freq); the four speeds start at 0 |
| Makerbit.DCMotors.Speed | makerbit.py:20-47 | an index outside 0..3: None, no change; no value: returns the stored speed, no change; otherwise stores the clamped speed and writes MotorWrites |
| Makerbit.DCMotors.Brake | makerbit.py:49-57 | an index outside 0..3 changes nothing; otherwise the speed becomes 0 and both channels are written 0 |
| Makerbit.DCMotors.SetWheelSpeed | makerbit.py:98-100 | motors 0 and 1 get the clamped left and right speeds, in that order |
| Makerbit.DCMotors.Stop | makerbit.py:173-177 | all four speeds become 0, and the motors are written in order 0..3 |
| Makerbit.TruncDivBounds | makerbit.py:242-243 | Python's int(a / b) for b > 0 lies between 0 and the exact quotient, less than one unit from it |
| Makerbit.TruncDiv | makerbit.py:242-243 | the truncated quotient is non-negative when dividend and divisor have the same sign, and non-positive otherwise |
| Makerbit.TruncDivMul | makerbit.py:242-243 | an exact multiple divides back to its factor, whatever the signs |
| Makerbit.TruncDivMono | makerbit.py:242-243 | for a positive divisor the truncated quotient grows with the numerator |
| Makerbit.ServoDuty | makerbit.py:241-243 | whenever min_duty <= max_duty, the duty lies within [min_duty, max_duty] |
| Makerbit.ServoDutyEnds | makerbit.py:241-243 | 0 degrees gives min_duty, and max_degrees gives max_duty |
| Makerbit.ServoDutyMonotone | makerbit.py:241-243 | more degrees never give less duty |
| Makerbit.ServoDutyInterpolates | makerbit.py:241-243 | within range, the duty is the exact linear interpolation rounded down |
| Makerbit.InterpolationInRange | makerbit.py:241-243 | within range, the interpolated quotient needs no clamping |
| Makerbit.ServoTarget | makerbit.py:237-239 | a 270-degree servo asked for less than 2 degrees is sent to 2; otherwise the request is kept |
| Makerbit.RotateLimit | makerbit.py:254-258 | a given limit is kept; without one, the limit is 0 when change <= 0 and max_degrees otherwise |
| Makerbit.RotatePath | makerbit.py:250-266 | a non-empty path starts one change away from the start position |
| Makerbit.RotateEnd | makerbit.py:250-266 | one more change from the end crosses the limit, and the end is the start or a position that does not cross it |
| Makerbit.RotateEndIsLast | makerbit.py:251-267 | the rotation ends at the last position of its path, or where it started if the path is empty |
| Makerbit.RotateStep | makerbit.py:251-267 | a move that does not cross the limit is the first element of the path; the rest of the path and the end follow from there |
| Makerbit.RotatePathSpec | makerbit.py:251-267 | each position is the previous one plus change and does not cross the limit; the path ends where the next move would cross it |
| Makerbit.PathWritesSpec | makerbit.py:263-266 | one duty write per position of the path, each the ServoDuty of that position |
| Makerbit.PathWrites | makerbit.py:263-265 | one duty write per position of the path |
| Makerbit.Servos.constructor | makerbit.py:210-222 | keeps the duties and the frequency; sends freq(freq); all eight positions start at 90 |
| Makerbit.Servos.Position | makerbit.py:227-245 | an index outside 0..7: no change; no degrees: returns the stored position; degrees out of range: no change; max_degrees 0: DivByZero; otherwise stores ServoTarget and writes its duty |
| Makerbit.Servos.MoveTo | makerbit.py:241-245 | writes the ServoDuty of the position and stores the position |
| Makerbit.Servos.Rotate | makerbit.py:247-268 | an index outside 0..7: no change; otherwise one duty write per position of RotatePath, ending at RotateEnd; max_degrees 0 (for any change): no write, and DivByZero unless the first move already crosses the limit |
| Makerbit.Servos.Turn | makerbit.py:250-268 | the loop of `rotate`: the servo ends at RotateEnd, the other positions keep their value, and the log gets the PathWrites of RotatePath |
| Makerbit.Servos.Release | makerbit.py:270-271 | writes duty 0 to the servo's channel |
| Stepper.FullRotationTruncates | stepper.py:13 | 509 is the truncation of 4075.7728395061727 / 8 |
| Stepper.TablesAreRows | stepper.py:15-34 | both coil tables have exactly four entries per row, and the first output is channels 11, 10, 8, 9 |
| Stepper.StrideForward | stepper.py:89 | `s[::1]` is s |
| Stepper.StrideBackward | stepper.py:89 | `s[::-1]` is s reversed |
| Stepper.StrideMembers | stepper.py:89 | a slice only picks elements of s, and it is empty only when s is |
| Stepper.StrideRows | stepper.py:89 | any slice of a table whose rows have at least four entries has rows of at least four entries |
| Stepper.StrideLength | stepper.py:89 | `len(s[::k])` is `len(s)` divided by `abs(k)`, rounded up |
| Stepper.Stepper.constructor | stepper.py:63-72 | keeps the table and the delay; uses pins 11, 10, 8, 9; sends freq(50), then the reset |
| Stepper.Stepper.Pin | stepper.py:80-84 | logs one PinWrite of the level |
| Stepper.Stepper.Vector | stepper.py:90-93 | one coil vector goes onto the four pins, in order |
| Stepper.Stepper.Step | stepper.py:86-95 | fails with no writes exactly when direction is 0 and count >= 1; otherwise writes count passes over mode[::direction], then the reset |
| Stepper.Stepper.Sweep | stepper.py:89-94 | one pass writes the rows one after another |
| Stepper.Stepper.Reset | stepper.py:97-102 | all four coils off |
| Stepper.StepForward | stepper.py:86-95 | stepping forward writes count passes over the table in order, 4·len·count + 4 writes in all |
| Stepper.StepBackward | stepper.py:86-95 | stepping backward writes each pass in reversed table order |
| Stepper.StepForwardVector | stepper.py:86-95 | vector k of pass j of a forward step is row k of the table |
| Stepper.StepWritesShape | stepper.py:86-95 | for every direction the slice accepts: count passes over `mode[::direction]`, 4 writes per vector of the slice, then the reset; with count <= 0 only the reset; the last four writes are always the reset |
| Stepper.Command.constructor | stepper.py:36-41 | keeps the stepper, the steps and the direction |
| Stepper.PassSpec | stepper.py:55-60 | one pass serves exactly the commands with steps left, in list order |
| Stepper.PassPrefix | stepper.py:55-60 | one more command in the list adds that command to the pass exactly when it has steps left |
| Stepper.DecSum | stepper.py:55-60 | one pass takes one step from each command it serves |
| Stepper.PassDecreases | stepper.py:54-60 | while steps are left, a pass serves someone and the total goes down |
| Stepper.InterleaveLength | stepper.py:51-60 | the driver makes sum(steps) calls in all |
| Stepper.InterleaveCount | stepper.py:51-60 | command i is served exactly steps[i] times |
| Stepper.PassCount | stepper.py:55-60 | a pass serves a command once when it has steps left, and not at all otherwise |
| Stepper.TraceWritesConcat | stepper.py:55-60 | calls made one after another write one after another |
| Stepper.TraceWritesServe | stepper.py:57-58 | serving command i appends the writes of its stepper's `step(1, direction)` |
| Stepper.Driver.Run | stepper.py:46-60 | serves the commands in the Interleave order, leaves every count at 0, and logs one single step per entry of that order |
| Stepper.Driver.RunPass | stepper.py:55-60 | one pass over the list: Pass(steps) is served, the counts become Dec(steps), and the writes follow |
| Stepper.Serve | stepper.py:57-60 | a command with steps left takes one step(1, direction) and counts it down; otherwise nothing happens |
| Stepper1.BackwardIsReversed | stepper1.py:32-42 | the backward sequence is the forward one reversed |
| Stepper1.FourRows | stepper1.py:32-42 | writing a four-row table is writing its four vectors one after another |
| Stepper1.Stepper.constructor | stepper1.py:13-17 | sends freq(50), then the reset |
| Stepper1.Stepper.Pin | stepper1.py:19-23 | logs one PinWrite of the level |
| Stepper1.Stepper.SetStepper | stepper1.py:25-30 | the four levels go onto A1, A2, B1, B2, in order |
| Stepper1.Stepper.ForwardStep | stepper1.py:32-36 | writes the four forward vectors, in order |
| Stepper1.Stepper.BackwardStep | stepper1.py:38-42 | writes the four backward vectors, in order |
| Stepper1.Stepper.Reset | stepper1.py:44-49 | all four coils off |
| Stepper1.Stepper.Test | stepper1.py:51-57 | 256 forward sequences, then 256 backward ones |
| Stepper1.TestVectors | stepper1.py:51-57 | test writes 2048 vectors; vector v is forward vector v mod 4 for the first 1024 and backward vector v mod 4 after that |
| LineFinder.Classify | makerbit_linefinder.py:16-31 | with steady pins, each of the four codes is returned exactly for its own left/right combination |
| LineFinder.Read | makerbit_linefinder.py:16-31 | the result is -1 or a code 0..3, and it is S1_IN_S2_OUT exactly when the first reads give left on and right off |
| LineFinder.ReadStable | makerbit_linefinder.py:16-31 | if the pins keep their value during a read, the result is the classification and never -1 |
| LineFinder.ClassifyBijective | makerbit_linefinder.py:4-31 | different readings give different codes, and every code 0..3 comes from some reading |
| LineFinder.ReadGlitch | makerbit_linefinder.py:16-31 | a left pin that drops between reads gets -1 |

## Left out

- The PCA9685 driver, the I2C bus, `machine.Pin` and the `time` module
  are foreign code. The expander becomes a command log and the GPIO pins
  become a level log. Bus errors are not modelled.
- Module-level side effects are not modelled: the I2C fallback, the
  shared `pca9685_obj`, and the instances built at import.
- `ticks_us` wrap-around: ticks are unbounded integers. Code between
  sleeps is assumed to take no time.
- `sleep_ms`/`sleep` delays are not modelled: the `delay` of `stepper.py`,
  the settle time of `stepper1.py`, the `sleep` argument of
  `Servos.rotate`, and the `pause` of `beep` beyond the clock it adds.
- The `print` calls in `stepper1.py`'s `test` are not modelled.
- `DCMotors.move`, `forward`, `backward`, the `turn_*` family, `__go` and
  `__turn*`: timed combinations of `speed` and `stop` whose only new
  content is sleeping.
- `DCMotors.stepper` and `stepper_degree`: fixed PWM patterns followed by
  a sleep.
- `Servos.spin`, `_us2duty` and the float `period`: the constructor takes
  the minimum and maximum duty as integers.
- Float arithmetic is treated as exact. `int(min_duty + span *
  degrees / max_degrees)` is the truncated rational quotient
  (`TruncDiv`), and `round` is on the exact quotient; floating-point
  rounding is not modelled.
- `stepper.py`'s `_pwm` is never called.
- `A4899` with `enable=None` is not modelled: the model always has an
  enable pin.
- Steppers2.A4899.Beep: a negative `pause` adds no time, because `sleep_ms`
  of a negative value is left to the foreign `time` module.
- Stepper.Driver.Run: requires distinct command objects, non-negative
  steps, a non-zero direction for every command with steps, and a single
  chip shared by all steppers. Every `Stepper` opens the expander at the
  same address. The non-negative requirement excludes mixed-sign step
  lists, on which the source stops early or never stops: with steps
  `[3, -1]` the total is 2, so it makes 2 calls and leaves the first
  command a step; with `[1, 1, -1]` the total is 1, the first pass makes 2
  calls, and the loop never ends. A negative or fractional total would
  also make the source loop forever.
- Stepper.Stepper.constructor requires every row of the table to have
  at least four entries. A shorter row would raise IndexError in `step`.
- Makerbit.Servos.Rotate requires that the rotation ends (`RotateEnds`)
  when `max_degrees != 0`. With `change == 0` inside the limit, the source
  then loops forever. With `max_degrees == 0` there is no requirement: the
  first pass stops, or it raises ZeroDivisionError (`DivByZero`).
- Steppers2.HBridge.Step: the wrapped index is stated through `Walk`, and
  `WalkSigned` proves it equals (index + eff) modulo the table length.
- LineFinder: the pins are foreign objects. `Read` takes the successive
  values they return as parameters.
