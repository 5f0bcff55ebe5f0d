# Robot motor control: duty encoder, PCA9685 packing and motion commands

A Dafny model of the two layers of a micro:bit robot motor library.

- **The native board layer** (`motorx.cpp`) turns a motor id and a signed speed into PCA9685 channel writes. It clamps the speed to [-100, 100] and converts it to a 12-bit duty (`|speed| * 4095 / 100`). Motor k uses the H-bridge channels 2(k-1) and 2(k-1)+1. The sign of the speed picks which channel of the pair carries the duty; the other channel is held at 0. Every channel write is a five-byte frame: the register `0x06 + 4 * ch`, then the low byte and the high nibble of the "on" count, then the same for the "off" count. The layer also keeps one-time initialisation flags, a broadcast stop over channel indices 0 to 16, and two quadrature encoders. Each encoder edge adds an entry of a 16-entry transition table to a counter.
- **The motion-command layer** (`main.ts`) offers single and broadcast motor speed and stop, the eight mecanum direction vectors and the two spin vectors, 2-wheel line following, the line polarity setting and the encoder selectors.

The model has four modules:

| file | module | models |
|---|---|---|
| `pca9685.dfy` | `Pca9685` | frame packing, the 12-bit round trip, duty saturation |
| `quadrature.dfy` | `Quadrature` | the transition table, net counter change along a run of readings, the `QDec` decoder |
| `motorx.dfy` | `MotorX` | clamp, duty, channel pairs, the `Board` class (flags, decoders, the log of I2C writes) |
| `motion.dfy` | `Motion` | wheel vectors and their kinematics, the steering decision and its rule table, the `Controller` class |

Hardware writes are modelled as logs:

- `Board.bus` records every write handed to the I2C transport, in order. The register part of the chip set-up is one `InitSequence` entry; each channel write, including the 16 start-up pulses, is a `Frame` holding its five bytes.
- `Controller.calls` records every call `main.ts` makes through the native shims (`initNative`, `setMotorSpeedNative`, `stopNative`, `encResetNative`, `encCountLeftNative`, `encCountRightNative`).
- `Board.Perform` carries one such call out on the board model, which joins the two layers.

Pin readings, encoder line readings and the counts the encoder shims return are parameters.

Facts worth knowing that the proofs make explicit:

- Motor 2 drives channels 2 then 3, in that order, as the code's `switch` says.
- The broadcast stop writes 17 frames. The last one addresses register 0x46, which lies past the four registers of channel 15 (0x42 to 0x45).
- `mecanumSpin(true, s)` writes (s, -s, s, -s). With M1 and M3 on the left, this runs the left wheels forward and the right wheels backward, which is a clockwise turn for s > 0. `mecanumSpin(false, s)` writes the exact negation.
- The line-following branches give left corrections priority over right ones. For example, s1 together with s3 gives (-40, speed).
- The code has no anti-reversal guard: no forced stop, settle delay or remembered motion class. The only line follower is the 2-wheel `trackLineStrong`. Nothing else is modelled.
- Right after `initOnce`, both channels of every motor pair carry the start-up pulse duty of 307. "At most one side non-zero" holds for the writes of `motor_run` only.

## Model

| member | source | states |
|---|---|---|
| `Pca9685.ChannelRegister` | motorx.cpp:39 | the register of channel ch is (6 + 4·ch) mod 256, which is 6 + 4·ch for ch ≤ 62 |
| `Pca9685.HighNibble` | motorx.cpp:43 | the high byte of a count is masked to four bits |
| `Pca9685.SplitRoundTrip` | motorx.cpp:42-45 | reassembling a count's low byte and high nibble gives `count & 0x0FFF`, and the count itself when it is at most 4095 |
| `Pca9685.SplitInjective` | motorx.cpp:42-45 | two counts split into the same bytes iff their low twelve bits agree |
| `Pca9685.PwmFrame` | motorx.cpp:37-45 | the frame has 5 bytes: the channel register, then the on and off counts; both high bytes are ≤ 0x0F; each count reads back as its low 12 bits, or exactly when ≤ 4095 |
| `Pca9685.FrameDeterminedByCounts` | motorx.cpp:37-45 | two frames are equal iff they address the same register and carry the same 12-bit on and off counts |
| `Pca9685.DutyOff` | motorx.cpp:53-59 | the programmed off count never exceeds 4095 or the request; it is the request when that is ≤ 4095, and exactly 4095 when the request is ≥ 4095 |
| `Pca9685.DutyFrame` | motorx.cpp:53-59 | a duty write addresses its channel, has on count 0 and off count equal to the saturated duty |
| `Quadrature.Delta` | motorx.cpp:205 | each table entry is -1, 0 or 1; +1 iff the step follows the forward Gray cycle 0→1→3→2→0; -1 iff it follows the backward cycle; 0 iff the reading is unchanged or both lines changed |
| `Quadrature.DeltaAntisymmetric` | motorx.cpp:205 | `T[(a<<2)\|b] == -T[(b<<2)\|a]` |
| `Quadrature.Reverse` | motorx.cpp:217-228 | the reversed sequence of readings has the same length, with element i taken from the mirrored position |
| `Quadrature.NetSnoc` | motorx.cpp:217-222 | handling one more reading adds exactly that transition's entry |
| `Quadrature.NetAppend` | motorx.cpp:217-222 | the count over two joined runs of readings is the two counts plus the transition between them |
| `Quadrature.NetReverse` | motorx.cpp:217-222 | visiting the same readings in reverse order changes the counter by the negated amount |
| `Quadrature.ThereAndBack` | motorx.cpp:217-228 | turning through any readings and retracing them leaves the counter unchanged |
| `Quadrature.RetraceReturns` | motorx.cpp:217-228 | starting from the last reading seen, turning through readings and retracing them back to the start nets zero |
| `Quadrature.QDec.constructor` | motorx.cpp:206-214 | a statically allocated decoder starts with count 0 and prev 0 |
| `Quadrature.QDec.Step` | motorx.cpp:219-221 | the count grows by the table entry for (prev, curr), and prev becomes curr |
| `Quadrature.QDec.StepAll` | motorx.cpp:217-222 | one edge per reading, in order: the count grows by the net change along the last reading seen followed by the run, and prev becomes the run's last reading |
| `MotorX.ClampSpeed` | motorx.cpp:97-100 | the clamped speed lies in [-100, 100], has the sign of the request, and is the value in that range nearest the request |
| `MotorX.ClampIdempotent` | motorx.cpp:97-100 | an in-range speed is unchanged, so clamping twice equals clamping once |
| `MotorX.DutyOf` | motorx.cpp:102 | the duty is ⌊\|speed\|·4095/100⌋: in [0, 4095], 0 iff the speed is 0, and 4095 at ±100 |
| `MotorX.DutyMonotone` | motorx.cpp:102 | a larger \|speed\| never gives a smaller duty |
| `MotorX.ChannelPair` | motorx.cpp:107-127 | ids 1..4 map to channels (2(id-1), 2(id-1)+1), i.e. (0,1), (2,3), (4,5), (6,7); every other id has no channels |
| `MotorX.SideDuties` | motorx.cpp:129-143 | at most one side is non-zero; the two sides sum to the duty; the first side is non-zero iff speed > 0, the second iff speed < 0 |
| `MotorX.MotorRunWrites` | motorx.cpp:94-143 | the frames `MotorFrames` of `motor_run` after set-up: an unknown id writes nothing; ids 1..4 write two frames to the pair's registers, both with on count 0; for speed > 0 the first carries the duty and the second 0, for speed < 0 the reverse, for 0 both are 0 |
| `MotorX.PulseFrames` | motorx.cpp:83-86 | the start-up pulse writes of channels 0..n-1 are n frames |
| `MotorX.PulseFramesAt` | motorx.cpp:83-86 | the i-th start-up write addresses channel i with on count 0 and off count 307, the truncation of 1500·0.2048 |
| `MotorX.StopFrames` | motorx.cpp:272-273 | the stop writes of channels 0..n-1 are n frames |
| `MotorX.StopFramesAt` | motorx.cpp:272-273 | the i-th stop write is `setDuty(i, 0)`: register of channel i, on and off counts 0 |
| `MotorX.StopAllWrites` | motorx.cpp:269-274 | `stopNative` makes 17 writes, duty 0 to channels 0..16 in order, the last to register 0x46 |
| `MotorX.Board.constructor` | motorx.cpp:213-215 | at power-up neither flag is set (`enc_inited` here and `g_inited` at line 8), nothing is written, and both decoders `encLeft` and `encRight` are zero |
| `MotorX.Board.InitOnce` | motorx.cpp:62-87 | the flag is set afterwards; on the first call only, the set-up and the 16 start-up pulse frames are logged, so later calls leave the log unchanged |
| `MotorX.Board.SetPwm` | motorx.cpp:37-51 | the five-byte buffer filled in place is exactly `PwmFrame(ch, on, off)` and is appended to the log |
| `MotorX.Board.SetDuty` | motorx.cpp:53-59 | appends the saturated duty frame of the channel |
| `MotorX.Board.MotorRun` | motorx.cpp:94-144 | appends the set-up writes `InitWrites` (if first) and then exactly the frames `MotorFrames`, whose contents `MotorRunWrites` states |
| `MotorX.Board.DriveMotor` | motorx.cpp:97-143 | after set-up, appends exactly the frames `MotorFrames`, whose contents `MotorRunWrites` states |
| `MotorX.Board.StopNative` | motorx.cpp:269-274 | appends the set-up (if first) and then exactly the 17 stop frames |
| `MotorX.Board.EncInitOnce` | motorx.cpp:229-252 | the first call zeroes both counters and records the current readings; later calls change nothing |
| `MotorX.Board.EncResetNative` | motorx.cpp:276-281 | both counts are 0 afterwards; the last readings are kept (or taken, on the first encoder call) |
| `MotorX.Board.EncCountLeftNative` | motorx.cpp:283-287 | returns the left count, which is 0 on the first encoder call; the first call zeroes both counters and records both readings, later calls leave both decoders unchanged |
| `MotorX.Board.EncCountRightNative` | motorx.cpp:289-293 | returns the right count, which is 0 on the first encoder call; the first call zeroes both counters and records both readings, later calls leave both decoders unchanged |
| `MotorX.Board.OnEncLeftEvent` | motorx.cpp:217-222 | one table step on the left decoder; the right one is untouched |
| `MotorX.Board.OnEncRightEvent` | motorx.cpp:223-228 | one table step on the right decoder; the left one is untouched |
| `MotorX.Board.Perform` | motorx.cpp:264-293 | each shim call has the effect of its native function on the log, both flags and both decoders: the motor calls set up the chip on first use and leave the decoders alone; the encoder calls write nothing, set up the decoders on first use, reset both counts or return one |
| `Motion.MotorList.Code` | main.ts:1-12 | M1, M2, M3 and M4 are 1, 2, 3 and 4; All is 99 |
| `Motion.LineColor.Level` | main.ts:25-30 | Black is 0 and White is 1 |
| `Motion.WheelCalls` | main.ts:144-149 | `setAll` makes four calls: motor i+1 gets entry i, in order |
| `Motion.Negate` | main.ts:136-142 | every wheel speed is negated |
| `Motion.MecanumVector` | main.ts:108-128 | every entry of a direction vector is 0, +speed or -speed |
| `Motion.MecanumKinematics` | main.ts:96-127 | each direction drives the chassis along its named heading (4·s on a straight heading, 2·s on each axis of a diagonal) with zero turning |
| `Motion.Opposite` | main.ts:32-49 | the opposite direction has the negated heading |
| `Motion.MecanumOpposite` | main.ts:108-127 | Forward/Back, Left/Right, LeftFront/RightBack and RightFront/LeftBack are exact negations |
| `Motion.MecanumDiagonals` | main.ts:108-127 | each diagonal vector is the average of its two neighbouring straight ones |
| `Motion.SpinVector` | main.ts:136-142 | every entry of a spin vector is ±speed |
| `Motion.SpinKinematics` | main.ts:136-142 | the two spins are exact negations; a spin has no forward or sideways drive; (s,-s,s,-s) turns with +4s |
| `Motion.PolarityFlip` | main.ts:195-197 | for a 0/1 reading, Black and White give opposite "on the line" answers |
| `Motion.ReadSensors` | main.ts:164-167 | s4←P12, s3←P13, s1←P14, s2←P15, each set iff its reading equals `lineLogic` |
| `Motion.PolarityFlipsPattern` | main.ts:164-167 | for 0/1 readings, switching the colour complements every sensor |
| `Motion.Steer` | main.ts:170-182 | at least one motor gets `speed`, and both get a value in {speed, 20, -40} |
| `Motion.FirstMatch` | main.ts:170-182 | the rule picked is a table row that matches with no earlier row matching; no rule is picked iff none matches |
| `Motion.SteerFollowsTable` | main.ts:170-182 | for all 16 patterns some table row matches, and the first matching row gives exactly the branch chain's (motor 1, motor 2) speeds |
| `Motion.UniformPatternGoesStraight` | main.ts:170-182 | the all-zero and all-one patterns give (speed, speed) |
| `Motion.SingleSensorOutcomes` | main.ts:170-182 | only s1 gives (-40, speed); only s2 or only s3 gives (speed, speed); only s4 gives (speed, -40) |
| `Motion.SelectedCount` | main.ts:218-223 | M1 reads the left count, M2 the right count, every other selector 0 |
| `Motion.ResetThenCount` | main.ts:213-223 | `encoderReset` followed by `encoderCount`, carried out on the board, returns 0 for every selector and whatever the encoder readings, and writes nothing to the bus |
| `Motion.Controller.constructor` | main.ts:54 | `lineLogic` starts at 1; no calls have been made |
| `Motion.Controller.Init` | main.ts:58-60 | one `initNative` call |
| `Motion.Controller.SetSpeed` | main.ts:73-82 | All makes exactly four calls (1,s),(2,s),(3,s),(4,s) in order; any other motor one call for that motor only |
| `Motion.Controller.Stop` | main.ts:87-90 | All makes one `stopNative` call; any other motor one speed-0 call for that motor only |
| `Motion.Controller.SetAll` | main.ts:144-149 | motors 1..4 are written in order with the given speeds |
| `Motion.Controller.MecanumMove` | main.ts:108-128 | writes the direction's vector through `setAll` |
| `Motion.Controller.MecanumSpin` | main.ts:136-142 | writes the spin vector through `setAll` |
| `Motion.Controller.TrackLineStrong` | main.ts:162-183 | makes exactly two calls, motor 1 then motor 2, with the decision for the normalised readings |
| `Motion.Controller.SetLineColor` | main.ts:188-190 | `lineLogic` becomes the colour's value (0 or 1) |
| `Motion.Controller.IsLineDetected` | main.ts:195-197 | true iff the reading equals `lineLogic`; never true for a reading other than 0 or 1 |
| `Motion.Controller.EncoderReset` | main.ts:213 | the selector is ignored; one `encResetNative` call |
| `Motion.Controller.EncoderCount` | main.ts:218-223 | M1 makes one `encCountLeftNative` call and returns its value, M2 one `encCountRightNative` call and returns its value; any other selector makes no call and returns 0 |

## Left out

- The I2C transport (`i2cWriteReg`, `i2cReadReg`, `uBit.i2c`) is not modelled. The model records what is handed to it, in `Board.bus`.
- The register part of the chip set-up in `initOnce` is one `InitSequence` log entry. This covers the MODE1 reset, the read-modify-write of MODE1, the 50 Hz prescaler, the 5 ms `fiber_sleep` and auto-increment. Its values depend on a chip read, so they are not modelled. The 16 start-up pulses that follow are logged as frames. Their off count, 307, is the constant `(uint16_t)(1500 * 0.2048)`, written out rather than computed in floating point. Each pulse goes through `servo_pulse`, whose nested `initOnce` call and channel-range check are no-ops for channels 0..15, so the model writes the frame directly.
- The servo entry points `servo_run`, `servo_run_custom` and `servo_pulse` (and their shims) are not modelled, apart from the fixed 1500 µs pulses `initOnce` makes, because their final conversion is floating point (`us * 0.2048`).
- The encoder wiring is not modelled: pin pull-ups, `eventOn` and the message-bus listeners. Events arrive concurrently, on `volatile` counters; the model covers only the sequential table step, with the readings `readAB` would take passed in as parameters.
- Quadrature.QDec.Step: the counter is an unbounded integer. The source's `volatile int32_t` would overflow after 2^31 net pulses.
- MotorX.Board.MotorRun: speeds are unbounded integers. A `number` that is not a 32-bit integer, passed from `main.ts` to the C `int` parameter, is converted in a way that is not modelled.
- `getSensorValue` (main.ts:202-204) and `pins.digitalReadPin` return a pin level unchanged. Pin readings are parameters of the model, so there is nothing further to model.
- The simulator shims in main.ts:228-247 only log or return 0 and are not modelled; the native functions of `motorx.cpp` take their place.
- The block annotations are not modelled.
