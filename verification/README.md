# maneuver: arm-posture telemetry, modelled in Dafny

The firmware runs on an STM32F4 board. It reads a BMX055 inertial unit
(accelerometer and gyroscope) over I2C, and an elbow potentiometer through
the ADC. On start-up it calibrates the gyro bias and the elbow offset. A
100 Hz timer interrupt then:

1. updates a Madgwick orientation filter, which holds a quaternion, with the
   readings;
2. reads the elbow angle;
3. sends a 22-byte frame over the UART: the header `E0 E0`, q0..q3 as
   little-endian `f32`, and the angle as a little-endian `f32`.

A desktop visualizer receives those bytes in 22-byte reads. It appends each
read to the previous one and finds the first header with a two-state
matcher. It cuts out the 22 bytes that follow the header, rotating round the
window, and decodes the quaternion and the angle for rendering.

The model has one module per source file, plus four supporting modules (`MadgwickAlgebra`, `Telemetry`, `Float32`, `Common`):

| module | models |
|---|---|
| `Madgwick` | the filter's helper functions as functions, and `Estimated` as a class. `update_imu` is a method that keeps the literal `ax == 0` guard. |
| `MadgwickAlgebra` | the algebra showing what those helpers compute: conjugation by the quaternion, and the gradient of the residual. |
| `Bmx055` | register decoding as functions on byte values, and the driver `IMU` as a class whose methods update its fields. |
| `Potentio` | the calibration mean and the count-to-radian conversion, with `Potentiometer` as a class. |
| `Serial` | the transmitter, modelled as the sequence of bytes it has sent, and the three transmit routines. |
| `Firmware` | the constants in `embedded/src/main.rs`, start-up (`Boot`) and the `TIM2` tick over the three `Option` slots. |
| `Visualizer` | the receive loop (`Receiver.Prime`, `Receiver.Receive`), the header scan and the payload decoding. |
| `Telemetry` | connects the two programs. When no `E0 E0` pair starts in the receiver's window before a frame, the receiver gets back exactly the frame a tick sent. When one does, as an `E0 E0` pair among stale bytes, the cut starts there instead (`EarlierHeaderMisalignsFrame`). When the reads line up with the frames, the window is the previous frame followed by the current one, so the display runs one frame behind (`AlignedWindowGivesPreviousFrame`). |
| `Float32` | `f32::to_le_bytes` / `from_le_bytes`. The IEEE-754 rounding itself is an abstract `FloatCodec`. |
| `Common` | `Result`, `Option` and 3-vectors. |

`f32` arithmetic is modelled over `real`. The fast inverse square root is a
parameter `invSqrt: real -> real`. Properties that need it to be exact assume
so explicitly, through `ExactAt`, and ask for a positive root where the
sign matters. Every I/O result is a parameter of the
operation that consumes it:

- an I2C transaction: the six register bytes, or `Err`;
- an ADC conversion: a sample;
- a TCP read: the bytes read, or `Err`.

Where the code and its comments disagree, the model follows the code:

- The gyro coefficient is 0.003815 deg/s per count (`bmx055.rs:119`). That is
  a ±125 deg/s full scale, not the ±2000 deg/s the comment gives.
- Degrees are turned into radians with the literal 0.0174533
  (`madgwick.rs:199-201`).
- The potentiometer gain is `1/15` (`potentio.rs:17`). The `1/14` declared in
  `embedded/src/main.rs:50` is never read, so the model leaves it out.
- The guard before the accelerometer correction tests `ax` three times
  (`madgwick.rs:222`). It is kept as written, and
  `CorrectionAppliesIffAxNonZero` states what it actually tests.

## Model

| member | source | states |
|---|---|---|
| Float32.ToLeBytes | embedded/src/handler/serial.rs:23 | exactly four bytes, whose little-endian word is the value's single-precision bit pattern |
| Float32.LeToWordOfWordToLe | visualizer/src/main.rs:124-128 | reading a word's little-endian bytes back gives the same word |
| Float32.WordToLeOfLeToWord | visualizer/src/main.rs:124-128 | every 4-byte group is the image of exactly one word, so the byte split is a bijection |
| Float32.FromLeBytes | visualizer/src/main.rs:124-128 | the value whose single-precision pattern is the 4 bytes read little-endian; FromLeBytesOfToLeBytes states what it recovers |
| Float32.FromLeBytesOfToLeBytes | visualizer/src/main.rs:124-128 | `from_le_bytes` of `to_le_bytes` gives the value rounded to `f32`, and the value itself when it is representable |
| Madgwick.Normalize3 | embedded/src/handler/madgwick.rs:19-24 | the input scaled by one factor, the inverse square root of its squared length, so the squared length is the input's times that factor squared |
| Madgwick.Normalize4 | embedded/src/handler/madgwick.rs:26-32 | the input scaled by one factor, the inverse square root of its squared norm, so the squared norm is the input's times that factor squared |
| Madgwick.Normalize3IsUnit | embedded/src/handler/madgwick.rs:19-24 | when the inverse square root is exact, a non-zero vector is scaled to unit length |
| Madgwick.Normalize4IsUnit | embedded/src/handler/madgwick.rs:26-32 | when the inverse square root is exact, a non-zero quaternion is scaled to unit norm |
| Madgwick.Normalize4OfZero | embedded/src/handler/madgwick.rs:26-32 | whatever the inverse square root returns, the zero quaternion stays zero |
| Madgwick.RotateAndScaleVector | embedded/src/handler/madgwick.rs:34-55 | the firmware's expanded formula; what it computes is stated by the two `MadgwickAlgebra` lemmas below |
| MadgwickAlgebra.RotateAndScaleIsSandwich | embedded/src/handler/madgwick.rs:34-55 | twice the result is the vector part of conj(q)·(0,d)·q plus (1−‖q‖²)·d, for every q |
| MadgwickAlgebra.RotateAndScaleIsConjugation | embedded/src/handler/madgwick.rs:34-55 | for a unit quaternion, twice the result is d rotated by the conjugation conj(q)·(0,d)·q |
| Madgwick.RotateGravityAtIdentity | embedded/src/handler/madgwick.rs:46-54 | at the identity orientation, the doubled reference (0,0,2) maps to the unit vertical (0,0,1) |
| Madgwick.Residual | embedded/src/handler/madgwick.rs:77-81 | the rotated reference minus the measurement |
| Madgwick.AddGradient | embedded/src/handler/madgwick.rs:83-93 | the firmware's accumulation of the residual into `s`; its meaning is stated by `GradientStepIsGradient` and `AddGradientOfZero` |
| Madgwick.GradientStep | embedded/src/handler/madgwick.rs:57-94 | `add_gradient_descent_step`: the residual of `q` against `m`, accumulated into `s` |
| MadgwickAlgebra.GradientStepIsGradient | embedded/src/handler/madgwick.rs:57-94 | the step adds, per quaternion component i, the residual dotted with the partial derivative along component i: the gradient of ½‖residual‖² |
| Madgwick.AddGradientOfZero | embedded/src/handler/madgwick.rs:83-93 | a zero residual leaves the step unchanged |
| Madgwick.GradientStepAtAgreement | embedded/src/handler/madgwick.rs:77-93 | when the rotated reference equals the measurement, the gradient step is the identity |
| Madgwick.OrientationChangeFromGyro | embedded/src/handler/madgwick.rs:96-113 | the firmware's expanded derivative; `GyroChangeIsKinematics` states what it is |
| Madgwick.GyroChangeIsKinematics | embedded/src/handler/madgwick.rs:96-113 | the change is q·(0,ω)/2, the quaternion kinematic equation |
| Madgwick.GyroChangeOfZeroRate | embedded/src/handler/madgwick.rs:109-112 | zero angular rate gives zero change |
| Madgwick.CorrectionApplies | embedded/src/handler/madgwick.rs:222 | the guard as written, with `ax` tested three times |
| Madgwick.Radians | embedded/src/handler/madgwick.rs:199-201 | each rate times the literal 0.0174533 |
| Madgwick.Correction | embedded/src/handler/madgwick.rs:223-230 | the normalised gradient step against the normalised acceleration, reference (0,0,2), starting from zero |
| Madgwick.Derivative | embedded/src/handler/madgwick.rs:208-236 | the gyro derivative, minus gain times the correction when the guard holds |
| Madgwick.Advance | embedded/src/handler/madgwick.rs:238-241 | one Euler step q + d·dt |
| Madgwick.ImuStep | embedded/src/handler/madgwick.rs:187-244 | one `update_imu` on values: the Euler step along `Derivative`, normalised |
| Madgwick.CorrectionAppliesIffAxNonZero | embedded/src/handler/madgwick.rs:222 | the correction runs exactly when the x acceleration is non-zero, whatever y and z are |
| Madgwick.UncorrectedStepIsGyroIntegration | embedded/src/handler/madgwick.rs:208-243 | whenever the derivative is the gyro term alone, an update is plain gyro integration followed by normalisation |
| Madgwick.ImuStepWithZeroAx | embedded/src/handler/madgwick.rs:222-243 | with ax = 0 the accelerometer is ignored completely, even when ay or az is non-zero |
| Madgwick.DerivativeWithoutCorrection | embedded/src/handler/madgwick.rs:222-236 | when the correction term is zero, the derivative is the gyro term alone |
| Madgwick.ImuStepWithAgreeingGravity | embedded/src/handler/madgwick.rs:222-243 | when the measured gravity agrees with the estimate, the correction contributes nothing |
| Madgwick.ImuStepIsUnit | embedded/src/handler/madgwick.rs:243 | when the inverse square root is exact and the pre-normalisation quaternion is non-zero, every update ends at unit norm |
| Madgwick.UnitQuaternionKeptAtRest | embedded/src/handler/madgwick.rs:187-244 | with zero rate and ax = 0, every unit quaternion is kept when the inverse square root is exact and positive at 1. So gravity measured exactly along z never corrects a tilted estimate |
| Madgwick.Estimated.Default | embedded/src/handler/madgwick.rs:125-136 | gain 0.1, the identity quaternion, dt = 1/512 |
| Madgwick.Estimated.constructor | embedded/src/handler/madgwick.rs:139-145 | the given gain, the identity quaternion, dt = 1/freq |
| Madgwick.Estimated.GetQ0 | embedded/src/handler/madgwick.rs:161-163 | the field q0 |
| Madgwick.Estimated.GetQ1 | embedded/src/handler/madgwick.rs:165-167 | the field q1 |
| Madgwick.Estimated.GetQ2 | embedded/src/handler/madgwick.rs:169-171 | the field q2 |
| Madgwick.Estimated.GetQ3 | embedded/src/handler/madgwick.rs:173-175 | the field q3 |
| Madgwick.Estimated.GetQ | embedded/src/handler/madgwick.rs:177-185 | `Ok` exactly for indices 0..3, holding that component; `Err` for every other index |
| Madgwick.Estimated.DerivativeFromSensors | embedded/src/handler/madgwick.rs:188-236 | the quaternion derivative: the gyro term in radians, plus the normalised gradient correction scaled by −gain when the guard holds |
| Madgwick.Estimated.Integrate | embedded/src/handler/madgwick.rs:238-241 | the quaternion advances by derivative·dt; gain and dt are unchanged |
| Madgwick.Estimated.UpdateImu | embedded/src/handler/madgwick.rs:187-244 | the new quaternion is `ImuStep` of the old one and the readings; gain and dt are unchanged |
| Bmx055.HighNibble | embedded/src/handler/bmx055.rs:95 | `& 0xF0`: the largest multiple of 16 not above the byte |
| Bmx055.AccRaw | embedded/src/handler/bmx055.rs:95-96 | a 12-bit field; 16 times it is the msb and the masked lsb as a 16-bit word, so the division is exact |
| Bmx055.AccCount | embedded/src/handler/bmx055.rs:95-108 | a 12-bit two's-complement count: in −2048..2047, congruent to the raw field mod 4096, negative exactly when the field's top bit is set |
| Bmx055.AccCountOfAccBytes | embedded/src/handler/bmx055.rs:95-108 | every count in range survives packing into registers and decoding |
| Bmx055.AccBytesOfAccCount | embedded/src/handler/bmx055.rs:95-108 | decoding then re-packing gives back the registers, with the unused low nibble cleared |
| Bmx055.AccCountIgnoresLowNibble | embedded/src/handler/bmx055.rs:95 | the low four bits of the lsb never affect the count |
| Bmx055.AccAxis | embedded/src/handler/bmx055.rs:93 | within ±2048·0.0096105 m/s², and zero exactly when the count is zero |
| Bmx055.AccReading | embedded/src/handler/bmx055.rs:95-112 | the three accelerometer axes of one successful read, each decoded by `AccAxis` |
| Bmx055.GyrRaw | embedded/src/handler/bmx055.rs:121-122 | the 16-bit word whose low byte is the lsb and whose high byte is the msb |
| Bmx055.GyrCount | embedded/src/handler/bmx055.rs:121-133 | a 16-bit two's-complement count: in −32768..32767, congruent mod 65536, negative exactly when msb ≥ 128 |
| Bmx055.GyrCountOfGyrBytes | embedded/src/handler/bmx055.rs:121-133 | every count in range survives packing and decoding |
| Bmx055.GyrBytesOfGyrCount | embedded/src/handler/bmx055.rs:121-133 | every register pair survives decoding and packing, so the decoding is a bijection |
| Bmx055.GyrAxis | embedded/src/handler/bmx055.rs:119 | within ±32768·0.003815 deg/s, and zero exactly when both bytes are zero |
| Bmx055.GyrReading | embedded/src/handler/bmx055.rs:121-138 | the three gyroscope axes of one successful read, each decoded by `GyrAxis` |
| Bmx055.NextAcc | embedded/src/handler/bmx055.rs:94 | a failed transaction keeps the previous acceleration |
| Bmx055.NextGyr | embedded/src/handler/bmx055.rs:120 | a failed transaction keeps the previous rate |
| Bmx055.GyrAfter | embedded/src/handler/bmx055.rs:75-76 | the rate fields after a run of gyro transactions, each failed one keeping the previous value |
| Bmx055.GyrSum | embedded/src/handler/bmx055.rs:71-81 | the running sums of the rate fields over the calibration loop |
| Bmx055.GyroBias | embedded/src/handler/bmx055.rs:82-87 | the sums divided by the sample count |
| Bmx055.UpdatedGyr | embedded/src/handler/bmx055.rs:150-151 | the rate fields after `update`: measured or kept, then compensated |
| Bmx055.GyrSumOfConstant | embedded/src/handler/bmx055.rs:71-82 | n identical successful samples sum to n times the reading |
| Bmx055.BiasOfConstantSamples | embedded/src/handler/bmx055.rs:71-87 | a sensor at rest that always answers calibrates to its own reading |
| Bmx055.CompensatedConstantIsZero | embedded/src/handler/bmx055.rs:142-146 | after that calibration, the same reading compensates to zero on every axis |
| Bmx055.FailedGyrReadSubtractsBiasTwice | embedded/src/handler/bmx055.rs:148-155 | after a successful update, an update with a failed gyro read leaves the reading minus twice the bias. This equals the previous compensated value only when the bias is zero |
| Bmx055.Imu.constructor | embedded/src/handler/bmx055.rs:38-52 | all readings and the bias are zero; a fresh filter with the given gain, dt = 1/freq and the identity quaternion |
| Bmx055.Imu.MeasureAcc | embedded/src/handler/bmx055.rs:90-114 | the acceleration fields are the decoded reading, or unchanged on failure; the gyro and bias fields are untouched |
| Bmx055.Imu.MeasureGyr | embedded/src/handler/bmx055.rs:116-140 | the rate fields are the decoded reading, or unchanged on failure; the others are untouched |
| Bmx055.Imu.Initialize | embedded/src/handler/bmx055.rs:71-87 | the bias is the mean, over the calibration transactions, of the rate fields after each one; the rate fields hold the last reading |
| Bmx055.Imu.CompensateGyr | embedded/src/handler/bmx055.rs:142-146 | the rate fields lose the bias and nothing else changes |
| Bmx055.Imu.Update | embedded/src/handler/bmx055.rs:148-155 | measure acc, measure gyr, compensate, then run the filter on exactly the stored acceleration and compensated rate; the bias is unchanged |
| Potentio.Sum | embedded/src/handler/potentio.rs:39-43 | the accumulated conversions |
| Potentio.Mean | embedded/src/handler/potentio.rs:44 | the sum divided by the count |
| Potentio.Angle | embedded/src/handler/potentio.rs:51 | (conversion − offset)·gain·π/180; `RawOfAngleOfAngle`, `AngleZeroIffAtOffset` and `AngleMonotone` state what it is |
| Potentio.MeanBounds | embedded/src/handler/potentio.rs:38-47 | the calibrated offset lies between the smallest and the largest sample |
| Potentio.MeanOfConstant | embedded/src/handler/potentio.rs:38-47 | a joint at rest calibrates to exactly its reading |
| Potentio.RawOfAngleOfAngle | embedded/src/handler/potentio.rs:49-52 | the conversion loses nothing: the ADC value is recovered from the angle |
| Potentio.AngleZeroIffAtOffset | embedded/src/handler/potentio.rs:49-52 | the angle is zero exactly when the conversion equals the offset |
| Potentio.AngleMonotone | embedded/src/handler/potentio.rs:17-18 | the angle grows strictly with the conversion |
| Potentio.Potentiometer.constructor | embedded/src/handler/potentio.rs:30-36 | the offset starts at zero |
| Potentio.Potentiometer.Initialize | embedded/src/handler/potentio.rs:38-47 | always `Ok`; the offset becomes the mean of the conversions |
| Potentio.Potentiometer.ReadRad | embedded/src/handler/potentio.rs:49-52 | always `Ok`, holding (sample − offset)·gain·π/180; the offset is unchanged |
| Serial.Tx.constructor | embedded/src/main.rs:84 | a transmitter starts with nothing sent |
| Serial.QuaternionBytes | embedded/src/handler/serial.rs:34-40 | the payload is 16 bytes |
| Serial.QuaternionBytesAt | embedded/src/handler/serial.rs:35-40 | payload byte k is byte k mod 4 of component k div 4 |
| Serial.QuaternionBytesComponent | embedded/src/handler/serial.rs:35-40 | payload bytes 4i..4i+3 are exactly the bytes of component i |
| Serial.TransmitBase | embedded/src/handler/serial.rs:8-16 | exactly the given bytes are appended to the line, in order |
| Serial.TransmitFloat | embedded/src/handler/serial.rs:18-27 | the header, then the value's four little-endian bytes |
| Serial.TransmitQuaternion | embedded/src/handler/serial.rs:29-44 | the header, then q0..q3 of the filter, each little-endian; the `unwrap` never fails |
| Firmware.Frame | embedded/src/main.rs:160-161 | one tick's output is 22 bytes |
| Firmware.FrameLayout | embedded/src/main.rs:160-161 | bytes 0-1 are the header, 2-17 the quaternion, 18-21 the angle |
| Firmware.Timer.constructor | embedded/src/main.rs:124 | a timer starts with no pending time-out |
| Firmware.Timer.ClearInterrupt | embedded/src/main.rs:151 | the time-out flag is cleared |
| Firmware.SendFrame | embedded/src/main.rs:160-161 | the two transmissions together append exactly one frame |
| Firmware.Service | embedded/src/main.rs:154-161 | the IMU is updated, with the bias, filter gain and dt unchanged; the frame sent carries the updated quaternion and the elbow angle of the conversion |
| Firmware.Tick | embedded/src/main.rs:147-166 | a present timer has its flag cleared. Unless all three slots are filled, nothing is sent and the IMU is unchanged. Otherwise the IMU update and frame of `Service` follow, and the bias, filter gain and dt are unchanged, so the calibration carries from tick to tick |
| Firmware.Boot | embedded/src/main.rs:109-132 | all slots are filled; the filter has gain 0.1 and dt = 1/100 at the identity; the bias is the calibration mean, the rate fields hold the value after the last calibration read, the acceleration is zero, and the elbow offset is the ADC mean |
| Firmware.Devices.constructor | embedded/src/main.rs:131 | the devices hold the given IMU and potentiometer |
| Visualizer.FirstHeaderFrom | visualizer/src/main.rs:61-76 | from a header-free prefix on, the result is the first header start, or 0 with no header anywhere |
| Visualizer.FirstHeader | visualizer/src/main.rs:61-76 | no header starts before the result, and one starts at it, unless the window holds none and the result is 0 |
| Visualizer.FirstHeaderUnique | visualizer/src/main.rs:61-76 | those two properties single out the scan result |
| Visualizer.FindHeader | visualizer/src/main.rs:61-76 | the two-state matcher returns the first header start, or 0 |
| Visualizer.RotateLeft | visualizer/src/main.rs:77 | element i moves to position i − k, wrapping round; the length is kept |
| Visualizer.Resync | visualizer/src/main.rs:77-78 | the cut frame is 22 bytes |
| Visualizer.ResyncIsAfterHeader | visualizer/src/main.rs:77-78 | when a whole frame fits after the first header, the cut frame is the 22 bytes after it |
| Visualizer.Receiver.constructor | visualizer/src/main.rs:28 | the carry-over buffer and the shared frame start empty |
| Visualizer.Receiver.Prime | visualizer/src/main.rs:36-49 | only a full-size read is kept; anything else changes nothing |
| Visualizer.Receiver.Receive | visualizer/src/main.rs:53-82 | only a full-size read is processed. The shared frame becomes the cut of the previous read plus this one, and this read is carried over. Short or failed reads change nothing |
| Visualizer.DecodePayload | visualizer/src/main.rs:124-128 | q0..q3 from bytes 0-15 and the angle from bytes 16-19, each `from_le_bytes`; `DecodeOfFrame` states what it recovers |
| Telemetry.HeadersAgree | visualizer/src/main.rs:19-20 | both programs use the same header, and header plus payload fill the 22-byte read |
| Telemetry.DecodeOfFrame | visualizer/src/main.rs:124-128 | decoding the bytes after a frame's header gives every value through its `f32` pattern; exactly the sent values when representable |
| Telemetry.FrameStartsWithHeader | embedded/src/main.rs:160 | every frame a tick sends starts with a header |
| Telemetry.ResyncRecoversFrame | visualizer/src/main.rs:56-82 | a window holding a frame with no earlier header is cut at that frame and decodes to what the tick sent |
| Telemetry.AlignedWindowGivesPreviousFrame | visualizer/src/main.rs:56-82 | a window of two whole frames is cut at 0 and decodes to the earlier frame, so aligned reads show the previous tick's pose |
| Telemetry.EarlierHeaderMisalignsFrame | visualizer/src/main.rs:61-78 | counterexample: with an `E0 E0` pair at position 3 and the frame at 22, the scan stops at 3, and the cut holds 17 stale bytes and the frame's first 5 bytes |
| Telemetry.StreamSlice | embedded/src/main.rs:160-161 | frame i of a run of ticks occupies bytes 22i..22i+21 of the line |
| Telemetry.WindowHoldsFrame | visualizer/src/main.rs:57-60 | two consecutive 22-byte reads, wherever they start, hold one whole frame, at the first frame boundary |

## Left out

- `inv_sqrt` (`madgwick.rs:3-17`) is the bit-level fast inverse square root. It is a function parameter; unit-norm results are proved only where it is exact.
- `f32` rounding and accumulation error: arithmetic is over `real`. The IEEE-754 encoding is the abstract `FloatCodec`.
- `get_angles_rad` (`madgwick.rs:147-159`) needs `atan2`/`asin`, which the model does not have; the getters `get_q0`..`get_q3` are plain field reads, covered through `GetQ`.
- `Madgwick.Estimated.UpdateImu` is written as three methods (`DerivativeFromSensors`, `Integrate`, `UpdateImu`) so each proof stays small. Their composition is the source function.
- `Firmware.Tick`: the body under all three slots is the separate method `Service`, and its transmissions are the separate method `SendFrame`.
- `Bmx055.Imu.Initialize`: the settings-write retry loops (`bmx055.rs:55-69`) and the delays are I2C side effects with no data; only the calibration is modelled.
- `Bmx055.Imu.Initialize` and `Potentio.Potentiometer.Initialize` require at least one sample. The source divides by the count, so zero samples would give NaN, and it always calls them with 1000 and 100 samples.
- `Bmx055.U8`: register bytes are an integer range, and `& 0xF0` is the arithmetic `HighNibble`.
- Peripheral set-up in `embedded/src/main.rs` is not modelled: clocks, GPIO, ADC and UART configuration, the LED, the start switch wait and NVIC unmasking.
- The `Mutex`/critical sections around the shared slots are not modelled: the model is single-threaded.
- `block!` waits on the UART are not modelled, and a write never fails in the model.
- The visualizer's TCP listener, thread, channel, sleeps and printing are not modelled, nor `UnitQuaternion::from_quaternion` and the rendering (`visualizer/src/graphics.rs` is not part of this model).
- `reader/src/main.rs` is not part of this model.
