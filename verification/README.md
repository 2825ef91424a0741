# EDNA 2.0 firmware: a verified model

EDNA 2.0 is quadcopter firmware for the ESP32: a Kalman filter and PID controllers drive four
motors, a Bluetooth gamepad steers, and a vendored Bluetooth stack carries the reports. This
project models the parts whose correctness is hardest to see from the code and proves what they
keep over every input and every run.

Each component is a module (or a few) with a specification on values, main theorems about it, and,
where the C code updates state in place, a class or an array method proved to take exactly the
specified steps.

| files | component |
|---|---|
| `Kalman.dfy`, `Clock.dfy`, `Globals.dfy` | angle filter and the IMU task around it |
| `Config.dfy`, `Pid.dfy`, `MotorMix.dfy`, `Esc.dfy`, `Controller.dfy`, `FlightController.dfy`, `FlightSystem.dfy` | flight safety chain: gamepad callbacks, shared setpoints, control loop, mixer, ESC output |
| `RingBuffer.dfy`, `HciTransport.dfy` | HCI packet stream over a byte ring |
| `CircularBuffer.dfy`, `ReportQueue.dfy` | outgoing report queue |
| `DeviceTable.dfy`, `BtHost.dfy`, `Connecting.dfy`, `SdpLock.dfy`, `Tenancy.dfy`, `QueryOwner.dfy`, `ReadyOrder.dfy`, `BtStack.dfy`, `BtFlows.dfy` | device table, connection state machine, what each event does for its device, SDP lock, what an event leaves of a device, owners of query results, order of announcements, event handlers, worked examples |
| `Allowlist.dfy` | address allowlist and its property string |
| `Crc32.dfy` | CRC-32 (polynomial of clause 3.2.9 of IEEE 802.3) |
| `Quadrature.dfy`, `BalanceBoard.dfy`, `MonoCodec.dfy`, `HexBlob.dfy` | signal state machines and codecs |
| `Machine.dfy`, `Products.dfy`, `Wrappers.dfy` | C integer types, products of reals, `Option` |

`dafny verify dfyconfig.toml` checks everything.

## What the code does not guarantee

These came out of the proofs. Each names the theorem with the exact condition, and the lemma with a
concrete case.

- `HciTransport.FramingKeptIff`: the free-space test leaves the two-byte tag out, so a packet that
  fits without its tag breaks the framing; case: `HciTransport.BrokenFrameOfRealSize`, 86 events
  outstanding at once. Within the flow-control budget this cannot happen (`HciTransport.CapacityBudget`).
- `FlightSystem.KillStopsMotorsIff`: an X-button press or a disconnect whose callback does not get the
  setpoint mutex leaves the last setpoint published, and the motors keep running on it; case:
  `FlightSystem.LostKillKeepsMotorsOn`.
- `SdpLock.LockHoldsIff`, `SdpLock.LaterDeviceRemoved`: a HID descriptor query that is not accepted
  removes the SDP timer and keeps the lock, and from then on every device that needs a query is
  removed; case: `SdpLock.LeakIsReachable` and `SdpLock.NextGamepadRemoved`.
- `BluetoothHost.FreeSlotsFromBoot`: a device removed during its query leaves the lock naming a free
  slot, and exactly one kind of late result then leaves a slot both free and connected; case:
  `SdpLock.LockCanDangle` and `BluetoothHost.OrphanedResultConnectsFreeSlot`. What the platform is told
  stays paired all the same (`BluetoothHost.CallbacksPairUp`).
- `QueryOwner.CreditedToAskerIff`: a query result goes to whatever device is in the slot the lock names
  by then. That is the one that asked exactly when the lock has not timed out and the slot has not been
  given back meanwhile; cases: `ConnectionFlows.StrangerGetsResult` for the slot,
  `ConnectionFlows.LateResultGoesElsewhere` for the lock.
- `ReadyOrder.ReadyUnannouncedIff`: a device may be announced ready before it is announced connected;
  case: `ConnectionFlows.ReadyBeforeConnected`.
- `DeviceTable.RemovalStaysInFamilyIff`: a virtual child disconnected by index leaves its parent's
  child pointer behind, and removing the parent takes along whoever has the slot by then; case:
  `ConnectionFlows.RemovalTakesStranger`.
- `ReportSending.StepInLineIff`: an accepted fresh report overtakes the waiting ones, and a failed
  retry moves the oldest report to the back; case: `ReportSending.OrderLost`.

## Remarks

- With an integral limit of 0 the integral gains have no effect at all, although they are configured
  and can be tuned (`FlightSystem.IntegralGainsAreNeverFelt`).
- The comment of `pid.c` says the derivative is taken on the measurement; the code takes it on the
  error, and so does the model.
- `main.c` feeds the pitch angle to `kf_roll` and the roll angle to `kf_pitch`; the model keeps it so.

## Model

| member | source | states |
|---|---|---|
| `Kalman.KalmanFilter.constructor` | components/imu/kalman.c:9-19 | the filter starts with zero state, zero covariance and the stated noise parameters |
| `Kalman.KalmanFilter.SetParams` | components/imu/kalman.c:21-25 | changes the three noise parameters and nothing else |
| `Kalman.KalmanFilter.PredictInPlace` | components/imu/kalman.c:28-36 | the ordered predict assignments compute the simultaneous equations x' = Fx + Bu and F P F^T + Q dt |
| `Kalman.KalmanFilter.ComputeGain` | components/imu/kalman.c:42-48 | the two quotients are the Kalman gain P H^T / S |
| `Kalman.KalmanFilter.ApplyGain` | components/imu/kalman.c:50-61 | for any gain, the ordered assignments with their two temporaries compute x + K(z - Hx) and (I - KH)P |
| `Kalman.KalmanFilter.CorrectInPlace` | components/imu/kalman.c:38-63 | the second half computes the simultaneous correction with the Kalman gain and returns the new angle |
| `Kalman.KalmanFilter.Update` | components/imu/kalman.c:27-64 | one call is the matrix predict followed by the matrix correct, and returns the new angle |
| `Kalman.GainOptimal` | components/imu/kalman.c:42-61 | for every gain g, the Joseph-form covariance of g minus the code's posterior is S (g-K)(g-K)^T |
| `Kalman.GainMinimal` | components/imu/kalman.c:45-61 | no gain has a smaller covariance, and only the code's own gain reaches its trace |
| `LinearAlgebra.SemidefiniteIffMinors` | components/imu/kalman.c:32-36 | a symmetric 2x2 matrix is positive semidefinite, over all vectors, exactly when its principal minors are nonnegative |
| `Kalman.PredictKeepsSemidefinite` | components/imu/kalman.c:32-36 | prediction keeps the covariance semidefinite and its off-diagonal nonpositive |
| `Kalman.CorrectScales` | components/imu/kalman.c:42-61 | correction scales row and column 0 by R/S; the gain and the posterior in terms of that factor |
| `Kalman.CorrectIsSafe` | components/imu/kalman.c:42-61 | S > 0, the determinant is scaled by exactly R/S, 0 <= K0 < 1, K1 <= 0, and the posterior is safe (semidefinite, P00 <= R, off-diagonal <= 0) |
| `Kalman.AngleInterpolates` | components/imu/kalman.c:39-52 | the new angle lies between the prediction and the measurement |
| `Kalman.UpdateKeepsSafety` | components/imu/kalman.c:27-64 | a whole update from a safe covariance has all those properties and is safe again |
| `Kalman.EveryUpdateOfARunIsSafe` | components/imu/kalman.c:9-64 | in every run from initialisation with positive dt, every single update has all those properties |
| `Kalman.PredictionVariance` | components/imu/kalman.c:32-36 | the predicted variance of any combination of angle and bias is that of the combination it came from, plus the process noise of the time step |
| `Kalman.ErrorPropagates` | components/imu/kalman.c:27-52 | against any true angle and bias: the error after an update is the predicted error, less the share K of it and of the accelerometer's own error |
| `Kalman.TracksTruth` | components/imu/kalman.c:27-64 | over runs: fed with exact angles and unbiased rates from rest, the filter returns the exact angle for ever |
| `Clock.GuardedDt` | main/main.c:67-70 | the guarded time step is in (0, 0.1] whatever the clock does |
| `Clock.GuardMeasuresElapsed` | main/main.c:67-70 | 1 to 100000 us of real time are measured exactly even when the 32-bit counter wraps |
| `Clock.GuardReplacesOthers` | main/main.c:67-70 | a counter that stood still or advanced by more than 0.1 s counts as 10 ms |
| `ImuTask.TaskRun` | main/main.c:55-95 | every run of the IMU task, failed reads included, keeps both covariances safe |
| `ImuTask.TaskIsTwoFilters` | main/main.c:72-82 | over runs, read failures included: the pitch estimate is one Kalman filter over the accelerometer's pitch and the gyro about x, the roll estimate one over roll and the gyro about y |
| `ImuTask.PublishedAttitude` | main/main.c:84-90 | at any time, the published pitch and roll are those two filters' angles when the mutex was last obtained, less their mounting offsets, and the yaw rate is the gyro about z as read then |
| `ImuTask.PitchIsItsOwn` | main/main.c:81-87 | two runs that differ only in what the other axis measures publish the same pitch |
| `ImuTask.RollIsItsOwn` | main/main.c:82-87 | and the same for roll |
| `ImuTask.Task.Iterate` | main/main.c:64-94 | one turn of the task loop: guard, read, two filter updates (each fed the other's axis name), publication if the mutex is taken |
| `PidLaw.PidController.Update` | components/flight_controller/pid.c:18-43 | state and output after a control step, clamps included |
| `PidLaw.PidController.ResetState` | components/flight_controller/pid.c:45-48 | clears the integral and the previous error only |
| `PidLaw.PidController.SetGains` | components/flight_controller/pid.c:50-54 | changes the gains only |
| `PidLaw.StepKeepsConfigured` | components/flight_controller/pid.c:18-43 | with the compiled limits the integral stays 0 and the output within +-100 |
| `PidLaw.IntegralGainInert` | components/flight_controller/pid.c:24-28 | with PID_INTEGRAL_LIMIT 0 no integral gain changes any output |
| `PidLaw.TwoSteps` | components/flight_controller/pid.c:18-43 | over two steps, whatever went before: the second output is kp e2 + kd (e2 - e1) / dt with e = setpoint - measurement, held to +-100 |
| `PidLaw.FeedbackIsNegative` | components/flight_controller/pid.c:19-43 | raising the setpoint never lowers the output, raising the measurement never raises it |
| `PidLaw.OutputHasErrorSign` | components/flight_controller/pid.c:19-43 | without a remembered error the output has exactly the sign of setpoint - measurement |
| `MotorMix.ClampUs` | components/flight_controller/motor_mix.c:8-12 | every motor value is within the PWM range |
| `MotorMix.CeilingInactive` | components/flight_controller/motor_mix.c:14-24 | up to the flight ceiling and for limited PID outputs the upper clamp changes nothing |
| `MotorMix.CeilingExact` | components/flight_controller/motor_mix.c:14-24 | 1300 + 3*100 = 1600 is tight: one more microsecond and the clamp acts |
| `MotorMix.NothingClampedWithoutYaw` | components/flight_controller/motor_mix.c:14-24 | without yaw output neither clamp changes anything |
| `MotorMix.MixInverse` | components/flight_controller/motor_mix.c:14-24 | with no clamp acting the motors sum to (4t-4, 4t] and their differences give back pitch, roll and yaw to less than 2 us |
| `EscDriver.DutyStrictlyMonotone` | components/esc/esc.c:29-33 | different pulses in range give different duties |
| `EscDriver.DutyIsShare` | components/esc/esc.c:29-33 | the duty is the whole part of the pulse in 65535ths of 20 ms, after clamping |
| `EscDriver.EscPwm.SetUs` | components/esc/esc.c:69-83 | range check, clamp and write suppression, with the whole new cache and pin state |
| `EscDriver.EscPwm.SetMotorsUs` | components/esc/esc.c:85-90 | the four writes as one state change |
| `EscDriver.EscPwm.SetAllUs` | components/esc/esc.c:92-96 | the loop over the motors as one state change |
| `EscDriver.WriteReachesPins` | components/esc/esc.c:69-83 | while the cache agrees with the pins the write suppression is invisible, and agreement is kept |
| `GamepadCallbacks.ThrottleSteps` | components/controller/controller.c:226-251 | a report moves the throttle by -1, 0, +1 or +2 us, up exactly for a stick at -20 or beyond and below the ceiling, down exactly for +20 or beyond and above the floor, +2 only at raw -512 |
| `GamepadCallbacks.RequestedWithinSetpointRange` | components/controller/controller.c:253-261 | published angles and yaw rate stay within their configured maxima |
| `GamepadCallbacks.SticksSteer` | components/controller/controller.c:253-320 | what a report publishes: pitch is positive exactly for ry <= -20, roll for rx >= 20, yaw for x >= 20, and the mirror cases; the kill flag is cleared and the throttle is the accumulator's |
| `GamepadCallbacks.SticksSteerMonotonically` | components/controller/controller.c:253-320 | outside the deadband more stick is always more setpoint |
| `GamepadCallbacks.FullScale` | components/controller/controller.c:253-320 | raw -512 is full scale: pitch +20, roll -20, yaw -90 |
| `GamepadCallbacks.AxesAreIndependent` | components/controller/controller.c:305-320 | each published value depends on its own axis only |
| `GamepadCallbacks.KillPublishes` | components/controller/controller.c:271-302 | a kill of either kind publishes throttle 1000, neutral setpoints and the flag, or nothing without the mutex; the accumulator falls in both cases |
| `GamepadCallbacks.Controller.AccumulateThrottle` | components/controller/controller.c:226-251 | the accumulator after a call and its result, deadband and clamp included |
| `GamepadCallbacks.Controller.OnDisconnected` | components/controller/controller.c:271-284 | the accumulator always drops; the globals are made safe only if the mutex is taken |
| `GamepadCallbacks.Controller.OnGamepadData` | components/controller/controller.c:286-322 | X button and normal report, with and without the mutex |
| `FlightControl.FlightController.ResetAll` | components/flight_controller/flight_controller.c:85-89 | resets the three controllers and nothing else |
| `FlightControl.FlightController.Kill` | main/main.c:129-133 | all motors to the arming pulse, integrals reset |
| `FlightControl.FlightController.Update` | components/flight_controller/flight_controller.c:43-83 | time step, cut-off at the spin threshold, three PID steps, mixing and ESC writes |
| `FlightControl.KillMotorsArms` | components/esc/esc.c:92-96 | the cut-off leaves all four pins at the arming duty |
| `FlightControl.OutputsLimited` | components/flight_controller/flight_controller.c:61-63 | the three outputs stay within +-100 for any gains |
| `FlightControl.ControlledKeepsOk` | components/flight_controller/flight_controller.c:61-68 | above the threshold the pins carry the mixed values and the invariant is kept |
| `FlightControl.MotorsShowControllers` | components/flight_controller/flight_controller.c:60-68 | above the spin threshold the pins show, to less than 2 us: front against rear the pitch controller's own step, left against right the roll controller's, diagonal against diagonal the yaw controller's, and the throttle in all four |
| `FlightControl.PitchAlone` | components/flight_controller/flight_controller.c:60-68 | closed loop: with roll and yaw at rest the two front motors agree, the two rear ones agree, and the front is higher exactly when the pitch setpoint exceeds the measured pitch |
| `FlightControl.RollAlone` | components/flight_controller/flight_controller.c:60-68 | the same for roll with the left pair |
| `FlightControl.YawAlone` | components/flight_controller/flight_controller.c:60-68 | the same for yaw with the diagonal of front right and rear left |
| `FlightControl.LowThrottleRests` | components/flight_controller/flight_controller.c:54-58 | at or below the spin threshold the motors stop, the controllers forget and keep their gains, and the clock is read |
| `FlightControl.SomeMotorSpins` | components/flight_controller/flight_controller.c:54-68 | above the threshold at least one pin leaves the arming duty |
| `FlightSystem.ActedKeepsOk` | main/main.c:129-151 | an iteration arms all motors exactly when killed, tilted too far, or at or below the spin threshold |
| `FlightSystem.CutOffIff` | main/main.c:129-151 | in numbers: the motors stop exactly when killed, tilted beyond 45 degrees or at a throttle of at most 1200; then the controllers forget; otherwise it is a control step |
| `FlightSystem.EveryRunIsOk` | main/main.c:97-153 | in every run from boot: throttle limits, silent integrators, cache agreeing with the pins |
| `FlightSystem.ReachableMixUnclamped` | components/flight_controller/motor_mix.c:8-24 | in every reachable iteration the mixer's ceiling is idle, and without yaw both clamps are |
| `FlightSystem.QuietStep` | main/main.c:114-151 | no step lets more than 2 us of throttle per report escape a published kill |
| `FlightSystem.Failsafe` | main/main.c:120-151 | after a published kill, a later setpoint snapshot arms all pins until at least 101 further non-X reports, for all mutex outcomes, attitudes, gains and clocks |
| `FlightSystem.HundredAndOneReportsSpin` | components/controller/controller.c:236-251 | 101 is exact: after 101 full-up reports a level iteration spins a motor |
| `FlightSystem.KillStopsMotorsIff` | components/controller/controller.c:271-296 | after an X-button press or a disconnect and without further input, every iteration that takes its setpoint snapshot afterwards stops the motors exactly when the callback took the mutex or the published setpoint was harmless already |
| `FlightSystem.KillStopsEveryIterationIff` | main/main.c:120-151 | and every iteration at all, the one under way included, exactly when moreover the snapshot that one may hold stops them |
| `FlightSystem.LostKillKeepsMotorsOn` | components/controller/controller.c:271-296 | such a loss from boot: one stick report, a kill of either kind that does not get the mutex, and the next iteration turns a motor at 1201 us |
| `FlightSystem.IntegralGainsAreNeverFelt` | components/flight_controller/pid.c:24-28 | over whole runs with gains changed at any time, the pins are those of the run with all integral gains 0 |
| `FlightSystem.RoundActs` | main/main.c:113-151 | from the sticks to the motors: a round acts on exactly the attitude and the report published in it |
| `FlightSystem.PitchStickMovesFront` | components/controller/controller.c:305-313 | on a level craft the right stick forward raises the front pair over the rear pair, exactly from raw -20 on, backward the other way |
| `FlightSystem.RollStickMovesLeft` | components/controller/controller.c:305-313 | to the right it raises the left pair over the right pair |
| `FlightSystem.YawStickMovesDiagonal` | components/controller/controller.c:305-313 | the left stick to the right raises front right and rear left over the others |
| `FlightSystem.ReadyAsCompiled` | main/config.h:74-93 | with the compiled gains the premises of the pitch and roll theorems hold in every run from boot with the throttle up |
| `FlightSystem.TuningIsLocal` | components/telemetry/telemetry.c:175-181 | tuning one axis changes that controller's gains only |
| `FlightSystem.Firmware.constructor` | main/main.c:172-230 | the state the tasks start in, with the ESCs armed |
| `FlightSystem.Firmware.GamepadReport` | components/controller/controller.c:286-322 | takes the Report step of the state machine |
| `FlightSystem.Firmware.GamepadLost` | components/controller/controller.c:271-284 | takes the Disconnected step of the state machine |
| `FlightSystem.Firmware.PublishAttitude` | main/main.c:85-90 | takes the ImuPublished step |
| `FlightSystem.Firmware.SetGains` | components/telemetry/telemetry.c:175-181 | takes the GainsSet step |
| `FlightSystem.Firmware.TakeAttitude` | main/main.c:113-118 | takes the FcReadsImu step |
| `FlightSystem.Firmware.TakeSetpoint` | main/main.c:120-127 | takes the FcReadsSetpoint step |
| `FlightSystem.Firmware.Act` | main/main.c:129-151 | takes the FcActs step |
| `ByteRing.RingBuffer.Write` | components/btstack/src/btstack_ring_buffer.c:83-118 | appends the whole block in order across the wrap, or refuses it and changes nothing |
| `ByteRing.RingBuffer.Read` | components/btstack/src/btstack_ring_buffer.c:121-153 | returns and removes the oldest min(length, available) bytes in order |
| `ByteRing.OverlaidExtendsRound` | components/btstack/src/btstack_ring_buffer.c:94-113 | a block copied in two chunks behind the queued bytes extends the queue by exactly that block |
| `ByteRing.RoundSplits` | components/btstack/src/btstack_ring_buffer.c:129-151 | moving the read index by m drops exactly the first m bytes |
| `HciTransport.HciPort.HostRecv` | components/btstack/btstack_port_esp32.c:145-174 | 16-bit space test, tag write and payload write, with the ring after each outcome |
| `HciTransport.HciPort.DeliverOne` | components/btstack/btstack_port_esp32.c:193-200 | one turn of the delivery loop takes one frame off the ring, with a stale byte in the tag when only one was left |
| `HciTransport.HciPort.DeliverPackets` | components/btstack/btstack_port_esp32.c:190-204 | the delivery loop, with arbitrary packets arriving whenever the mutex is free and an arbitrary uninitialised tag byte at every turn, is a run of the state machine and ends with an empty ring |
| `HciTransport.StepRefinesQueue` | components/btstack/btstack_port_esp32.c:145-204 | with room for the tag, each critical section is a step on a plain packet queue |
| `HciTransport.FramedTail` | components/btstack/btstack_port_esp32.c:162-168 | the framing is prefix-free: after whole frames only whole frames can follow |
| `HciTransport.FramingKeptIff` | components/btstack/btstack_port_esp32.c:154-168 | for every packet, empty ones included: the ring stays made of whole frames exactly when the packet is dropped, the free space is at least len + 2, or the packet is empty |
| `HciTransport.NarrowedSpace` | components/btstack/btstack_port_esp32.c:154-160 | up to 65535 free bytes a packet is dropped exactly when it does not fit; with 65536 free every nonempty packet is |
| `HciTransport.EverFramedIff` | components/btstack/btstack_port_esp32.c:145-204 | every state of any run is framed exactly when that holds at every receive |
| `HciTransport.BrokenFrameDelivered` | components/btstack/btstack_port_esp32.c:156-204 | behind any queue, a nonempty packet that fits only without its tag passes the test, breaks the framing, and is delivered after the queued ones with none of its bytes: with its own length announced, or, when it takes the last free byte, with a length made of that byte and a stale one |
| `HciTransport.BrokenFrameOfRealSize` | components/btstack/btstack_port_esp32.c:96-204 | with the declared storage and packets of legal size: 85 events of 258 bytes and one of 223 do it, delivery included |
| `HciTransport.RunRefinesQueue` | components/btstack/btstack_port_esp32.c:145-204 | delivered then pending is accepted: no loss, duplication, reordering or change, for every interleaving |
| `HciTransport.DeliveredIsPrefixOfAccepted` | components/btstack/btstack_port_esp32.c:145-204 | delivered packets are a prefix of the accepted ones, byte for byte, and the ring is exactly the rest |
| `HciTransport.DeliveryDrains` | components/btstack/btstack_port_esp32.c:190-204 | a delivery call hands over everything queued before and accepted meanwhile |
| `HciTransport.CapacityBudget` | components/btstack/btstack_port_esp32.c:96-102 | under controller-to-host flow control with 4 outstanding events the storage (below 65536 bytes) never drops a packet and always has room for the tag |
| `CircularBuffers.ChannelSurvivesNarrowing` | components/bluepad32_component/uni_circular_buffer.c:11-19 | a 16-bit channel id survives being stored as a signed number |
| `CircularBuffers.CircularBuffer.IsEmpty` | components/bluepad32_component/uni_circular_buffer.c:42-44 | empty means no queued report |
| `CircularBuffers.CircularBuffer.IsFull` | components/bluepad32_component/uni_circular_buffer.c:46-48 | full means 31 queued reports |
| `CircularBuffers.CircularBuffer.Put` | components/bluepad32_component/uni_circular_buffer.c:11-26 | appends the report in a bounded FIFO of 31, with the full and too-big outcomes in the source's order |
| `CircularBuffers.CircularBuffer.Get` | components/bluepad32_component/uni_circular_buffer.c:28-40 | hands out the slot of the oldest report, which is not the next slot to be written |
| `ReportSending.ReportSender.SendReport` | components/bluepad32_component/uni_hid_device.c:797-822 | argument checks, immediate send, or queueing from memory or from a slot of the buffer itself |
| `ReportSending.ReportSender.SendQueuedReports` | components/bluepad32_component/uni_hid_device.c:844-863 | retries the oldest report from its own slot without overlap |
| `ReportSending.RetryNeverRejects` | components/bluepad32_component/uni_hid_device.c:844-863 | a retried report is delivered or re-queued unaltered, never lost |
| `ReportSending.RejectedIff` | components/bluepad32_component/uni_hid_device.c:814-818 | a report is given up exactly when handed in, refused by L2CAP, and too long or 31 are waiting |
| `ReportSending.ReportsConserved` | components/bluepad32_component/uni_hid_device.c:797-863 | for any failures: handed in = delivered + queued + rejected, as multisets |
| `ReportSending.StepInLineIff` | components/bluepad32_component/uni_hid_device.c:797-863 | a step is first in, first out exactly when no accepted fresh report finds a different one waiting and no failed retry has a different one behind it |
| `ReportSending.FifoIff` | components/bluepad32_component/uni_hid_device.c:797-863 | over runs: first in, first out throughout exactly when every step is of that kind |
| `ReportSending.OrderlyIsFifo` | components/bluepad32_component/uni_hid_device.c:797-863 | in such runs the reports kept leave in the order they were handed in |
| `ReportSending.OvertakesIff` | components/bluepad32_component/uni_hid_device.c:813-821 | an accepted fresh report overtakes the waiting ones: order survives exactly when they all equal it |
| `ReportSending.RetryReordersIff` | components/bluepad32_component/uni_hid_device.c:855-862 | a failed retry rotates the queue: order survives exactly when all waiting reports are equal |
| `ReportSending.OrderLost` | components/bluepad32_component/uni_hid_device.c:797-863 | the shortest run for each of the two failures |
| `DeviceTable.HidDevices.FindByAddress` | components/bluepad32_component/uni_hid_device.c:132-140 | the first non-virtual slot with that address |
| `DeviceTable.HidDevices.FindByCid` | components/bluepad32_component/uni_hid_device.c:142-150 | the first slot with that channel id, none for 0 |
| `DeviceTable.HidDevices.FindByHandle` | components/bluepad32_component/uni_hid_device.c:162-171 | the first slot with that handle, none for the invalid one |
| `DeviceTable.HidDevices.CreateDevice` | components/bluepad32_component/uni_hid_device.c:69-83 | the first free slot is cleared and named, its timeout started |
| `DeviceTable.HidDevices.CreateVirtualDevice` | components/bluepad32_component/uni_hid_device.c:85-119 | the first free slot is linked to its parent both ways |
| `DeviceTable.HidDevices.ConnectDevice` | components/bluepad32_component/uni_hid_device.c:428-440 | sets the flag and tells the platform |
| `DeviceTable.HidDevices.DisconnectDevice` | components/bluepad32_component/uni_hid_device.c:442-486 | recursion over the child chain: every device of the lineage is disconnected, children first, and reported if it was connected |
| `DeviceTable.HidDevices.DeleteDevice` | components/bluepad32_component/uni_hid_device.c:488-507 | recursion over the child chain: the whole lineage is freed |
| `DeviceTable.HidDevices.RemoveDevice` | components/bluepad32_component/uni_hid_device.c:442-507 | disconnect then delete, terminating whenever child chains are acyclic, with or without the rest of the table invariant |
| `DeviceTable.EndsWithNewLink` | components/bluepad32_component/uni_hid_device.c:99-103 | linking a virtual child never closes a cycle, even with stale child pointers |
| `DeviceTable.RemoveKeepsOk` | components/bluepad32_component/uni_hid_device.c:442-507 | a removal blanks exactly the slots its child pointers lead to and keeps the table invariant |
| `DeviceTable.RemovalStaysInFamilyIff` | components/bluepad32_component/uni_hid_device.c:442-507 | for every table a run can leave, harmful results included: a removal leaves everybody outside the family alone exactly when every link of the lineage is known on both sides or leads to nobody |
| `DeviceTable.CreateKeepsOk` | components/bluepad32_component/uni_hid_device.c:69-83 | creating a device with a new address keeps addresses distinct and the invariant |
| `DeviceTable.CreateVirtualKeepsOk` | components/bluepad32_component/uni_hid_device.c:85-119 | a virtual child keeps the invariant |
| `BluetoothHost.RemovedAddressIsGone` | components/bluepad32_component/bt/uni_bt_bredr.c:359-372 | after removing a stale ready device no other device has its address |
| `BluetoothHost.FsmKeepsOk` | components/bluepad32_component/bt/uni_bt_bredr.c:193-322 | every path of the state machine keeps the table invariant |
| `BluetoothHost.StepKeepsOkIff` | components/bluepad32_component/bt/uni_bt_bredr.c:324-755 | every event keeps the strict table invariant, in which free slots are clean, except exactly the query result that gives a freed slot a lasting virtual child; that result leaves a free slot connected |
| `BluetoothHost.StepKeepsInv` | components/bluepad32_component/bt/uni_bt_bredr.c:324-755 | every event, those results included, keeps the invariant with which the handlers go on: callbacks paired, distinct addresses, no cycle of child links, nothing pending in a free slot |
| `BluetoothHost.EverOkIff` | components/bluepad32_component/bt/uni_bt.c:163-214 | over runs: the strict invariant always holds exactly when no such result occurs |
| `BluetoothHost.CallbacksPairUp` | components/bluepad32_component/uni_hid_device.c:428-507 | in every run from boot, whatever results arrive: each disconnected callback has its own connected one, no slot is freed while connected, non-virtual addresses are distinct, and child links are acyclic so that every removal ends |
| `BluetoothHost.FreeSlotsFromBoot` | components/bluepad32_component/bt/uni_bt_sdp.c:186-192 | in a run from boot no free slot is ever connected exactly when no such result occurs |
| `BluetoothHost.OrphanedResultConnectsFreeSlot` | components/bluepad32_component/bt/uni_bt_sdp.c:186-192 | the case is real: a result handled for a freed slot reports that free slot connected and leaves it its own parent, though not its own child |
| `Connecting.NamedIsCalled` | components/bluepad32_component/bt/uni_bt_bredr.c:240-272 | for every host: a device that did not call by itself, whose name is told, made up after a timeout or found with it, and is not Wireless Controller, is left with its control channel requested, and nothing else changes |
| `Connecting.NamedIsReady` | components/bluepad32_component/bt/uni_bt_bredr.c:252-264 | one that called by itself, with a recognized name and a parser ready at once, is ready if the platform takes it and gone if not |
| `Connecting.NamedIsAsked` | components/bluepad32_component/bt/uni_bt_bredr.c:240-268 | Wireless Controller, and an unrecognized one that called by itself, takes the free lock and is queried, or is gone |
| `Connecting.CalledReadyOnlyWhenDone` | components/bluepad32_component/bt/uni_bt_bredr.c:240-320 | an inquiry result, a name or a name timeout makes a device that did not call by itself ready only if it was in DescriptorFetched or InterruptConnected when the event began; a name never does |
| `Connecting.ControlOpens` | components/bluepad32_component/bt/uni_bt_bredr.c:302-308 | the interrupt channel is requested exactly for a device that did not call by itself |
| `Connecting.InterruptOpensNext` | components/bluepad32_component/bt/uni_bt_bredr.c:220-322 | what follows the interrupt channel: the name is asked for, nothing, the query, or ready |
| `Connecting.QueriedGoesOn` | components/bluepad32_component/bt/uni_bt_sdp.c:239-260 | the end of the queries frees the lock; a device queried before its connection is called, any other becomes ready or goes |
| `Connecting.DescriptorIsAsked` | components/bluepad32_component/bt/uni_bt_sdp.c:262-287 | a descriptor that is needed is asked for under the same lock, or the device goes and the timer with it |
| `Connecting.EndedIsGone` | components/bluepad32_component/bt/uni_bt_bredr.c:402-489 | a failed channel, a closed channel, a disconnection, a command and an expired timeout each remove exactly the first device they name, and leave the lock |
| `Connecting.NobodyEnds` | components/bluepad32_component/bt/uni_bt_bredr.c:472-489 | and change nothing if they name none |
| `Connecting.ChildGoesFirst` | components/bluepad32_component/uni_hid_device.c:442-486 | a child is announced disconnected before its parent |
| `Connecting.DisconnectedDevice` | components/bluepad32_component/uni_hid_device.c:442-486 | a disconnected device has no timer left, and no handle if the classic link was its own |
| `Connecting.ReconnectionReplaces` | components/bluepad32_component/bt/uni_bt_bredr.c:340-395 | a control connection from a ready device removes it and puts a new one into the first free slot |
| `Connecting.RequestAnnounces` | components/bluepad32_component/bt/uni_bt_bredr.c:598-620 | a connection request marks the device, known or new, as calling by itself |
| `Connecting.CompleteGivesHandle` | components/bluepad32_component/bt/uni_bt_bredr.c:622-663 | a completed connection gives a known device its handle, a failed one nothing |
| `Connecting.IncomingChannels` | components/bluepad32_component/bt/uni_bt_bredr.c:340-400 | the two incoming channels of a device that is not ready yet |
| `Connecting.LateName` | components/bluepad32_component/bt/uni_bt_bredr.c:720-755 | a name for a device that is pending or ready is noted, and nothing follows |
| `Connecting.ParserReports` | components/bluepad32_component/uni_hid_device.c:230-260 | a parser's report makes a device ready or, declined, removes it |
| `QueryOwner.ResultBelongsIff` | components/bluepad32_component/bt/uni_bt_sdp.c:186-245 | over runs, from a query under way to its result: the lock still stands for that query, and names the device that asked, exactly when its timer has not run out and the slot has not been given back meanwhile |
| `QueryOwner.CreditedToAskerIff` | components/btstack/src/classic/sdp_client.c:747-764 | the same for the lock alone, since a busy SDP client takes no second query: the lock names the device that asked exactly under those two conditions |
| `QueryOwner.ResultTypesHolder` | components/bluepad32_component/bt/uni_bt_sdp.c:186-192 | a VID/PID result gives its type to the device in the slot the lock names then, and changes no other device in use |
| `QueryOwner.AskerLearnsTypeIff` | components/bluepad32_component/bt/uni_bt_sdp.c:186-214 | a device that asked for its type and is still there after the result knows it exactly when the lock did not time out before |
| `Tenancy.StepPasses` | components/bluepad32_component/bt/uni_bt_bredr.c:324-755 | every event: devices in use keep address, parent and known type unless given back; only an inquiry result, a connection request or an incoming connection brings in a device that is not virtual |
| `ReadyOrder.ConnectedIff` | components/bluepad32_component/uni_hid_device.c:428-486 | one event sets the connected flag of a device that keeps its slot only by opening its interrupt channel, and clears it only by a service disconnect of it or of a device above it |
| `ReadyOrder.ReadyUnconnectedIff` | components/bluepad32_component/uni_hid_device.c:207-260 | a device made ready by an event is then unconnected exactly when it was before and the event does not open its interrupt channel |
| `ReadyOrder.AnnouncedIff` | components/bluepad32_component/uni_hid_device.c:428-440 | over a whole tenancy, from the event that brings a device in: it has been announced connected exactly when one of the later events opened its interrupt channel |
| `ReadyOrder.ReadyUnannouncedIff` | components/bluepad32_component/uni_hid_device.c:207-260 | in every run from boot, for every device in use that is not virtual: since it came in it is ready without a connected callback exactly when it is ready and its interrupt channel has not been opened |
| `SdpLock.LockCanDangle` | components/bluepad32_component/bt/uni_bt_sdp.c:219-237 | a run in which the lock names a slot that was given back |
| `SdpLock.StepSettles` | components/bluepad32_component/bt/uni_bt_sdp.c:186-192 | whoever enters VENDOR_FETCHED leaves it in the same step, for every event |
| `SdpLock.RunSettles` | components/bluepad32_component/bt/uni_bt_sdp.c:186-192 | so in no run is any slot in that state between events |
| `SdpLock.StepLock` | components/bluepad32_component/bt/uni_bt_sdp.c:200-287 | between events, lock and timer stay in agreement exactly when the event is not a VID/PID result whose HID descriptor query is refused; the lock is never taken over; a VID/PID query starts only from a free lock |
| `SdpLock.LockHoldsIff` | components/bluepad32_component/bt/uni_bt_sdp.c:200-287 | over runs: lock and timer always agree exactly when no HID descriptor query is refused |
| `SdpLock.LockAlwaysReleased` | components/bluepad32_component/bt/uni_bt_sdp.c:200-215 | in such runs the timeout handler never meets either error branch and always frees a held lock |
| `SdpLock.RefusalLeaks` | components/bluepad32_component/bt/uni_bt_sdp.c:278-285 | a refused HID descriptor query leaves the lock held without a timer |
| `SdpLock.LeakIsPermanent` | components/bluepad32_component/bt/uni_bt_sdp.c:219-228 | after that, in every run without a query result, the lock stays held and no VID/PID query ever starts |
| `SdpLock.LaterDeviceRemoved` | components/bluepad32_component/bt/uni_bt_sdp.c:219-228 | and in every such run a device that needs a query is removed in the step that would start it |
| `SdpLock.LeakIsReachable` | components/bluepad32_component/bt/uni_bt_sdp.c:262-287 | two events from boot reach the leak |
| `SdpLock.NextGamepadRemoved` | components/bluepad32_component/bt/uni_bt_sdp.c:219-228 | worked example: the next gamepad of that kind is removed when it is found |
| `BluetoothStack.Stack.SetReadyComplete` | components/bluepad32_component/uni_hid_device.c:230-260 | acceptance or removal by the platform, timer stopped |
| `BluetoothStack.Stack.SetReadyCompleteWithChild` | components/bluepad32_component/parser/uni_hid_parser_ds4.c:240-262 | a virtual child is created, connected and kept or unlinked |
| `BluetoothStack.Stack.SetReadyDevice` | components/bluepad32_component/uni_hid_device.c:207-228 | pending-ready state and the parser's setup |
| `BluetoothStack.Stack.SdpQueryStart` | components/bluepad32_component/bt/uni_bt_sdp.c:219-237 | takes the lock and starts the query, or removes the device when the lock is taken |
| `BluetoothStack.Stack.StartVidPidQuery` | components/bluepad32_component/bt/uni_bt_sdp.c:247-260 | state change, query, removal when refused |
| `BluetoothStack.Stack.SdpQueryEnd` | components/bluepad32_component/bt/uni_bt_sdp.c:239-245 | frees lock and timer and goes on with the state machine |
| `BluetoothStack.Stack.StartHidDescriptorQuery` | components/bluepad32_component/bt/uni_bt_sdp.c:262-287 | skip, abort, query, or the refusal that forgets the lock |
| `BluetoothStack.Stack.ProcessFsm` | components/bluepad32_component/bt/uni_bt_bredr.c:193-322 | the state machine, branch by branch |
| `BluetoothStack.Stack.OnL2capIncomingConnection` | components/bluepad32_component/bt/uni_bt_bredr.c:324-400 | incoming L2CAP connection |
| `BluetoothStack.Stack.OnL2capChannelOpened` | components/bluepad32_component/bt/uni_bt_bredr.c:402-470 | L2CAP channel opened or failed |
| `BluetoothStack.Stack.OnL2capChannelClosed` | components/bluepad32_component/bt/uni_bt_bredr.c:472-489 | L2CAP channel closed |
| `BluetoothStack.Stack.OnGapInquiryResult` | components/bluepad32_component/bt/uni_bt_bredr.c:534-596 | inquiry result |
| `BluetoothStack.Stack.OnHciConnectionRequest` | components/bluepad32_component/bt/uni_bt_bredr.c:598-620 | connection request |
| `BluetoothStack.Stack.OnHciConnectionComplete` | components/bluepad32_component/bt/uni_bt_bredr.c:622-663 | connection complete |
| `BluetoothStack.Stack.OnHciRemoteName` | components/bluepad32_component/bt/uni_bt_bredr.c:720-755 | remote name, ignored for devices that are pending or ready |
| `BluetoothStack.Stack.OnHciDisconnectionComplete` | components/bluepad32_component/bt/uni_bt.c:147-182 | removal by connection handle |
| `BluetoothStack.Stack.DisconnectCommandCallback` | components/bluepad32_component/bt/uni_bt.c:206-214 | removal by index |
| `BluetoothStack.Stack.OnConnectionTimer` | components/bluepad32_component/uni_hid_device.c:970-983 | connection timeout |
| `BluetoothStack.Stack.OnRemoteNameTimer` | components/bluepad32_component/bt/uni_bt_bredr.c:55-62 | name timeout |
| `BluetoothStack.Stack.OnSdpTimer` | components/bluepad32_component/bt/uni_bt_sdp.c:200-215 | SDP timeout, and which of the handler's three branches it takes |
| `BluetoothStack.Stack.OnPidQueryComplete` | components/bluepad32_component/bt/uni_bt_sdp.c:186-192 | VID/PID query complete, for a device still there, gone or replaced; the invariant of every run is kept, the strict one exactly when the result is not harmful |
| `BluetoothStack.Stack.OnHidQueryComplete` | components/bluepad32_component/bt/uni_bt_sdp.c:135-137 | HID descriptor query complete, likewise |
| `ConnectionFlows.RemovalTakesStranger` | components/bluepad32_component/uni_hid_device.c:442-507 | worked example from boot: a gamepad connects by itself and becomes ready with a virtual mouse; the mouse, disconnected by index, leaves its parent's pointer, another gamepad gets the slot, and removing the parent removes that gamepad |
| `ConnectionFlows.StrangerGetsResult` | components/bluepad32_component/bt/uni_bt_sdp.c:186-192 | worked example from boot: a device is removed during its query, another gets the slot, and the result makes that one ready although it has no channel |
| `ConnectionFlows.LateResultGoesElsewhere` | components/bluepad32_component/bt/uni_bt_sdp.c:200-237 | worked example from boot: the lock times out during the query, a second device takes it in vain and is removed, a third gets its slot, and the first device's result makes the third ready while the first one, never removed, gets nothing |
| `ConnectionFlows.ReadyBeforeConnected` | components/bluepad32_component/bt/uni_bt_bredr.c:220-264 | worked example from boot: found by inquiry without a name, announced by a connection request, a device is ready as soon as its recognized name arrives, with no connected callback |
| `ConnectionFlows.DiscoveredGamepad` | components/bluepad32_component/bt/uni_bt_bredr.c:193-322 | worked example: a gamepad found by inquiry gets both channels, both queries and ends ready, connected once, with the lock free |
| `ConnectionFlows.RecognizedGamepad` | components/bluepad32_component/bt/uni_bt_bredr.c:252-322 | worked example: a gamepad found by inquiry with a recognized name gets both channels and is ready, connected once, without any query |
| `ConnectionFlows.IncomingGamepad` | components/bluepad32_component/bt/uni_bt_bredr.c:220-264 | worked example: a gamepad that connects by itself is asked for its name and, if recognized, is ready without any query |
| `ConnectionFlows.QueriedBeforeConnect` | components/bluepad32_component/bt/uni_bt_bredr.c:240-250 | worked example: a gamepad named Wireless Controller is queried first, then connected, and is ready without a further query |
| `Allowlists.ScanOfText` | components/btstack/src/btstack_util.c:373-439 | scanning a printed address gives it back |
| `Allowlists.PrintedAt` | components/btstack/src/btstack_util.c:373-389 | where each byte stands in the printed text: two upper-case digits, a colon behind all but the last |
| `Allowlists.OperationsOnMembers` | components/bluepad32_component/bt/uni_bt_allowlist.c:91-123 | add, remove and remove_all as set operations, and exactly when they succeed |
| `Allowlists.RunKeepsSync` | components/bluepad32_component/bt/uni_bt_allowlist.c:91-123 | after any sequence of operations the property encodes the table and the table has no duplicates |
| `Allowlists.ReloadRestores` | components/bluepad32_component/bt/uni_bt_allowlist.c:43-69 | reloading into an empty table, rewriting the property at every step, gives the same addresses in order and the same string |
| `Allowlists.BufferSufficesIff` | components/bluepad32_component/bt/uni_bt_allowlist.c:26-37 | the 128-byte buffer holds the string of every duplicate-free table exactly up to capacity 7 |
| `Allowlists.Allowlist.UpdateProperty` | components/bluepad32_component/bt/uni_bt_allowlist.c:20-41 | the loop of string appends builds the encoding of the table |
| `Allowlists.Allowlist.IsAllowed` | components/bluepad32_component/bt/uni_bt_allowlist.c:83-89 | everything is allowed unless enforced; then only what the table holds |
| `Allowlists.Allowlist.AddAddr` | components/bluepad32_component/bt/uni_bt_allowlist.c:91-104 | duplicate, full and success outcomes with the new table and property |
| `Allowlists.Allowlist.RemoveAddr` | components/bluepad32_component/bt/uni_bt_allowlist.c:106-115 | first match cleared and written out |
| `Allowlists.Allowlist.RemoveEveryAddr` | components/bluepad32_component/bt/uni_bt_allowlist.c:117-123 | empty table written out |
| `Allowlists.Allowlist.LoadFromProperty` | components/bluepad32_component/bt/uni_bt_allowlist.c:43-69 | the offset loop adds each address parsed from the string as it was read |
| `Crc32.EightRounds` | components/bluepad32_component/uni_utils.c:15-18 | the inner loop is eight shift steps |
| `Crc32.Crc32Le` | components/bluepad32_component/uni_utils.c:9-22 | the byte loop feeds the message bit by bit |
| `Crc32.FeedIsXorThenShift` | components/bluepad32_component/uni_utils.c:13-19 | up to 32 message bits equal one xor followed by as many shift steps |
| `Crc32.UnshiftAfterShift` | components/bluepad32_component/uni_utils.c:15-18 | a shift step can be undone, because the polynomial has bit 31 set |
| `Crc32.ShiftAfterUnshift` | components/bluepad32_component/uni_utils.c:15-18 | and every register value is reached: shift steps are bijections |
| `Crc32.CrcLinear` | components/bluepad32_component/uni_utils.c:9-22 | the CRC is linear over xor |
| `Crc32.CollisionIffDifferenceVanishes` | components/bluepad32_component/uni_utils.c:9-22 | two equal-length messages collide exactly when their difference has CRC 0 from register 0 |
| `Crc32.BurstDetected` | components/bluepad32_component/uni_utils.c:9-22 | two bit messages differing only inside any 32 consecutive bits never share a CRC |
| `Crc32.ByteBurstDetected` | components/bluepad32_component/uni_utils.c:9-22 | two byte messages differing only inside 4 consecutive bytes never share a CRC |
| `Crc32.BurstBoundTight` | components/bluepad32_component/uni_utils.c:7 | 33 bits can go unnoticed: the generator itself |
| `Crc32.CheckValue` | components/bluepad32_component/uni_utils.c:7-22 | the CRC of the digits 1 to 9, from all ones and inverted, is the published check value 0xcbf43926 |
| `Quadrature.OnePinPerTick` | components/bluepad32_component/uni_mouse_quadrature.c:83-127 | an effective tick changes exactly one pin, any other event none |
| `Quadrature.DecoderFollows` | components/bluepad32_component/uni_mouse_quadrature.c:83-127 | from any state a decoder that sees only the pins recovers what is left to move and then every later update, cut short by the next one |
| `Quadrature.RoundTrip` | components/bluepad32_component/uni_mouse_quadrature.c:83-202 | from rest it recovers the sum of sign(d) * min(|d|, ticks before the next nonzero update) |
| `Quadrature.QuadratureState.ProcessQuadrature` | components/bluepad32_component/uni_mouse_quadrature.c:83-127 | one tick on value, phase and pins |
| `Quadrature.QuadratureState.ProcessUpdate` | components/bluepad32_component/uni_mouse_quadrature.c:191-202 | one update of value and direction |
| `BalanceBoard.PulseShape` | components/bluepad32_component/uni_joystick.c:311-333 | every fire pulse lasts exactly 12 calls and at least 4 calls pass before the next |
| `BalanceBoard.PulseMeansJump` | components/bluepad32_component/uni_joystick.c:284-324 | every pulse is preceded by a pressed call, at most 11 calls later an all-idle call, then two calls that did not land |
| `BalanceBoard.PulseStartsIff` | components/bluepad32_component/uni_joystick.c:284-324 | a pulse starts exactly at the end of a jump: a press that is taken up, all corners idle for the first time at most 11 calls later, then two calls that did not land |
| `BalanceBoard.JumpMeansPulse` | components/bluepad32_component/uni_joystick.c:284-316 | from rest, every such pattern starts a pulse, whatever the gap of up to 11 calls between the press and the all-idle call |
| `BalanceBoard.LandedIff` | components/bluepad32_component/uni_joystick.c:292-318 | idle means no corner reaches 1600, and a board that is not idle has landed except when only the bottom left corner stands at exactly 1600 |
| `BalanceBoard.BoardState.Process` | components/bluepad32_component/uni_joystick.c:279-337 | one call: new state, 8-bit counter and fire output |
| `MonoCodec.DuplicateForStereo` | components/btstack/btstack_audio_esp32_v5.c:243-249 | in place: out[2i] = out[2i+1] = in[i] for every n the buffers admit (5760 frames in v5, 480 in v4); the 16-bit counter would only give out above 32768 |
| `MonoCodec.DropSecondChannel` | components/btstack/btstack_audio_esp32_v5.c:268-273 | in place: every even sample moves to the front, the rest is untouched |
| `MonoCodec.DuplicatesEverySample` | components/btstack/btstack_audio_esp32_v4.c:322-329 | the expansion doubles every sample |
| `MonoCodec.CollapseUndoesExpand` | components/btstack/btstack_audio_esp32_v4.c:458-463 | collapse after expand gives back the samples |
| `MonoCodec.ExpandUndoesCollapseIff` | components/btstack/btstack_audio_esp32_v4.c:458-463 | expand after collapse is the identity exactly when both channels agree |
| `HexBlob.StoreBlob` | components/cmd_nvs/cmd_nvs.c:97-140 | accepts exactly the even-length hexadecimal texts, memory permitting, hands their pairs to NVS, and reports each failure in the source's order |
| `HexBlob.PrintBlob` | components/cmd_nvs/cmd_nvs.c:143-148 | prints two lower-case digits a byte and a newline |
| `HexBlob.PrintAfterStore` | components/cmd_nvs/cmd_nvs.c:97-148 | printing what was stored gives the lower case of the text |
| `HexBlob.StoreAfterPrint` | components/cmd_nvs/cmd_nvs.c:97-148 | storing what is printed gives the same bytes |

## Left out

- Floating-point rounding, infinities and NaN: all flight arithmetic is over the reals, so bounds
  are those of exact arithmetic. An ESC duty is computed in integers as in the code.
- I2C, LEDC, GPIO, UART, I2S and NVS calls, WiFi, telemetry text and logging: only their success or
  the pins and strings they set are modelled.
- Mutex waits and timer lengths: a mutex is taken or not, a timer that is armed may fire at any time.
- Preemption inside `flight_controller_update`: an iteration acts in one step once it holds both
  snapshots; gains set by telemetry take effect between iterations.
- Angle extraction from the accelerometer (`mpu6050.c`): attitudes are inputs.
- The contents of the HCI receive buffer beyond the bytes fetched, and its size: a delivery is the
  announced length and the bytes read.
- Bluetooth LE, HID parsers and the Bluetooth service: parsers appear through what their setup does
  about readiness, the service through its disconnect call.
- Report data, names beyond the three classes the state machine tells apart, class of device, RSSI,
  page-scan parameters and the misc-button timer of a device slot.
- The ring of eight callback registrations behind the `_safe` functions of `uni_bt.c`.
- The low-pass filter and direction outputs of the balance board.
- Quadrature timer intervals and a delta of INT32_MIN, whose negation is undefined in C.
- Keyboard and gamepad maps, controller database, console commands, codec register tables: long
  tables with single-branch facts.
- HidDevices.DisconnectDevice: the Bluetooth LE calls for a link of LE type, which change nothing in
  the table, are left out.
- CircularBuffer.Put: the copy is stated for sources other than the slot being written, as `memcpy` requires; the
  one caller that copies within the buffer is proved to meet this.
- Allowlist.UpdateProperty: the string is unbounded; `Allowlists.BufferSufficesIff` says when the real buffer
  holds it. A failing write of the property is not modelled.
- The sign of `char` when a blob is printed: it is taken as an unsigned byte.
