# SC-28 rover controller, modelled in Dafny

This project models the control core of the Akatoki-Saidai SC-28 CanSat rover. The rover falls under a parachute, lands, drives toward a GPS goal and then closes in on a red cone. The model covers these parts:

- The anomaly filter, `ijochi.py`, which drops sensor readings whose magnitude lies outside a per-sensor range.
- Both GPS modules, with their NMEA sentence checks, the course to the goal, and the normalisation of the bearing to [-180, 180] degrees.
- The three motor drivers (`2_phase`, `SC-27`, `chatGPT`), with their power ramps, stops, stall windows and stuck recovery.
- The three cone deciders (`chatGPT` and `SC-27` `camera.py`, and `camera_wintest.py`), which turn the red area, the red centroid and YOLO boxes into a steering order.
- The BME280 and BNO055 I2C drivers, with the register decoding, the calibration data and the scaling.
- The three SC-27 mission scripts: `EM.py` (the whole flight), `enkyori.py` (long range) and `kinkyori.py` (short range).
- The two CSV loggers (`make_csv.py`) and a reader for the records they write, following section 2 of RFC 4180.

Each Python module is a Dafny module. Pure helpers become functions and lemmas. Objects that update their fields become classes, whose methods are proved against specification functions. Script loops become methods whose result equals a left fold of a per-cycle step over the sequence of cycle inputs.

The model follows the code where its comments or documentation say otherwise:

- The `chatGPT` GPS filter's comment and file header say a fix is dropped only when both coordinates are 0. The code drops it when either one is 0. `GpsChatGpt` follows the code, and lemmas `FiltersDifferOnAxis` and `ChatGptFilterIsStricter` compare it with the `geminiPro` filter.
- In `EM.py` and `enkyori.py`, some counters and flags are assigned inside `main` without a `global` declaration, so they are locals of `main`. The mission modules keep each such local unbound (`None`) until the code first assigns it, and the consequences are under Findings.
- The `chatGPT` motor driver's `stop(target)` drives both wheels forward whatever the previous direction. Its `q` and `e` pivots are swapped relative to the `2_phase` driver. Both are modelled as written.

Hardware replies, clock readings and library results are parameters of the model: I2C blocks, gyroscope samples, GPS sentences, range-finder answers, camera contours and YOLO boxes.

## Model

| member | source | states |
|---|---|---|
| AnomalyFilter.SumAbs | 1_definition/SC-28_temp/SC-28_geminiPro/ijochi.py:52 | the magnitude of a list reading is never negative, and an all-zero list has magnitude 0 |
| AnomalyFilter.AbnormalCheck | 1_definition/SC-28_temp/SC-28_geminiPro/ijochi.py:34-76 | the result is the reading or `None`; `None` stays `None`; a key missing from the table hands the reading back (the `KeyError` is caught); for a known key the reading survives exactly when its magnitude lies in the inclusive range |
| AnomalyFilter.BnoRows | 1_definition/SC-28_temp/SC-28_geminiPro/ijochi.py:12-19 | the `bno` gyro and gravity rows are the ranges [0, 45] and [0, 15] |
| AnomalyFilter.Idempotent | 1_definition/SC-28_temp/SC-28_geminiPro/ijochi.py:57-62 | filtering a filtered reading again changes nothing |
| AnomalyFilter.BoundsInclusive | 1_definition/SC-28_temp/SC-28_geminiPro/ijochi.py:57 | both ends of every table range are accepted and any scalar beyond either end is rejected |
| AnomalyFilter.ZeroVectorPassesBno | 1_definition/SC-28_temp/SC-28_geminiPro/ijochi.py:41-58 | an all-zero list passes every `bno` row: the all-zero branch only reports, then the range test (minimum 0) keeps the value |
| AnomalyFilter.SumAbsOfMagnitudes | 1_definition/SC-28_temp/SC-28_geminiPro/ijochi.py:52 | lists with the same absolute components have the same magnitude |
| AnomalyFilter.SignBlind | 1_definition/SC-28_temp/SC-28_geminiPro/ijochi.py:52-58 | a list's verdict does not depend on the signs of its components |
| Bearing.ReduceDegrees | 1_definition/SC-28_temp/SC-28_chatGPT/gps.py:234-238 | the reduced angle lies in [-180, 180], an angle already there is unchanged, and an angle above 180 (below -180) never lands on -180 (180) |
| Bearing.ReduceByWholeTurns | 1_definition/SC-28_temp/SC-28_chatGPT/gps.py:235-238 | the reduction changes the angle by a whole number of turns of 360 degrees |
| Bearing.NormalizeDegrees | 1_definition/SC-28_temp/SC-28_chatGPT/gps.py:234-238 | the two `while` loops compute exactly the reduced angle |
| Bearing.CalculateDistanceAndAngle | 1_definition/SC-28_temp/SC-28_chatGPT/gps.py:199-245 | the method's result equals the course function: sentinel on a missing coordinate or a failing geodesic, distance only when stationary, otherwise the sign-flipped, reduced azimuth difference in radians |
| Bearing.SentinelWhenUnavailable | 1_definition/SC-28_temp/SC-28_chatGPT/gps.py:214-216 | any missing coordinate gives (2727272727, 0) (see also line 16) |
| Bearing.StationaryGivesStraightAhead | 1_definition/SC-28_temp/SC-28_chatGPT/gps.py:221-229 | travel under 0.1 m gives the current-to-goal distance with angle 0 |
| Bearing.AngleInHalfTurn | 1_definition/SC-28_temp/SC-28_chatGPT/gps.py:232-241 | every returned angle lies in [-pi, pi] |
| Bearing.RightIsNegative | 1_definition/SC-28_temp/SC-28_chatGPT/gps.py:208-212 | a goal to the right of the heading gives a negative angle, one to the left a positive angle, and north travel with the goal due east gives -pi/2 (see also lines 252-254) |
| Nmea.FirstFixIsEarliest | 1_definition/SC-28_temp/SC-28_chatGPT/gps.py:102-134 | the scan finds nothing exactly when no line yields a fix, and otherwise returns the fix of the earliest line that yields one |
| Nmea.ScanForFix | 1_definition/SC-28_temp/SC-28_chatGPT/gps.py:102-134 | the read loop returns the first accepted fix in arrival order, or `None` |
| GpsChatGpt.Numeral | 1_definition/SC-28_temp/SC-28_chatGPT/gps.py:83-85 | a quality indicator is written as at least one digit |
| GpsChatGpt.NumeralValue | 1_definition/SC-28_temp/SC-28_chatGPT/gps.py:85 | a written numeral is all digits and its digit value is the number |
| GpsChatGpt.ParseNumeral | 1_definition/SC-28_temp/SC-28_chatGPT/gps.py:85 | `int` reads a written numeral back as the number |
| GpsChatGpt.ValidGgaByQuality | 1_definition/SC-28_temp/SC-28_chatGPT/gps.py:80-88 | a GGA sentence is valid exactly when its quality is positive; a missing or empty quality is invalid |
| GpsChatGpt.NonZeroPosition | 1_definition/SC-28_temp/SC-28_chatGPT/gps.py:123-127 | a position is kept exactly when it exists and neither latitude nor longitude is 0.0, and it is kept unchanged |
| GpsChatGpt.LineFix | 1_definition/SC-28_temp/SC-28_chatGPT/gps.py:104-127 | a line yields a fix exactly when it parses, is RMC with status 'A' or GGA with positive quality, and has a position with both coordinates non-zero; the fix is that position |
| GpsChatGpt.Receiver.constructor | 1_definition/SC-28_temp/SC-28_chatGPT/gps.py:20-30 | a new receiver has an open port when opening succeeds and none otherwise |
| GpsChatGpt.Receiver.OpenSerial | 1_definition/SC-28_temp/SC-28_chatGPT/gps.py:32-41 | opening reports success and leaves an open port, or reports failure and leaves no port |
| GpsChatGpt.Receiver.EnsureSerial | 1_definition/SC-28_temp/SC-28_chatGPT/gps.py:43-58 | an open port is kept and reported usable; a missing or closed port is dropped and re-opened |
| GpsChatGpt.Receiver.Close | 1_definition/SC-28_temp/SC-28_chatGPT/gps.py:60-68 | after `close` there is no port, whatever the state before |
| GpsChatGpt.Receiver.ReadGpsData | 1_definition/SC-28_temp/SC-28_chatGPT/gps.py:90-138 | when no port can be opened the result is `None`; otherwise the port is open and the result is the first accepted fix |
| GpsChatGpt.ReturnedFixIsValid | 1_definition/SC-28_temp/SC-28_chatGPT/gps.py:124-127 | every fix returned has both coordinates non-zero |
| GpsGeminiPro.LineFix | 1_definition/SC-28_temp/SC-28_geminiPro/gps.py:62-69 | a `$GPGGA` or `$GPRMC` line that parses with a position yields it unless both coordinates are 0.0 |
| GpsGeminiPro.ChatGptFilterIsStricter | 1_definition/SC-28_temp/SC-28_geminiPro/gps.py:64-69 | every fix the chatGPT copy accepts is accepted here with the same position |
| GpsGeminiPro.FiltersDifferOnAxis | 1_definition/SC-28_temp/SC-28_geminiPro/gps.py:68 | a valid GGA fix on the equator is kept here but dropped by the chatGPT copy |
| GpsGeminiPro.Receiver.constructor | 1_definition/SC-28_temp/SC-28_geminiPro/gps.py:18-33 | a new receiver has an open port when opening succeeds and none otherwise |
| GpsGeminiPro.Receiver.Close | 1_definition/SC-28_temp/SC-28_geminiPro/gps.py:35-43 | only a present, open port is closed and dropped; any other port state is left as it was |
| GpsGeminiPro.Receiver.ReadGpsData | 1_definition/SC-28_temp/SC-28_geminiPro/gps.py:48-79 | a missing or closed port gives `None` without reading; otherwise the first accepted fix |
| MotorDrive.InvertInvolutive | 2_phase/motordrive.py:159-161 | inverting a direction twice gives it back, and a letter outside the map is left as it is |
| MotorDrive.InvertMirrorsWheels | 2_phase/motordrive.py:159-175 | inversion keeps a letter known or unknown; for w/s/a/d it negates both wheel values, for q/e it swaps the wheels; no wheel value exceeds the power |
| MotorDrive.RampSteps | 2_phase/motordrive.py:178-179 | the ramp has at least one step |
| MotorDrive.RampShape | 2_phase/motordrive.py:179-183 | the ramp powers start at 0, never decrease, stay within [0, power] and end within one 0.1 step of the power |
| MotorDrive.StopSteps | 2_phase/motordrive.py:117-118 | the stop ramp has at least one step |
| MotorDrive.StopTraceAt | 2_phase/motordrive.py:118-128 | the stop ramp has steps + 2 writes: `current * (1 - i/steps)` for each i, then an explicit (0, 0) |
| MotorDrive.StopTraceShape | 2_phase/motordrive.py:103-129 | `stop()` writes nothing exactly when both wheels are at 0; otherwise it starts at the current values, keeps each wheel's sign, never raises a wheel's magnitude and ends at (0, 0) |
| MotorDrive.StopTraceKeepsSign | 2_phase/motordrive.py:120-124 | every pair of the stop ramp has each wheel at 0 or with its starting sign |
| MotorDrive.StopTraceFalls | 2_phase/motordrive.py:120-128 | later pairs of the stop ramp never have a larger magnitude on either wheel |
| MotorDrive.PlausibleIsFilter | 2_phase/motordrive.py:214-218 | the gyro filter keeps a sample exactly when |x| + |y| + |z| lies in the table's gyro range |
| MotorDrive.CheckWindow | 2_phase/motordrive.py:204-233 | the five-sample loop reports a stall exactly when all five samples are present, plausible and inactive (|z| at most 0.4 when turning with a/d/q/e, gyro norm at most 0.4 otherwise) |
| MotorDrive.MonitorStall | 2_phase/motordrive.py:202-244 | the monitoring loop returns 1 exactly when some window stalls, stopping at the first, and 0 otherwise |
| MotorDrive.RampTrace | 2_phase/motordrive.py:182-184 | the ramp writes one pair per step |
| MotorDrive.RampTraceNext | 2_phase/motordrive.py:182-184 | each ramp step appends the wheel values for `min(i * 0.1, power)` |
| MotorDrive.DriveTrace | 2_phase/motordrive.py:182-196 | a move writes at least two pairs before it stops |
| MotorDrive.MoveEndsStopped | 2_phase/motordrive.py:182-196 | every move in a known direction leaves both wheels at 0 (see also line 249) |
| MotorDrive.HoldWritesPower | 2_phase/motordrive.py:191-196 | with time left after the ramp, the hold writes exactly the requested power in the requested direction |
| MotorDrive.Drive.constructor | 2_phase/motordrive.py:47-50 | the driver starts without motors or GPIO, wheels at 0 and nothing written |
| MotorDrive.Drive.SetupGpio | 2_phase/motordrive.py:55-65 | on first use the LED and VM pins are driven low; later calls change nothing |
| MotorDrive.Drive.SetupMotors | 2_phase/motordrive.py:67-85 | existing motors are kept unchanged; otherwise creation either gives motors at rest with GPIO set up or leaves none |
| MotorDrive.Drive.Write | 2_phase/motordrive.py:173-174 | writing a pair sets both wheels and records the pair |
| MotorDrive.Drive.Stop | 2_phase/motordrive.py:103-129 | without motors nothing happens; otherwise the stop ramp from the current values is written and both wheels end at 0 |
| MotorDrive.Drive.Move | 2_phase/motordrive.py:131-250 | power outside [0, 1] or missing motors returns 0 with nothing written; VM is enabled; an unknown (inverted) direction only stops; a known one writes ramp, hold and stop ramp and returns 1 exactly when the stall check ran (time left, duration at least 2, IMU present, check enabled) and a window stalled |
| MotorDrive.Drive.RunMove | 2_phase/motordrive.py:177-250 | ramp, hold, optional stall watch and stop write the move's trace and leave the wheels at 0 |
| MotorDrive.Drive.RampAndHold | 2_phase/motordrive.py:179-196 | the acceleration loop and the hold write exactly the drive trace, and the wheels hold its last pair |
| MotorDrive.Drive.CheckStuck | 2_phase/motordrive.py:252-285 | nothing changes unless `is_stacked == 1` and GPIO is ready; then the LED ends off and motors exist exactly when they did or creation succeeds; when creation fails nothing is written; with motors, s 3 s, d 1 s and w 2 s at full power (inverted when asked) are written and the wheels end at 0 |
| MotorDrive.RecoveryBacksOffFirst | 2_phase/motordrive.py:268-269 | upright, the recovery's first hold drives both wheels at -1 |
| MotorDriveSc27.RampSteps | 1_definition/SC-27/motordrive.py:111 | the ramp has at least one step, and its steps times 0.1 exceed the power |
| MotorDriveSc27.RampTrace | 1_definition/SC-27/motordrive.py:113-138 | the ramp writes one pair per step |
| MotorDriveSc27.RampTraceNext | 1_definition/SC-27/motordrive.py:113-132 | each ramp step appends the wheel values for `min(i * 0.1, power)` |
| MotorDriveSc27.RampReachesPower | 1_definition/SC-27/motordrive.py:111-114 | the ramp powers start at 0, never decrease, stay within [0, power] and the last one is the power itself |
| MotorDriveSc27.DriveTrace | 1_definition/SC-27/motordrive.py:113-161 | ramp and hold write at least two pairs |
| MotorDriveSc27.DriveEndsAtPower | 1_definition/SC-27/motordrive.py:111-161 | held or not, the last pair written before monitoring is the direction at full power |
| MotorDriveSc27.StopSteps | 1_definition/SC-27/motordrive.py:71-75 | the stop ramp has at least one step, so the zero-steps branch cannot be taken |
| MotorDriveSc27.StopTrace | 1_definition/SC-27/motordrive.py:71-88 | `stop()` writes steps + 2 pairs |
| MotorDriveSc27.StopFactorFalls | 1_definition/SC-27/motordrive.py:77-82 | the stop ramp's scale factor stays in [0, 1] and never rises from one step to the next |
| MotorDriveSc27.StopTraceAt | 1_definition/SC-27/motordrive.py:77-88 | every pair `stop()` writes is the starting pair scaled by `1 - i/steps`, and by 0 from the last step on |
| MotorDriveSc27.StopTraceShape | 1_definition/SC-27/motordrive.py:59-89 | the stop ramp starts at the current values, keeps each wheel's sign, never raises a wheel's magnitude and ends with two (0, 0) writes |
| MotorDriveSc27.StopAtRest | 1_definition/SC-27/motordrive.py:71-88 | a `stop()` with both wheels at rest still writes (0, 0) three times |
| MotorDriveSc27.ScanFromMeaning | 1_definition/SC-27/motordrive.py:166-181 | the five-sample window is stalled exactly when every sample is readable and quiet (only a and d count as turns), and raises exactly when an unreadable sample comes before any active one |
| MotorDriveSc27.PulseShape | 1_definition/SC-27/motordrive.py:195-196 | a correction pulse is a full forward move followed by a stop from full power, and ends at (0, 0) |
| MotorDriveSc27.PrependTwice | 1_definition/SC-27/motordrive.py:165-211 | writes recorded before a monitoring run compose in order |
| MotorDriveSc27.WatchOutcome | 1_definition/SC-27/motordrive.py:165-211 | monitoring raises exactly when some window raises; otherwise the flag ends at 1 exactly when some window stalled, and it is always 0 or 1 |
| MotorDriveSc27.StallLostOnLaterFault | 1_definition/SC-27/motordrive.py:171-186 | a stalled window followed by an unreadable sample raises, so the stall seen earlier is never returned |
| MotorDriveSc27.MoveRunEnds | 1_definition/SC-27/motordrive.py:140-214 | a move that returns ends at (0, 0) with flag 0 or 1; a move can only raise when it monitored |
| MotorDriveSc27.FaultLeavesMotorsRunning | 1_definition/SC-27/motordrive.py:163-173 | an unreadable sample in the first window raises with the wheels still at full power and no stop written (see also line 213) |
| MotorDriveSc27.TurnNeverRaises | 1_definition/SC-27/motordrive.py:163 | the 1 s turn of the recovery is too short to monitor, so it never raises (see also line 235) |
| MotorDriveSc27.Drive.constructor | 1_definition/SC-27/motordrive.py:26-38 | the driver starts without motors, LED off, wheels at 0 and nothing written |
| MotorDriveSc27.Drive.SetupMotors | 1_definition/SC-27/motordrive.py:40-57 | existing motors are kept; otherwise creation gives motors at rest or leaves none |
| MotorDriveSc27.Drive.Write | 1_definition/SC-27/motordrive.py:83-84 | writing a pair sets both wheels and records the pair |
| MotorDriveSc27.Drive.Stop | 1_definition/SC-27/motordrive.py:59-89 | without motors nothing happens; otherwise the stop ramp from the current values is written and both wheels end at 0 |
| MotorDriveSc27.Drive.RampAndHold | 1_definition/SC-27/motordrive.py:110-161 | the acceleration loop and hold write exactly the drive trace and leave the wheels at full power in the direction |
| MotorDriveSc27.Drive.CheckWindow | 1_definition/SC-27/motordrive.py:166-181 | the five-sample loop's verdict is the window scan: stalled, moving, or raised |
| MotorDriveSc27.Drive.Correct | 1_definition/SC-27/motordrive.py:188-209 | the orientation check writes its pulses, and a stop when the rover is upright again, only when gravity z is readable and below 0.5 |
| MotorDriveSc27.Drive.Pulse | 1_definition/SC-27/motordrive.py:195-197 | the correction loop writes n forward pulses and leaves the wheels at 0 when it ran one |
| MotorDriveSc27.Drive.Monitor | 1_definition/SC-27/motordrive.py:164-211 | the monitoring loop's writes, final wheel values, flag and raised exception are those of the monitoring specification |
| MotorDriveSc27.Drive.Move | 1_definition/SC-27/motordrive.py:91-214 | power outside [0, 1] or duration outside [0, 30] returns 0 with nothing written; missing motors return 0; an unknown direction only stops; a known one writes ramp, hold, monitoring and stop and returns the flag, or raises leaving the wheels turning |
| MotorDriveSc27.Drive.RunMove | 1_definition/SC-27/motordrive.py:110-214 | after validation, a move's writes, final wheels and outcome are those of the move specification |
| MotorDriveSc27.Drive.CheckStuck | 1_definition/SC-27/motordrive.py:216-246 | nothing happens unless `is_stacked == 1` and the pin mode is set; then motors exist exactly when they did or creation succeeds; without them nothing is written and the LED ends off; with them s 3, d 1 and w 2 at full power are written (cut short by a raise); a completed sequence ends with the LED off and the wheels at 0, a raised one leaves the LED on |
| MotorDriveChat.Clamp | 1_definition/SC-28_temp/SC-28_chatGPT/motordrive.py:157 | the target lies in [0, 1], equals the power exactly when the power is already in [0, 1], and is 0 below and 1 above |
| MotorDriveChat.Ceil | 1_definition/SC-28_temp/SC-28_chatGPT/motordrive.py:158-159 | the least integer not below x, which counts the 0.1 steps of the ramp |
| MotorDriveChat.PivotsSwappedAgainstPhase2 | 1_definition/SC-28_temp/SC-28_chatGPT/motordrive.py:160-177 | w, s, a and d write the same pairs as the 2_phase driver, while q and e are swapped (q drives only the right wheel), and both accept the same letters |
| MotorDriveChat.RampCount | 1_definition/SC-28_temp/SC-28_chatGPT/motordrive.py:158-159 | the loop runs not at all for a target of 0, and otherwise the least number of 0.1 steps that reaches the target |
| MotorDriveChat.RampLevels | 1_definition/SC-28_temp/SC-28_chatGPT/motordrive.py:156-159 | one level is written per pass of the loop |
| MotorDriveChat.RampLevelsShape | 1_definition/SC-28_temp/SC-28_chatGPT/motordrive.py:156-178 | p strictly increases, stays in (0, target], is a whole number of 0.1 steps until the last pass and ends equal to a positive target; a target of 0 writes nothing |
| MotorDriveChat.RampTrace | 1_definition/SC-28_temp/SC-28_chatGPT/motordrive.py:158-178 | a known direction writes one pair per pass; any other letter writes nothing |
| MotorDriveChat.RampTraceNext | 1_definition/SC-28_temp/SC-28_chatGPT/motordrive.py:159-177 | each pass appends the pair for the new level, if the letter is known |
| MotorDriveChat.StopCount | 1_definition/SC-28_temp/SC-28_chatGPT/motordrive.py:129-133 | `stop(c)` lowers the power by 0.1 the least number of times that reaches 0, and not at all when c is at most 0 |
| MotorDriveChat.StopLevels | 1_definition/SC-28_temp/SC-28_chatGPT/motordrive.py:129-134 | one forward level is written per pass of the loop |
| MotorDriveChat.StopLevelsShape | 1_definition/SC-28_temp/SC-28_chatGPT/motordrive.py:123-137 | the levels start at c, fall by exactly 0.1 each time, stay positive and end at most 0.1, so the loop terminates; c of 0 or below writes none |
| MotorDriveChat.StopTrace | 1_definition/SC-28_temp/SC-28_chatGPT/motordrive.py:123-137 | `stop(c)` writes one pair per level and ends with both motors stopped |
| MotorDriveChat.StopAfterReverseDrivesForward | 1_definition/SC-28_temp/SC-28_chatGPT/motordrive.py:163-165 | after reversing at full power the next pair written by `stop(target)` is forward (1, 1) (see also lines 183-184) |
| MotorDriveChat.UnknownDirectionDrivesForward | 1_definition/SC-28_temp/SC-28_chatGPT/motordrive.py:158-184 | an unknown letter accelerates nothing, yet `stop(target)` still drives both wheels forward at the clamped power |
| MotorDriveChat.RecoveryEndsWithForwardPulse | 1_definition/SC-28_temp/SC-28_chatGPT/motordrive.py:209-220 | the closing `stop()` of the recovery starts a second forward run at full power after the three moves have already stopped |
| MotorDriveChat.Drive.constructor | 1_definition/SC-28_temp/SC-28_chatGPT/motordrive.py:43-46 | the driver starts without motors or GPIO, pins low, wheels at 0 and nothing written |
| MotorDriveChat.Drive.SetupGpio | 1_definition/SC-28_temp/SC-28_chatGPT/motordrive.py:51-61 | on first use the LED and VM pins are driven low; later calls change nothing |
| MotorDriveChat.Drive.SetupMotors | 1_definition/SC-28_temp/SC-28_chatGPT/motordrive.py:64-82 | existing motors are kept; otherwise creation gives motors at rest with GPIO set up, or leaves none |
| MotorDriveChat.Drive.Write | 1_definition/SC-28_temp/SC-28_chatGPT/motordrive.py:131-132 | writing a pair sets both wheels and records the pair |
| MotorDriveChat.Drive.Stop | 1_definition/SC-28_temp/SC-28_chatGPT/motordrive.py:123-137 | without motors (after trying to create them) nothing is written; otherwise the falling forward levels and the final stop are written and both wheels end at 0 |
| MotorDriveChat.Drive.Accelerate | 1_definition/SC-28_temp/SC-28_chatGPT/motordrive.py:156-178 | the loop ends with p equal to the target having written the ramp trace |
| MotorDriveChat.Drive.SetLevel | 1_definition/SC-28_temp/SC-28_chatGPT/motordrive.py:160-177 | one pass of the `elif` chain writes the pair for a known letter and nothing otherwise |
| MotorDriveChat.Drive.Move | 1_definition/SC-28_temp/SC-28_chatGPT/motordrive.py:140-186 | always returns 0; without motors nothing changes; otherwise VM is set to 1, the ramp to the clamped power and `stop(target)` are written, and the wheels end at 0 |
| MotorDriveChat.Drive.CheckStuck | 1_definition/SC-28_temp/SC-28_chatGPT/motordrive.py:189-225 | GPIO is always set up; nothing is written unless `is_stacked == 1`; then the LED ends off and, with motors, s, d and w at full power and a closing `stop()` are written |
| MotorDriveChat.Drive.Cleanup | 1_definition/SC-28_temp/SC-28_chatGPT/motordrive.py:85-117 | LED and VM end low, both motors are dropped, and the `stop()` in between writes its ramp when motors existed or could be created |
| CameraChat.DecideDirection | 1_definition/SC-28_temp/SC-28_chatGPT/camera.py:284-293 | the order is 1 exactly inside the ±0.25 band, 2 exactly above it, 3 exactly below it, and the fall-through 0 is never returned |
| CameraChat.ClampHalf | 1_definition/SC-28_temp/SC-28_chatGPT/camera.py:188 | the clamped offset lies in [-0.5, 0.5] and equals the input exactly when the input is already there |
| CameraChat.Steer | 1_definition/SC-28_temp/SC-28_chatGPT/camera.py:186-189 | steering by a column gives an offset in [-0.5, 0.5], an order in {1, 2, 3} decided from that offset, and keeps the red area |
| CameraChat.RedArea | 1_definition/SC-28_temp/SC-28_chatGPT/camera.py:149-164 | the red area is the largest contour's area when it exceeds 20 px and 0 otherwise, so it is never in (0, 20] |
| CameraChat.Lower | 1_definition/SC-28_temp/SC-28_chatGPT/camera.py:100 | ASCII lower-casing: the length is kept, no capital A-Z is left, exactly the capitals change and each becomes its small letter |
| CameraChat.DictMatchesMeaning | 1_definition/SC-28_temp/SC-28_chatGPT/camera.py:103-106 | an id is collected exactly when some dict entry carries it under a name equal to the target after strip and lower |
| CameraChat.ListMatchesMeaning | 1_definition/SC-28_temp/SC-28_chatGPT/camera.py:107-110 | a list position is collected exactly when its name matches, and the positions come out strictly ascending |
| CameraChat.ClassIds | 1_definition/SC-28_temp/SC-28_chatGPT/camera.py:86-116 | the ids are never an empty list; without a model, or with names missing or of another type, the result is `None` |
| CameraChat.FirstArgmax | 1_definition/SC-28_temp/SC-28_chatGPT/camera.py:230 | the index holds the largest confidence and every earlier index holds a strictly smaller one |
| CameraChat.ValidBoxes | 1_definition/SC-28_temp/SC-28_chatGPT/camera.py:224-228 | a box is kept exactly when its truncated class is a target id and its confidence reaches the minimum |
| CameraChat.Pick | 1_definition/SC-28_temp/SC-28_chatGPT/camera.py:220-232 | no box is chosen exactly when no box is valid; a chosen box is valid and has the highest confidence among valid boxes |
| CameraChat.Judge | 1_definition/SC-28_temp/SC-28_chatGPT/camera.py:130-278 | offset in [-0.5, 0.5], order in 0..4 with offset 0 on order 0; a zero-sized frame gives order 0; order 4 exactly above 30 % red; the middle band steers by the red centre; without the detector the order is 0 exactly at or below 0.1 % red |
| CameraChat.YoloHitSteers | 1_definition/SC-28_temp/SC-28_chatGPT/camera.py:203-240 | when the detector runs and a box is valid, the decision steers by that box's centre |
| CameraChat.BoxesIgnoredUnlessRun | 1_definition/SC-28_temp/SC-28_chatGPT/camera.py:203-209 | on a frame the throttle skips, the detector's boxes do not change the decision |
| CameraChat.ThrottlePeriodic | 1_definition/SC-28_temp/SC-28_chatGPT/camera.py:31 | the detector throttle admits frame n exactly when it admits frame n + yolo_every (see also line 205) |
| CameraChat.CentredBlobGoesStraight | 1_definition/SC-28_temp/SC-28_chatGPT/camera.py:185-189 | a counted blob centred in the frame in the middle band gives order 1 with offset 0 (see also lines 284-288) |
| CameraChat.Camera.constructor | 1_definition/SC-28_temp/SC-28_chatGPT/camera.py:17-57 | the settings are stored, `yolo_every` is raised to at least 1, the frame counter starts at 0, and model and camera are present as loading and starting succeeded |
| CameraChat.Camera.Close | 1_definition/SC-28_temp/SC-28_chatGPT/camera.py:65-74 | after `close` the camera is absent |
| CameraChat.Camera.GetYoloClassIds | 1_definition/SC-28_temp/SC-28_chatGPT/camera.py:86-116 | the name-scanning loops return exactly the matching ids, or `None` |
| CameraChat.Camera.CaptureAndDetect | 1_definition/SC-28_temp/SC-28_chatGPT/camera.py:118-282 | an uninitialised camera gives order 0 without counting the frame; otherwise the frame is counted, a failed capture gives order 0, and a captured frame gives the decision above |
| CameraSc27.AnalyzeRed | 1_definition/SC-27/camera.py:78-104 | without a contour everything is 0; otherwise the largest contour's area and rectangle, with a centre inside the rectangle, within half a pixel of its middle |
| CameraSc27.Confidences | 1_definition/SC-27/camera.py:41 | the confidence array lists every box's confidence in box order |
| CameraSc27.YoloDetect | 1_definition/SC-27/camera.py:19-59 | no box gives `(0, 0)`; otherwise the box of highest confidence, the first of them on a tie, and its truncated centre column |
| CameraSc27.JudgeCone | 1_definition/SC-27/camera.py:107-222 | `None` exactly for a zero-width frame; order 4 exactly above 30 % red; between 10 % and 30 % the red centre's offset decides 1/2/3; between 1 % and 10 % the order is non-zero exactly when the detector returned a box, and then the offset is the chosen box centre's and decides 1/2/3, otherwise offset and order are 0; at or below 1 % the order is 0 and the offset is the red centre's |
| CameraSc27.InFrameOffsetIsClamped | 1_definition/SC-27/camera.py:140 | a centre inside the frame gives an offset in [-0.5, 0.5], which the chatGPT copy's clamp leaves unchanged |
| CameraWintest.LastArgmax | YOLO/camera_wintest.py:40-46 | the index holds the largest confidence and every later index holds a strictly smaller one |
| CameraWintest.LastArgmaxUnique | YOLO/camera_wintest.py:40-46 | any index with those two properties is the one found |
| CameraWintest.YoloDetect | YOLO/camera_wintest.py:13-68 | the running-maximum loop gives `(0, 0)` without boxes, an unbound-name error when every confidence is negative, and otherwise the last box of highest confidence with the last box's confidence stored |
| CameraWintest.TieGoesToLaterBox | YOLO/camera_wintest.py:42-46 | of two equally confident boxes this loop keeps the second, while the SC-27 `np.argmax` keeps the first |
| CameraWintest.StoredConfidenceIsLast | YOLO/camera_wintest.py:41 | the reported confidence is the last box's, not the chosen box's (see also line 66) |
| CameraWintest.AnalyzeRed | YOLO/camera_wintest.py:87-112 | without a contour all zeros; otherwise the contour's area and a centre inside its rectangle |
| CameraWintest.JudgeCone | YOLO/camera_wintest.py:115-155 | without a detection the order is 0; with one, order 4 exactly above 7000 px, 0 exactly at or below 5 px, and in between 1/2/3 by the detector's centre within, right of or left of ±50 px of the frame centre |
| Bme280.S8 | 2_phase/bme280.py:5-7 | the result lies in [-128, 128) and differs from the input by a multiple of 256 |
| Bme280.S16 | 2_phase/bme280.py:10-12 | the result lies in [-32768, 32768) and differs from the input by a multiple of 65536 |
| Bme280.S12 | 2_phase/bme280.py:15-18 | the result lies in [-2048, 2048) and differs from the input by a multiple of 4096 |
| Bme280.SignedOfResidue | 2_phase/bme280.py:5-18 | each helper maps the unsigned residue of a value in its signed range back to that value |
| Bme280.ResidueOfSigned | 2_phase/bme280.py:5-18 | each helper's result has the unsigned input as its residue, so no unsigned value is lost |
| Bme280.U16 | 2_phase/bme280.py:123 | a little-endian byte pair gives a value in [0, 65536) |
| Bme280.Unpack | 2_phase/bme280.py:121-153 | the 32 calibration bytes give 3 temperature, 9 pressure and 6 humidity parameters, each in the range the BME280 datasheet gives for it |
| Bme280.Pack | 2_phase/bme280.py:103-119 | a parameter set in range is laid out as the 32 bytes the three reads collect |
| Bme280.UnpackPack | 2_phase/bme280.py:121-153 | unpacking the bytes of any in-range parameter set gives that set back: no parameter is lost or mixed up with another |
| Bme280.PackUnpack | 2_phase/bme280.py:121-153 | packing the unpacked parameters reproduces all 32 bytes: every calibration bit is used, including both nibbles of 0xE5 |
| Bme280.Raw20 | 2_phase/bme280.py:179-180 | a pressure or temperature reading is a 20-bit value |
| Bme280.Raw20Shape | 2_phase/bme280.py:179-180 | the low nibble of the third byte is ignored, and every 20-bit value comes from some three bytes |
| Bme280.Decode | 2_phase/bme280.py:179-186 | the 8-byte block gives 20-bit temperature and pressure and a 16-bit humidity, from bytes 3-5, 0-2 and 6-7 |
| Bme280.CompensateH | 2_phase/bme280.py:226-243 | the humidity lies in [0, 100]; it is 0 when `t_fine` is exactly 76800, and otherwise the raw formula when in range, clamped to 100 above and 0 below |
| Bme280.MeanBounds | 2_phase/bme280.py:313-315 | an average lies between any bounds of the values averaged |
| Bme280.BaselineWithinSamples | 2_phase/bme280.py:292-315 | the baseline is the default 1013.25 hPa or lies within the bounds of the pressures it averages: all samples when there are at most 25, those after the first 25 otherwise |
| Bme280.NoHandleGivesDefault | 2_phase/bme280.py:168-169 | without a working handle no read completes and the baseline is 1013.25 hPa (see also lines 308-309) |
| Bme280.Sensor.constructor | 2_phase/bme280.py:22-53 | the handle exists exactly when pigpio connects and the device opens; then the setup writes whose transfers complete reach the device, and calibration succeeds exactly when all three reads are complete, with the parameters unpacked from them |
| Bme280.Sensor.Close | 2_phase/bme280.py:55-62 | the handle is dropped exactly when pigpio is connected, a handle exists and `i2c_close` completes; when that call raises the handle is kept |
| Bme280.Sensor.WriteReg | 2_phase/bme280.py:67-74 | a write reaches the device exactly when a handle exists and the transfer completes; a raising transfer is swallowed and leaves no write |
| Bme280.Sensor.Setup | 2_phase/bme280.py:76-95 | with a handle, the writes of ctrl_hum = 0x01, ctrl_meas = 0x27 and config = 0xA0 whose transfers complete reach the device, in that order; without one nothing is written |
| Bme280.SetupInOrder | 2_phase/bme280.py:92-95 | with every transfer completing, `setup` writes ctrl_hum, ctrl_meas and config in that order; a failed transfer only drops its own write, so what arrives keeps rising register order and ctrl_hum never follows ctrl_meas |
| Bme280.Sensor.GetCalibParam | 2_phase/bme280.py:97-164 | calibration succeeds exactly with a handle and complete 24-byte, 1-byte and 7-byte reads; then the parameters are the unpacked bytes, otherwise they are unchanged |
| Bme280.Sensor.ReadData | 2_phase/bme280.py:166-190 | a result exactly with a handle, calibration and a complete 8-byte read; it is the decoded block and `t_fine` is updated from its temperature; otherwise `t_fine` is unchanged |
| Bme280.Sensor.ReadAll | 2_phase/bme280.py:247-256 | a result exactly when the read succeeds; it is the compensated reading with humidity in [0, 100] |
| Bme280.Sensor.Pressure | 2_phase/bme280.py:259-263 | the compensated pressure of one successful read, `None` otherwise |
| Bme280.Sensor.Temperature | 2_phase/bme280.py:265-269 | the temperature of one successful read in degrees Celsius, `None` otherwise |
| Bme280.Sensor.Humidity | 2_phase/bme280.py:271-275 | the clamped humidity of one successful read, in [0, 100], `None` otherwise |
| Bme280.Sensor.Baseline | 2_phase/bme280.py:292-315 | the 100-read loop returns exactly the baseline function: the default without calibration or samples, otherwise the mean after the warm-up |
| Bno055.ByteResult | 1_definition/SC-28_temp/SC-28_chatGPT/bno055.py:168-174 | a byte read fails exactly without a handle, on an exception or on a negative result; otherwise it gives the low 8 bits, which equal the reply when it is already below 256 |
| Bno055.BlockResult | 1_definition/SC-28_temp/SC-28_chatGPT/bno055.py:160-166 | a block read succeeds exactly with a handle and exactly `length` bytes received, and then gives those bytes |
| Bno055.SignedByteResult | 1_definition/SC-28_temp/SC-28_chatGPT/bno055.py:176-178 | the signed read fails exactly when the byte read fails, and otherwise gives the byte as a two's-complement value in [-128, 128) |
| Bno055.SignedWord | 1_definition/SC-28_temp/SC-28_chatGPT/bno055.py:185-186 | each vector word lies in [-32768, 32768) |
| Bno055.SignedWordIsS16 | 1_definition/SC-28_temp/SC-28_chatGPT/bno055.py:185-186 | the vector decoding agrees with the BME280 driver's `_s16` of the same little-endian word |
| Bno055.VectorOf | 1_definition/SC-28_temp/SC-28_chatGPT/bno055.py:183-188 | the decoded vector has `count` words, word i taken from bytes 2i (low) and 2i + 1 (high) |
| Bno055.Encode | 1_definition/SC-28_temp/SC-28_chatGPT/bno055.py:180-188 | a vector of n words is sent as 2n bytes |
| Bno055.DecodeEncode | 1_definition/SC-28_temp/SC-28_chatGPT/bno055.py:180-188 | decoding the bytes a sensor sends for any vector of 16-bit values gives that vector back |
| Bno055.EncodeDecode | 1_definition/SC-28_temp/SC-28_chatGPT/bno055.py:180-188 | re-encoding a decoded block reproduces every byte |
| Bno055.SplitCalib | 1_definition/SC-28_temp/SC-28_chatGPT/bno055.py:242-249 | the four calibration levels each lie in 0..3 |
| Bno055.JoinSplitCalib | 1_definition/SC-28_temp/SC-28_chatGPT/bno055.py:244-249 | the four fields, recombined, give the status byte back: every bit is reported |
| Bno055.SplitJoinCalib | 1_definition/SC-28_temp/SC-28_chatGPT/bno055.py:244-249 | any four levels in 0..3 are read back from the byte that holds them |
| Bno055.Scaled | 1_definition/SC-28_temp/SC-28_chatGPT/bno055.py:253-282 | each scaled component times the divisor is the raw word |
| Bno055.ScaledBounds | 1_definition/SC-28_temp/SC-28_chatGPT/bno055.py:253-282 | a scaled 16-bit vector lies in [-32768/d, 32768/d) |
| Bno055.ScaledResult | 1_definition/SC-28_temp/SC-28_chatGPT/bno055.py:253-282 | a scaled accessor fails exactly when the vector read fails, and otherwise gives `count` components, each the raw word divided by the scale |
| Bno055.QuaternionBounds | 1_definition/SC-28_temp/SC-28_chatGPT/bno055.py:257-261 | every quaternion component lies in [-2, 2) |
| Bno055.ScanAddress | 1_definition/SC-28_temp/SC-28_chatGPT/bno055.py:106-119 | the scan gives 0x28 exactly when it answers, 0x29 exactly when only that one answers, and `None` exactly when neither answers |
| Bno055.Imu.constructor | 1_definition/SC-28_temp/SC-28_chatGPT/bno055.py:51-104 | without a connected pigpio there is no handle; a given address is kept, otherwise the scanned one; the handle exists exactly when there is an address and `i2c_open` succeeds; the mode starts as NDOF |
| Bno055.Imu.Close | 1_definition/SC-28_temp/SC-28_chatGPT/bno055.py:124-141 | the handle is always released, and pigpio is stopped exactly when it is owned, present and `stop_on_close` was asked |
| Bno055.Imu.WriteByte | 1_definition/SC-28_temp/SC-28_chatGPT/bno055.py:153-158 | `True` exactly when a handle exists and the transfer completes, and only then is the write, with the value's low 8 bits, recorded; a raising transfer gives `False` |
| Bno055.Imu.SetMode | 1_definition/SC-28_temp/SC-28_chatGPT/bno055.py:190-192 | the mode's low 8 bits are written to 0x3D when a handle exists and the transfer completes |
| Bno055.Imu.ReadByte | 1_definition/SC-28_temp/SC-28_chatGPT/bno055.py:168-174 | the method gives exactly the guarded byte result |
| Bno055.Imu.ReadBytes | 1_definition/SC-28_temp/SC-28_chatGPT/bno055.py:160-166 | the method gives exactly the guarded block result |
| Bno055.Imu.ReadSignedByte | 1_definition/SC-28_temp/SC-28_chatGPT/bno055.py:176-178 | the method gives exactly the signed byte result |
| Bno055.Imu.ReadVector | 1_definition/SC-28_temp/SC-28_chatGPT/bno055.py:180-188 | the word loop gives exactly the decoded vector, `count` words in the 16-bit signed range |
| Bno055.Imu.Begin | 1_definition/SC-28_temp/SC-28_chatGPT/bno055.py:200-224 | the mode is stored; success exactly with pigpio, a handle and one of the 10 chip-id polls reading 0xA0; success records the six begin writes whose transfers complete and keeps pigpio running; a failed poll records the four setup writes, drops the handle and stops an owned pigpio when `stop_on_close` was asked; without pigpio or a handle nothing changes (see also lines 124-141) |
| Bno055.BeginWritesInOrder | 1_definition/SC-28_temp/SC-28_chatGPT/bno055.py:204-222 | with every transfer completing, `begin` writes page 0, CONFIG, page 0, normal power, trigger reset and the mode in that order; a failed transfer only drops writes, never adds or reorders them |
| Bno055.Imu.GetCalibrationStatus | 1_definition/SC-28_temp/SC-28_chatGPT/bno055.py:237-249 | `None` exactly when the byte read fails, otherwise its four 2-bit fields |
| Bno055.Imu.GetRevision | 1_definition/SC-28_temp/SC-28_chatGPT/bno055.py:226-235 | the six reads give exactly the revision function of their guarded results |
| Bno055.Imu.Temperature | 1_definition/SC-28_temp/SC-28_chatGPT/bno055.py:251 | the temperature is the signed byte read |
| Bno055.Imu.ReadScaled | 1_definition/SC-28_temp/SC-28_chatGPT/bno055.py:253-282 | the accessor gives exactly the scaled result |
| Bno055.RevisionOf | 1_definition/SC-28_temp/SC-28_chatGPT/bno055.py:233-235 | `None` exactly when some read is missing; otherwise the bytes as read and the software revision as the 16-bit word MSB:LSB |
| Bno055.ClosedReadsNothing | 1_definition/SC-28_temp/SC-28_chatGPT/bno055.py:160-174 | without a handle every byte, signed, block and vector read gives `None` (see also lines 124-135) |
| MissionCommon.Turn | 1_definition/SC-27/EM.py:283-310 | the turn is one full-power move then a stop: left ('a') for a positive angle, right ('d') otherwise, for the time the body needs to sweep the angle at pi/2 rad/s |
| MissionCommon.Righting | 1_definition/SC-27/EM.py:326-357 | upright gives one stop; upside down gives one forward half-second pulse per round; late gives a right then a left half-second turn; a failing gravity read gives nothing |
| MissionCommon.AdvanceOrder | 1_definition/SC-27/EM.py:283-322 | a long-range move whose advance returns turns first, then advances 5 s, then runs the stuck check on what the advance reported, then stops; an advance that raises is the cut-short move below |
| MissionCommon.InterruptedCutsAfterAdvance | 1_definition/SC-27/EM.py:312-318 | an advance that raises leaves the move cut right after the 5 s advance: the wheels are left driving forward and the stuck check never runs (see also line 380) |
| MissionCommon.Rotation | 1_definition/SC-27/EM.py:429 | the rotation time is the absolute offset: one second per 120 degrees |
| MissionCommon.Retry | 1_definition/SC-27/EM.py:469-478 | the retry loop gives up exactly at the next multiple of ten failures when every answer up to it fails, and otherwise returns the first answer with the failures before it added to the count |
| MissionCommon.RangeOutcome | 1_definition/SC-27/EM.py:461-508 | the order-4 block issues no move or one forward nudge, keeps the count at most 20 and below 20 unless the phase ends, and keeps a bound count bound |
| MissionCommon.RangeBlock | 1_definition/SC-27/EM.py:461-508 | the measuring loop gives exactly the order-4 outcome |
| MissionCommon.BlindPass | 1_definition/SC-27/EM.py:496-505 | a pass with no answer from count t gives up at 10 with a nudge (t < 10) or at 20 ending the phase (see also lines 470-475) |
| MissionCommon.TwoBlindPassesEnd | 1_definition/SC-27/EM.py:496-505 | from any count, two passes with no answer end the short-range phase (see also lines 470-475) |
| MissionCommon.FirstAnswerDecides | 1_definition/SC-27/EM.py:470-491 | a first answer before the next multiple of ten failures resets the count, and ends the phase with a nudge exactly when it is under 60 cm |
| MissionCommon.RefreshAsWritten | 1_definition/SC-27/EM.py:362-371 | as written, the current position stays the first read, so the loop is left exactly when that read succeeds; each retry overwrites the start position instead |
| MissionCommon.FirstFix | 1_definition/SC-27/EM.py:365-371 | the first fix the receiver gives: `None` exactly when no read succeeds, otherwise the first read if it succeeded, else one of the retries |
| MissionCommon.Refresh | 1_definition/SC-27/EM.py:365-371 | the corrected loop, with each retry read into the current position, returns the first fix the receiver gives |
| MissionCommon.RefreshLoop | 1_definition/SC-27/EM.py:362-373 | the refresh as written leaves its loop exactly when the first read has a fix; repaired, exactly when some read has one |
| MissionEm.Start | 1_definition/SC-27/EM.py:39-49 | the flight starts valid in phase 0, not hung, with the counters as the module-level globals their declaration intends and the position refresh repaired (see also line 100) |
| MissionEm.AsWrittenStart | 1_definition/SC-27/EM.py:39-49 | as written, the three counters are unbound locals of `main`, so the camera flag starts unbound, and the position refresh is the one as written (see also lines 271, 389, 362-371) |
| MissionEm.Phase0 | 1_definition/SC-27/EM.py:113-145 | an altitude of 10 m or more moves to phase 1; nothing else changes, and a failed read changes nothing |
| MissionEm.ReadableFrom | 1_definition/SC-27/EM.py:155-164 | the rounds that complete before a read raises, at most ten, all readable, and the next one unreadable |
| MissionEm.RunCountsQuietTail | 1_definition/SC-27/EM.py:175-187 | the consecutive counter reaches m exactly when the last m rounds were all quiet |
| MissionEm.TriggersCountQuietRuns | 1_definition/SC-27/EM.py:189 | some round sees the counter at 5 or more exactly when five consecutive quiet rounds occur |
| MissionEm.TriggersGrow | 1_definition/SC-27/EM.py:175-189 | the number of rounds that see the counter at 5 or more only grows as more rounds complete |
| MissionEm.FallEndsOnFiveQuietRounds | 1_definition/SC-27/EM.py:151-249 | the falling phase ends exactly when five consecutive quiet rounds occur among the rounds that complete and the release advance returns; when that advance raises only its move is added and the phase stays 1; with no such run the state is unchanged |
| MissionEm.FallingCycle | 1_definition/SC-27/EM.py:151-249 | the ten-round loop gives exactly the falling-phase function, leaving the cycle at the first release when its advance raises |
| MissionEm.ArrivalWithinTenMetres | 1_definition/SC-27/EM.py:279-379 | a real course resets the counter and issues the long-range move, cut after the advance when that raises; the flight hangs exactly when the refresh runs and never leaves its loop; phase 3 starts exactly when within 10 m, the advance returned, the gravity check was not late and the refresh got its fix (see also line 380) |
| MissionEm.Cycle | 1_definition/SC-27/EM.py:108-526 | every cycle keeps the phase in 0..4 and the failure count below 20 until the goal, never lowers the phase and raises it by at most one, keeps the refresh variant, and leaves a hung flight as it is |
| MissionEm.Steps | 1_definition/SC-27/EM.py:108-526 | over any cycles the phase never goes back and gains at most one per cycle |
| MissionEm.Step | 1_definition/SC-27/EM.py:108-526 | one pass of the loop, running the falling loop, the position refresh and the measuring loop, gives exactly one cycle |
| MissionEm.Flight | 1_definition/SC-27/EM.py:51-530 | `main`'s loop over the given cycles gives exactly the folded cycles from the start |
| MissionEm.NoMovementForcesShortRange | 1_definition/SC-27/EM.py:269-278 | from a bound counter k, 20 - k cycles without movement end in phase 3 or hang in a refresh; when every refresh gets its fix they end in phase 3 (see also lines 362-371) |
| MissionEm.UnboundCounterIgnoresStandstill | 1_definition/SC-27/EM.py:270-271 | while the counter is unbound, a cycle without movement changes nothing |
| MissionEm.HungIsFinal | 1_definition/SC-27/EM.py:366-371 | a refresh loop that never gets its fix never returns: no later cycle changes the state |
| MissionEm.FailedFirstReadStallsFlight | 1_definition/SC-27/EM.py:362-379 | as written, a failed first read after a move that brings the goal within 10 m keeps the flight in phase 2 for good |
| MissionEm.RetriedFixStartsShortRange | 1_definition/SC-27/EM.py:362-379 | repaired, the same move starts phase 3 as soon as one retry gets a fix |
| MissionEm.BlindRangingEndsShortRange | 1_definition/SC-27/EM.py:461-505 | order 4 in two cycles with no range answer ends the short-range phase |
| MissionEm.UnboundFlagNeverReachesGoal | 1_definition/SC-27/EM.py:387-394 | as written, the camera flag stays unbound and the goal phase is never reached |
| MissionEm.FlightReachesGoal | 1_definition/SC-27/EM.py:113-505 | with the counters as globals, four cycles can take the flight from phase 0 to the goal phase |
| MissionLong.Fresh | 1_definition/SC-27/enkyori.py:39-58 | each call of `main` starts in phase 0 with the counter unbound and not hung |
| MissionLong.Cycle | 1_definition/SC-27/enkyori.py:61-200 | the phase stays in 0..2; the trace only grows; a cycle that does not return raises the phase by at most one; a return comes only from phase 2 and restarts `main` in phase 0 with one more exit; the refresh variant is kept and a hung `main` stays as it is |
| MissionLong.Steps | 1_definition/SC-27/enkyori.py:61-200 | over any cycles the phase stays in 0..2 and exits are only added (see also lines 202-204) |
| MissionLong.Run | 1_definition/SC-27/enkyori.py:61-204 | the endless calls of `main` over the given cycles, each running the position refresh where the script does, give exactly the folded cycles |
| MissionLong.ArrivalWithinTenMetres | 1_definition/SC-27/enkyori.py:123-197 | a real course issues the long-range move, cut after the advance when that raises; `main` hangs exactly when the refresh runs and never leaves its loop, and returns arrived exactly when within 10 m, the advance returned, the gravity check was not late and the refresh got its fix (see also line 199) |
| MissionLong.HungIsFinal | 1_definition/SC-27/enkyori.py:187-190 | a refresh loop that never gets its fix never returns: no later cycle changes the state |
| MissionLong.FailedFirstReadNeverArrives | 1_definition/SC-27/enkyori.py:183-197 | as written, a failed first read after a move that brings the goal within 10 m means `main` never returns |
| MissionLong.StandstillRestarts | 1_definition/SC-27/enkyori.py:117-122 | from a bound counter k, 27 - k cycles without movement make `main` give up and restart, unless a refresh among the first 26 - k hangs it; when those refreshes get their fixes, it does give up (see also lines 183-190) |
| MissionLong.UnboundCounterIgnoresStandstill | 1_definition/SC-27/enkyori.py:117-118 | while the counter is unbound, a cycle without movement changes nothing |
| MissionShort.Start | 1_definition/SC-27/kinkyori.py:32-34 | the script starts valid in phase 0 (see also line 19) |
| MissionShort.Pass | 1_definition/SC-27/kinkyori.py:37-180 | a pass keeps the state valid and never lowers the phase; from phases 0-2 it reaches phase 3 at once; it reaches the goal only by a range outcome at count 0 or 20 or a missing range finder |
| MissionShort.Passes | 1_definition/SC-27/kinkyori.py:37-180 | over any passes the state stays valid and the phase never goes back |
| MissionShort.Step | 1_definition/SC-27/kinkyori.py:37-180 | one pass of the loop gives exactly the pass function |
| MissionShort.Run | 1_definition/SC-27/kinkyori.py:25-183 | the loop over the given passes gives exactly the folded passes |
| MissionShort.FirstPassIsShortRange | 1_definition/SC-27/kinkyori.py:43-78 | the first pass already runs the short-range block and starts the camera |
| MissionShort.CloseConeEndsPhase | 1_definition/SC-27/kinkyori.py:126-149 | order 4 with a first answer under 60 cm ends the phase in one pass with the count reset and one forward nudge |
| MissionShort.BlindRangingEndsPhase | 1_definition/SC-27/kinkyori.py:134-166 | order 4 in two passes with no range answer ends the phase |
| Csv.Escape | 2_phase/make_csv.py:117 | doubling quotes never shortens a text |
| Csv.ReadBack | 2_phase/make_csv.py:116-120 | a comma-joined record of rendered fields, each quoted or bare without commas or quotes, reads back under RFC 4180 as exactly the fields' texts, one per field |
| Csv.EscapeUnquoted | 1_definition/SC-27/make_csv.py:45-47 | a text without double quotes is its own escape, so quoting it without escaping still gives a well-formed field |
| Csv.NamesReadBack | 2_phase/make_csv.py:44 | a comma-joined header of names without commas or quotes reads back as exactly those names |
| Csv.Blank | 1_definition/SC-27/make_csv.py:13 | the all-empty dictionary has the columns as keys, in order, each with the empty value (see also line 24) |
| Csv.Put | 1_definition/SC-27/make_csv.py:26-47 | assigning a present key keeps the key order, a new key goes at the end, and only that key's value changes |
| Csv.Values | 1_definition/SC-27/make_csv.py:59 | `values()` lists one value per key, in key order |
| CsvPhase2.NewlineToSpace | 2_phase/make_csv.py:117 | each line break becomes a space and every other character is kept, position for position |
| CsvPhase2.Expand | 2_phase/make_csv.py:55-91 | the key expansion leaves every column equal to its message value: axis items into the `_x`/`_y`/`_z` columns, malformed axis data into `error`, an unknown type into `msg`, any other type under its own name |
| CsvPhase2.Stamp | 2_phase/make_csv.py:93-113 | after the bookkeeping writes every column holds its final value: clock, date, the caller's frame when it can be read, and the quoted traceback for error types |
| CsvPhase2.Print | 2_phase/make_csv.py:53-120 | the record written is the columns' final values in `msg_types` order, each quoted, escaped and with line breaks turned into spaces |
| CsvPhase2.EscapeNewlineCommute | 2_phase/make_csv.py:117 | escaping quotes and replacing line breaks can be done in either order |
| CsvPhase2.RecordReadsBack | 2_phase/make_csv.py:115-120 | read back under RFC 4180, a record has one field per column, in column order, each the column's value with line breaks turned into spaces |
| CsvPhase2.RecordIsOneLine | 2_phase/make_csv.py:117-122 | a record never contains a line break, so each message is one line of the log |
| CsvPhase2.UnknownTypeGoesToMsg | 2_phase/make_csv.py:59-62 | an unknown type fills only `msg`, with the `UNKNOWN TYPE` text, and no other message column |
| CsvPhase2.AxisDataFillsAxisColumns | 2_phase/make_csv.py:67-73 | axis data with at least three items fills the type's three columns and leaves `error` empty; anything else fills `error` and leaves the axis columns empty |
| CsvPhase2.TracebackOnlyForErrors | 2_phase/make_csv.py:106-113 | the traceback column is filled exactly for `error` and `serious_error` messages logged while an exception is handled |
| CsvPhase2.Opened | 2_phase/make_csv.py:41-47 | starting the logger never loses what the file holds, and writes the header only into a missing or empty file |
| CsvPhase2.HeaderWrittenOnce | 2_phase/make_csv.py:42-44 | starting the logger twice on the same file writes the header once |
| CsvPhase2.HeaderReadsBack | 2_phase/make_csv.py:16-25 | the header reads back as the column names, as many fields as every record has (see also line 44) |
| CsvSc27.Needed | 1_definition/SC-27/make_csv.py:25-37 | a type's expansion indexes at most three items of the data |
| CsvSc27.Columns | 1_definition/SC-27/make_csv.py:24-39 | the record has one key per column, plus one more for a type that is neither a column nor expanded |
| CsvSc27.Entries | 1_definition/SC-27/make_csv.py:24-57 | there is one entry per key of the dictionary |
| CsvSc27.KeysAreColumns | 1_definition/SC-27/make_csv.py:25-47 | every key the logger writes for a known type, the clock, the frame and the traceback is already a column (see also line 12) |
| CsvSc27.Expand | 1_definition/SC-27/make_csv.py:24-39 | the expansion keeps the column order, appends the type as a new key only when it is neither expanded nor a column, and leaves each value as the message's quoted entry for that key |
| CsvSc27.StampFrame | 1_definition/SC-27/make_csv.py:41-49 | the clock is written, the frame is written unless inspecting it raises, and the key order is unchanged |
| CsvSc27.StampTrace | 1_definition/SC-27/make_csv.py:51-57 | the first three traceback lines are written quoted when an exception is being handled; fewer than three lines raise; the key order is unchanged |
| CsvSc27.Print | 1_definition/SC-27/make_csv.py:22-64 | `print` as written either raises (unindexable data, an unreadable frame, a short traceback) or writes the dictionary's values joined by commas |
| CsvSc27.RecordReadsBack | 1_definition/SC-27/make_csv.py:59 | when the clock and frame hold no double quote, a record reads back under RFC 4180 as one field per key, in key order, each its entry's text |
| CsvSc27.UnknownTypeWidensRecord | 1_definition/SC-27/make_csv.py:38-39 | a type that is neither a column nor expanded gives a record one field wider than the header, its last field holding the message (see also line 59) |
| CsvSc27.KnownTypeKeepsWidth | 1_definition/SC-27/make_csv.py:24-39 | any other type gives a record exactly as wide as the header (see also line 59) |
| CsvSc27.MalformedDataRaises | 1_definition/SC-27/make_csv.py:25-28 | magnetometer data that cannot be indexed makes `print` raise to its caller as written, and only drops the record with the handlers repaired (see also lines 63-64) |
| CsvSc27.RepairedLoggingNeverRaises | 1_definition/SC-27/make_csv.py:48-57 | with the handlers repaired `print` never raises: it drops a record exactly for data its type cannot index, writes one when the frame or traceback cannot be read, and otherwise writes what the original writes (see also lines 63-64) |
| CsvSc27.Opened | 1_definition/SC-27/make_csv.py:15-18 | every start adds to the file and never loses what it already holds (what it adds, four blank lines and the header, is the body; see Left out) |
| CsvSc27.HeaderReadsBack | 1_definition/SC-27/make_csv.py:12 | the header reads back as the column names (see also line 18) |

## Left out

- Hardware I/O (pigpio I2C transfers, the serial port, Picamera2, GPIO motor objects, the `hcsr04.py` echo timing) is not modelled. Its results are inputs to the model.
- Sleeps and wall-clock loops (the stall loop, the 5-s orientation windows, the GPS read timeouts) are replaced by iteration over supplied sample sequences.
- Floating-point rounding is not modelled: Python floats are exact reals here.
- `math.radians`, `np.linalg.norm` and the ultrasonic distance formula are not modelled. The norm becomes a sum of absolute values or of squares, compared with the squared threshold.
- pyproj's `Geod.inv` is a function parameter, so the course is exact with respect to whatever the library returns.
- pynmea2 parsing is not modelled: sentences arrive already split into fields.
- `get_time_jst`/`zikan` in both GPS copies are clock reads and are not modelled.
- The lazily created GPS singleton `_gps_instance` is not modelled.
- 1_definition/SC-27/gps.py is not part of this model. It uses a UTM projection and a law-of-cosines bearing.
- Camera start-up, window display, the `q` key, HSV masking and contour extraction are not modelled. The contours, red area and YOLO boxes are inputs.
- The reload of the global YOLO `model` in the SC-27 camera is not modelled, and neither is drawing on frames.
- The `2_phase` motor driver's `cleanup` is not modelled, because it only releases GPIO resources.
- The SC-27 `move` recursion during orientation correction is one correction step whose pulse count is an input. The recursive call's own monitoring is not modelled.
- The nichrome release in `EM.py` sits inside a string literal, so there is no actuator call to model.
- The phase-1 GPS retry loops in `EM.py` and `enkyori.py` are abstracted: fix acquisition is an input, and termination is not claimed.
- The BME280 temperature and pressure compensation (section 8.1 of the BME280 datasheet) are written as formulas (`TFine`, `CompensateP`). No property is stated about them.
- The BME280 `altitude` is not modelled, because it needs a fractional power.
- The BNO055 `_write_bytes` is not modelled, because nothing in the driver calls it.
- The BNO055 reset pin is not modelled.
- `set_external_crystal`, which `EM.py` calls, is not defined in the modelled BNO055 driver and is not part of this model.
- The `make_csv` side effects are not modelled: file open, append and fsync, `inspect` frames, `traceback` formatting and the time and date. The frame, the clock and the traceback lines are inputs, and `str(data)` is the message's given text.
- CsvSc27.Opened: its contract states only that a start keeps the file's contents and adds to them. That the addition is four blank lines and then the header is what its body says, and `HeaderReadsBack` states the header's content.
- The SC-27 and `2_phase` motor drivers import their own `ijochi` module, which is not part of this model. The `2_phase` stall watch uses the `geminiPro` table's `bno` gyro row in its place (`AnomalyFilter.BnoRows`). In the SC-27 driver a sample the filter drops is an unreadable input sample.
- In the mission scripts only the 5 s advance of a long-range move can raise. A turn through exactly pi radians lasts 2 s and is monitored too, so it could also raise, but the model treats every turn as returning.
- In the `EM.py` falling phase only the first release of a cycle can raise its advance. Releases triggered later in the same ten rounds are treated as returning.
- GPS positions are not tracked across cycles. Each long-range cycle's course is an input, and the refresh decides only whether the cycle hangs or continues. So the model does not capture how the as-written refresh, which overwrites the start position, skews the next course.
- CameraChat.Lower: folds only A-Z. Python's `str.lower` also folds non-ASCII letters and can lengthen a string. The class names compared are ASCII.

## Findings

| source | as written | input that shows it | evidently intended | confidence | as-written member | corrected member |
|---|---|---|---|---|---|---|
| 1_definition/SC-27/EM.py:389-394 | `cam_flag`, `no_movement_count` and `timeout_count` are assigned in `main` without `global`, so they are locals. Phase 3 reads `cam_flag` before assigning it, and the `UnboundLocalError` is caught at the end of every cycle. | any flight that reaches phase 3 | the module-level flag and counters are shared, so phase 3 acts on the camera and can end at the goal | not executed | MissionEm.UnboundFlagNeverReachesGoal | MissionEm.FlightReachesGoal |
| 1_definition/SC-27/EM.py:366-371 | the retry after a failed GPS read assigns `start_lat`/`start_lon` instead of `current_lat`/`current_lon`, so the loop condition never changes. The same code is at 1_definition/SC-27/enkyori.py:187-190. Both scripts run this refresh through `MissionCommon.RefreshLoop`, and as written a failed first read hangs them (`MissionEm.FailedFirstReadStallsFlight`, `MissionLong.FailedFirstReadNeverArrives`). | a first read with no fix | the retry refreshes the current fix and the loop ends at the first good read | not executed | MissionCommon.RefreshAsWritten | MissionCommon.Refresh |
| 1_definition/SC-27/make_csv.py:22-64 | the function is named `print`, so the `print(...)` calls in its handlers call the logger itself with one argument. The `TypeError` escapes to the caller. | message type `mag` with data `0.5` | a failure inside the logger is reported and swallowed | not executed | CsvSc27.MalformedDataRaises | CsvSc27.RepairedLoggingNeverRaises |
| 1_definition/SC-27/make_csv.py:38-39 | an unknown message type adds a new key after all the columns, so that record has one more field than the header. | message type `hello` | the record keeps the header's width, as the `2_phase` logger does by writing unknown types into `msg` | not executed | CsvSc27.UnknownTypeWidensRecord | CsvPhase2.UnknownTypeGoesToMsg |
