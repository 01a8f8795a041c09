# Drone game core, modelled in Dafny

This project models the game logic of a browser quadcopter game. The logic is written in TypeScript with React, zustand stores and three.js. It covers these parts:

- The drone store: joystick inputs, the mode1/mode2 channel mapping, and the per-frame flight step `updatePhysics`.
- The game store: mode, tutorial step, difficulty, score, ring progress and mission completion.
- The flight recorder store: the frame log, recording and replay flags, the replay cursor, and save/load by name.
- The on-screen joystick's pointer-to-stick pipeline.
- The tutorial panel's step timer, award and advance.
- The per-frame logic of the four course objects: collectible rings, and balloons, moving platforms and rotating beams that deal damage after a 2-second cooldown.
- The course layout, chosen by mode and difficulty.
- The wind driver, which feeds a gust into the physics step.

Each of these models one source file, and each is its own module:

| module | file |
|---|---|
| `DroneStore` | `drone.dfy` |
| `GameStore` | `game.dfy` |
| `FlightRecorder` | `recorder.dfy` |
| `JoystickModel` | `joystick.dfy` |
| `TutorialPanelModel` | `tutorial.dfy` |
| `RingModel` | `ring.dfy` |
| `BalloonModel` | `balloon.dfy` |
| `PlatformModel` | `platform.dfy` |
| `BeamModel` | `beam.dfy` |
| `ObstaclesModel` | `obstacles.dfy` |
| `WindModel` | `wind.dfy` |

Three more modules are shared:

- `RealMath` (`realmath.dfy`) holds vectors, clamp/lerp and the transcendental functions.
- `Collision` (`collision.dfy`) holds the cooldown rule shared by the damaging objects, and the damage sink.
- `Options` (`options.dfy`) holds an option type.

**Numbers.** Numbers are `real`.

`Math.sqrt`, `Math.sin`, `Math.cos`, `Math.exp` and `Math.PI` are not defined. They are fields of a `Transcendentals` value passed as a parameter. `RealMath.Sound` lists everything the proofs assume about them:

- sine and cosine lie in [-1, 1];
- `sqrt` of a nonnegative number is its nonnegative root;
- `exp(0) = 1`, and `exp` of a non-positive number lies in (0, 1];
- `3.14 < PI < 3.15`.

One proof, that turning the beam keeps its length, also assumes `sin^2 + cos^2 = 1` (`RealMath.UnitCircle`).

**Objects and functions.** Stores and components whose state changes in place are classes with fields:

- `DroneStore.Drone`, `GameStore.Game` and `FlightRecorder.Recorder` for the stores;
- `TutorialPanelModel.TutorialPanel` and `JoystickModel.JoystickWidget` for component state;
- the `RingInstance`, `BalloonInstance`, `PlatformInstance`, `BeamInstance` and `WindDriver` classes for `useRef` values.

Each method's `modifies` clause names what it may change, field by field on the stores and components, and its `ensures` states the new value of each field it changes. Pure logic is functions:

- the channel mapping;
- the physics step, as stages;
- the joystick's `handleMove`;
- the tutorial's switch;
- the collision tests;
- the layout tables.

The physics method `Drone.UpdatePhysics` works step by step on copies of the vectors, as the store does. It is proved equal to the staged function `DroneStore.Step`. The flight properties are then proved about `Step`.

**Specification and code disagree in three places.** The model follows the code in each:

- A zero-length step still overwrites the angular velocity from the sticks (`DroneStore.ZeroDeltaKeepsPose`).
- The heading is `(yaw_degrees + 360) % 360` with JavaScript's `%`. It is negative once the yaw passes -360 degrees, so it lies in (-360, 360), not [0, 360).
- `setTutorialType` clears the score. So the 50 points a tutorial step awards are wiped when the next step starts (`TutorialPanelModel.HoverAdvances`).

**Environment and sinks.**

- Clock readings, frame `delta`s, `Date.now()` and the `Math.random()` phase offsets are parameters.
- `takeDamage` is called by the obstacles but no store defines it. With the shown store it is `undefined`. Then the first collision in a mission throws a TypeError at Balloon.tsx:44, MovingPlatform.tsx:51 or RotatingBeam.tsx:65, before `lastHitTime` is updated. The model assumes a working sink instead: damage goes to `Collision.DamageLog`, an append-only list of amounts.
- `windEnabled` is read by the wind driver but no store defines it. It is a boolean parameter, and an absent flag is `false`. With the shown store, the wind strength is therefore always 0.
- Local storage under `flightRecordings` is `FlightRecorder.RecordingStore`, a map from names to serialised frames.

## Model

| member | source | states |
|---|---|---|
| RealMath.Clamp | client/src/lib/stores/useDrone.tsx:140-141 | the result lies in [lo, hi], is `v` inside the interval and the nearer bound outside it |
| RealMath.Oscillation | client/src/components/MovingPlatform.tsx:31-32 | `sin(elapsed * rate + phase) * amplitude` never exceeds the amplitude in magnitude |
| RealMath.DistanceBelow | client/src/components/Balloon.tsx:38-41 | a `distanceTo` comparison `d < c` holds exactly when `c > 0` and the squared distance is below `c * c` |
| RealMath.Displaced | client/src/components/MovingPlatform.tsx:34-35 | copying the start and adding an offset on one axis changes that axis by the offset and keeps the other two |
| DroneStore.MapSticks | client/src/lib/stores/useDrone.tsx:90-100 | throttle is left.y and pitch right.y in both modes; mode1 takes yaw from left.x and roll from right.x, mode2 the other way round |
| DroneStore.ToggleInvolution | client/src/lib/stores/useDrone.tsx:61-65 | toggling the control mode twice gives back the original mode |
| DroneStore.Toggled | client/src/lib/stores/useDrone.tsx:61-65 | `toggleControlMode` always switches to the other mode |
| DroneStore.ToggleSwapsYawAndRoll | client/src/lib/stores/useDrone.tsx:61-100 | after a toggle the same sticks drive the same throttle and pitch, with yaw and roll exchanged |
| DroneStore.HasInputIff | client/src/lib/stores/useDrone.tsx:122-123 | the dead-zone test `sqrt(p^2 + r^2 + y^2) > 0.05` holds exactly when `p^2 + r^2 + y^2 > 0.0025` |
| DroneStore.MaxTilt | client/src/lib/stores/useDrone.tsx:114 | the tilt limit `PI / 4` lies strictly between 0.78 and 0.79 |
| DroneStore.ClampTilt | client/src/lib/stores/useDrone.tsx:140-141 | pitch and roll end up in [-PI/4, PI/4], and yaw is kept |
| DroneStore.Thrust | client/src/lib/stores/useDrone.tsx:117-118 | only the vertical speed changes; over the stick's range the vertical acceleration lies in [-9.8, 10.2]; a centred stick gives 10 - 9.8 |
| DroneStore.TiltThrust | client/src/lib/stores/useDrone.tsx:143-148 | tilt pushes only horizontally, and a level drone gets no push |
| DroneStore.Drag | client/src/lib/stores/useDrone.tsx:150-153 | over a step of nonnegative length no velocity component grows in magnitude or changes sign; a zero-length step keeps the velocity |
| DroneStore.Rem360 | client/src/lib/stores/useDrone.tsx:166 | JavaScript `n % 360`: the remainder has the dividend's sign, is below 360 in magnitude, and `trunc(n / 360) * 360 + r == n` |
| DroneStore.Heading | client/src/lib/stores/useDrone.tsx:166 | the heading lies in (-360, 360), and in [0, 360) whenever `yaw_degrees + 360 >= 0` |
| DroneStore.Airborne | client/src/lib/stores/useDrone.tsx:117-155 | after the flight stages (`Thrust`, wind, `Attitude`, `ClampTilt`, `TiltThrust`, `Drag`, position), pitch and roll lie within the tilt limit, yaw advanced by `2 * yaw * delta`, and the position moved by the new velocity times `delta` |
| DroneStore.Land | client/src/lib/stores/useDrone.tsx:157-162 | the `GroundContact` stage: below ground the drone is put at y = 0 with zero vertical speed and 0.3 of its horizontal speed; otherwise nothing changes; y is never negative |
| DroneStore.Step | client/src/lib/stores/useDrone.tsx:81-177 | after any physics step pitch and roll lie within the tilt limit, y >= 0, altitude equals y, speed >= 0, and the heading lies in (-360, 360) |
| DroneStore.Observe | client/src/lib/stores/useDrone.tsx:164-166 | the telemetry is derived from the new kinematics: altitude is y, the horizontal speed is nonnegative, and the heading lies in (-360, 360) |
| DroneStore.DeadZoneAngularVelocity | client/src/lib/stores/useDrone.tsx:122-136 | outside the dead zone the angular velocity becomes (3 pitch, 2 yaw, 3 roll); inside it becomes zero |
| DroneStore.YawSuppressesAutoLevel | client/src/lib/stores/useDrone.tsx:122-141 | a yaw-only input beyond the dead zone counts as input, so pitch and roll do not auto-level and change only by the clamp |
| DroneStore.AutoLevelNonIncreasing | client/src/lib/stores/useDrone.tsx:132-141 | with no stick input and `0 <= 3 delta <= 1`, auto-level never increases the magnitude of pitch or roll |
| DroneStore.ZeroDeltaKeepsPose | client/src/lib/stores/useDrone.tsx:117-162 | a zero-length step keeps position, rotation and velocity of a state within the limits, and still overwrites the angular velocity |
| DroneStore.UpdateAttitude | client/src/lib/stores/useDrone.tsx:122-138 | the imperative attitude stage computes exactly the staged `Attitude` (dead-zone rates or auto-level lerp, then the yaw integration) |
| DroneStore.AdvanceKinematics | client/src/lib/stores/useDrone.tsx:102-162 | the imperative stages from thrust to ground contact compute exactly `Land(Airborne(...))` |
| DroneStore.Drone.constructor | client/src/lib/stores/useDrone.tsx:34-51 | the initial state: position (0,5,0), zero rotation, velocity and angular velocity, centred sticks, mode2, altitude 5, speed and heading 0 |
| DroneStore.Drone.SetLeftJoystick | client/src/lib/stores/useDrone.tsx:53-55 | the left stick is replaced and nothing else changes |
| DroneStore.Drone.SetRightJoystick | client/src/lib/stores/useDrone.tsx:57-59 | the right stick is replaced and nothing else changes |
| DroneStore.Drone.ToggleControlMode | client/src/lib/stores/useDrone.tsx:61-65 | the control mode flips and nothing else changes |
| DroneStore.Drone.Reset | client/src/lib/stores/useDrone.tsx:67-79 | position (0,5,0), zero rotation and velocities, centred sticks, altitude 5, speed and heading 0; the control mode is kept |
| DroneStore.Drone.UpdatePhysics | client/src/lib/stores/useDrone.tsx:81-177 | the stored kinematics and telemetry become `Step` of the previous kinematics and the mapped channels; pitch and roll within the tilt limit, y >= 0, altitude == y |
| GameStore.TotalRingsFor | client/src/lib/stores/useGame.tsx:54-58 | easy, medium and hard need 5, 6 and 7 rings |
| GameStore.Game.constructor | client/src/lib/stores/useGame.tsx:30-37 | free flight, hover step, easy, score 0, no rings of 5, mission not complete, instructions shown |
| GameStore.Game.SetMode | client/src/lib/stores/useGame.tsx:39-47 | sets the mode, clears score, rings and completion, and restarts the tutorial at hover |
| GameStore.Game.SetTutorialType | client/src/lib/stores/useGame.tsx:49-51 | sets the tutorial step and clears the score, touching nothing else |
| GameStore.Game.SetDifficulty | client/src/lib/stores/useGame.tsx:53-66 | sets the difficulty and its ring target, clears rings, score and completion |
| GameStore.Game.AddScore | client/src/lib/stores/useGame.tsx:68-70 | the score grows by exactly the points given |
| GameStore.Game.CollectRing | client/src/lib/stores/useGame.tsx:72-82 | one more ring, 100 more points, and the mission complete exactly when the target is reached |
| GameStore.Game.ResetGame | client/src/lib/stores/useGame.tsx:84-90 | clears score, rings and completion only |
| GameStore.Game.CompleteMission | client/src/lib/stores/useGame.tsx:92-94 | marks the mission complete and touches nothing else |
| GameStore.Game.ToggleInstructions | client/src/lib/stores/useGame.tsx:96-98 | flips the instructions flag and touches nothing else |
| GameStore.ToggleInstructionsTwice | client/src/lib/stores/useGame.tsx:96-98 | toggling the instructions twice restores every field |
| GameStore.CompleteMissionEarly | client/src/lib/stores/useGame.tsx:92-94 | `completeMission` on a fresh store reports completion with no ring collected |
| FlightRecorder.Components | client/src/lib/stores/useFlightRecorder.tsx:87-91 | a vector is stored as the three-number array [x, y, z] |
| FlightRecorder.FromComponents | client/src/lib/stores/useFlightRecorder.tsx:104-108 | `new Vector3(...array)` takes the first three entries and defaults missing ones to 0 |
| FlightRecorder.StoreAll | client/src/lib/stores/useFlightRecorder.tsx:87-91 | each frame is serialised in place, in order |
| FlightRecorder.RestoreAll | client/src/lib/stores/useFlightRecorder.tsx:104-108 | each stored frame is rebuilt in place, in order |
| FlightRecorder.RestoreAllStoreAll | client/src/lib/stores/useFlightRecorder.tsx:85-112 | loading what was saved gives back exactly the recorded frames |
| FlightRecorder.Recorder.constructor | client/src/lib/stores/useFlightRecorder.tsx:29-32 | not recording, not replaying, no frames, cursor 0 |
| FlightRecorder.Recorder.StartRecording | client/src/lib/stores/useFlightRecorder.tsx:34-36 | recording on an empty log with replay off; the flags never overlap |
| FlightRecorder.Recorder.StopRecording | client/src/lib/stores/useFlightRecorder.tsx:38-40 | recording off, nothing else changes |
| FlightRecorder.Recorder.RecordFrame | client/src/lib/stores/useFlightRecorder.tsx:42-56 | while recording, exactly one frame with the given clock reading is appended; otherwise the log is unchanged |
| FlightRecorder.Recorder.StartReplay | client/src/lib/stores/useFlightRecorder.tsx:58-63 | a nonempty log starts replay at frame 0 and stops recording; an empty log changes nothing |
| FlightRecorder.Recorder.StopReplay | client/src/lib/stores/useFlightRecorder.tsx:65-67 | replay off and cursor 0 |
| FlightRecorder.Recorder.GetReplayFrame | client/src/lib/stores/useFlightRecorder.tsx:69-79 | while frames remain, returns the frame under the cursor and advances it; otherwise returns null and stops replay |
| FlightRecorder.Recorder.ClearRecording | client/src/lib/stores/useFlightRecorder.tsx:81-83 | empty log, cursor 0, both flags off |
| FlightRecorder.Recorder.SaveToLocalStorage | client/src/lib/stores/useFlightRecorder.tsx:85-96 | the serialised log is stored under the name and every other entry is kept, over names that are not `Object.prototype` members |
| FlightRecorder.Recorder.LoadFromLocalStorage | client/src/lib/stores/useFlightRecorder.tsx:98-112 | returns true exactly when the name has a saved recording; then the log is that recording, replay off and cursor 0; otherwise nothing changes, over names that are not `Object.prototype` members |
| FlightRecorder.GetSavedRecordings | client/src/lib/stores/useFlightRecorder.tsx:114-117 | lists each saved name exactly once and nothing else |
| FlightRecorder.ReplayAll | client/src/lib/stores/useFlightRecorder.tsx:58-79 | after `startReplay`, successive `getReplayFrame` calls yield the recorded frames in order and then null |
| FlightRecorder.SaveThenLoad | client/src/lib/stores/useFlightRecorder.tsx:85-112 | saving under a name and loading it back succeeds and restores the log unchanged, over names that are not `Object.prototype` members |
| JoystickModel.ClampToRadius | client/src/components/Joystick.tsx:35-42 | the stick offset lies within the usable radius, on its circle when the pointer was outside, unchanged when inside, and on the same ray from the centre |
| JoystickModel.AxisOutput | client/src/components/Joystick.tsx:46-57 | each output lies in [-1, 1], is 0 in the 0.05 dead zone, is at least 0.075 in magnitude otherwise, keeps the input's sign, is `1.5 n` in the linear range and saturates from 2/3 |
| JoystickModel.HandleMove | client/src/components/Joystick.tsx:26-60 | the drawn stick stays within the radius and the emitted pair lies in the unit square, each axis the normalised offset through `AxisOutput`, y inverted |
| JoystickModel.HandleMoveFollowsPointer | client/src/components/Joystick.tsx:35-57 | a pointer right of the centre gives x >= 0, left gives x <= 0, below gives y <= 0, above gives y >= 0 |
| JoystickModel.JoystickWidget.constructor | client/src/components/Joystick.tsx:12-13 | not dragging, stick centred, nothing emitted yet |
| JoystickModel.JoystickWidget.Move | client/src/components/Joystick.tsx:26-60 | `handleMove`: the drawn stick becomes `HandleMove`'s clamped offset and exactly its output pair is sent to `onMove`, which stays in the unit square |
| JoystickModel.JoystickWidget.PointerDown | client/src/components/Joystick.tsx:62-75 | a press inside the rectangle (`Contains`, edges included) starts a drag and moves the stick; a press outside changes nothing |
| JoystickModel.JoystickWidget.PointerMove | client/src/components/Joystick.tsx:77-81 | moves the stick only during a drag |
| JoystickModel.JoystickWidget.PointerUp | client/src/components/Joystick.tsx:83-87 | ends the drag, recentres the stick and emits (0, 0) |
| TutorialPanelModel.Threshold | client/src/components/Tutorial.tsx:23-54 | the hover step needs a timer above 60, the others above 30 |
| TutorialPanelModel.Evaluation | client/src/components/Tutorial.tsx:23-54 | a met goal increments the timer and completes when the value read before the increment exceeds the threshold; a miss resets it, except in the turn step |
| TutorialPanelModel.SatisfiedRun | client/src/components/Tutorial.tsx:23-54 | over consecutive met goals the timer counts up by one, and evaluation i completes exactly when `timer + i` exceeds the threshold |
| TutorialPanelModel.HoverCompletesOn62nd | client/src/components/Tutorial.tsx:24-33 | from a zero timer, hovering completes on the 62nd consecutive good evaluation and not before |
| TutorialPanelModel.OtherStepsCompleteOn32nd | client/src/components/Tutorial.tsx:35-53 | forward and turn complete on the 32nd consecutive good evaluation and not before |
| TutorialPanelModel.TurnNeverResets | client/src/components/Tutorial.tsx:46-53 | the turn step's timer never decreases, whatever the readings |
| TutorialPanelModel.WrapAlternativeUnreachable | client/src/components/Tutorial.tsx:47 | for a heading in [0, 360) the `> 340` alternative of the turn test never holds |
| TutorialPanelModel.WrapAlternativeForNegativeHeading | client/src/components/Tutorial.tsx:47 | for the drone's heading range (-360, 360) the `> 340` alternative holds exactly below -160 degrees |
| TutorialPanelModel.NextStep | client/src/components/Tutorial.tsx:61-65 | `nextSteps` moves exactly one place forward in hover, forward, turn, complete |
| TutorialPanelModel.StepsInOrder | client/src/components/Tutorial.tsx:61-65 | forward, turn and complete are reached from hover by one, two and three advances, and no advance goes back |
| TutorialPanelModel.TutorialPanel.ResetForStep | client/src/components/Tutorial.tsx:13-16 | a step change clears the timer and the completion flag |
| TutorialPanelModel.TutorialPanel.Evaluate | client/src/components/Tutorial.tsx:18-67 | outside an active tutorial nothing changes; otherwise the timer follows `Evaluation`, and the first completion sets the flag, adds 50 points and schedules the next step |
| TutorialPanelModel.TutorialPanel.EvaluateAsWritten | client/src/components/Tutorial.tsx:18-71 | the same, but each run first cancels the pending timeout, as the effect's cleanup does |
| TutorialPanelModel.TutorialPanel.TimeoutElapsed | client/src/components/Tutorial.tsx:13-67 | a pending advance sets the next step, which clears the score, and the step-change effect resets the panel; none changes nothing |
| TutorialPanelModel.AwardOnce | client/src/components/Tutorial.tsx:56-58 | once a step has been awarded, no later evaluation adds points |
| TutorialPanelModel.HoverStuckAsWritten | client/src/components/Tutorial.tsx:56-71 | as written, a completed hover step is never advanced: the tutorial stays at hover with 50 points |
| TutorialPanelModel.HoverAdvances | client/src/components/Tutorial.tsx:56-67 | with the timeout kept, the same evaluations reach the forward step, with the score cleared and the panel reset |
| Collision.LastHitTime | client/src/components/Balloon.tsx:42-46 | `lastHitTime` is 0 or the time of one of the collisions |
| Collision.DamageTimes | client/src/components/Balloon.tsx:42-46 | the damaging collisions are among the collisions, never more of them |
| Collision.LastHitTimeIsLastDamage | client/src/components/MovingPlatform.tsx:49-53 | `lastHitTime` is the time of the latest damaging collision, or 0 when there was none |
| Collision.DamageSpaced | client/src/components/RotatingBeam.tsx:63-67 | no damage before clock time 2, and any two damage events of one obstacle are more than 2 seconds apart |
| Collision.NoDamageUntilCooldown | client/src/components/Balloon.tsx:42-46 | collisions up to clock time 2 deal no damage, since `lastHitTime` starts at 0 |
| Collision.AtMostOneDamageWithinCooldown | client/src/components/MovingPlatform.tsx:49-53 | collisions within one 2-second window deal damage at most once |
| Collision.TwoHitsOneDamage | client/src/components/RotatingBeam.tsx:63-67 | two consecutive collisions at most 2 seconds apart add at most one damage event |
| Collision.Cooldown.constructor | client/src/components/Balloon.tsx:27 | `lastHitTime` starts at 0 with no collisions seen |
| Collision.DamageLog.constructor | client/src/components/Balloon.tsx:26 | the damage sink starts empty |
| Collision.DamageLog.TakeDamage | client/src/components/Balloon.tsx:44 | each `takeDamage(amount)` call appends its amount, in call order |
| Collision.Cooldown.Hit | client/src/components/Balloon.tsx:42-46 | a collision that passes `CooledDown`, i.e. more than 2 seconds after the last damaging one, deals damage and records its time; otherwise nothing changes |
| RingModel.CollectsIff | client/src/components/Ring.tsx:26-28 | the drone collects a ring exactly when the radius is positive and the squared distance is below `(0.6 radius)^2` |
| RingModel.RingInstance.constructor | client/src/components/Ring.tsx:14-20 | the ring keeps its position, spin and radius (default 2) and starts uncollected, having reported nothing |
| RingModel.RingInstance.Frame | client/src/components/Ring.tsx:22-31 | a collected ring does nothing; otherwise it spins by 0.01 and, when the drone is within `0.6 radius`, becomes collected and reports one ring to the store |
| RingModel.RunFrames | client/src/components/Ring.tsx:18-31 | over any number of frames a ring adds at most one ring and 100 points, and adds them exactly when some frame collects it |
| BalloonModel.BalloonHitIff | client/src/components/Balloon.tsx:38-41 | the balloon hits exactly when `radius + 0.6 > 0` and the squared distance is below `(radius + 0.6)^2` |
| BalloonModel.BalloonInstance.constructor | client/src/components/Balloon.tsx:15-27 | the balloon starts at its position with its radius, bob speed, bob range and random phase, and a fresh cooldown |
| BalloonModel.BalloonInstance.Frame | client/src/components/Balloon.tsx:29-46 | the balloon bobs only vertically within the bob range; in a mission a hit is a collision dealing 5 under the cooldown; outside a mission nothing is hit |
| PlatformModel.OverlapsIff | client/src/components/MovingPlatform.tsx:39-48 | the per-axis test is exactly an overlap of the platform box with the drone's 0.8 cube on every axis |
| PlatformModel.PlatformInstance.constructor | client/src/components/MovingPlatform.tsx:15-27 | the platform starts at its position with its size, range, speed, axis and random phase, and a fresh cooldown |
| PlatformModel.PlatformInstance.Frame | client/src/components/MovingPlatform.tsx:29-53 | the platform moves only along its axis within the move range; in a mission an overlap is a collision dealing 10 under the cooldown; outside a mission nothing is hit |
| BeamModel.BeamEnds | client/src/components/RotatingBeam.tsx:45-46 | the bar's ends lie symmetrically about the group's position |
| BeamModel.BeamEndsApart | client/src/components/RotatingBeam.tsx:45-49 | turning the bar keeps its ends exactly `length` apart |
| BeamModel.SegmentParameter | client/src/components/RotatingBeam.tsx:48-52 | the projection parameter is clamped into [0, 1] |
| BeamModel.ClosestPointIsClosest | client/src/components/RotatingBeam.tsx:48-57 | the computed point is at least as close to the drone as every point of the segment |
| BeamModel.ClosestPointNoFartherThanEnds | client/src/components/RotatingBeam.tsx:48-57 | the computed point is no farther from the drone than either end of the bar |
| BeamModel.BeamHitIff | client/src/components/RotatingBeam.tsx:59-62 | the beam hits exactly when the bar is not degenerate, `thickness / 2 + 0.6 > 0` and the squared distance to the closest point is below its square |
| BeamModel.NearEndIsHit | client/src/components/RotatingBeam.tsx:48-62 | a drone within the collision radius of either end of a nondegenerate bar is hit |
| BeamModel.BeamInstance.constructor | client/src/components/RotatingBeam.tsx:15-27 | the beam starts unrotated with its length, thickness, speed, axis and random phase, and a fresh cooldown |
| BeamModel.BeamInstance.Turn | client/src/components/RotatingBeam.tsx:31-39 | the rotation on the beam's axis is set to the angle and the other two stay zero |
| BeamModel.BeamInstance.TestHit | client/src/components/RotatingBeam.tsx:48-67 | a hit is a collision dealing 15 under the cooldown; a miss changes nothing |
| BeamModel.BeamInstance.Frame | client/src/components/RotatingBeam.tsx:29-67 | the beam turns to `elapsed * speed + timeOffset`; in a mission a hit is a collision dealing 15 under the cooldown; outside a mission nothing is hit |
| ObstaclesModel.Numbered | client/src/components/Obstacles.tsx:45-49 | the layout is kept in order and ring i gets id i + 1 |
| ObstaclesModel.RingPositions | client/src/components/Obstacles.tsx:11-50 | the tutorial has one ring at (0,5,-10) with id 1; otherwise the difficulty's table (`DifficultyConfig`) has as many rings as the store's target for the difficulty, numbered from 1 |
| ObstaclesModel.RingIdsAreOneToN | client/src/components/Obstacles.tsx:45-49 | ring ids are distinct and are exactly 1 to n |
| ObstaclesModel.LayoutsAdvanceAlongCourse | client/src/components/Obstacles.tsx:12-43 | every layout starts at the tutorial ring's position, each ring lies further along -z than the last, and all are above ground |
| ObstaclesModel.SceneFor | client/src/components/Obstacles.tsx:52-93 | free flight mounts nothing; hazards appear only in a mission, with 3 or 4 platforms, 2 or 3 beams and six balloons |
| ObstaclesModel.HardAddsOneBeamAndOnePlatform | client/src/components/Obstacles.tsx:86-91 | hard has exactly one more beam and one more platform than the other difficulties, and the same balloons |
| ObstaclesModel.MissionRingsCompleteMission | client/src/components/Obstacles.tsx:18-49 | a mission mounts exactly as many rings as the store needs to complete it |
| WindModel.WindStrength | client/src/components/Wind.tsx:12-21 | 0 without the flag or outside a mission; 0.5, 1.5 and 3.0 for easy, medium and hard in a mission; always in [0, 3] |
| WindModel.WindForce | client/src/components/Wind.tsx:31-35 | each horizontal component is at most the strength in magnitude, the vertical one at most 0.3 times it |
| WindModel.WindDriver.constructor | client/src/components/Wind.tsx:10 | the wind clock starts at 0 with no deltas accumulated |
| WindModel.WindDriver.Frame | client/src/components/Wind.tsx:23-37 | the clock grows by `delta` and stays the sum of all deltas; the drone is stepped with zero wind at strength 0 and with the gust at the new clock otherwise |

## Left out

- Rendering, materials, lights and the sphere/torus/box geometry are not modelled. The same goes for `Drone.tsx`, `App.tsx`, `Camera.tsx`, `Environment.tsx`, `UI.tsx` and `GameMenu.tsx`, which are presentation or only sequence store actions.
- React and zustand scheduling are not modelled. Each store action, effect run and `useFrame` callback is one atomic method call. The order of those calls is up to the caller.
- The joystick's `handlePointerMove` reads `isDragging` through the effect's closure; a stale closure is not modelled. The tutorial effect's re-runs are modelled only as far as the finding below needs.
- The `ref.current` null guards and the ring's removal from its parent are not modelled. The model treats every component as mounted.
- The ring's visual removal has no other effect, because the `collected` flag already stops it.
- IEEE floating point is not modelled: no rounding, NaN or infinities. Numbers are reals.
- A beam of length zero divides 0 by 0. JavaScript then gets NaN, and the comparison with the collision radius is false. The model states this directly: `BeamModel.BeamHit` is false for a degenerate bar, with no division.
- JoystickModel.HandleMove: requires `width / 2 - 20 > 0`. A narrower widget divides by zero or by a negative radius, which gives NaN or mirrored output in JavaScript; that case is not modelled.
- three.js world matrices are not modelled. `BeamModel.BeamInstance.Frame` takes the bar's world-space ends as given, as a parameter.
- RotatingBeam.tsx:42 calls `updateMatrixWorld(true)` on the mesh only. That rebuilds the mesh's matrix from the group's world matrix as last rendered, which does not include the rotation set at lines 33-38. So the source tests the bar at the previous frame's angle, and on the first frame at a group matrix not yet computed. The model does not capture this one-frame lag.
- `BeamModel.BeamEnds` states where the ends are for a rotation angle when the group's world matrix is current and its parents carry no transform. No file shown mounts `Obstacles`, so its parents are unknown.
- `Math.sqrt`, `Math.sin`, `Math.cos`, `Math.exp` and `Math.PI` are only constrained by the axioms in `RealMath.Sound` (and `RealMath.UnitCircle`).
- Local storage and JSON are not modelled beyond a map from names to serialised frames. Parse errors, other writers and stored data of the wrong shape are left out; the source does not validate it either. The key order of `Object.keys` is also left out; `FlightRecorder.GetSavedRecordings` returns the names in an unspecified order.
- FlightRecorder.Recorder.LoadFromLocalStorage: treats the store as a true map. In the source, `recordings` is a plain object, and names inherited from `Object.prototype` such as `toString` or `constructor` find a function. `recording.map` then throws a TypeError; the model reports `false` and changes nothing.
- FlightRecorder.Recorder.SaveToLocalStorage: treats the store as a true map. In the source, the name `__proto__` replaces the object's prototype instead of adding an entry, and `JSON.stringify` drops it, so that save is lost; the model stores it.
- FlightRecorder.SaveThenLoad: promises a successful load for every name. For `__proto__` the source loses the save and the load then throws, and for other names inherited from `Object.prototype` the load throws whenever nothing was saved under them.
- Clocks and randomness are parameters: `Date.now()`, the frame clock, frame deltas, and the random phase of each balloon, platform and beam.
- Health and `takeDamage` are not defined by any store shown. The model keeps a log of damage amounts and states no health invariant.

## Findings

| source | as written | input that shows it | evidently intended | confidence | as-written member | corrected member |
|---|---|---|---|---|---|---|
| client/src/components/Tutorial.tsx:56-71 | The scheduling run changes `stepComplete` and `timer`, both effect dependencies, so the effect runs again. Before that run React calls the returned cleanup, which clears the timeout. The re-run schedules nothing because `stepComplete` is now true. | Tutorial mode, hover step, 63 consecutive evaluations at altitude 5 and speed 0, followed by the 2-second wait | after a step completes, the tutorial moves to the next step 2 seconds later | medium, not executed | TutorialPanelModel.HoverStuckAsWritten (with TutorialPanel.EvaluateAsWritten) | TutorialPanelModel.HoverAdvances (with TutorialPanel.Evaluate) |
