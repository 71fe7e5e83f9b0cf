# VEX teleoperation: drive mixers, mode toggles, jogs, presets and the gate monitor

This project models the decision logic of two teleoperated VEX competition
robots. Each program reads two joystick axes every cycle and feeds them to a
drive mixer. The mixer picks one of nine manoeuvres and commands the left and
right drive motors. Button edges flip a mode flag, zero motor position
references, jog a mechanism motor, or (robot 1) move a two-joint arm to a
preset pose. Robot 2's drive loop also contains a gate monitor: it reduces the
tray gate's angle modulo 360 and writes "Open"/"Closed" to the controller
screen only when that state changes. As written, robot 2's loop fails at line
49 before it reaches the gate block (see below), so the gate monitor is
modelled as the loop would behave if that line completed.

Modules:

- `Vex` (vex.dfy) holds the shared vocabulary. This covers motor-facade
  commands (`SpinAt`, `SpinToPosition` with its blocking flag, `StopMotor`),
  buttons and edges, and Python's `abs` and sequence indexing.
- `DriveMixer` (drive_mixer.dfy) is the part both mixers share. It has the
  wheel and drive commands and the nine-way decision tree `Classify`. It also
  has `Observed`, which reads a manoeuvre back from a pair of wheel commands.
  Both mixers are proved to realise `Classify` exactly.
- `MediumEric` (medium_eric.dfy) is robot 1. It has the profile-1 mixer,
  the preset table, the button bindings, and a `Robot` class. The class holds
  the precision flag, the position references and the trace of issued motor
  commands.
- `TinyEric` (tiny_eric.dfy) is robot 2. It has the profile-2 mixer, the
  button bindings, and a `Robot` class with the speed-mode flag, the position
  references and the command trace.
- `TinyGate` (tiny_gate.dfy) is robot 2's gate monitor. It is a class with
  the `open` flag and the screen writes, plus a step method and a
  many-cycle loop. A specification function `Writes` describes the screen
  writes over many cycles.

Powers are exact `real` values: the programs only divide by constants.
Joystick samples and the gate position are `int`. A motor side effect is an
element appended to a `seq` trace. The mixers instead return the pair of
wheel commands.

Two quirks of robot 2 are kept as written:

- Line 49 of `tinyEricForever/src/main.py` assigns `speed` inside
  `drive_task`, which has no `global` declaration. So the test
  `0.55 if speed else 1` reads that same, not-yet-assigned local variable, not
  the flag `toggle_speed` flips. In Python that is an `UnboundLocalError` on
  the first cycle. `TinyEric.Mix` therefore takes the speed-mode flag as a
  separate parameter, `boost`. Nothing in the model connects
  `Robot.ToggleSpeed` to the mixer.
- `turningSpeed` at line 50 tests the numeric `speed`, which is always at
  least 10 and therefore truthy. So the rotation multiplier is always 4,
  boosted or not. `TinyEric.TurningSpeed` is written as Python truthiness,
  and `TinyEric.Mix` proves that rotation runs at exactly 4 × speed.

The model follows the code in three places where one might expect otherwise:

- The angle sequence 10° → 50° → 340° → 10° produces two screen writes. But 340° lies above 330°, in the closed band. So the writes happen
  at 10→50 ("Open") and 50→340 ("Closed"), and none at 340→10
  (`TinyGate.GateExample`).
- Robot 2 never sets an idle behaviour on its drive motors. Its `stop()`
  therefore uses the motors' default behaviour, not brake or hold. The model
  records a stop as `Stop` / `StopMotor` either way.
- An out-of-range preset index is not simply excluded. Python's indexing is
  modelled: `-2` and `-1` select from the end, and anything else raises
  `IndexError` before any command is issued.

## Model

| member | source | states |
|---|---|---|
| DriveMixer.Classify | mediumEricForTheWin/src/main.py:79-119 | The shared priority tree (forward, backward, rotate right, rotate left, stop; arc right, arc left, straight) covers each of the nine outcomes as a region of axis values. Stop is exactly \|y\| ≤ 5 and \|x\| ≤ 15. Rotation is exactly \|y\| ≤ 5 and \|x\| > 15. Forward is y > 5 and backward is y < -5. Straight, arc-right and arc-left are set by \|x\| ≤ 5, x > 5 and x < -5. |
| Vex.PyIndex | mediumEricForTheWin/src/main.py:48-49 | Python indexing succeeds exactly for -len ≤ i < len, and then yields element i mod len; otherwise it raises IndexError. |
| MediumEric.Mix | mediumEricForTheWin/src/main.py:65-119 | The wheel commands read back as exactly the manoeuvre `Classify` picks. Both motors get `Stop` iff \|y\| ≤ 5 and \|x\| ≤ 15, and a stop is never a zero-power spin. Straight driving goes forward at \|y\|/(3 or 1) and backward at \|y\|/(3 or 2): the backward halving applies only outside precision mode. In an arc the outer wheel keeps `speed` and the inner wheel gets `speed - steer`, unclamped. The inner wheel is the right one going forward with x > 5 or backward with x < -5. Rotation runs the wheels in opposite directions at equal power \|x\|/(4 or 2), with the left wheel forward iff x > 15. |
| MediumEric.MixPowersBounded | mediumEricForTheWin/src/main.py:69-74 | For axes in [-100, 100], every power lies in [-50, 100]. |
| MediumEric.InnerWheelGoesNegative | mediumEricForTheWin/src/main.py:81-83 | The inner wheel is not clamped: y = 6, x = 100, not precise gives right power -44. |
| MediumEric.MixExamples | mediumEricForTheWin/src/main.py:69-114 | y = 50 gives both motors forward at 50. y = -50 gives both in reverse at 25. x = 20 gives left forward at 10 and right in reverse at 10 (all outside precision mode). |
| MediumEric.Binding | mediumEricForTheWin/src/main.py:143-173 | On press, the button table binds A to toggle_precise, B to recalibrate, and X and Y to presets 0 and 1 (the only bound indices, both inside the table); the releases of A, B, X and Y are unbound. Release edges only jog, with direction 0. Press jogs use direction ±1 and never touch the drive motors. The percentage is 50 for the scooper and 60 for every other motor. |
| MediumEric.JogBindingsPaired | mediumEricForTheWin/src/main.py:155-173 | A button that jogs a motor on press releases it with the same motor and percentage at direction 0. Another button jogs the same motor at the opposite direction. |
| MediumEric.Robot.constructor | mediumEricForTheWin/src/main.py:27 | A session starts with precision mode off and no commands issued. |
| MediumEric.Robot.TogglePrecise | mediumEricForTheWin/src/main.py:30-32 | Negates `precise` and changes nothing else. |
| MediumEric.Robot.Recalibrate | mediumEricForTheWin/src/main.py:38-40 | Zeroes the arm base and arm joint position references. Every other motor's reference, the flag and the trace are unchanged. |
| MediumEric.Robot.ControlMotor | mediumEricForTheWin/src/main.py:43-44 | Appends exactly one forward spin of the given motor at direction × percent. |
| MediumEric.Robot.MoveArmTo | mediumEricForTheWin/src/main.py:47-49 | For a resolvable index, appends exactly two commands in order: base to the preset's first angle at 60 RPM, blocking; then joint to its second angle at 60 RPM, not blocking. Index 0 targets (456.8, 435.2) and index 1 targets (427.6, 345.2). Any other index issues nothing and reports failure. |
| MediumEric.Robot.DriveCycle | mediumEricForTheWin/src/main.py:65-119 | One cycle reads the current precision flag. It appends the mixer's left command, then its right command, to the trace. A stop becomes the motor's `stop()`. |
| MediumEric.Robot.Handle | mediumEricForTheWin/src/main.py:143-173 | A button edge has exactly the effect of the handler bound to it, and none if it is unbound. |
| MediumEric.ToggleTwice | mediumEricForTheWin/src/main.py:30-32 | Pressing A twice restores the precision flag, leaves the position references unchanged and issues no command. |
| TinyEric.Speed | tinyEricForever/src/main.py:49 | The remapped forward speed is never below the floor of 10. |
| TinyEric.Mix | tinyEricForever/src/main.py:44-111 | The wheel commands read back as exactly the manoeuvre `Classify` picks. Both motors get `Stop` iff \|y\| ≤ 5 and \|x\| ≤ 15. Straight driving gives both wheels (10 + \|y\|/2.5)/(0.55 or 1) in the heading's direction, with no backward halving. In an arc the outer wheel gets `speed + steer` and the inner wheel `speed - steer`, so the powers sum to 2·speed. The inner wheel is the right one going forward with x > 5 or backward with x < -5. Rotation runs the wheels in opposite directions at 4·speed whether boosted or not, with the left wheel forward iff x > 15. |
| TinyEric.MixPowersBounded | tinyEricForever/src/main.py:48-50 | Without boost, for axes in [-100, 100], every power is a valid percentage in [-100, 100]. |
| TinyEric.BoostedArcExceedsFullPower | tinyEricForever/src/main.py:73-74 | With boost, a full-stick forward-right arc asks the left motor for more than 100 percent. |
| TinyEric.MixExamples | tinyEricForever/src/main.py:48-106 | y = ±50 gives both wheels 30 in the matching direction. x = 20 rotates at 40. y = 50 with x = 20 arcs at 34 and 26. |
| TinyEric.Binding | tinyEricForever/src/main.py:125-150 | On press, the button table binds A to toggle_speed and B to recalibrate; the releases of A and B and both edges of X and Y are unbound. Release edges only jog, with direction 0. Press jogs use direction ±1 and never touch the drive motors. The percentage is 25 for the gate and 100 for the rack, tray and claw. |
| TinyEric.JogBindingsPaired | tinyEricForever/src/main.py:132-150 | A button that jogs a motor on press releases it with the same motor and percentage at direction 0. Another button jogs the same motor at the opposite direction. |
| TinyEric.Robot.constructor | tinyEricForever/src/main.py:21 | A session starts with speed mode off and no commands issued. |
| TinyEric.Robot.ToggleSpeed | tinyEricForever/src/main.py:26-28 | Negates the speed-mode flag and changes nothing else. |
| TinyEric.Robot.Recalibrate | tinyEricForever/src/main.py:31-32 | Zeroes only the gate motor's position reference. Every other reference, the flag and the trace are unchanged. |
| TinyEric.Robot.ControlMotor | tinyEricForever/src/main.py:35-36 | Appends exactly one forward spin of the given motor at direction × percent. |
| TinyEric.Robot.Handle | tinyEricForever/src/main.py:125-150 | A button edge has exactly the effect of the handler bound to it, and none if it is unbound. |
| TinyEric.ToggleTwice | tinyEricForever/src/main.py:26-28 | Pressing A twice restores the speed-mode flag and issues no command. |
| TinyGate.Angle | tinyEricForever/src/main.py:53 | The gate angle always lies in [0, 360) and is congruent to the position modulo 360. |
| TinyGate.Announce | tinyEricForever/src/main.py:57-66 | A cycle writes at most once. It writes exactly when the open flag changes, and the message reports the new value. |
| TinyGate.WritesAlternate | tinyEricForever/src/main.py:55-66 | Over any run of cycles the screen writes alternate between "Open" and "Closed". The first write reports a change from the starting flag and the last one reports the current flag. With no writes the flag is unchanged. |
| TinyGate.GateExample | tinyEricForever/src/main.py:53-66 | From a closed start, angles 10, 50, 340, 10 write "Open" at 50 and "Closed" at 340, and nothing at 10 either time. |
| TinyGate.RecalibratedGateReadsClosed | tinyEricForever/src/main.py:31-32 | The cycle after recalibration reads angle 0, which is in the closed band: it writes "Closed" if the flag was open and nothing otherwise. |
| TinyGate.GateMonitor.constructor | tinyEricForever/src/main.py:23 | The monitor starts with `open` false and nothing written. |
| TinyGate.GateMonitor.Step | tinyEricForever/src/main.py:53-66 | After a cycle, `open` equals 30 ≤ position mod 360 ≤ 330. The screen gains "Closed" on true→false, "Open" on false→true, and nothing otherwise. So from the initial state a first angle in the closed band writes nothing. |
| TinyGate.GateMonitor.Run | tinyEricForever/src/main.py:42-66 | Successive cycles leave the flag set by the last position read. The screen gains exactly `Writes` of the positions. |

## Left out

- Device construction, port numbers, gear ratios, inversion flags and idle-behaviour configuration (`set_stopping`) are declarative hardware setup. A stop is recorded as `Stop` / `StopMotor` without its idle mode.
- The `Thread(drive_task)` infinite loop, `sleep(10)` and the unsynchronised sharing of mode flags between the drive thread and the button handlers are left out. A cycle is one call.
- The joystick axes and the gate motor's position reading are external inputs, so they are parameters. Physical motion does not change the modelled position references; only recalibration does.
- `MediumEric.Robot.MoveArmTo`: blocking is recorded only as a flag on the command. Waiting for the joint to arrive is not modelled.
- `print_position` and the screen writes made by `toggle_precise` are left out, because they only format floating-point positions for debugging.
- Gate screen output is modelled as one "Open"/"Closed" event per write. The clear-screen and cursor calls that precede it are not modelled separately.
- IEEE floating-point rounding of `/`, `%` and `abs` is not modelled. Powers are exact rationals and the gate position is whole degrees.
- Velocity units are dropped. Robot 1's `control_motor` passes no unit and robot 2's passes percent; only the magnitude is kept.
- TinyEric.Mix: the speed-mode flag is a parameter, not `Robot.speedMode`. The source's read of it refers to an unassigned local variable and raises `UnboundLocalError`. That failure, which ends the drive thread on its first cycle, is not modelled.
- TinyGate.GateMonitor.Step and TinyGate.GateMonitor.Run model the gate block at lines 53-66 as if line 49 had completed. As written, line 49 raises `UnboundLocalError` on the first cycle, so the program never reaches the gate block: `open` stays false and the screen is never written. `Run` describes a finite run of cycles under that assumption.
- TinyEric.Robot.Recalibrate zeroes a position reference that the gate cycle takes as its input; the model does not connect the two except through `TinyGate.RecalibratedGateReadsClosed`.
- The tray motor of robot 1 is constructed but never commanded, so it appears only as a `Motor` value.
