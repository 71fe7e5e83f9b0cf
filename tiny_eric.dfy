/** Robot 2 ("tiny Eric"): a drive base, a rack-and-pinion, a tray with a
    gate, and a claw. The drive mixer uses the second tuning curve: a floor
    speed plus the scaled forward axis, divided down in speed mode, with
    symmetric arcs and a multiplied rotation speed. */
module TinyEric {
  import opened Vex
  import opened DriveMixer

  datatype Motor = LeftDrive | RightDrive | Claw | Rack | Tray | Gate

  // ---------------------------------------------------------------------------
  // Drive mixer, profile 2
  //
  // In the program the divisor test `(0.55 if speed else 1)` reads the local
  // `speed` that the same statement assigns (the function has no `global`
  // declaration), not the flag `toggle_speed` flips. The mixer therefore
  // takes the speed-mode flag as a parameter of its own, `boost`, and nothing
  // here ties it to `Robot.speedMode`.

  /** The turn axis remapped: `abs(x) / 5`. */
  function Steer(x: int): real
  {
    Abs(x) as real / 5.0
  }

  /** The forward axis remapped: `(10 + abs(y / 2.5)) / (0.55 if boost else 1)`,
      never below the floor of 10. */
  function Speed(y: int, boost: bool): (s: real)
    ensures s >= 10.0
  {
    (10.0 + Abs(y) as real / 2.5) / (if boost then 0.55 else 1.0)
  }

  /** `4 if speed else 3`, where `speed` is the number just computed: Python
      treats any non-zero number as true. */
  function TurningSpeed(speed: real): int
  {
    if speed != 0.0 then 4 else 3
  }

  /** One cycle of the robot-2 drive loop: the command for each drive motor. */
  function Mix(y: int, x: int, boost: bool): (r: DriveCmd)
    // the commands realise exactly the manoeuvre the shared tree selects
    ensures Observed(r) == Some(Classify(y, x))
    // inside the deadband both motors stop
    ensures r == DriveCmd(Stop, Stop) <==> Abs(y) <= Deadband && Abs(x) <= RotateThreshold
    ensures !r.left.Stop? || !r.right.Stop? ==> r.left.Spin? && r.right.Spin?
    // straight: both wheels at the same speed, forward or backward alike
    ensures Abs(y) > Deadband && Abs(x) <= Deadband ==>
      r.left == r.right == Spin(Heading(y), (10.0 + Abs(y) as real / 2.5) / (if boost then 0.55 else 1.0))
    // arcs: the outer wheel gains the steer the inner one loses, so the two
    // powers always sum to twice the speed
    ensures Abs(y) > Deadband && Abs(x) > Deadband ==>
      Wheel(r, Opposite(InnerWheel(y, x))) == Spin(Heading(y), Speed(y, boost) + Steer(x)) &&
      Wheel(r, InnerWheel(y, x)) == Spin(Heading(y), Speed(y, boost) - Steer(x)) &&
      r.left.power + r.right.power == 2.0 * Speed(y, boost)
    // rotation in place: opposite directions at four times the speed, with
    // or without boost; the left wheel forward exactly when the stick is right
    ensures Abs(y) <= Deadband && Abs(x) > RotateThreshold ==>
      r.left.Spin? && r.right.Spin? && r.left.dir != r.right.dir &&
      r.left.power == r.right.power == 4.0 * Speed(y, boost) &&
      (r.left.dir == Forward <==> x > 0)
  {
    var steer := Steer(x);
    var speed := Speed(y, boost);
    var turningSpeed := TurningSpeed(speed);
    if y > 5 then
      if x > 5 then DriveCmd(Spin(Forward, speed + steer), Spin(Forward, speed - steer))
      else if x < -5 then DriveCmd(Spin(Forward, speed - steer), Spin(Forward, speed + steer))
      else DriveCmd(Spin(Forward, speed), Spin(Forward, speed))
    else if y < -5 then
      if x > 5 then DriveCmd(Spin(Reverse, speed - steer), Spin(Reverse, speed + steer))
      else if x < -5 then DriveCmd(Spin(Reverse, speed + steer), Spin(Reverse, speed - steer))
      else DriveCmd(Spin(Reverse, speed), Spin(Reverse, speed))
    else if x > 15 then DriveCmd(Spin(Forward, speed * turningSpeed as real), Spin(Reverse, speed * turningSpeed as real))
    else if x < -15 then DriveCmd(Spin(Reverse, speed * turningSpeed as real), Spin(Forward, speed * turningSpeed as real))
    else DriveCmd(Stop, Stop)
  }

  /** Without boost, axis samples in the controller's range give powers that
      are valid percentages. */
  lemma MixPowersBounded(y: int, x: int)
    requires -100 <= y <= 100 && -100 <= x <= 100
    ensures PowersWithin(Mix(y, x, false), -100.0, 100.0)
  {
  }

  /** With boost the outer wheel of a full arc is asked for more than 100 percent. */
  lemma BoostedArcExceedsFullPower()
    ensures Mix(100, 100, true).left.power > 100.0
    ensures !PowersWithin(Mix(100, 100, true), -100.0, 100.0)
  {
  }

  /** Worked cycles: the floor speed, the boost divisor and the rotation multiplier. */
  lemma MixExamples()
    ensures Mix(50, 0, false) == DriveCmd(Spin(Forward, 30.0), Spin(Forward, 30.0))
    ensures Mix(-50, 0, false) == DriveCmd(Spin(Reverse, 30.0), Spin(Reverse, 30.0))
    ensures Mix(0, 20, false) == DriveCmd(Spin(Forward, 40.0), Spin(Reverse, 40.0))
    ensures Mix(50, 20, false) == DriveCmd(Spin(Forward, 34.0), Spin(Forward, 26.0))
  {
  }

  // ---------------------------------------------------------------------------
  // Button bindings

  /** The handlers the buttons are bound to, with their bound arguments. */
  datatype Handler =
    | OnToggleSpeed
    | OnRecalibrate
    | OnControlMotor(direction: int, motor: Motor, percent: int)

  /** The fixed table of button bindings registered at start-up. */
  function Binding(b: Button, e: Edge): (h: Option<Handler>)
    // release edges only ever jog, and a release always asks for power 0
    ensures e == Released && h.Some? ==> h.value.OnControlMotor? && h.value.direction == 0
    ensures e == Pressed && h.Some? && h.value.OnControlMotor? ==> h.value.direction in {1, -1}
    // jogs never touch the drive motors; the gate jogs at 25, the rest at 100
    ensures h.Some? && h.value.OnControlMotor? ==>
      h.value.motor !in {LeftDrive, RightDrive} &&
      h.value.percent == (if h.value.motor == Gate then 25 else 100)
    // A toggles speed mode, B recalibrates, X and Y are not bound
    ensures (b, e) == (A, Pressed) ==> h == Some(OnToggleSpeed)
    ensures (b, e) == (B, Pressed) ==> h == Some(OnRecalibrate)
    ensures e == Released && b in {A, B} ==> h.None?
    ensures b in {X, Y} ==> h.None?
  {
    match (b, e)
    case (A, Pressed) => Some(OnToggleSpeed)
    case (B, Pressed) => Some(OnRecalibrate)
    case (L1, Pressed) => Some(OnControlMotor(1, Rack, 100))
    case (L1, Released) => Some(OnControlMotor(0, Rack, 100))
    case (L2, Pressed) => Some(OnControlMotor(-1, Rack, 100))
    case (L2, Released) => Some(OnControlMotor(0, Rack, 100))
    case (R1, Pressed) => Some(OnControlMotor(1, Tray, 100))
    case (R1, Released) => Some(OnControlMotor(0, Tray, 100))
    case (R2, Pressed) => Some(OnControlMotor(-1, Tray, 100))
    case (R2, Released) => Some(OnControlMotor(0, Tray, 100))
    case (Up, Pressed) => Some(OnControlMotor(1, Claw, 100))
    case (Up, Released) => Some(OnControlMotor(0, Claw, 100))
    case (Down, Pressed) => Some(OnControlMotor(-1, Claw, 100))
    case (Down, Released) => Some(OnControlMotor(0, Claw, 100))
    case (Left, Pressed) => Some(OnControlMotor(1, Gate, 25))
    case (Left, Released) => Some(OnControlMotor(0, Gate, 25))
    case (Right, Pressed) => Some(OnControlMotor(-1, Gate, 25))
    case (Right, Released) => Some(OnControlMotor(0, Gate, 25))
    case (_, _) => None
  }

  /** Jog buttons come in pairs: a button that jogs a motor on press releases
      it with the same motor and percentage, and another button jogs the same
      motor the other way. */
  lemma {:induction false} JogBindingsPaired(b: Button)
    requires Binding(b, Pressed).Some? && Binding(b, Pressed).value.OnControlMotor?
    ensures var h := Binding(b, Pressed).value;
      Binding(b, Released) == Some(OnControlMotor(0, h.motor, h.percent)) &&
      exists b' :: Binding(b', Pressed) == Some(OnControlMotor(-h.direction, h.motor, h.percent))
  {
    match b
    case L1 => assert Binding(L2, Pressed) == Some(OnControlMotor(-1, Rack, 100));
    case L2 => assert Binding(L1, Pressed) == Some(OnControlMotor(1, Rack, 100));
    case R1 => assert Binding(R2, Pressed) == Some(OnControlMotor(-1, Tray, 100));
    case R2 => assert Binding(R1, Pressed) == Some(OnControlMotor(1, Tray, 100));
    case Up => assert Binding(Down, Pressed) == Some(OnControlMotor(-1, Claw, 100));
    case Down => assert Binding(Up, Pressed) == Some(OnControlMotor(1, Claw, 100));
    case Left => assert Binding(Right, Pressed) == Some(OnControlMotor(-1, Gate, 25));
    case Right => assert Binding(Left, Pressed) == Some(OnControlMotor(1, Gate, 25));
  }

  // ---------------------------------------------------------------------------
  // Robot state: the speed-mode flag, the motors' position references (whole
  // degrees) and the commands issued to the motors so far

  class Robot {
    var speedMode: bool
    var position: map<Motor, int>
    var trace: seq<Cmd<Motor>>

    /** Start of a session: speed mode off, positions as the motors report them. */
    constructor (initial: map<Motor, int>)
      ensures !speedMode && position == initial && trace == []
    {
      speedMode := false;
      position := initial;
      trace := [];
    }

    /** `toggle_speed`: flips the speed-mode flag and nothing else. */
    method ToggleSpeed()
      modifies this
      ensures speedMode == !old(speedMode)
      ensures position == old(position) && trace == old(trace)
    {
      speedMode := if speedMode then false else true;
    }

    /** `recalibrate`: zeroes the gate motor's position reference only. */
    method Recalibrate()
      modifies this
      ensures position == old(position)[Gate := 0]
      ensures speedMode == old(speedMode) && trace == old(trace)
    {
      position := position[Gate := 0];
    }

    /** `control_motor(direction, motor, percent)`: spins the motor forward at
        `direction * percent` percent, so a release asks for power 0. */
    method ControlMotor(direction: int, motor: Motor, percent: int)
      modifies this
      ensures trace == old(trace) + [SpinAt(motor, Forward, (direction * percent) as real)]
      ensures speedMode == old(speedMode) && position == old(position)
    {
      trace := trace + [SpinAt(motor, Forward, (direction * percent) as real)];
    }

    /** Dispatches one button edge to the handler bound to it, if any. */
    method Handle(b: Button, e: Edge)
      modifies this
      ensures Binding(b, e).None? ==>
        speedMode == old(speedMode) && position == old(position) && trace == old(trace)
      ensures Binding(b, e) == Some(OnToggleSpeed) ==>
        speedMode == !old(speedMode) && position == old(position) && trace == old(trace)
      ensures Binding(b, e) == Some(OnRecalibrate) ==>
        speedMode == old(speedMode) && position == old(position)[Gate := 0] && trace == old(trace)
      ensures Binding(b, e).Some? && Binding(b, e).value.OnControlMotor? ==>
        var h := Binding(b, e).value;
        speedMode == old(speedMode) && position == old(position) &&
        trace == old(trace) + [SpinAt(h.motor, Forward, (h.direction * h.percent) as real)]
    {
      match Binding(b, e)
      case None =>
      case Some(OnToggleSpeed) => ToggleSpeed();
      case Some(OnRecalibrate) => Recalibrate();
      case Some(OnControlMotor(d, m, p)) => ControlMotor(d, m, p);
    }
  }

  /** Pressing A twice restores speed mode without issuing any command. */
  method ToggleTwice(r: Robot)
    modifies r
    ensures r.speedMode == old(r.speedMode) && r.position == old(r.position) && r.trace == old(r.trace)
  {
    r.Handle(A, Pressed);
    r.Handle(A, Pressed);
  }
}
