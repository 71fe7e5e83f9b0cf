/** Robot 1 ("medium Eric"): a drive base, a two-joint arm with a claw, and a
    snow scooper. The drive mixer uses the first tuning curve; a precision
    mode divides both axes down; two buttons move the arm to preset poses. */
module MediumEric {
  import opened Vex
  import opened DriveMixer

  datatype Motor = LeftDrive | RightDrive | Claw | ArmBase | ArmJoint | Tray | Snow

  // ---------------------------------------------------------------------------
  // Drive mixer, profile 1

  /** The turn axis remapped: `abs(x) / (4 if precise else 2)`. */
  function Steer(x: int, precise: bool): real
  {
    Abs(x) as real / (if precise then 4.0 else 2.0)
  }

  /** The forward axis remapped: `abs(y) / (3 if precise else 1)`, halved
      again when going backward outside precision mode. */
  function Speed(y: int, precise: bool): real
  {
    var s := Abs(y) as real / (if precise then 3.0 else 1.0);
    if y < 0 && !precise then s / 2.0 else s
  }

  /** One cycle of the robot-1 drive loop: the command for each drive motor. */
  function Mix(y: int, x: int, precise: bool): (r: DriveCmd)
    // the commands realise exactly the manoeuvre the shared tree selects
    ensures Observed(r) == Some(Classify(y, x))
    // inside the deadband both motors stop; a stop is never a zero-power spin
    ensures r == DriveCmd(Stop, Stop) <==> Abs(y) <= Deadband && Abs(x) <= RotateThreshold
    ensures !r.left.Stop? || !r.right.Stop? ==> r.left.Spin? && r.right.Spin?
    // straight: forward at |y| / (3 or 1), backward at |y| / (3 or 2)
    ensures y > Deadband && Abs(x) <= Deadband ==>
      r.left == r.right == Spin(Forward, Abs(y) as real / (if precise then 3.0 else 1.0))
    ensures y < -Deadband && Abs(x) <= Deadband ==>
      r.left == r.right == Spin(Reverse, Abs(y) as real / (if precise then 3.0 else 2.0))
    // arcs: the outer wheel keeps the full speed, the inner one loses the
    // steer, unclamped
    ensures Abs(y) > Deadband && Abs(x) > Deadband ==>
      Wheel(r, Opposite(InnerWheel(y, x))) == Spin(Heading(y), Speed(y, precise)) &&
      Wheel(r, InnerWheel(y, x)) == Spin(Heading(y), Speed(y, precise) - Steer(x, precise))
    // rotation in place: opposite directions at equal power |x| / (4 or 2),
    // the left wheel forward exactly when the stick is to the right
    ensures Abs(y) <= Deadband && Abs(x) > RotateThreshold ==>
      r.left.Spin? && r.right.Spin? && r.left.dir != r.right.dir &&
      r.left.power == r.right.power == Abs(x) as real / (if precise then 4.0 else 2.0) &&
      (r.left.dir == Forward <==> x > 0)
  {
    var steer := Steer(x, precise);
    var speed := Speed(y, precise);
    if y > 5 then
      if x > 5 then DriveCmd(Spin(Forward, speed), Spin(Forward, speed - steer))
      else if x < -5 then DriveCmd(Spin(Forward, speed - steer), Spin(Forward, speed))
      else DriveCmd(Spin(Forward, speed), Spin(Forward, speed))
    else if y < -5 then
      if x > 5 then DriveCmd(Spin(Reverse, speed - steer), Spin(Reverse, speed))
      else if x < -5 then DriveCmd(Spin(Reverse, speed), Spin(Reverse, speed - steer))
      else DriveCmd(Spin(Reverse, speed), Spin(Reverse, speed))
    else if x > 15 then DriveCmd(Spin(Forward, steer), Spin(Reverse, steer))
    else if x < -15 then DriveCmd(Spin(Reverse, steer), Spin(Forward, steer))
    else DriveCmd(Stop, Stop)
  }

  /** For axis samples in the controller's range every power asked for is a
      valid percentage; the inner wheel of an arc may be told a negative one. */
  lemma MixPowersBounded(y: int, x: int, precise: bool)
    requires -100 <= y <= 100 && -100 <= x <= 100
    ensures PowersWithin(Mix(y, x, precise), -50.0, 100.0)
  {
  }

  /** The inner wheel is not clamped: a slight push forward with the stick
      hard right asks the right motor for a negative power. */
  lemma InnerWheelGoesNegative()
    ensures Mix(6, 100, false) == DriveCmd(Spin(Forward, 6.0), Spin(Forward, -44.0))
  {
  }

  /** Worked cycles: full speed forward, halved backward, and rotation. */
  lemma MixExamples()
    ensures Mix(50, 0, false) == DriveCmd(Spin(Forward, 50.0), Spin(Forward, 50.0))
    ensures Mix(-50, 0, false) == DriveCmd(Spin(Reverse, 25.0), Spin(Reverse, 25.0))
    ensures Mix(0, 20, false) == DriveCmd(Spin(Forward, 10.0), Spin(Reverse, 10.0))
  {
  }

  // ---------------------------------------------------------------------------
  // Preset poses and button bindings

  /** (base angle, joint angle) in degrees: the top dowel, then the lower one. */
  const Presets: seq<(real, real)> := [(456.8, 435.2), (427.6, 295.2 + 50.0)]

  /** The rotational rate of a preset move, in RPM. */
  const PresetRpm := 60

  /** The handlers the buttons are bound to, with their bound arguments. */
  datatype Handler =
    | OnTogglePrecise
    | OnRecalibrate
    | OnMoveArmTo(index: int)
    | OnControlMotor(direction: int, motor: Motor, percent: int)

  /** The fixed table of button bindings registered at start-up. */
  function Binding(b: Button, e: Edge): (h: Option<Handler>)
    // release edges only ever jog, and a release always asks for power 0
    ensures e == Released && h.Some? ==> h.value.OnControlMotor? && h.value.direction == 0
    ensures e == Pressed && h.Some? && h.value.OnControlMotor? ==> h.value.direction in {1, -1}
    // jogs never touch the drive motors; the scooper jogs at 50, the rest at 60
    ensures h.Some? && h.value.OnControlMotor? ==>
      h.value.motor !in {LeftDrive, RightDrive} &&
      h.value.percent == (if h.value.motor == Snow then 50 else 60)
    // A toggles precision, B recalibrates, X and Y move to presets 0 and 1
    ensures (b, e) == (A, Pressed) ==> h == Some(OnTogglePrecise)
    ensures (b, e) == (B, Pressed) ==> h == Some(OnRecalibrate)
    ensures (b, e) == (X, Pressed) ==> h == Some(OnMoveArmTo(0))
    ensures (b, e) == (Y, Pressed) ==> h == Some(OnMoveArmTo(1))
    ensures e == Released && b in {A, B, X, Y} ==> h.None?
    // only preset indices 0 and 1 are bound, and both are in the table
    ensures h.Some? && h.value.OnMoveArmTo? ==> h.value.index in {0, 1} && h.value.index < |Presets|
  {
    match (b, e)
    case (A, Pressed) => Some(OnTogglePrecise)
    case (B, Pressed) => Some(OnRecalibrate)
    case (X, Pressed) => Some(OnMoveArmTo(0))
    case (Y, Pressed) => Some(OnMoveArmTo(1))
    case (L1, Pressed) => Some(OnControlMotor(1, ArmBase, 60))
    case (L1, Released) => Some(OnControlMotor(0, ArmBase, 60))
    case (L2, Pressed) => Some(OnControlMotor(-1, ArmBase, 60))
    case (L2, Released) => Some(OnControlMotor(0, ArmBase, 60))
    case (R1, Pressed) => Some(OnControlMotor(1, ArmJoint, 60))
    case (R1, Released) => Some(OnControlMotor(0, ArmJoint, 60))
    case (R2, Pressed) => Some(OnControlMotor(-1, ArmJoint, 60))
    case (R2, Released) => Some(OnControlMotor(0, ArmJoint, 60))
    case (Up, Pressed) => Some(OnControlMotor(1, Claw, 60))
    case (Up, Released) => Some(OnControlMotor(0, Claw, 60))
    case (Down, Pressed) => Some(OnControlMotor(-1, Claw, 60))
    case (Down, Released) => Some(OnControlMotor(0, Claw, 60))
    case (Left, Pressed) => Some(OnControlMotor(1, Snow, 50))
    case (Left, Released) => Some(OnControlMotor(0, Snow, 50))
    case (Right, Pressed) => Some(OnControlMotor(-1, Snow, 50))
    case (Right, Released) => Some(OnControlMotor(0, Snow, 50))
    case (_, Released) => None
  }

  /** Jog buttons come in pairs: a button that jogs a motor on press releases
      it with the same motor and percentage, and another button jogs the same
      motor the other way. */
  lemma {:induction false} JogBindingsPaired(b: Button)
    requires Binding(b, Pressed).Some? && Binding(b, Pressed).value.OnControlMotor?
    ensures var h := Binding(b, Pressed).value;
      Binding(b, Released) == Some(OnControlMotor(0, h.motor, h.percent)) &&
      exists b' :: Binding(b', Pressed) == Some(OnControlMotor(-h.direction, h.motor, h.percent))
  {
    match b
    case L1 => assert Binding(L2, Pressed) == Some(OnControlMotor(-1, ArmBase, 60));
    case L2 => assert Binding(L1, Pressed) == Some(OnControlMotor(1, ArmBase, 60));
    case R1 => assert Binding(R2, Pressed) == Some(OnControlMotor(-1, ArmJoint, 60));
    case R2 => assert Binding(R1, Pressed) == Some(OnControlMotor(1, ArmJoint, 60));
    case Up => assert Binding(Down, Pressed) == Some(OnControlMotor(-1, Claw, 60));
    case Down => assert Binding(Up, Pressed) == Some(OnControlMotor(1, Claw, 60));
    case Left => assert Binding(Right, Pressed) == Some(OnControlMotor(-1, Snow, 50));
    case Right => assert Binding(Left, Pressed) == Some(OnControlMotor(1, Snow, 50));
  }

  // ---------------------------------------------------------------------------
  // Robot state: the mode flag, the motors' position references and the
  // commands issued to the motors so far

  class Robot {
    var precise: bool
    var position: map<Motor, real>
    var trace: seq<Cmd<Motor>>

    /** Start of a session: precision off, positions as the motors report them. */
    constructor (initial: map<Motor, real>)
      ensures !precise && position == initial && trace == []
    {
      precise := false;
      position := initial;
      trace := [];
    }

    /** `toggle_precise`: flips precision mode and nothing else. */
    method TogglePrecise()
      modifies this
      ensures precise == !old(precise)
      ensures position == old(position) && trace == old(trace)
    {
      precise := if precise then false else true;
    }

    /** `recalibrate`: zeroes the arm base and arm joint position references;
        every other motor keeps its position and no command is issued. */
    method Recalibrate()
      modifies this
      ensures position == old(position)[ArmBase := 0.0][ArmJoint := 0.0]
      ensures precise == old(precise) && trace == old(trace)
    {
      position := position[ArmBase := 0.0];
      position := position[ArmJoint := 0.0];
    }

    /** `control_motor(direction, motor, percent)`: spins the motor forward at
        `direction * percent`, so a release (direction 0) asks for power 0
        rather than a stop. */
    method ControlMotor(direction: int, motor: Motor, percent: int)
      modifies this
      ensures trace == old(trace) + [SpinAt(motor, Forward, (direction * percent) as real)]
      ensures precise == old(precise) && position == old(position)
    {
      trace := trace + [SpinAt(motor, Forward, (direction * percent) as real)];
    }

    /** `move_arm_to(i)`: the base moves to the preset's first angle, blocking,
        then the joint to its second angle without blocking, both at 60 RPM.
        An index Python cannot resolve raises IndexError before any command
        is issued, reported here as `ok == false`. */
    method MoveArmTo(i: int) returns (ok: bool)
      modifies this
      ensures ok <==> -|Presets| <= i < |Presets|
      ensures ok ==> |trace| == |old(trace)| + 2 && trace[..|old(trace)|] == old(trace)
      ensures ok ==>
        var p := Presets[i % |Presets|];
        trace[|old(trace)|] == SpinToPosition(ArmBase, p.0, PresetRpm, true) &&
        trace[|old(trace)| + 1] == SpinToPosition(ArmJoint, p.1, PresetRpm, false)
      ensures i == 0 ==> trace == old(trace) + [SpinToPosition(ArmBase, 456.8, 60, true), SpinToPosition(ArmJoint, 435.2, 60, false)]
      ensures i == 1 ==> trace == old(trace) + [SpinToPosition(ArmBase, 427.6, 60, true), SpinToPosition(ArmJoint, 345.2, 60, false)]
      ensures !ok ==> trace == old(trace)
      ensures precise == old(precise) && position == old(position)
    {
      var preset := PyIndex(Presets, i);
      if preset.None? {
        return false;
      }
      trace := trace + [SpinToPosition(ArmBase, preset.value.0, PresetRpm, true)];
      trace := trace + [SpinToPosition(ArmJoint, preset.value.1, PresetRpm, false)];
      return true;
    }

    /** One cycle of `drive_task`: reads the precision flag and issues the
        mixer's command to the left, then the right drive motor. */
    method DriveCycle(y: int, x: int)
      modifies this
      ensures trace == old(trace) + [Issue(LeftDrive, Mix(y, x, precise).left), Issue(RightDrive, Mix(y, x, precise).right)]
      ensures precise == old(precise) && position == old(position)
    {
      var c := Mix(y, x, precise);
      trace := trace + [Issue(LeftDrive, c.left)];
      trace := trace + [Issue(RightDrive, c.right)];
    }

    /** Dispatches one button edge to the handler bound to it, if any. */
    method Handle(b: Button, e: Edge)
      modifies this
      ensures Binding(b, e).None? ==>
        precise == old(precise) && position == old(position) && trace == old(trace)
      ensures Binding(b, e) == Some(OnTogglePrecise) ==>
        precise == !old(precise) && position == old(position) && trace == old(trace)
      ensures Binding(b, e) == Some(OnRecalibrate) ==>
        precise == old(precise) && position == old(position)[ArmBase := 0.0][ArmJoint := 0.0] && trace == old(trace)
      ensures Binding(b, e).Some? && Binding(b, e).value.OnMoveArmTo? ==>
        var p := Presets[Binding(b, e).value.index];
        precise == old(precise) && position == old(position) &&
        trace == old(trace) + [SpinToPosition(ArmBase, p.0, PresetRpm, true), SpinToPosition(ArmJoint, p.1, PresetRpm, false)]
      ensures Binding(b, e).Some? && Binding(b, e).value.OnControlMotor? ==>
        var h := Binding(b, e).value;
        precise == old(precise) && position == old(position) &&
        trace == old(trace) + [SpinAt(h.motor, Forward, (h.direction * h.percent) as real)]
    {
      match Binding(b, e)
      case None =>
      case Some(OnTogglePrecise) => TogglePrecise();
      case Some(OnRecalibrate) => Recalibrate();
      case Some(OnMoveArmTo(i)) => var _ := MoveArmTo(i);
      case Some(OnControlMotor(d, m, p)) => ControlMotor(d, m, p);
    }
  }

  /** The motor-facade command a drive motor receives for a wheel command. */
  function Issue(m: Motor, w: WheelCmd): Cmd<Motor>
  {
    match w
    case Spin(dir, power) => SpinAt(m, dir, power)
    case Stop => StopMotor(m)
  }

  /** Pressing A twice restores precision mode without issuing any command. */
  method ToggleTwice(r: Robot)
    modifies r
    ensures r.precise == old(r.precise) && r.position == old(r.position) && r.trace == old(r.trace)
  {
    r.Handle(A, Pressed);
    r.Handle(A, Pressed);
  }
}
