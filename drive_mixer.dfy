/** What the two robots' drive mixers have in common: the command each drive
    wheel receives, and the decision tree that picks one of nine manoeuvres
    from the forward axis `y` and the turn axis `x`. The two robots differ only
    in the powers they compute (modules MediumEric and TinyEric). */
module DriveMixer {
  import opened Vex

  /** What one drive motor is told in a cycle: `spin(dir, power, PERCENT)`,
      or `stop()`, which uses the motor's idle behaviour instead of a
      zero-power spin. */
  datatype WheelCmd = Spin(dir: Direction, power: real) | Stop

  /** The pair of commands a drive cycle issues, left motor first. */
  datatype DriveCmd = DriveCmd(left: WheelCmd, right: WheelCmd)

  /** The nine outcomes of a cycle. "Right" and "left" name the side the
      turn axis is pushed to. */
  datatype Maneuver =
    | ForwardStraight | ForwardArcRight | ForwardArcLeft
    | BackwardStraight | BackwardArcRight | BackwardArcLeft
    | RotateRight | RotateLeft
    | Halt

  datatype Side = LeftWheel | RightWheel

  /** Axis magnitudes up to this are drift: they select no direction. */
  const Deadband := 5
  /** The turn axis must exceed this to rotate in place. */
  const RotateThreshold := 15

  /** The branch tree both programs share, in its priority order: forward,
      else backward, else rotate right, else rotate left, else stop; inside
      forward and backward, arc right, else arc left, else straight. Its
      contract describes each outcome by the region of axis values it covers,
      so that the regions visibly partition the plane. */
  function Classify(y: int, x: int): (m: Maneuver)
    ensures m == Halt <==> Abs(y) <= Deadband && Abs(x) <= RotateThreshold
    ensures m == RotateRight <==> Abs(y) <= Deadband && x > RotateThreshold
    ensures m == RotateLeft <==> Abs(y) <= Deadband && x < -RotateThreshold
    ensures m in {ForwardStraight, ForwardArcRight, ForwardArcLeft} <==> y > Deadband
    ensures m in {BackwardStraight, BackwardArcRight, BackwardArcLeft} <==> y < -Deadband
    ensures m in {ForwardStraight, BackwardStraight} <==> Abs(y) > Deadband && Abs(x) <= Deadband
    ensures m in {ForwardArcRight, BackwardArcRight} <==> Abs(y) > Deadband && x > Deadband
    ensures m in {ForwardArcLeft, BackwardArcLeft} <==> Abs(y) > Deadband && x < -Deadband
  {
    if y > Deadband then
      if x > Deadband then ForwardArcRight
      else if x < -Deadband then ForwardArcLeft
      else ForwardStraight
    else if y < -Deadband then
      if x > Deadband then BackwardArcRight
      else if x < -Deadband then BackwardArcLeft
      else BackwardStraight
    else if x > RotateThreshold then RotateRight
    else if x < -RotateThreshold then RotateLeft
    else Halt
  }

  /** Reads the manoeuvre back from the wheel commands alone: both stopped,
      both in one direction with the faster wheel on the outside of the turn,
      or opposite directions at equal power. Any other pair is no manoeuvre. */
  function Observed(c: DriveCmd): Option<Maneuver>
  {
    match (c.left, c.right)
    case (Stop, Stop) => Some(Halt)
    case (Spin(dl, pl), Spin(dr, pr)) =>
      if dl == Forward && dr == Forward then
        Some(if pl > pr then ForwardArcRight else if pl < pr then ForwardArcLeft else ForwardStraight)
      else if dl == Reverse && dr == Reverse then
        Some(if pl < pr then BackwardArcRight else if pl > pr then BackwardArcLeft else BackwardStraight)
      else if pl == pr then
        Some(if dl == Forward then RotateRight else RotateLeft)
      else None
    case _ => None
  }

  function Wheel(c: DriveCmd, s: Side): WheelCmd
  {
    if s == LeftWheel then c.left else c.right
  }

  function Opposite(s: Side): Side
  {
    if s == LeftWheel then RightWheel else LeftWheel
  }

  /** The wheel on the inside of an arc: the right one when driving forward
      with the stick to the right or backward with it to the left. */
  function InnerWheel(y: int, x: int): Side
  {
    if (y > 0) == (x > 0) then RightWheel else LeftWheel
  }

  /** The direction both wheels turn when the forward axis is outside the deadband. */
  function Heading(y: int): Direction
  {
    if y > 0 then Forward else Reverse
  }

  /** Every power a drive command asks for lies in `lo .. hi`. */
  predicate PowersWithin(c: DriveCmd, lo: real, hi: real)
  {
    (c.left.Spin? ==> lo <= c.left.power <= hi) &&
    (c.right.Spin? ==> lo <= c.right.power <= hi)
  }
}
