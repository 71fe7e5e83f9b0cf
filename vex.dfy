/** Vocabulary shared by the two VEX teleoperation programs: the commands the
    motor facade accepts, the controller's buttons and edges, and the two bits
    of Python semantics the programs lean on (`abs` and sequence indexing). */
module Vex {

  datatype Option<T> = None | Some(value: T)

  /** The direction argument of `spin` and the drive commands. */
  datatype Direction = Forward | Reverse

  /** One command issued through the motor facade; `M` names the robot's motors.
      Only the numeric magnitude of a power is kept, not its velocity unit. */
  datatype Cmd<M> =
    | SpinAt(motor: M, dir: Direction, power: real)
      // `spin_to_position(target, DEGREES, rpm, RPM, blocking)`
    | SpinToPosition(motor: M, target: real, rpm: int, blocking: bool)
      // `stop()`, which uses the motor's configured idle behaviour
    | StopMotor(motor: M)

  /** The controller's buttons that the programs bind handlers to. */
  datatype Button = A | B | X | Y | L1 | L2 | R1 | R2 | Up | Down | Left | Right

  datatype Edge = Pressed | Released

  function Abs(n: int): (m: nat)
    ensures m == n || m == -n
  {
    if n < 0 then -n else n
  }

  /** Python's `s[i]`: a negative index counts from the end, and an index
      outside `-len(s) .. len(s)-1` raises IndexError, here `None`. */
  function PyIndex<T>(s: seq<T>, i: int): (r: Option<T>)
    ensures r.Some? <==> -|s| <= i < |s|
    ensures r.Some? ==> r.value == s[i % |s|]
  {
    if 0 <= i < |s| then Some(s[i])
    else if -|s| <= i < 0 then Some(s[|s| + i])
    else None
  }
}
