/**
 * The intake commands. Intake and Outtake compute a power with C++ integer arithmetic and
 * send it to motor port 6 through the C motor API; StopIntake also sets the brake mode of
 * the configured intake motor object.
 */
module IntakeControl {
  import opened Wrappers
  import opened Devices
  import opened Numbers

  /** A C++ `int`. */
  newtype int32 = x: int | -0x8000_0000 <= x < 0x8000_0000

  /** The port Intake, Outtake and StopIntake pass to motor_move. */
  const INTAKE_MOVE_PORT: int := 6

  /** The port of the intakeMotor object in the robot configuration. */
  const INTAKE_MOTOR_PORT: int := 18

  /** C++ `a / b` on ints. */
  function CDiv(a: int, b: int): int
    requires b != 0
  {
    var m := Abs(a) / Abs(b);
    if (a < 0) == (b < 0) then m else -m
  }

  /**
   * CDiv is division truncated toward zero: the remainder a - q*b is smaller than b in
   * magnitude and, unless zero, has the sign of a, as C++ (since C++11) defines integer division.
   */
  lemma CDivTruncates(a: int, b: int)
    requires b != 0
    ensures var r := a - CDiv(a, b) * b;
      Abs(r) < Abs(b) && (r == 0 || (r < 0) == (a < 0))
  {
  }

  /** The power `(1 / velocityPercent) * 127` that Intake sends. */
  function Intake(velocityPercent: int32): (cmd: MotorCommand)
    requires velocityPercent != 0
    ensures cmd.Move? && cmd.port == INTAKE_MOVE_PORT
    ensures velocityPercent == 1 ==> cmd.power == 127
    ensures velocityPercent == -1 ==> cmd.power == -127
    ensures (velocityPercent < -1 || 1 < velocityPercent) ==> cmd.power == 0
  {
    Move(INTAKE_MOVE_PORT, CDiv(1, velocityPercent as int) * 127)
  }

  /** The power `(1 / velocityPercent) * -127` that Outtake sends. */
  function Outtake(velocityPercent: int32): (cmd: MotorCommand)
    requires velocityPercent != 0
    ensures cmd.Move? && cmd.port == INTAKE_MOVE_PORT
    ensures cmd.power == -Intake(velocityPercent).power
  {
    Move(INTAKE_MOVE_PORT, CDiv(1, velocityPercent as int) * -127)
  }

  /** Coast mode on the intake motor, then zero power on port 6. */
  function StopIntake(): (cmds: seq<MotorCommand>)
    ensures LastBrakeMode(cmds, INTAKE_MOTOR_PORT) == Some(Coast)
    ensures LastMove(cmds, INTAKE_MOVE_PORT) == Some(0)
    ensures |cmds| == 2 && cmds[0] == SetBrakeMode(INTAKE_MOTOR_PORT, Coast)
  {
    [SetBrakeMode(INTAKE_MOTOR_PORT, Coast), Move(INTAKE_MOVE_PORT, 0)]
  }

  /** The intake counts as running exactly when it turns forward. */
  function GetIntakingStatus(actualVelocity: real): (intaking: bool)
    ensures intaking <==> actualVelocity > 0.0
  {
    actualVelocity > 0.0
  }

  /** Every velocity other than +1 and -1 gives zero power, for intake and outtake alike. */
  lemma OnlyUnitVelocitiesMove(v: int32)
    requires v != 0
    ensures Intake(v).power != 0 <==> (v == 1 || v == -1)
    ensures Outtake(v).power != 0 <==> (v == 1 || v == -1)
  {
  }

  /** The calls that the firmware makes: Intake(127) and Outtake(100) both command zero. */
  lemma CallSitesCommandZero()
    ensures Intake(127) == Move(INTAKE_MOVE_PORT, 0)
    ensures Outtake(100) == Move(INTAKE_MOVE_PORT, 0)
  {
  }
}
