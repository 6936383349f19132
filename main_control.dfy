/**
 * The competition entry points: the autonomous dispatch on the selected routine, and one
 * pass of each driver-control rule of the opcontrol loop, as functions from controller
 * state to the commands issued in that pass.
 */
module MainControl {
  import opened Wrappers
  import opened Devices
  import IntakeControl
  import Pneumatics
  import BrainScreen

  /** The autonomous routines of Autonomous_Manager. */
  datatype Routine = BlueMatchLeft | BlueMatchRight | RedMatchLeft | RedMatchRight | Skills

  /**
   * The selector value that picks each routine: the free number of the matching button on
   * the brain screen, and 4 for the skills default.
   */
  function SelectorValue(r: Routine): (n: int)
    ensures 0 <= n <= 4
  {
    match r
    case BlueMatchLeft => 0
    case BlueMatchRight => 1
    case RedMatchLeft => 2
    case RedMatchRight => 3
    case Skills => 4
  }

  /** autonomous(): the routine run for a selector value; none when no case matches. */
  function Autonomous(selectedAuton: int): (r: Option<Routine>)
    ensures r.Some? <==> 0 <= selectedAuton <= 4
    ensures r.Some? ==> SelectorValue(r.value) == selectedAuton
  {
    match selectedAuton
    case 0 => Some(BlueMatchLeft)
    case 1 => Some(BlueMatchRight)
    case 2 => Some(RedMatchLeft)
    case 3 => Some(RedMatchRight)
    case 4 => Some(Skills)
    case _ => None
  }

  /** Every routine is run for exactly its own selector value. */
  lemma AutonomousRoundTrip(r: Routine, selectedAuton: int)
    ensures Autonomous(SelectorValue(r)) == Some(r)
    ensures Autonomous(selectedAuton) == Some(r) <==> selectedAuton == SelectorValue(r)
  {
    match r
    case BlueMatchLeft =>
    case BlueMatchRight =>
    case RedMatchLeft =>
    case RedMatchRight =>
    case Skills =>
  }

  /** Whatever value the brain screen holds, autonomous runs a routine for it. */
  lemma EverySelectionDispatched(ui: BrainScreen.BrainUI)
    requires ui.Valid()
    ensures Autonomous(ui.selectedAuton).Some?
  {
  }

  /** The tank command handed to the chassis. */
  datatype TankCommand = TankCommand(left: int, right: int)

  /**
   * DrivetrainDriverControl: the LEFT_Y stick is read into `rightY` and the RIGHT_Y stick
   * into `leftY`, so the left side is driven by the negated right stick and the right side
   * by the left stick.
   */
  function DrivetrainDriverControl(leftStickY: int, rightStickY: int): (cmd: TankCommand)
    ensures cmd.left == -rightStickY
    ensures cmd.right == leftStickY
  {
    var rightY := leftStickY;
    var leftY := rightStickY;
    TankCommand(-leftY, rightY)
  }

  /** Both sticks at the same position drive the two sides in opposite directions. */
  lemma EqualSticksTurnInPlace(y: int)
    ensures DrivetrainDriverControl(y, y).left == -DrivetrainDriverControl(y, y).right
  {
  }

  /** The port LiftDriverControl moves. */
  const LIFT_PORT: int := 12
  /** The port IntakeDriverControl moves. */
  const INTAKE_DRIVER_PORT: int := 13

  /** LiftDriverControl: L2 raises, otherwise L1 lowers, otherwise stop. */
  function LiftDriverControl(l1: bool, l2: bool): (cmds: seq<MotorCommand>)
    ensures |cmds| == 1 && cmds[0].Move? && cmds[0].port == LIFT_PORT
    ensures l2 ==> LastMove(cmds, LIFT_PORT) == Some(127)
    ensures !l2 && l1 ==> LastMove(cmds, LIFT_PORT) == Some(-127)
    ensures !l2 && !l1 ==> LastMove(cmds, LIFT_PORT) == Some(0)
  {
    if l2 then [Move(LIFT_PORT, 127)]
    else if l1 then [Move(LIFT_PORT, -127)]
    else [Move(LIFT_PORT, 0)]
  }

  /** L2 overrides L1. */
  lemma LiftL2Wins(l1: bool)
    ensures LiftDriverControl(l1, true) == LiftDriverControl(!l1, true)
  {
  }

  /**
   * IntakeDriverControl: R1 intakes on port 13; otherwise R2 calls Outtake(100) and then
   * reverses port 13; otherwise port 12 is put into hold mode and port 13 is braked.
   */
  function IntakeDriverControl(r1: bool, r2: bool): (cmds: seq<MotorCommand>)
    ensures r1 ==> cmds == [Move(INTAKE_DRIVER_PORT, 127)]
    ensures !r1 && r2 ==> |cmds| == 2 && cmds[0] == IntakeControl.Outtake(100)
                          && LastMove(cmds, INTAKE_DRIVER_PORT) == Some(-127)
                          && LastMove(cmds, IntakeControl.INTAKE_MOVE_PORT) == Some(0)
    ensures !r1 && !r2 ==> NoMoves(cmds) && BrakeMotor(INTAKE_DRIVER_PORT) in cmds
                           && LastBrakeMode(cmds, LIFT_PORT) == Some(Hold)
                           && |cmds| == 2 && cmds[1] == BrakeMotor(INTAKE_DRIVER_PORT)
  {
    if r1 then [Move(INTAKE_DRIVER_PORT, 127)]
    else if r2 then [IntakeControl.Outtake(100), Move(INTAKE_DRIVER_PORT, -127)]
    else [SetBrakeMode(LIFT_PORT, Hold), BrakeMotor(INTAKE_DRIVER_PORT)]
  }

  /** R1 overrides R2. */
  lemma IntakeR1Wins(r2: bool)
    ensures IntakeDriverControl(true, r2) == IntakeDriverControl(true, !r2)
  {
  }

  /**
   * MogoClampDriverControl: Y clamps, then RIGHT unclamps, in that order; with both
   * pressed the clamp ends released, with neither it is left alone.
   */
  method MogoClampDriverControl(clamp: Pneumatics.MogoClamp, y: bool, right: bool)
    requires clamp.Valid()
    modifies clamp
    ensures clamp.Valid()
    ensures clamp.isClamped == if right then false else if y then true else old(clamp.isClamped)
    ensures clamp.pistonWrites
            == old(clamp.pistonWrites) + (if y then [true] else []) + (if right then [false] else [])
  {
    if y {
      clamp.Clamp();
    }
    if right {
      clamp.Unclamp();
    }
  }
}
