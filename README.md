# 6741R High Stakes robot firmware — a Dafny model

This project models the decision logic of a VEX V5 competition robot's firmware (team 6741R,
season "High Stakes"). The firmware is written in C++ on PROS. The model covers:

- **Arm position-hold controller** (`arm_control.dfy`, module `ArmControl`).
  - A PID loop reads the arm rotation sensor.
  - When a reading falls below 10000, it writes the recovery value 35800 back to the sensor.
  - It drives the two arm motors as an antagonistic pair: motor 1 gets `+power`, motor 2 `-power`.
  - It leaves the loop on the first iteration whose error is within tolerance, and then
    commands both motors to zero.
  - The static task pointer and target implement "at most one hold task": Start is a
    no-op while a task is set, Stop clears the task and is safe when idle.
  - `ArmController.ArmPID` is the loop itself, as a `while` loop. It is proved equal to the
    specification function `PidEvents`, and the lemmas prove the controller's properties
    about that function.
- **Pneumatics** (`pneumatics.dfy`): the mobile-goal clamp and the doinker. Each is a flag
  kept beside a one-bit piston output. Every piston write is recorded, and the flag always
  equals the last value written.
- **Intake commands** (`intake_control.dfy`). `Intake(v)` and `Outtake(v)` send
  `(1 / v) * ±127` to port 6, using C++ integer division, which truncates toward zero.
  `StopIntake` and `GetIntakingStatus` are also modelled.
- **Autonomous selector** (`brain_ui.dfy`, module `BrainScreen`): the button callback that
  stores the selected routine, and the skills default of 4.
- **Competition entry points** (`main_control.dfy`): the `autonomous` dispatch switch, and one
  pass of each driver-control rule (drivetrain, mogo clamp, lift, intake).
- **Shared types**: `devices.dfy` defines the motor commands sent by port number, with
  "last command to a port" queries. `wrappers.dfy` defines `Option`, and `numbers.dfy`
  defines `Abs`.

Device reads (sensor positions, stick values, button states, motor velocity) are inputs.
Device writes are returned or recorded as sequences of commands, in call order.
The arm loop takes its sensor readings as a finite sequence, one reading per pass.

The tuning constants are a `Tuning` parameter. `FirmwareTuning` holds the values the
firmware is built with: kP = kI = kD = 0, tolerance 200, power bounds ±127, threshold
10000, recovery value 35800.

Positions, targets and errors are `int`, because `GetPosition` returns `int` and the
target is an `int`. Powers are `real`.

The model follows the code in three details that are easy to get wrong:
- The code computes the error from the reading taken *before* the sensor write-back, not
  from the corrected value.
- This revision does break out of the loop on convergence.
- `StartArmPID` takes an `int` target.

## Model

| member | source | states |
|---|---|---|
| ArmControl.Clamp | src/Arm_Control.cpp:60 | std::clamp: the result lies in [lo, hi]; it is x inside the range, lo below it and hi above it |
| ArmControl.Step | src/Arm_Control.cpp:48-67 | one pass: the recovery value is written back exactly when the reading is below the threshold; the error is target minus the pre-write reading; the integral adds the error and the derivative is the error minus lastError; the power is kP·error + kI·integral + kD·derivative clamped to [minPower, maxPower]; the pass ends the loop exactly when abs(error) is within tolerance |
| ArmControl.StepSaturates | src/Arm_Control.cpp:59-60 | an output above maxPower is commanded as exactly maxPower, one below minPower as exactly minPower, and one in range unchanged |
| ArmControl.Iterations | src/Arm_Control.cpp:47-71 | the loop makes at most one pass per reading, and at least one pass when there is a reading |
| ArmControl.StopArm | src/Arm_Control.cpp:18-23 | exactly four calls: both arm motors into hold mode first, then motor 1 commanded zero and motor 2 zero |
| ArmControl.Raise | src/Arm_Control.cpp:25-28 | exactly two calls: motor 1 gets +127 first, then motor 2 the negation |
| ArmControl.Lower | src/Arm_Control.cpp:30-33 | exactly two calls: motor 1 gets -127 first, then motor 2 the negation |
| ArmControl.PidEvents | src/Arm_Control.cpp:39-76 | the specification of one run of the hold task: it begins with both arm motors put into hold mode (lines 40-41); its other properties are the lemmas below |
| ArmControl.IterationEventsShape | src/Arm_Control.cpp:62-63 | the calls of one pass pair each motor-1 command with the negated motor-2 command, and stay within [lo, hi] when ±power do |
| ArmControl.PidEventsAntagonistic | src/Arm_Control.cpp:62-63 | in every run, each command to motor 1 is immediately followed by the negated command to motor 2, and each command to motor 2 immediately follows one |
| ArmControl.IterationsPowersWithin | src/Arm_Control.cpp:59-63 | if every pass's ±power lies in [lo, hi], every motor command of the run does |
| ArmControl.PidEventsPowerBounded | src/Arm_Control.cpp:15-16 | with symmetric bounds, every motor command of a run lies in [minPower, maxPower] |
| ArmControl.FirmwareCommandsZeroPower | src/Arm_Control.cpp:11-13 | with the firmware's gains (all zero), every motor command of every run is zero |
| ArmControl.IterationsStopAtFirstConvergence | src/Arm_Control.cpp:65-67 | no pass before the last is within tolerance; the run stops short of the readings only by converging |
| ArmControl.ConvergesIffReadingWithinTolerance | src/Arm_Control.cpp:65-67 | a run converges if and only if some reading lies within tolerance of the target |
| ArmControl.IterationsFollowReadings | src/Arm_Control.cpp:48-55 | pass k works on reading k: its error, write-back decision and exit decision all come from that reading |
| ArmControl.IterationsStepAt | src/Arm_Control.cpp:48-69 | pass k of a run is one loop pass on reading k with the error and integral the previous pass left (the starting values on the first pass), so every commanded power is the clamped PID output of that pass |
| ArmControl.IntegralAt | src/Arm_Control.cpp:56 | after pass k the integral is the starting integral plus the sum of the errors of passes 0..k |
| ArmControl.IntegralIsSumOfErrors | src/Arm_Control.cpp:43-56 | the same for every pass of a run |
| ArmControl.DerivativeIsErrorDifference | src/Arm_Control.cpp:57-69 | each derivative is the pass's error minus the previous pass's error, and minus the starting lastError on the first pass |
| ArmControl.PidStartsFromRest | src/Arm_Control.cpp:43-44 | starting from zero: the first derivative equals the first error, and every integral is the sum of the errors so far |
| ArmControl.IterationSensorWrites | src/Arm_Control.cpp:51-53 | one pass writes the sensor at most once, with its recovery value |
| ArmControl.IterationsSensorWrites | src/Arm_Control.cpp:51-53 | a run's sensor writes are one recovery value per reading below the threshold, in order, over the readings it consumed |
| ArmControl.PidSensorWrites | src/Arm_Control.cpp:39-76 | counting the brake-mode and final zero calls, the sensor is written exactly once per low reading consumed and never otherwise |
| ArmControl.WillConvergeMatchesRun | src/Arm_Control.cpp:47-71 | converging pass by pass is the same as the whole run ending on a converged pass |
| ArmControl.RemainingMatchesRun | src/Arm_Control.cpp:47-74 | the pass-by-pass account of the calls still to come equals the calls of all remaining passes plus the zero commands exactly when the run converges |
| ArmControl.PidEventsByPass | src/Arm_Control.cpp:39-76 | a run's calls are the hold-mode calls followed by the pass-by-pass account from the initial state |
| ArmControl.LoopAdvances | src/Arm_Control.cpp:47-71 | one pass emits its calls, then either the final zeros or what the next pass leaves; the run converges iff this pass does or a later one does |
| ArmControl.ConstantZeroReadingSaturates | src/Arm_Control.cpp:51-60 | target 1000, kP = 1, reading 0: the guard fires, the error is 1000, the power saturates at 127, and the loop goes on |
| ArmControl.ArmController.constructor | src/Arm_Control.cpp:7-8 | no task is set and the target is 0 |
| ArmControl.ArmController.StartArmPID | src/Arm_Control.cpp:79-84 | with no task set, the target is stored and one task is created; with a task set, neither target nor task changes and no task is created |
| ArmControl.ArmController.StopArmPID | src/Arm_Control.cpp:86-92 | afterwards no task is set; the target and the created tasks are unchanged, so Stop from idle changes nothing |
| ArmControl.ArmController.LoopBody | src/Arm_Control.cpp:48-65 | the body of the loop computes exactly the calls, error, integral and exit decision of Step |
| ArmControl.ArmController.ArmPID | src/Arm_Control.cpp:39-76 | run as the live task, the loop issues exactly the calls of PidEvents on its readings for the target of the last task launched, and reports convergence exactly when the run converged |
| Pneumatics.MogoClamp.constructor | src/Mogo_Clamp.cpp:8 | a new clamp is not clamped and nothing has been written to its piston |
| Pneumatics.MogoClamp.Clamp | src/Mogo_Clamp.cpp:11-14 | true is written to the piston and the clamp is engaged; the flag equals the last piston write |
| Pneumatics.MogoClamp.Unclamp | src/Mogo_Clamp.cpp:17-20 | false is written to the piston and the clamp is released; the flag equals the last piston write |
| Pneumatics.MogoClamp.GetIsClamped | src/Mogo_Clamp.cpp:23-25 | returns the flag, which is the last value written to the piston, and changes nothing |
| Pneumatics.Doinker.constructor | src/Doinker.cpp:13 | a new doinker is raised and nothing has been written to its piston |
| Pneumatics.Doinker.Lower | src/Doinker.cpp:22-25 | true is written to the piston and the doinker is lowered; the flag equals the last piston write |
| Pneumatics.Doinker.Raise | src/Doinker.cpp:34-37 | false is written to the piston and the doinker is raised; the flag equals the last piston write |
| IntakeControl.CDivTruncates | src/Intake_Control.cpp:12 | the integer division used is C++'s: the remainder is smaller than the divisor in magnitude and has the dividend's sign |
| IntakeControl.Intake | src/Intake_Control.cpp:10-13 | defined only for a nonzero velocity; moves port 6 with 127 for velocity 1, -127 for -1, and 0 for every other velocity |
| IntakeControl.Outtake | src/Intake_Control.cpp:16-19 | moves port 6 with exactly the negation of Intake's power for the same velocity |
| IntakeControl.OnlyUnitVelocitiesMove | src/Intake_Control.cpp:12-18 | Intake and Outtake command a nonzero power if and only if the velocity is 1 or -1 |
| IntakeControl.CallSitesCommandZero | src/Autonomous_Manager.cpp:26 | the calls the firmware makes, Intake(127) and Outtake(100), both command zero power |
| IntakeControl.StopIntake | src/Intake_Control.cpp:21-24 | exactly two calls: the intake motor (port 18) into coast mode first, then zero on port 6 |
| IntakeControl.GetIntakingStatus | src/Intake_Control.cpp:33-35 | true exactly when the measured velocity is strictly positive |
| BrainScreen.SelectionAfterClick | src/BrainUI.cpp:30-47 | button ids 0..3 select themselves; any other id leaves the selection unchanged |
| BrainScreen.ClickIdempotent | src/BrainUI.cpp:30-47 | clicking the same button twice leaves the selection of one click |
| BrainScreen.ClickKeepsRange | src/BrainUI.cpp:30-47 | from a selection in 0..4, every click keeps it in 0..4 |
| BrainScreen.BrainUI.constructor | src/BrainUI.cpp:7 | the static selection starts at 0 |
| BrainScreen.BrainUI.BtnClickAction | src/BrainUI.cpp:27-49 | the callback always returns LV_RES_OK, and the selection becomes SelectionAfterClick of the old selection |
| BrainScreen.BrainUI.DisplayAutonSelectorUI | src/BrainUI.cpp:51-54 | drawing the selector sets the selection to 4 (skills) |
| MainControl.SelectorValue | src/main.cpp:37-53 | each routine's selector value lies in 0..4 |
| MainControl.Autonomous | src/main.cpp:34-54 | a routine is run if and only if the selection is in 0..4, and it is the routine with that selector value |
| MainControl.AutonomousRoundTrip | src/main.cpp:37-53 | each routine runs for its own selector value and for no other value |
| MainControl.EverySelectionDispatched | src/main.cpp:37-53 | every value the brain screen can hold makes autonomous run a routine |
| MainControl.DrivetrainDriverControl | src/main.cpp:57-62 | the left side is driven by the negated RIGHT_Y stick and the right side by the LEFT_Y stick |
| MainControl.EqualSticksTurnInPlace | src/main.cpp:59-61 | with both sticks equal, the two sides are driven in opposite directions |
| MainControl.LiftDriverControl | src/main.cpp:79-93 | one move on port 12: 127 with L2 whatever L1 is, otherwise -127 with L1, otherwise 0 |
| MainControl.LiftL2Wins | src/main.cpp:83-88 | with L2 pressed, L1 makes no difference |
| MainControl.IntakeDriverControl | src/main.cpp:96-110 | R1: port 13 gets 127 whatever R2 is; R2 alone: exactly two calls, Outtake(100) (zero on port 6) first, then -127 on port 13; neither: exactly two calls, port 12 into hold mode first, then a brake on port 13, with no move at all |
| MainControl.IntakeR1Wins | src/main.cpp:99-104 | with R1 pressed, R2 makes no difference |
| MainControl.MogoClampDriverControl | src/main.cpp:65-76 | Y clamps, then RIGHT unclamps; with both pressed the clamp ends released, with neither it is unchanged; the piston writes are appended in that order |

## Left out

- Task scheduling: the `pros::Task` creation, `remove`/`delete`, `pros::delay`, and preemption
  by the scheduler are concurrency. The task pointer is a boolean field. The task's loop runs
  as the `ArmPID` method, on the readings it would take.
- ArmControl.ArmController.ArmPID: the firmware loop runs until it converges, or until
  StopArmPID's `remove()` ends the task (src/Arm_Control.cpp:88) at whatever point it has
  reached. The model runs it on a finite sequence of readings instead. When the readings run
  out before convergence, the model stops observing: it issues no final zero commands and
  reports not converged. A task removed while it waits in `pros::delay`
  (src/Arm_Control.cpp:70) is a run on a shorter sequence of readings. A removal inside a
  pass, for instance between the two motor commands of src/Arm_Control.cpp:62-63 or of
  lines 73-74, leaves a proper prefix of that pass's calls with motor 1 already moved and
  motor 2 still on its previous command; the model does not represent such a trace, and
  `PidEventsAntagonistic` does not cover it.
- Floating point: the doubles are exact `real`s and integer positions are `int`.
  Rounding, and the conversion of doubles to the `int` power that `move()` takes, are not
  modelled.
- `Arm_Control::GetPosition`: the rotation sensor read becomes the readings input.
  `robotDevices` (Robot_Config.cpp) is not part of this model beyond the port numbers it names.
- `Intake_Control::CheckPossession` has an empty body and does nothing to model.
- The LVGL label texts, styles, image and button widgets of BrainUI.cpp are UI. The model
  keeps only the free numbers 0..3 given to the four buttons.
- The lemlib `chassis.tank` call becomes the returned `TankCommand`. The infinite
  `opcontrol` loop, `master.print` and `delay` are scheduling and I/O; each driver-control
  rule is modelled for one pass.
- Lift_Control.cpp, Autonomous_Manager.cpp (whose routines are empty or one call),
  Robot.cpp and Ring_Stopper.cpp are not part of this model. Ring_Stopper.cpp does not
  compile as written.
- ArmControl.PidEventsPowerBounded: the bound on motor 2's `-power` needs the power bounds
  to be symmetric (`minPower == -maxPower`), as the firmware's ±127 are.
  ArmControl.IterationsPowersWithin states the general case.
- IntakeControl.Intake: models the arithmetic the code performs, including the
  truncation that makes every velocity other than ±1 give zero power. It does not model
  what the comments ("full speed") describe.

Observations the proofs bring out:
- With the firmware's gains all zero, the hold loop only ever commands zero power
  (ArmControl.FirmwareCommandsZeroPower).
- The task pointer is not cleared when the loop converges, so a later Start does nothing
  until Stop is called (ArmControl.ConvergedTaskBlocksStart, a client of ArmPID and
  StartArmPID).
- The firmware's only calls to Intake and Outtake (127 and 100) command zero
  (IntakeControl.CallSitesCommandZero).

Observations from reading the robot configuration (src/Robot_Config.cpp), which the model
does not state as lemmas, since only the port numbers the code passes are modelled:
- The intake motor object is on port 18 (line 28). Intake, Outtake and the zero move of
  StopIntake address port 6, which is the horizontal odometry encoder (line 46).
- LiftDriverControl moves port 12, and IntakeDriverControl puts port 12 into hold mode.
  Port 12 is the drivetrain's lowerRightMotor (line 35).
- IntakeDriverControl moves and brakes port 13, which is the drivetrain's frontRightMotor
  (line 34).
