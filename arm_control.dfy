/**
 * The arm position-hold controller: a PID loop over the arm rotation sensor that drives
 * the two arm motors as an antagonistic pair, and the start/stop rules for the single
 * background task that runs it.
 *
 * The rotation sensor's readings are an input sequence (one reading per loop iteration);
 * everything the controller writes to the motors and the sensor is recorded as a
 * sequence of ArmEvent values, in the order the firmware issues the calls.
 */
module ArmControl {
  import opened Wrappers
  import opened Devices
  import opened Numbers

  /** The tuning constants of the loop, given as parameters rather than compiled in. */
  datatype Tuning = Tuning(
    kP: real, kI: real, kD: real,
    tolerance: real,
    minPower: real, maxPower: real,
    resetThreshold: real,   // a reading below this is taken for a sensor wrap
    recoveryValue: real)    // the position written back to the sensor after a wrap
  {
    /** std::clamp needs its lower bound not to exceed its upper bound. */
    predicate Valid() { minPower <= maxPower }
  }

  /** The constants the firmware is built with. */
  const FirmwareTuning: Tuning :=
    Tuning(0.0, 0.0, 0.0, 200.0, -127.0, 127.0, 10000.0, 35800.0)

  datatype ArmMotor = Motor1 | Motor2

  /** One device call made by the arm code. */
  datatype ArmEvent =
    | SetBrake(motor: ArmMotor, mode: BrakeMode)
    | MoveMotor(motor: ArmMotor, power: real)
    | SetSensorPosition(value: real)

  /** std::clamp(x, lo, hi). */
  function Clamp(x: real, lo: real, hi: real): (r: real)
    requires lo <= hi
    ensures lo <= r <= hi
    ensures lo <= x <= hi ==> r == x
    ensures x < lo ==> r == lo
    ensures hi < x ==> r == hi
  {
    if x < lo then lo else if hi < x then hi else x
  }

  /** The unclamped PID output kP*e + kI*i + kD*d. */
  function PidOutput(cfg: Tuning, error: int, integral: int, derivative: int): real {
    cfg.kP * error as real + cfg.kI * integral as real + cfg.kD * derivative as real
  }

  /** What one pass through the body of the control loop computes. */
  datatype Iteration = Iteration(
    sensorWrite: Option<real>,  // the value written back to the rotation sensor, if any
    error: int,
    integral: int,
    derivative: int,
    power: real,                // the clamped power; motor 1 gets +power, motor 2 -power
    done: bool)                 // the loop breaks after this iteration

  /**
   * One iteration of the loop: the sensor returned `reading`, the previous iteration's
   * error was `lastError` and the running sum of errors so far is `integral`.
   */
  function Step(cfg: Tuning, target: int, reading: int, lastError: int, integral: int): (it: Iteration)
    requires cfg.Valid()
    // the discontinuity guard writes the recovery value exactly when the reading is low
    ensures it.sensorWrite.Some? <==> (reading as real) < cfg.resetThreshold
    ensures it.sensorWrite.Some? ==> it.sensorWrite.value == cfg.recoveryValue
    // the error comes from the reading taken before the write-back
    ensures it.error == target - reading
    // the integral accumulates the error; the derivative is the change from the last error
    ensures it.integral == integral + it.error
    ensures it.derivative == it.error - lastError
    // the power is the PID output saturated to [minPower, maxPower]
    ensures cfg.minPower <= it.power <= cfg.maxPower
    ensures it.power == Clamp(PidOutput(cfg, it.error, it.integral, it.derivative), cfg.minPower, cfg.maxPower)
    ensures it.done <==> (Abs(target - reading) as real) <= cfg.tolerance
  {
    var write := if (reading as real) < cfg.resetThreshold then Some(cfg.recoveryValue) else None;
    var error := target - reading;
    var sum := integral + error;
    var derivative := error - lastError;
    var power := Clamp(PidOutput(cfg, error, sum, derivative), cfg.minPower, cfg.maxPower);
    Iteration(write, error, sum, derivative, power, Abs(error) as real <= cfg.tolerance)
  }

  /**
   * Saturation: a PID output above maxPower is commanded as exactly maxPower, one below
   * minPower as exactly minPower, and one in between unchanged.
   */
  lemma StepSaturates(cfg: Tuning, target: int, reading: int, lastError: int, integral: int)
    requires cfg.Valid()
    ensures var error := target - reading;
      var out := PidOutput(cfg, error, integral + error, error - lastError);
      var power := Step(cfg, target, reading, lastError, integral).power;
      (cfg.maxPower < out ==> power == cfg.maxPower) &&
      (out < cfg.minPower ==> power == cfg.minPower) &&
      (cfg.minPower <= out <= cfg.maxPower ==> power == out)
  {
  }

  /**
   * The iterations the loop performs on the given readings, starting from `lastError` and
   * `integral`: it stops after the first iteration that is within tolerance, or when the
   * readings run out (the loop itself would go on).
   */
  function Iterations(cfg: Tuning, target: int, readings: seq<int>, lastError: int, integral: int): (its: seq<Iteration>)
    requires cfg.Valid()
    ensures |its| <= |readings|
    ensures readings != [] ==> its != []
    decreases |readings|
  {
    if readings == [] then []
    else
      var it := Step(cfg, target, readings[0], lastError, integral);
      if it.done then [it]
      else [it] + Iterations(cfg, target, readings[1..], it.error, it.integral)
  }

  /** The last iteration performed broke out of the loop. */
  predicate Converged(its: seq<Iteration>) {
    its != [] && its[|its| - 1].done
  }

  /** Both arm motors into hold mode: the first thing ArmPID and StopArm do. */
  function HoldBoth(): seq<ArmEvent> {
    [SetBrake(Motor1, Hold), SetBrake(Motor2, Hold)]
  }

  /** Both arm motors to zero power. */
  function ZeroBoth(): seq<ArmEvent> {
    [MoveMotor(Motor1, 0.0), MoveMotor(Motor2, 0.0)]
  }

  /** The device calls of one iteration: the optional sensor write, then the motor pair. */
  function IterationEvents(it: Iteration): seq<ArmEvent> {
    (if it.sensorWrite.Some? then [SetSensorPosition(it.sensorWrite.value)] else [])
      + [MoveMotor(Motor1, it.power), MoveMotor(Motor2, -it.power)]
  }

  function Flatten(its: seq<Iteration>): seq<ArmEvent> {
    if its == [] then [] else IterationEvents(its[0]) + Flatten(its[1..])
  }

  /** Every device call of one run of ArmPID on the given readings. */
  function PidEvents(cfg: Tuning, target: int, readings: seq<int>): (es: seq<ArmEvent>)
    requires cfg.Valid()
    ensures |es| >= 2 && es[..2] == HoldBoth()
  {
    var its := Iterations(cfg, target, readings, 0, 0);
    HoldBoth() + Flatten(its) + (if Converged(its) then ZeroBoth() else [])
  }

  /**
   * Every command to motor 1 is followed at once by the negated command to motor 2, and
   * every command to motor 2 immediately follows the negated command to motor 1.
   */
  predicate Antagonistic(es: seq<ArmEvent>) {
    forall j :: 0 <= j < |es| ==> PairedAt(es, j)
  }

  /** The pairing condition of Antagonistic at index j. */
  predicate PairedAt(es: seq<ArmEvent>, j: int)
    requires 0 <= j < |es|
  {
    match es[j]
    case MoveMotor(Motor1, p) => j + 1 < |es| && es[j + 1] == MoveMotor(Motor2, -p)
    case MoveMotor(Motor2, p) => 0 < j && es[j - 1] == MoveMotor(Motor1, -p)
    case _ => true
  }

  /** Every motor command in the sequence lies in [lo, hi]. */
  predicate PowersWithin(es: seq<ArmEvent>, lo: real, hi: real) {
    forall j :: 0 <= j < |es| && es[j].MoveMotor? ==> lo <= es[j].power <= hi
  }

  /** The values written to the rotation sensor, in order. */
  function SensorWrites(es: seq<ArmEvent>): seq<real> {
    if es == [] then []
    else (if es[0].SetSensorPosition? then [es[0].value] else []) + SensorWrites(es[1..])
  }

  /** One recovery value for each reading below the threshold, in order. */
  function RecoveryWrites(cfg: Tuning, readings: seq<int>): seq<real> {
    if readings == [] then []
    else (if (readings[0] as real) < cfg.resetThreshold then [cfg.recoveryValue] else [])
           + RecoveryWrites(cfg, readings[1..])
  }

  /** The sum of the errors of a sequence of iterations. */
  function SumErrors(its: seq<Iteration>): int {
    if its == [] then 0 else its[0].error + SumErrors(its[1..])
  }

  // ---------------------------------------------------------------------------------
  // Direct motor commands

  /** StopArm: both motors to hold mode, then both to zero. */
  function StopArm(): (es: seq<ArmEvent>)
    ensures Antagonistic(es) && PowersWithin(es, 0.0, 0.0)
    ensures |es| == 4 && es[..2] == HoldBoth() && es[2] == MoveMotor(Motor1, 0.0)
  {
    HoldBoth() + ZeroBoth()
  }

  /** Raise: full power up, motor 1 forward and motor 2 reversed. */
  function Raise(): (es: seq<ArmEvent>)
    ensures Antagonistic(es) && PowersWithin(es, -127.0, 127.0)
    ensures |es| == 2 && es[0] == MoveMotor(Motor1, 127.0)
  {
    [MoveMotor(Motor1, 127.0), MoveMotor(Motor2, -127.0)]
  }

  /** Lower: full power down, the mirror image of Raise. */
  function Lower(): (es: seq<ArmEvent>)
    ensures Antagonistic(es) && PowersWithin(es, -127.0, 127.0)
    ensures |es| == 2 && es[0] == MoveMotor(Motor1, -127.0)
  {
    [MoveMotor(Motor1, -127.0), MoveMotor(Motor2, 127.0)]
  }

  // ---------------------------------------------------------------------------------
  // Lemmas about the loop

  lemma {:induction false} AntagonisticAppend(a: seq<ArmEvent>, b: seq<ArmEvent>)
    requires Antagonistic(a) && Antagonistic(b)
    ensures Antagonistic(a + b)
  {
    var es := a + b;
    forall j | 0 <= j < |es| ensures PairedAt(es, j) {
      if j < |a| {
        assert PairedAt(a, j);
        assert es[j] == a[j];
        if j + 1 < |a| { assert es[j + 1] == a[j + 1]; }
        if 0 < j { assert es[j - 1] == a[j - 1]; }
      } else {
        var i := j - |a|;
        assert PairedAt(b, i);
        assert es[j] == b[i];
        if i + 1 < |b| { assert es[j + 1] == b[i + 1]; }
        if 0 < i { assert es[j - 1] == b[i - 1]; }
      }
    }
  }

  lemma {:induction false} PowersWithinAppend(a: seq<ArmEvent>, b: seq<ArmEvent>, lo: real, hi: real)
    requires PowersWithin(a, lo, hi) && PowersWithin(b, lo, hi)
    ensures PowersWithin(a + b, lo, hi)
  {
    forall j | 0 <= j < |a + b| && (a + b)[j].MoveMotor?
      ensures lo <= (a + b)[j].power <= hi
    {
      if j < |a| { assert (a + b)[j] == a[j]; } else { assert (a + b)[j] == b[j - |a|]; }
    }
  }

  lemma {:induction false} SensorWritesAppend(a: seq<ArmEvent>, b: seq<ArmEvent>)
    ensures SensorWrites(a + b) == SensorWrites(a) + SensorWrites(b)
  {
    if a == [] {
      assert a + b == b;
    } else {
      var h := if a[0].SetSensorPosition? then [a[0].value] else [];
      assert (a + b)[0] == a[0];
      assert (a + b)[1..] == a[1..] + b;
      SensorWritesAppend(a[1..], b);
      calc {
        SensorWrites(a + b);
        h + SensorWrites(a[1..] + b);
        h + (SensorWrites(a[1..]) + SensorWrites(b));
        (h + SensorWrites(a[1..])) + SensorWrites(b);
      }
    }
  }

  /** The calls of one iteration are antagonistic; they stay in [lo, hi] when +-power do. */
  lemma IterationEventsShape(it: Iteration, lo: real, hi: real)
    ensures Antagonistic(IterationEvents(it))
    ensures lo <= it.power <= hi && lo <= -it.power <= hi ==> PowersWithin(IterationEvents(it), lo, hi)
  {
    var write := if it.sensorWrite.Some? then [SetSensorPosition(it.sensorWrite.value)] else [];
    var moves := [MoveMotor(Motor1, it.power), MoveMotor(Motor2, -it.power)];
    assert PairedAt(moves, 0) && PairedAt(moves, 1);
    assert Antagonistic(write) by {
      if write != [] { assert PairedAt(write, 0); }
    }
    AntagonisticAppend(write, moves);
    assert IterationEvents(it) == write + moves;
  }

  lemma {:induction false} FlattenAntagonistic(its: seq<Iteration>)
    ensures Antagonistic(Flatten(its))
  {
    if its != [] {
      FlattenAntagonistic(its[1..]);
      IterationEventsShape(its[0], 0.0, 0.0);
      AntagonisticAppend(IterationEvents(its[0]), Flatten(its[1..]));
    }
  }

  /** In every run of the loop, motor 2 always receives the negation of motor 1's command. */
  lemma PidEventsAntagonistic(cfg: Tuning, target: int, readings: seq<int>)
    requires cfg.Valid()
    ensures Antagonistic(PidEvents(cfg, target, readings))
  {
    var its := Iterations(cfg, target, readings, 0, 0);
    FlattenAntagonistic(its);
    AntagonisticAppend(HoldBoth(), Flatten(its));
    AntagonisticAppend(HoldBoth() + Flatten(its), if Converged(its) then ZeroBoth() else []);
  }

  /** The motor commands of a run stay in [lo, hi] when every iteration's +-power does. */
  lemma {:induction false} IterationsPowersWithin(cfg: Tuning, target: int, readings: seq<int>,
                                                  lastError: int, integral: int, lo: real, hi: real)
    requires cfg.Valid()
    requires forall r: int, e: int, i: int ::
      lo <= Step(cfg, target, r, e, i).power <= hi && lo <= -Step(cfg, target, r, e, i).power <= hi
    ensures PowersWithin(Flatten(Iterations(cfg, target, readings, lastError, integral)), lo, hi)
    decreases |readings|
  {
    if readings != [] {
      var it := Step(cfg, target, readings[0], lastError, integral);
      var its := Iterations(cfg, target, readings, lastError, integral);
      IterationEventsShape(it, lo, hi);
      if !it.done {
        IterationsPowersWithin(cfg, target, readings[1..], it.error, it.integral, lo, hi);
        assert its[1..] == Iterations(cfg, target, readings[1..], it.error, it.integral);
        PowersWithinAppend(IterationEvents(it), Flatten(its[1..]), lo, hi);
      }
    }
  }

  /** With symmetric bounds (as in the firmware) every power the loop commands lies within them. */
  lemma PidEventsPowerBounded(cfg: Tuning, target: int, readings: seq<int>)
    requires cfg.Valid() && cfg.minPower == -cfg.maxPower
    ensures PowersWithin(PidEvents(cfg, target, readings), cfg.minPower, cfg.maxPower)
  {
    var its := Iterations(cfg, target, readings, 0, 0);
    IterationsPowersWithin(cfg, target, readings, 0, 0, cfg.minPower, cfg.maxPower);
    PowersWithinAppend(HoldBoth(), Flatten(its), cfg.minPower, cfg.maxPower);
    PowersWithinAppend(HoldBoth() + Flatten(its), if Converged(its) then ZeroBoth() else [],
                       cfg.minPower, cfg.maxPower);
  }

  lemma ZeroTimes(x: real)
    ensures 0.0 * x == 0.0
  {
  }

  /** With the firmware's gains (all zero) the loop only ever commands zero power. */
  lemma FirmwareCommandsZeroPower(target: int, readings: seq<int>)
    ensures PowersWithin(PidEvents(FirmwareTuning, target, readings), 0.0, 0.0)
  {
    var cfg := FirmwareTuning;
    var its := Iterations(cfg, target, readings, 0, 0);
    forall r: int, e: int, i: int
      ensures Step(cfg, target, r, e, i).power == 0.0
    {
      var it := Step(cfg, target, r, e, i);
      ZeroTimes(it.error as real);
      ZeroTimes(it.integral as real);
      ZeroTimes(it.derivative as real);
      assert PidOutput(cfg, it.error, it.integral, it.derivative) == 0.0;
    }
    IterationsPowersWithin(cfg, target, readings, 0, 0, 0.0, 0.0);
    PowersWithinAppend(HoldBoth(), Flatten(its), 0.0, 0.0);
    PowersWithinAppend(HoldBoth() + Flatten(its), if Converged(its) then ZeroBoth() else [], 0.0, 0.0);
  }

  /**
   * The loop leaves on the first iteration within tolerance: no earlier iteration is, and
   * it only stops short of the readings by converging.
   */
  lemma {:induction false} IterationsStopAtFirstConvergence(cfg: Tuning, target: int, readings: seq<int>,
                                                            lastError: int, integral: int)
    requires cfg.Valid()
    ensures var its := Iterations(cfg, target, readings, lastError, integral);
      (forall k :: 0 <= k < |its| - 1 ==> !its[k].done) &&
      (|its| < |readings| ==> Converged(its)) &&
      (|its| == |readings| || Converged(its))
    decreases |readings|
  {
    if readings != [] {
      var it := Step(cfg, target, readings[0], lastError, integral);
      IterationsUnfold(cfg, target, readings, lastError, integral);
      if !it.done {
        var rest := Iterations(cfg, target, readings[1..], it.error, it.integral);
        IterationsStopAtFirstConvergence(cfg, target, readings[1..], it.error, it.integral);
        var its := [it] + rest;
        forall k | 0 <= k < |its| - 1 ensures !its[k].done {
          if k > 0 { assert its[k] == rest[k - 1]; }
        }
      }
    }
  }

  /** The exit test of the loop, on one reading. */
  predicate WithinTolerance(cfg: Tuning, target: int, reading: int) {
    (Abs(target - reading) as real) <= cfg.tolerance
  }

  /** A run converges exactly when one of its readings is within tolerance of the target. */
  lemma {:induction false} ConvergesIffReadingWithinTolerance(cfg: Tuning, target: int, readings: seq<int>,
                                                              lastError: int, integral: int)
    requires cfg.Valid()
    ensures Converged(Iterations(cfg, target, readings, lastError, integral))
      <==> exists k :: 0 <= k < |readings| && WithinTolerance(cfg, target, readings[k])
    decreases |readings|
  {
    if readings != [] {
      IterationsUnfold(cfg, target, readings, lastError, integral);
      var it := Step(cfg, target, readings[0], lastError, integral);
      if it.done {
        FlattenCons(it, []);
        assert WithinTolerance(cfg, target, readings[0]);
      } else {
        var tail := readings[1..];
        var rest := Iterations(cfg, target, tail, it.error, it.integral);
        ConvergesIffReadingWithinTolerance(cfg, target, tail, it.error, it.integral);
        FlattenCons(it, rest);
        assert !WithinTolerance(cfg, target, readings[0]);
        if exists k :: 0 <= k < |readings| && WithinTolerance(cfg, target, readings[k]) {
          var k :| 0 <= k < |readings| && WithinTolerance(cfg, target, readings[k]);
          assert k > 0 && tail[k - 1] == readings[k];
        }
        if exists k :: 0 <= k < |tail| && WithinTolerance(cfg, target, tail[k]) {
          var k :| 0 <= k < |tail| && WithinTolerance(cfg, target, tail[k]);
          assert readings[k + 1] == tail[k];
        }
      }
    }
  }

  /** Iteration k works on reading k: its error, write-back and exit test come from that reading. */
  lemma {:induction false} IterationsFollowReadings(cfg: Tuning, target: int, readings: seq<int>,
                                                    lastError: int, integral: int)
    requires cfg.Valid()
    ensures var its := Iterations(cfg, target, readings, lastError, integral);
      forall k :: 0 <= k < |its| ==>
        its[k].error == target - readings[k] &&
        (its[k].sensorWrite.Some? <==> (readings[k] as real) < cfg.resetThreshold) &&
        (its[k].done <==> (Abs(target - readings[k]) as real) <= cfg.tolerance)
    decreases |readings|
  {
    if readings != [] {
      var it := Step(cfg, target, readings[0], lastError, integral);
      if !it.done {
        IterationsFollowReadings(cfg, target, readings[1..], it.error, it.integral);
      }
    }
  }

  /**
   * Iteration k of a run is Step applied to reading k, with the error and integral the
   * previous iteration left (the starting values for k = 0); Step's contract then gives
   * every commanded power of a run as a clamped PID output.
   */
  lemma {:induction false} IterationsStepAt(cfg: Tuning, target: int, readings: seq<int>,
                                            lastError: int, integral: int, k: nat)
    requires cfg.Valid() && k < |Iterations(cfg, target, readings, lastError, integral)|
    ensures var its := Iterations(cfg, target, readings, lastError, integral);
      its[k] == Step(cfg, target, readings[k],
                     if k == 0 then lastError else its[k - 1].error,
                     if k == 0 then integral else its[k - 1].integral)
    decreases k
  {
    IterationsUnfold(cfg, target, readings, lastError, integral);
    if k > 0 {
      var it := Step(cfg, target, readings[0], lastError, integral);
      IterationsStepAt(cfg, target, readings[1..], it.error, it.integral, k - 1);
    }
  }

  /** After k+1 iterations the integral is the starting integral plus the sum of their errors. */
  lemma {:induction false} IntegralAt(cfg: Tuning, target: int, readings: seq<int>,
                                      lastError: int, integral: int, k: nat)
    requires cfg.Valid() && k < |Iterations(cfg, target, readings, lastError, integral)|
    ensures var its := Iterations(cfg, target, readings, lastError, integral);
      its[k].integral == integral + SumErrors(its[..k + 1])
    decreases k
  {
    var its := Iterations(cfg, target, readings, lastError, integral);
    var it := Step(cfg, target, readings[0], lastError, integral);
    IterationsUnfold(cfg, target, readings, lastError, integral);
    if k == 0 {
      assert its[..1] == [it];
      assert SumErrors([it]) == it.error + SumErrors([]);
    } else {
      var rest := Iterations(cfg, target, readings[1..], it.error, it.integral);
      assert its == [it] + rest;
      IntegralAt(cfg, target, readings[1..], it.error, it.integral, k - 1);
      var pre := its[..k + 1];
      assert pre[0] == it && pre[1..] == rest[..k];
    }
  }

  lemma IntegralIsSumOfErrors(cfg: Tuning, target: int, readings: seq<int>,
                              lastError: int, integral: int)
    requires cfg.Valid()
    ensures var its := Iterations(cfg, target, readings, lastError, integral);
      forall k :: 0 <= k < |its| ==> its[k].integral == integral + SumErrors(its[..k + 1])
  {
    var its := Iterations(cfg, target, readings, lastError, integral);
    forall k | 0 <= k < |its| ensures its[k].integral == integral + SumErrors(its[..k + 1]) {
      IntegralAt(cfg, target, readings, lastError, integral, k);
    }
  }

  /** The derivative is the error minus the previous iteration's error (lastError first). */
  lemma {:induction false} DerivativeIsErrorDifference(cfg: Tuning, target: int, readings: seq<int>,
                                                       lastError: int, integral: int)
    requires cfg.Valid()
    ensures var its := Iterations(cfg, target, readings, lastError, integral);
      (its != [] ==> its[0].derivative == its[0].error - lastError) &&
      forall k :: 0 < k < |its| ==> its[k].derivative == its[k].error - its[k - 1].error
    decreases |readings|
  {
    var its := Iterations(cfg, target, readings, lastError, integral);
    if readings != [] {
      var it := Step(cfg, target, readings[0], lastError, integral);
      if !it.done {
        var rest := Iterations(cfg, target, readings[1..], it.error, it.integral);
        DerivativeIsErrorDifference(cfg, target, readings[1..], it.error, it.integral);
        forall k | 0 < k < |its| ensures its[k].derivative == its[k].error - its[k - 1].error {
          assert its[k] == rest[k - 1];
          if k > 1 { assert its[k - 1] == rest[k - 2]; }
        }
      }
    }
  }

  /** The state ArmPID starts from: no previous error, an empty integral. */
  lemma PidStartsFromRest(cfg: Tuning, target: int, readings: seq<int>)
    requires cfg.Valid()
    ensures var its := Iterations(cfg, target, readings, 0, 0);
      (its != [] ==> its[0].derivative == its[0].error) &&
      forall k :: 0 <= k < |its| ==> its[k].integral == SumErrors(its[..k + 1])
  {
    DerivativeIsErrorDifference(cfg, target, readings, 0, 0);
    IntegralIsSumOfErrors(cfg, target, readings, 0, 0);
  }

  lemma PrefixTail(s: seq<int>, n: nat)
    requires 0 < n <= |s|
    ensures s[..n][0] == s[0] && s[..n][1..] == s[1..][..n - 1]
  {
  }

  /** Two calls neither of which writes the sensor write nothing to it. */
  lemma PairWritesNothing(x: ArmEvent, y: ArmEvent)
    requires !x.SetSensorPosition? && !y.SetSensorPosition?
    ensures SensorWrites([x, y]) == []
  {
    assert [x, y][1..] == [y];
    assert [y][1..] == [];
    assert SensorWrites([y]) == [] + SensorWrites([]) == [];
    assert SensorWrites([x, y]) == [] + SensorWrites([y]) == [];
  }

  /** The sensor writes of one iteration: its recovery write, if any. */
  lemma IterationSensorWrites(it: Iteration)
    ensures SensorWrites(IterationEvents(it))
      == (if it.sensorWrite.Some? then [it.sensorWrite.value] else [])
  {
    var moves := [MoveMotor(Motor1, it.power), MoveMotor(Motor2, -it.power)];
    PairWritesNothing(moves[0], moves[1]);
    var head := if it.sensorWrite.Some? then [SetSensorPosition(it.sensorWrite.value)] else [];
    SensorWritesAppend(head, moves);
    assert head != [] ==> head[1..] == [];
  }

  lemma {:induction false} IterationsSensorWrites(cfg: Tuning, target: int, readings: seq<int>,
                                                  lastError: int, integral: int)
    requires cfg.Valid()
    ensures var its := Iterations(cfg, target, readings, lastError, integral);
      SensorWrites(Flatten(its)) == RecoveryWrites(cfg, readings[..|its|])
    decreases |readings|
  {
    var its := Iterations(cfg, target, readings, lastError, integral);
    if readings != [] {
      IterationsUnfold(cfg, target, readings, lastError, integral);
      var it := Step(cfg, target, readings[0], lastError, integral);
      var rest := if it.done then [] else Iterations(cfg, target, readings[1..], it.error, it.integral);
      FlattenCons(it, rest);
      IterationSensorWrites(it);
      SensorWritesAppend(IterationEvents(it), Flatten(rest));
      assert |its| == 1 + |rest|;
      PrefixTail(readings, |its|);
      if !it.done {
        IterationsSensorWrites(cfg, target, readings[1..], it.error, it.integral);
      }
    }
  }

  /**
   * The loop writes the recovery value to the sensor once for each iteration whose reading
   * was below the threshold, and never otherwise.
   */
  lemma PidSensorWrites(cfg: Tuning, target: int, readings: seq<int>)
    requires cfg.Valid()
    ensures var its := Iterations(cfg, target, readings, 0, 0);
      SensorWrites(PidEvents(cfg, target, readings)) == RecoveryWrites(cfg, readings[..|its|])
  {
    var its := Iterations(cfg, target, readings, 0, 0);
    var tail := if Converged(its) then ZeroBoth() else [];
    IterationsSensorWrites(cfg, target, readings, 0, 0);
    SensorWritesAppend(HoldBoth(), Flatten(its));
    SensorWritesAppend(HoldBoth() + Flatten(its), tail);
    PairWritesNothing(HoldBoth()[0], HoldBoth()[1]);
    if tail != [] {
      PairWritesNothing(tail[0], tail[1]);
    }
    var w := RecoveryWrites(cfg, readings[..|its|]);
    assert [] + w + [] == w;
  }

  /** One unfolding of Iterations on a non-empty sequence of readings. */
  lemma IterationsUnfold(cfg: Tuning, target: int, readings: seq<int>, lastError: int, integral: int)
    requires cfg.Valid() && readings != []
    ensures var it := Step(cfg, target, readings[0], lastError, integral);
      Iterations(cfg, target, readings, lastError, integral)
      == [it] + (if it.done then [] else Iterations(cfg, target, readings[1..], it.error, it.integral))
  {
  }

  // Proof scaffolding for ArmPID's loop invariant. PidEvents stays the specification;
  // Remaining and WillConverge restate a run pass by pass, and RemainingMatchesRun and
  // WillConvergeMatchesRun show that they agree with it.

  /**
   * The device calls still to come when the loop is about to read `readings[0]` with the
   * given error history: the calls of this pass, then either the final zero commands (it
   * converged) or whatever the next pass leaves.
   */
  ghost function Remaining(cfg: Tuning, target: int, readings: seq<int>, lastError: int, integral: int): seq<ArmEvent>
    requires cfg.Valid()
    decreases |readings|
  {
    if readings == [] then []
    else
      var it := Step(cfg, target, readings[0], lastError, integral);
      IterationEvents(it) + (if it.done then ZeroBoth() else Remaining(cfg, target, readings[1..], it.error, it.integral))
  }

  /** Whether the loop, about to read `readings[0]`, converges before they run out. */
  ghost predicate WillConverge(cfg: Tuning, target: int, readings: seq<int>, lastError: int, integral: int)
    requires cfg.Valid()
    decreases |readings|
  {
    readings != [] &&
    var it := Step(cfg, target, readings[0], lastError, integral);
    it.done || WillConverge(cfg, target, readings[1..], it.error, it.integral)
  }

  lemma AppendAssoc(a: seq<ArmEvent>, b: seq<ArmEvent>, c: seq<ArmEvent>)
    ensures (a + b) + c == a + (b + c)
  {
  }

  /** The calls and the convergence of one iteration followed by more. */
  lemma FlattenCons(it: Iteration, tail: seq<Iteration>)
    ensures Flatten([it] + tail) == IterationEvents(it) + Flatten(tail)
    ensures Converged([it] + tail) == (if tail == [] then it.done else Converged(tail))
  {
    var its := [it] + tail;
    assert its[0] == it && its[1..] == tail;
    if tail != [] {
      assert its[|its| - 1] == tail[|tail| - 1];
    }
  }

  /** Converging pass by pass is the run as a whole ending on a converged iteration. */
  lemma {:induction false} WillConvergeMatchesRun(cfg: Tuning, target: int, readings: seq<int>,
                                                  lastError: int, integral: int)
    requires cfg.Valid()
    ensures WillConverge(cfg, target, readings, lastError, integral)
      == Converged(Iterations(cfg, target, readings, lastError, integral))
    decreases |readings|
  {
    if readings != [] {
      IterationsUnfold(cfg, target, readings, lastError, integral);
      var it := Step(cfg, target, readings[0], lastError, integral);
      if it.done {
        FlattenCons(it, []);
      } else {
        var rest := Iterations(cfg, target, readings[1..], it.error, it.integral);
        WillConvergeMatchesRun(cfg, target, readings[1..], it.error, it.integral);
        FlattenCons(it, rest);
      }
    }
  }

  /**
   * The pass-by-pass account agrees with the run as a whole: its calls are the calls of
   * every iteration plus the zero commands exactly when the run converges.
   */
  lemma {:induction false} RemainingMatchesRun(cfg: Tuning, target: int, readings: seq<int>,
                                               lastError: int, integral: int)
    requires cfg.Valid()
    ensures var its := Iterations(cfg, target, readings, lastError, integral);
      Remaining(cfg, target, readings, lastError, integral)
        == Flatten(its) + (if Converged(its) then ZeroBoth() else [])
    decreases |readings|
  {
    if readings != [] {
      IterationsUnfold(cfg, target, readings, lastError, integral);
      var it := Step(cfg, target, readings[0], lastError, integral);
      var ev := IterationEvents(it);
      if it.done {
        FlattenCons(it, []);
        assert ev + [] == ev;
      } else {
        var rest := Iterations(cfg, target, readings[1..], it.error, it.integral);
        RemainingMatchesRun(cfg, target, readings[1..], it.error, it.integral);
        FlattenCons(it, rest);
        var fin := if Converged(rest) then ZeroBoth() else [];
        AppendAssoc(ev, Flatten(rest), fin);
      }
    }
  }

  /** Every call of a run of ArmPID, pass by pass. */
  lemma PidEventsByPass(cfg: Tuning, target: int, readings: seq<int>)
    requires cfg.Valid()
    ensures PidEvents(cfg, target, readings) == HoldBoth() + Remaining(cfg, target, readings, 0, 0)
    ensures Converged(Iterations(cfg, target, readings, 0, 0)) == WillConverge(cfg, target, readings, 0, 0)
  {
    RemainingMatchesRun(cfg, target, readings, 0, 0);
    WillConvergeMatchesRun(cfg, target, readings, 0, 0);
    var its := Iterations(cfg, target, readings, 0, 0);
    var fin := if Converged(its) then ZeroBoth() else [];
    AppendAssoc(HoldBoth(), Flatten(its), fin);
  }

  /** One pass of ArmPID's loop on `readings[i]`, seen from the remaining readings. */
  lemma LoopAdvances(cfg: Tuning, target: int, readings: seq<int>, i: nat,
                     lastError: int, integral: int, prefix: seq<ArmEvent>)
    requires cfg.Valid() && i < |readings|
    ensures var it := Step(cfg, target, readings[i], lastError, integral);
      var fin := if it.done then ZeroBoth() else Remaining(cfg, target, readings[i + 1..], it.error, it.integral);
      prefix + Remaining(cfg, target, readings[i..], lastError, integral) == (prefix + IterationEvents(it)) + fin &&
      WillConverge(cfg, target, readings[i..], lastError, integral)
        == (it.done || WillConverge(cfg, target, readings[i + 1..], it.error, it.integral))
  {
    assert readings[i..][0] == readings[i] && readings[i..][1..] == readings[i + 1..];
    var it := Step(cfg, target, readings[i], lastError, integral);
    var fin := if it.done then ZeroBoth() else Remaining(cfg, target, readings[i + 1..], it.error, it.integral);
    AppendAssoc(prefix, IterationEvents(it), fin);
  }

  /** Example: target 1000, proportional gain 1, the sensor reporting 0. */
  lemma ConstantZeroReadingSaturates()
    ensures var cfg := Tuning(1.0, 0.0, 0.0, 5.0, -127.0, 127.0, 10000.0, 35800.0);
      var it := Step(cfg, 1000, 0, 0, 0);
      it.sensorWrite == Some(35800.0) && it.error == 1000 && it.power == 127.0 && !it.done
  {
  }

  // ---------------------------------------------------------------------------------
  // The task lifecycle

  /**
   * The static state of Arm_Control: whether the PID task pointer is set, and the target
   * the task reads. `launched` records the target of every task ever created.
   */
  class ArmController {
    var armTask: bool
    var armTargetPosition: int
    ghost var launched: seq<int>

    /** A live task is the last one created, and it holds the current target. */
    ghost predicate Valid()
      reads this
    {
      armTask ==> |launched| > 0 && launched[|launched| - 1] == armTargetPosition
    }

    constructor ()
      ensures Valid()
      ensures !armTask && armTargetPosition == 0 && launched == []
    {
      armTask := false;
      armTargetPosition := 0;
      launched := [];
    }

    /** Starts the hold task on `target`, unless one is already running. */
    method StartArmPID(target: int)
      requires Valid()
      modifies this
      ensures Valid() && armTask
      ensures old(armTask) ==> armTargetPosition == old(armTargetPosition) && launched == old(launched)
      ensures !old(armTask) ==> armTargetPosition == target && launched == old(launched) + [target]
    {
      if !armTask {
        armTargetPosition := target;
        armTask := true;
        launched := launched + [target];
      }
    }

    /** Removes the running hold task, if there is one. */
    method StopArmPID()
      requires Valid()
      modifies this
      ensures Valid() && !armTask
      ensures armTargetPosition == old(armTargetPosition) && launched == old(launched)
    {
      if armTask {
        armTask := false;
      }
    }

    /**
     * One pass through the body of the hold task's loop: the guard's write-back, the PID
     * terms, the clamp and the commands to the motor pair.
     */
    static method LoopBody(cfg: Tuning, target: int, currentPosition: int, lastError: int, integral: int)
      returns (calls: seq<ArmEvent>, error: int, newIntegral: int, done: bool)
      requires cfg.Valid()
      ensures var it := Step(cfg, target, currentPosition, lastError, integral);
        calls == IterationEvents(it) && error == it.error && newIntegral == it.integral && done == it.done
    {
      calls := [];
      if (currentPosition as real) < cfg.resetThreshold {
        calls := calls + [SetSensorPosition(cfg.recoveryValue)];
      }
      error := target - currentPosition;
      newIntegral := integral + error;
      var derivative := error - lastError;
      var motorPower := PidOutput(cfg, error, newIntegral, derivative);
      motorPower := Clamp(motorPower, cfg.minPower, cfg.maxPower);
      calls := calls + [MoveMotor(Motor1, motorPower), MoveMotor(Motor2, -motorPower)];
      done := Abs(error) as real <= cfg.tolerance;
    }

    /**
     * The body of the hold task, run on the sensor readings it would take: it returns the
     * device calls it makes and whether it left the loop by converging. It changes no field:
     * in particular the task pointer stays set after convergence. It runs only as the task
     * StartArmPID created, so it works on the target of the last task launched.
     */
    method ArmPID(cfg: Tuning, readings: seq<int>) returns (events: seq<ArmEvent>, converged: bool)
      requires cfg.Valid() && Valid() && armTask
      ensures events == PidEvents(cfg, armTargetPosition, readings)
      ensures events == PidEvents(cfg, launched[|launched| - 1], readings)
      ensures converged == Converged(Iterations(cfg, armTargetPosition, readings, 0, 0))
    {
      var target := armTargetPosition;
      PidEventsByPass(cfg, target, readings);
      ghost var spec := PidEvents(cfg, target, readings);
      ghost var conv := WillConverge(cfg, target, readings, 0, 0);
      events := [SetBrake(Motor1, Hold), SetBrake(Motor2, Hold)];
      assert readings[0..] == readings;
      var lastError, integral := 0, 0;
      converged := false;
      var i := 0;
      while i < |readings|
        invariant 0 <= i <= |readings| && !converged
        invariant spec == events + Remaining(cfg, target, readings[i..], lastError, integral)
        invariant conv == WillConverge(cfg, target, readings[i..], lastError, integral)
        decreases |readings| - i
      {
        LoopAdvances(cfg, target, readings, i, lastError, integral, events);
        var calls, error, stepDone;
        calls, error, integral, stepDone := LoopBody(cfg, target, readings[i], lastError, integral);
        events := events + calls;
        if stepDone {
          converged := true;
          break;
        }
        lastError := error;
        i := i + 1;
      }
      if converged {
        events := events + [MoveMotor(Motor1, 0.0), MoveMotor(Motor2, 0.0)];
      } else {
        assert readings[i..] == [];
        assert events + [] == events;
      }
    }
  }

  /** Start while running keeps the first target; Stop twice is harmless; Stop then Start re-arms. */
  method LifecycleScenario(a: int, b: int, c: int) {
    var arm := new ArmController();
    arm.StartArmPID(a);
    arm.StartArmPID(b);
    assert arm.armTask && arm.armTargetPosition == a && arm.launched == [a];
    arm.StopArmPID();
    arm.StopArmPID();
    assert !arm.armTask && arm.launched == [a];
    arm.StartArmPID(c);
    assert arm.armTargetPosition == c && arm.launched == [a, c];
  }

  /**
   * Convergence does not clear the task pointer: after the hold loop has converged, a new
   * Start is still ignored until Stop is called.
   */
  method ConvergedTaskBlocksStart(a: int, b: int, readings: seq<int>) {
    var arm := new ArmController();
    arm.StartArmPID(a);
    var events, converged := arm.ArmPID(FirmwareTuning, readings);
    arm.StartArmPID(b);
    assert arm.armTask && arm.armTargetPosition == a && arm.launched == [a];
    arm.StopArmPID();
    arm.StartArmPID(b);
    assert arm.armTargetPosition == b && arm.launched == [a, b];
  }
}
