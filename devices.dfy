/**
 * Commands the firmware sends to V5 smart motors addressed by port number.
 * Device writes are recorded as command sequences; device reads are inputs.
 */
module Devices {
  import opened Wrappers

  /** The motor brake modes named by the firmware (pros::motor_brake_mode_e). */
  datatype BrakeMode = Coast | Brake | Hold

  /** One call into the motor API. */
  datatype MotorCommand =
    | Move(port: int, power: int)               // motor_move(port, power)
    | SetBrakeMode(port: int, mode: BrakeMode)  // motor_set_brake_mode(port, mode)
    | BrakeMotor(port: int)                     // motor_brake(port)

  predicate IsMoveOn(c: MotorCommand, port: int) { c.Move? && c.port == port }

  predicate IsBrakeModeOn(c: MotorCommand, port: int) { c.SetBrakeMode? && c.port == port }

  /** No command after index j moves `port`. */
  predicate NoMoveAfter(cmds: seq<MotorCommand>, port: int, j: int) {
    forall k :: 0 <= k < |cmds| && j < k ==> !IsMoveOn(cmds[k], port)
  }

  /** No command after index j sets the brake mode of `port`. */
  predicate NoBrakeModeAfter(cmds: seq<MotorCommand>, port: int, j: int) {
    forall k :: 0 <= k < |cmds| && j < k ==> !IsBrakeModeOn(cmds[k], port)
  }

  /** The power a command sequence last asks of `port`, if it asks any. */
  function LastMove(cmds: seq<MotorCommand>, port: int): (p: Option<int>)
    ensures p.None? <==> NoMoveAfter(cmds, port, -1)
    ensures p.Some? ==> exists j :: 0 <= j < |cmds| && cmds[j] == Move(port, p.value) && NoMoveAfter(cmds, port, j)
  {
    if cmds == [] then None
    else
      var n := |cmds| - 1;
      if IsMoveOn(cmds[n], port) then
        assert NoMoveAfter(cmds, port, n);
        Some(cmds[n].power)
      else
        var init := cmds[..n];
        var p := LastMove(init, port);
        assert forall k :: 0 <= k < n ==> init[k] == cmds[k];
        assert p.None? ==> NoMoveAfter(cmds, port, -1) by {
          if p.None? { assert forall k :: -1 < k < n ==> !IsMoveOn(init[k], port); }
        }
        assert p.Some? ==> exists j :: 0 <= j < |cmds| && cmds[j] == Move(port, p.value) && NoMoveAfter(cmds, port, j) by {
          if p.Some? {
            var j :| 0 <= j < n && init[j] == Move(port, p.value) && NoMoveAfter(init, port, j);
            assert cmds[j] == init[j];
            assert NoMoveAfter(cmds, port, j);
          }
        }
        p
  }

  /** The brake mode a command sequence last sets on `port`, if it sets any. */
  function LastBrakeMode(cmds: seq<MotorCommand>, port: int): (m: Option<BrakeMode>)
    ensures m.None? <==> NoBrakeModeAfter(cmds, port, -1)
    ensures m.Some? ==> exists j :: 0 <= j < |cmds| && cmds[j] == SetBrakeMode(port, m.value) && NoBrakeModeAfter(cmds, port, j)
  {
    if cmds == [] then None
    else
      var n := |cmds| - 1;
      if IsBrakeModeOn(cmds[n], port) then
        assert NoBrakeModeAfter(cmds, port, n);
        Some(cmds[n].mode)
      else
        var init := cmds[..n];
        var m := LastBrakeMode(init, port);
        assert forall k :: 0 <= k < n ==> init[k] == cmds[k];
        assert m.None? ==> NoBrakeModeAfter(cmds, port, -1) by {
          if m.None? { assert forall k :: -1 < k < n ==> !IsBrakeModeOn(init[k], port); }
        }
        assert m.Some? ==> exists j :: 0 <= j < |cmds| && cmds[j] == SetBrakeMode(port, m.value) && NoBrakeModeAfter(cmds, port, j) by {
          if m.Some? {
            var j :| 0 <= j < n && init[j] == SetBrakeMode(port, m.value) && NoBrakeModeAfter(init, port, j);
            assert cmds[j] == init[j];
            assert NoBrakeModeAfter(cmds, port, j);
          }
        }
        m
  }

  /** No command in the sequence moves a motor. */
  predicate NoMoves(cmds: seq<MotorCommand>) {
    forall j :: 0 <= j < |cmds| ==> !cmds[j].Move?
  }
}
