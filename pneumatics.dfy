/**
 * The two pneumatic subsystems: the mobile-goal clamp and the doinker. Each keeps a flag
 * next to a one-bit piston output; `pistonWrites` records every value written to the
 * piston, oldest first.
 */
module Pneumatics {

  /** The value a digital output shows after the given writes; it starts low. */
  function PistonOutput(writes: seq<bool>): bool {
    if writes == [] then false else writes[|writes| - 1]
  }

  /** Mogo_Clamp: the clamp on the mobile goal, driven by mogoClampPiston. */
  class MogoClamp {
    var isClamped: bool
    var pistonWrites: seq<bool>

    /** The flag always shows what the piston was last told. */
    ghost predicate Valid()
      reads this
    {
      isClamped == PistonOutput(pistonWrites)
    }

    constructor ()
      ensures Valid()
      ensures !isClamped && pistonWrites == []
    {
      isClamped := false;
      pistonWrites := [];
    }

    /** Writes true to the piston and records the clamp as engaged. */
    method Clamp()
      requires Valid()
      modifies this
      ensures Valid() && isClamped
      ensures pistonWrites == old(pistonWrites) + [true]
    {
      pistonWrites := pistonWrites + [true];
      isClamped := true;
    }

    /** Writes false to the piston and records the clamp as released. */
    method Unclamp()
      requires Valid()
      modifies this
      ensures Valid() && !isClamped
      ensures pistonWrites == old(pistonWrites) + [false]
    {
      pistonWrites := pistonWrites + [false];
      isClamped := false;
    }

    /** Reports the flag; it changes nothing. */
    method GetIsClamped() returns (clamped: bool)
      requires Valid()
      ensures clamped == isClamped
      ensures clamped == PistonOutput(pistonWrites)
    {
      clamped := isClamped;
    }
  }

  /** Doinker: the arm lowered and raised by the doinker piston. */
  class Doinker {
    var isLowered: bool
    var pistonWrites: seq<bool>

    ghost predicate Valid()
      reads this
    {
      isLowered == PistonOutput(pistonWrites)
    }

    constructor ()
      ensures Valid()
      ensures !isLowered && pistonWrites == []
    {
      isLowered := false;
      pistonWrites := [];
    }

    /** Writes true to the piston and records the doinker as lowered. */
    method Lower()
      requires Valid()
      modifies this
      ensures Valid() && isLowered
      ensures pistonWrites == old(pistonWrites) + [true]
    {
      pistonWrites := pistonWrites + [true];
      isLowered := true;
    }

    /** Writes false to the piston and records the doinker as raised. */
    method Raise()
      requires Valid()
      modifies this
      ensures Valid() && !isLowered
      ensures pistonWrites == old(pistonWrites) + [false]
    {
      pistonWrites := pistonWrites + [false];
      isLowered := false;
    }
  }

  /** Repeating Clamp or Unclamp leaves flag and piston output as one call does. */
  method ClampScenario() {
    var c := new MogoClamp();
    var s := c.GetIsClamped();
    assert !s;
    c.Clamp();
    c.Clamp();
    assert c.isClamped && PistonOutput(c.pistonWrites);
    c.Unclamp();
    c.Unclamp();
    s := c.GetIsClamped();
    assert !s && !PistonOutput(c.pistonWrites);
  }

  /** The same for the doinker. */
  method DoinkerScenario() {
    var d := new Doinker();
    assert !d.isLowered;
    d.Lower();
    d.Lower();
    assert d.isLowered && PistonOutput(d.pistonWrites);
    d.Raise();
    assert !d.isLowered && !PistonOutput(d.pistonWrites);
  }
}
