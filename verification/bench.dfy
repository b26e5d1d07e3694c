/** The stand-alone motor test sketch: one phase counter shared by all three
    drivers, a rotation routine, and a test cycle that turns each axis one
    revolution each way and switches it off. */
module Bench {
  import opened Base
  import opened HalfStep
  import opened Motion

  /** Half-steps in one output-shaft revolution of a 28BYJ-48. */
  const StepsPerRevolution: nat := 4096

  /** The sketch's state: `currentStep` and the coil levels of each driver. */
  datatype BenchState = BenchState(current: Phase, cx: Coils, cy: Coils, cz: Coils)
  {
    function Coil(a: Axis): Coils
    {
      match a
      case X => cx
      case Y => cy
      case Z => cz
    }

    function WithCoil(a: Axis, c: Coils): (r: BenchState)
      ensures r.current == current && r.Coil(a) == c
      ensures forall b :: b != a ==> r.Coil(b) == Coil(b)
    {
      match a
      case X => this.(cx := c)
      case Y => this.(cy := c)
      case Z => this.(cz := c)
    }
  }

  /** Power-on: counter 0, every coil LOW. */
  const Start: BenchState := BenchState(0, Off, Off, Off)

  /** `setMotorStep(step, axis)`: write pattern `step` to the named driver;
      any other axis letter writes nothing. The counter is not touched. There
      is no reduction modulo 8 here: the index must already be a phase. */
  function SetMotorStep(b: BenchState, step: Phase, axis: char): (r: BenchState)
    ensures r.current == b.current
    ensures AxisOf(axis).Some? ==> r.Coil(AxisOf(axis).value) == Pattern(step)
    ensures forall a :: AxisOf(axis) != Some(a) ==> r.Coil(a) == b.Coil(a)
  {
    match AxisOf(axis)
    case None => b
    case Some(a) => b.WithCoil(a, Pattern(step))
  }

  /** `rotateMotor(steps, clockwise, axis)`: `steps` passes, each moving the
      shared counter one half-step and writing its pattern to `axis`. The
      counter moves even when the axis letter is unknown; a count of zero
      or less does nothing. */
  method RotateMotor(b: BenchState, steps: int, clockwise: bool, axis: char) returns (r: BenchState)
    ensures r.current == (b.current + Toward(clockwise, if steps > 0 then steps else 0)) % 8
    ensures steps > 0 && AxisOf(axis).Some? ==> r.Coil(AxisOf(axis).value) == Pattern(r.current)
    ensures forall a :: (steps <= 0 || AxisOf(axis) != Some(a)) ==> r.Coil(a) == b.Coil(a)
  {
    r := b;
    var i := 0;
    while i < steps
      invariant 0 <= i <= (if steps > 0 then steps else 0)
      invariant r.current == (b.current + Toward(clockwise, i)) % 8
      invariant i > 0 && AxisOf(axis).Some? ==> r.Coil(AxisOf(axis).value) == Pattern(r.current)
      invariant forall a :: (i == 0 || AxisOf(axis) != Some(a)) ==> r.Coil(a) == b.Coil(a)
    {
      var next := Advance(r.current, clockwise);
      ModShift(b.current, Toward(clockwise, i), Toward(clockwise, 1));
      r := SetMotorStep(r.(current := next), next, axis);
      i := i + 1;
    }
  }

  /** `stopMotor(axis)`: drive the named axis's coils LOW; any other letter
      does nothing. */
  function StopMotor(b: BenchState, axis: char): (r: BenchState)
    ensures r.current == b.current
    ensures AxisOf(axis).Some? ==> r.Coil(AxisOf(axis).value) == Off
    ensures forall a :: AxisOf(axis) != Some(a) ==> r.Coil(a) == b.Coil(a)
  {
    match AxisOf(axis)
    case None => b
    case Some(a) => b.WithCoil(a, Off)
  }

  /** `stopAllMotors()`: every coil LOW, the counter unchanged. */
  function StopAllMotors(b: BenchState): (r: BenchState)
    ensures r.current == b.current
    ensures forall a :: r.Coil(a) == Off
  {
    StopMotor(StopMotor(StopMotor(b, 'X'), 'Y'), 'Z')
  }

  /** A full revolution is 512 turns of the 8-entry table, so it returns the
      shared counter to where it started, in either direction. */
  lemma RevolutionKeepsPhase(p: Phase, clockwise: bool)
    ensures (p + Toward(clockwise, StepsPerRevolution)) % 8 == p
  {
  }

  /** One rotation of `axis` then a stop of the same axis. */
  method Exercise(b: BenchState, clockwise: bool, axis: char) returns (r: BenchState)
    requires AxisOf(axis).Some?
    ensures r.current == b.current
    ensures r.Coil(AxisOf(axis).value) == Off
    ensures forall a :: a != AxisOf(axis).value ==> r.Coil(a) == b.Coil(a)
  {
    RevolutionKeepsPhase(b.current, clockwise);
    r := RotateMotor(b, StepsPerRevolution, clockwise, axis);
    r := StopMotor(r, axis);
  }

  /** `loop()`: X, Y and Z each one revolution clockwise and one back, each
      rotation followed by switching that axis off. A cycle leaves the shared
      counter where it found it and every driver that was moved switched
      off, whatever state it started from. */
  method TestCycle(b: BenchState) returns (r: BenchState)
    ensures r.current == b.current
    ensures forall a :: r.Coil(a) == Off
  {
    r := Exercise(b, true, 'X');
    r := Exercise(r, false, 'X');
    r := Exercise(r, true, 'Y');
    r := Exercise(r, false, 'Y');
    r := Exercise(r, true, 'Z');
    r := Exercise(r, false, 'Z');
  }

  /** The counter is shared: after `k` clockwise steps of X, one clockwise
      step of Y shows pattern `k + 1` (mod 8) on Y, not pattern 1. Each axis
      continues from wherever the previous rotation left the counter. */
  method SharedCounter(b: BenchState, k: nat) returns (r: BenchState)
    ensures r.Coil(Y) == Pattern((b.current + k + 1) % 8)
  {
    var mid := RotateMotor(b, k, true, 'X');
    r := RotateMotor(mid, 1, true, 'Y');
    ModShift(b.current, k, 1);
  }
}
