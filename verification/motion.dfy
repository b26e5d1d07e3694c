/** The plotter's motion engine: three half-stepped axes, the millimetre
    position the firmware believes it is at, and `moveTo`, which lifts the
    pen, co-steps X and Y, lowers the pen and records the target as the new
    position. Coil writes are modelled as the driver state they leave
    behind; every unit step is recorded as a `StepEvent` in a trace. */
module Motion {
  import opened Base
  import opened HalfStep
  import opened Schedule

  const StepsPerMmX: int := 40
  const StepsPerMmY: int := 40
  const StepsPerMmZ: int := 50
  /** X is mirrored (-1), Y is not; Z has no inversion factor at all. */
  const InvertX: int := -1
  const InvertY: int := 1
  /** Pen heights in millimetres. */
  const PenUpZ: real := 5.0
  const PenDownZ: real := 0.0

  datatype Axis = X | Y | Z

  /** One unit step of one axis; `clockwise` is the direction the phase
      counter moved (up when true, down when false). */
  datatype StepEvent = StepEvent(axis: Axis, clockwise: bool)

  /** An axis's phase counter together with the levels on its four coils. */
  datatype Driver = Driver(phase: Phase, coils: Coils)

  /** The global state of the motion engine: the believed position in
      millimetres and the three drivers. */
  datatype Plotter = Plotter(x: real, y: real, z: real, dx: Driver, dy: Driver, dz: Driver)
  {
    function Drv(a: Axis): Driver
    {
      match a
      case X => dx
      case Y => dy
      case Z => dz
    }

    function WithDrv(a: Axis, d: Driver): (r: Plotter)
      ensures r.Drv(a) == d
      ensures forall b :: b != a ==> r.Drv(b) == Drv(b)
      ensures r.x == x && r.y == y && r.z == z
    {
      match a
      case X => this.(dx := d)
      case Y => this.(dy := d)
      case Z => this.(dz := d)
    }
  }

  /** The state after an operation together with the unit steps it issued, in order. */
  datatype Outcome = Outcome(state: Plotter, trace: seq<StepEvent>)

  /** Power-on state: origin, every phase 0, every coil LOW. */
  const Initial: Plotter := Plotter(0.0, 0.0, 0.0, Driver(0, Off), Driver(0, Off), Driver(0, Off))

  predicate SamePosition(m: Plotter, n: Plotter)
  {
    m.x == n.x && m.y == n.y && m.z == n.z
  }

  /** The axis a character names in the firmware's `'X'`/`'Y'`/`'Z'` dispatch. */
  function AxisOf(c: char): Option<Axis>
  {
    if c == 'X' then Some(X)
    else if c == 'Y' then Some(Y)
    else if c == 'Z' then Some(Z)
    else None
  }

  function Letter(a: Axis): (c: char)
    ensures AxisOf(c) == Some(a)
  {
    match a
    case X => 'X'
    case Y => 'Y'
    case Z => 'Z'
  }

  /** `setMotorStep`: drive the named axis's coils to table entry `step % 8`.
      Only coil levels change; an unrecognised axis writes nothing. */
  function SetMotorStep(m: Plotter, axis: char, step: nat): (r: Plotter)
    ensures AxisOf(axis).None? ==> r == m
    ensures AxisOf(axis).Some? ==>
      r.Drv(AxisOf(axis).value) == Driver(m.Drv(AxisOf(axis).value).phase, Pattern(step % 8))
    ensures forall b :: AxisOf(axis) != Some(b) ==> r.Drv(b) == m.Drv(b)
    ensures SamePosition(m, r)
  {
    match AxisOf(axis)
    case None => m
    case Some(a) => m.WithDrv(a, m.Drv(a).(coils := Pattern(step % 8)))
  }

  /** One pass of the `stepMotor` loop body: move the phase counter, then
      write the coils for the new phase. */
  function StepOnce(m: Plotter, a: Axis, clockwise: bool): (r: Plotter)
    ensures r.Drv(a).phase == Advance(m.Drv(a).phase, clockwise)
    ensures r.Drv(a).coils == Pattern(r.Drv(a).phase)
    ensures forall b :: b != a ==> r.Drv(b) == m.Drv(b)
    ensures SamePosition(m, r)
  {
    var p := Advance(m.Drv(a).phase, clockwise);
    SetMotorStep(m.WithDrv(a, m.Drv(a).(phase := p)), Letter(a), p)
  }

  lemma ModShift(p: int, s: int, k: int)
    ensures ((p + s) % 8 + k) % 8 == (p + s + k) % 8
  {
  }

  /** `k` taken with the sign the firmware gives a step count `n`: positive
      counts step clockwise, zero and negative counts counter-clockwise. */
  function Signed(n: int, k: nat): int
  {
    Toward(n > 0, k)
  }

  /** `k` unit steps clockwise (positive) or counter-clockwise (negative). */
  function Toward(clockwise: bool, k: nat): int
  {
    if clockwise then k as int else -(k as int)
  }

  /** A driver after `n` unit steps (signed): the phase moved by `n` modulo 8,
      and the coils show the new phase unless nothing moved at all. */
  ghost predicate Moved(d0: Driver, d1: Driver, n: int)
  {
    && d1.phase == (d0.phase + n) % 8
    && (n == 0 ==> d1 == d0)
    && (n != 0 ==> d1.coils == Pattern(d1.phase))
  }

  /** Two runs of steps in the same direction make one run. */
  lemma MovedCompose(d0: Driver, d1: Driver, d2: Driver, n1: int, n2: int)
    requires Moved(d0, d1, n1) && Moved(d1, d2, n2)
    requires (n1 >= 0 && n2 >= 0) || (n1 <= 0 && n2 <= 0)
    ensures Moved(d0, d2, n1 + n2)
  {
    ModShift(d0.phase, n1, n2);
  }

  /** The `stepMotor` loop: `k` unit steps of axis `a`, all in one direction. */
  function StepRepeat(m: Plotter, a: Axis, k: nat, clockwise: bool): (r: Outcome)
    ensures Moved(m.Drv(a), r.state.Drv(a), Toward(clockwise, k))
    ensures forall b :: b != a ==> r.state.Drv(b) == m.Drv(b)
    ensures SamePosition(m, r.state)
    ensures r.trace == Repeat(StepEvent(a, clockwise), k)
    decreases k
  {
    if k == 0 then Outcome(m, [])
    else
      var m1 := StepOnce(m, a, clockwise);
      var rest := StepRepeat(m1, a, k - 1, clockwise);
      MovedCompose(m.Drv(a), m1.Drv(a), rest.state.Drv(a),
                   Toward(clockwise, 1), Toward(clockwise, k - 1));
      RepeatTail(StepEvent(a, clockwise), k);
      Outcome(rest.state, [StepEvent(a, clockwise)] + rest.trace)
  }

  /** What `stepMotor(a, n)` does to the state: axis `a`'s phase moves by `n`
      modulo 8 and its coils show the new phase (unless `n` is 0); every
      other driver and the position stay as they were; the trace is `|n|`
      unit steps of `a` in the direction of the sign of `n`. */
  ghost predicate Stepped(m: Plotter, r: Outcome, a: Axis, n: int)
  {
    && Moved(m.Drv(a), r.state.Drv(a), n)
    && (forall b :: b != a ==> r.state.Drv(b) == m.Drv(b))
    && SamePosition(m, r.state)
    && r.trace == Repeat(StepEvent(a, n > 0), Abs(n))
  }

  /** `stepMotor(axis, steps)`: `|steps|` unit steps, clockwise when `steps`
      is positive. An unrecognised axis returns without doing anything. */
  function StepMotor(m: Plotter, axis: char, steps: int): (r: Outcome)
    ensures AxisOf(axis).None? || steps == 0 ==> r == Outcome(m, [])
    ensures AxisOf(axis).Some? ==> Stepped(m, r, AxisOf(axis).value, steps)
  {
    match AxisOf(axis)
    case None => Outcome(m, [])
    case Some(a) => StepRepeat(m, a, Abs(steps), steps > 0)
  }

  /** Stepping an axis by `n` and then by `-n` brings its phase back. */
  lemma StepMotorRoundTrip(m: Plotter, axis: char, n: int)
    requires AxisOf(axis).Some?
    ensures var a := AxisOf(axis).value;
      StepMotor(StepMotor(m, axis, n).state, axis, -n).state.Drv(a).phase == m.Drv(a).phase
  {
    var a := AxisOf(axis).value;
    var there := StepMotor(m, axis, n).state;
    var back := StepMotor(there, axis, -n).state;
    MovedBack(m.Drv(a), there.Drv(a), back.Drv(a), n);
  }

  /** A run of steps undone by the opposite run restores the phase. */
  lemma MovedBack(d0: Driver, d1: Driver, d2: Driver, n: int)
    requires Moved(d0, d1, n) && Moved(d1, d2, -n)
    ensures d2.phase == d0.phase
  {
    ModShift(d0.phase, n, -n);
  }

  /** Unit steps still owed to an axis with signed count `n` from iteration `i` on. */
  function Remaining(n: int, i: nat): nat
  {
    if i < Abs(n) then Abs(n) - i else 0
  }

  /** The unit step the co-stepping loop issues for a signed count `n`. */
  function UnitOf(n: int): int
  {
    if n > 0 then 1 else -1
  }

  /** The effect of iteration `i` of the co-stepping loop. */
  ghost predicate Iterated(m: Plotter, r: Outcome, xs: int, ys: int, i: nat)
  {
    && Moved(m.dx, r.state.dx, Signed(xs, if i < Abs(xs) then 1 else 0))
    && Moved(m.dy, r.state.dy, Signed(ys, if i < Abs(ys) then 1 else 0))
    && r.state.dz == m.dz
    && SamePosition(m, r.state)
    && r.trace == (if i < Abs(xs) then [StepEvent(X, xs > 0)] else [])
                  + (if i < Abs(ys) then [StepEvent(Y, ys > 0)] else [])
  }

  /** One iteration `i` of the co-stepping loop: X takes a unit step if
      `i < |xs|`, then Y takes one if `i < |ys|`. */
  function CoIteration(m: Plotter, xs: int, ys: int, i: nat): (r: Outcome)
    ensures Iterated(m, r, xs, ys, i)
  {
    var ox := UnitStepWhile(m, 'X', xs, i);
    var oy := UnitStepWhile(ox.state, 'Y', ys, i);
    assert ox.state.Drv(Y) == m.Drv(Y) && oy.state.Drv(X) == ox.state.Drv(X);
    assert oy.state.Drv(Z) == ox.state.Drv(Z) == m.Drv(Z);
    Outcome(oy.state, ox.trace + oy.trace)
  }

  /** One axis's share of iteration `i`: a unit step in the direction of
      `n` while `i < |n|`, nothing afterwards. */
  function UnitStepWhile(m: Plotter, axis: char, n: int, i: nat): (o: Outcome)
    requires AxisOf(axis).Some?
    ensures var a := AxisOf(axis).value;
      && Moved(m.Drv(a), o.state.Drv(a), Signed(n, if i < Abs(n) then 1 else 0))
      && (forall b :: b != a ==> o.state.Drv(b) == m.Drv(b))
      && SamePosition(m, o.state)
      && o.trace == (if i < Abs(n) then [StepEvent(a, n > 0)] else [])
  {
    if Abs(n) > 0 && i < Abs(n) then
      var o := StepMotor(m, axis, UnitOf(n));
      assert o.trace == Repeat(StepEvent(AxisOf(axis).value, n > 0), 1);
      o
    else Outcome(m, [])
  }

  /** The effect of the co-stepping loop from iteration `i` to the end. */
  ghost predicate CoStepped(m: Plotter, r: Outcome, xs: int, ys: int, i: nat)
  {
    && Moved(m.dx, r.state.dx, Signed(xs, Remaining(xs, i)))
    && Moved(m.dy, r.state.dy, Signed(ys, Remaining(ys, i)))
    && r.state.dz == m.dz
    && SamePosition(m, r.state)
    && r.trace == Interleave(Repeat(StepEvent(X, xs > 0), Remaining(xs, i)),
                             Repeat(StepEvent(Y, ys > 0), Remaining(ys, i)))
  }

  /** The X/Y loop of `moveTo`, from iteration `i` to `max(|xs|, |ys|)`. The
      contract states the whole loop as the pairwise interleaving of the two
      axes' runs of unit steps. */
  function CoStep(m: Plotter, xs: int, ys: int, i: nat): (r: Outcome)
    requires i <= Max(Abs(xs), Abs(ys))
    ensures CoStepped(m, r, xs, ys, i)
    decreases Max(Abs(xs), Abs(ys)) - i
  {
    if i == Max(Abs(xs), Abs(ys)) then Outcome(m, [])
    else
      var it := CoIteration(m, xs, ys, i);
      var rest := CoStep(it.state, xs, ys, i + 1);
      CoStepLemma(m, it, rest, xs, ys, i);
      Outcome(rest.state, it.trace + rest.trace)
  }

  /** The remaining count from iteration `i` is this iteration's step plus
      the remaining count from `i + 1`. */
  lemma RemainingStep(n: int, i: nat)
    ensures Remaining(n, i) == (if i < Abs(n) then 1 else 0) + Remaining(n, i + 1)
    ensures Signed(n, Remaining(n, i)) == Signed(n, if i < Abs(n) then 1 else 0) + Signed(n, Remaining(n, i + 1))
  {
  }

  /** One iteration of the co-stepping loop followed by the rest of the loop
      has the effect the loop from that iteration promises. */
  lemma CoStepLemma(m: Plotter, it: Outcome, rest: Outcome, xs: int, ys: int, i: nat)
    requires Iterated(m, it, xs, ys, i)
    requires CoStepped(it.state, rest, xs, ys, i + 1)
    ensures CoStepped(m, Outcome(rest.state, it.trace + rest.trace), xs, ys, i)
  {
    CoStepDriver(m.dx, it.state.dx, rest.state.dx, xs, i);
    CoStepDriver(m.dy, it.state.dy, rest.state.dy, ys, i);
    CoStepTrace(it.trace, rest.trace, xs, ys, i);
  }

  /** One axis's driver across one iteration and the rest of the loop. */
  lemma CoStepDriver(d0: Driver, d1: Driver, d2: Driver, n: int, i: nat)
    requires Moved(d0, d1, Signed(n, if i < Abs(n) then 1 else 0))
    requires Moved(d1, d2, Signed(n, Remaining(n, i + 1)))
    ensures Moved(d0, d2, Signed(n, Remaining(n, i)))
  {
    RemainingStep(n, i);
    MovedCompose(d0, d1, d2, Signed(n, if i < Abs(n) then 1 else 0), Signed(n, Remaining(n, i + 1)));
  }

  /** The unit steps of one iteration followed by those of the rest of the
      loop are the interleaving of what remains from this iteration on. */
  lemma CoStepTrace(t1: seq<StepEvent>, t2: seq<StepEvent>, xs: int, ys: int, i: nat)
    requires t1 == (if i < Abs(xs) then [StepEvent(X, xs > 0)] else [])
                   + (if i < Abs(ys) then [StepEvent(Y, ys > 0)] else [])
    requires t2 == Interleave(Repeat(StepEvent(X, xs > 0), Remaining(xs, i + 1)),
                              Repeat(StepEvent(Y, ys > 0), Remaining(ys, i + 1)))
    ensures t1 + t2 == Interleave(Repeat(StepEvent(X, xs > 0), Remaining(xs, i)),
                                  Repeat(StepEvent(Y, ys > 0), Remaining(ys, i)))
  {
    RemainingStep(xs, i);
    RemainingStep(ys, i);
    InterleaveStep(StepEvent(X, xs > 0), StepEvent(Y, ys > 0), Remaining(xs, i), Remaining(ys, i));
  }

  /** Signed step count for a millimetre delta: the C++ `(int)` cast of
      `delta * stepsPerMm * invert`, which truncates toward zero. */
  function StepCount(delta: real, perMm: int, invert: int): int
  {
    Trunc(delta * perMm as real * invert as real)
  }

  function XSteps(m: Plotter, x: real): int { StepCount(x - m.x, StepsPerMmX, InvertX) }
  function YSteps(m: Plotter, y: real): int { StepCount(y - m.y, StepsPerMmY, InvertY) }
  function ZSteps(m: Plotter, z: real): int { Trunc((z - m.z) * StepsPerMmZ as real) }

  /** Pen lift before the X/Y travel: all of `zs`'s unit steps when it is positive. */
  function ZBefore(zs: int): seq<StepEvent>
  {
    if zs > 0 then Repeat(StepEvent(Z, true), zs) else []
  }

  /** Pen drop after the X/Y travel: all of `zs`'s unit steps when it is negative. */
  function ZAfter(zs: int): seq<StepEvent>
  {
    if zs < 0 then Repeat(StepEvent(Z, false), -zs) else []
  }

  /** The unit steps of a move with signed counts `xs`, `ys`, `zs`: the pen
      lift, the X/Y interleaving, then the pen drop. */
  function MoveTrace(xs: int, ys: int, zs: int): seq<StepEvent>
  {
    ZBefore(zs)
    + Interleave(Repeat(StepEvent(X, xs > 0), Abs(xs)), Repeat(StepEvent(Y, ys > 0), Abs(ys)))
    + ZAfter(zs)
  }

  /** Each driver moved by its axis's signed count, and the trace is the
      move's unit steps in order. */
  ghost predicate Travelled(m: Plotter, r: Outcome, xs: int, ys: int, zs: int)
  {
    && Moved(m.dx, r.state.dx, xs)
    && Moved(m.dy, r.state.dy, ys)
    && Moved(m.dz, r.state.dz, zs)
    && r.trace == MoveTrace(xs, ys, zs)
  }

  /** `moveTo(x, y, z)`. The contract states where it ends (exactly at the
      request, whatever truncation issued), how far each phase counter moved
      (by the axis's truncated signed step count, modulo 8), and the order of
      the unit steps: the pen lift, the X/Y interleaving, then the pen drop. */
  function MoveTo(m: Plotter, x: real, y: real, z: real): (r: Outcome)
    ensures r.state.x == x && r.state.y == y && r.state.z == z
    ensures Travelled(m, r, XSteps(m, x), YSteps(m, y), ZSteps(m, z))
  {
    var xs, ys, zs := XSteps(m, x), YSteps(m, y), ZSteps(m, z);
    var o1 := if zs > 0 then StepMotor(m, 'Z', zs) else Outcome(m, []);
    var o2 := CoStep(o1.state, xs, ys, 0);
    var o3 := if zs < 0 then StepMotor(o2.state, 'Z', zs) else Outcome(o2.state, []);
    MoveToLemma(m, o1, o2, o3, xs, ys, zs);
    Outcome(o3.state.(x := x, y := y, z := z), o1.trace + o2.trace + o3.trace)
  }

  /** The three phases of `moveTo` compose into the whole move's effect. */
  lemma MoveToLemma(m: Plotter, o1: Outcome, o2: Outcome, o3: Outcome, xs: int, ys: int, zs: int)
    requires zs > 0 ==> Stepped(m, o1, Z, zs)
    requires zs <= 0 ==> o1 == Outcome(m, [])
    requires CoStepped(o1.state, o2, xs, ys, 0)
    requires zs < 0 ==> Stepped(o2.state, o3, Z, zs)
    requires zs >= 0 ==> o3 == Outcome(o2.state, [])
    ensures Travelled(m, Outcome(o3.state, o1.trace + o2.trace + o3.trace), xs, ys, zs)
  {
    assert Signed(xs, Remaining(xs, 0)) == xs;
    assert Signed(ys, Remaining(ys, 0)) == ys;
    if zs > 0 {
      assert o1.state.Drv(X) == m.Drv(X) && o1.state.Drv(Y) == m.Drv(Y);
    }
    if zs < 0 {
      assert o3.state.Drv(X) == o2.state.Drv(X) && o3.state.Drv(Y) == o2.state.Drv(Y);
    }
  }

  /** `homeMotors`: a numeric reset by travel to the origin with the pen up;
      nothing is sensed. */
  function HomeMotors(m: Plotter): (r: Outcome)
    ensures r.state.x == 0.0 && r.state.y == 0.0 && r.state.z == PenUpZ
  {
    MoveTo(m, 0.0, 0.0, PenUpZ)
  }

  /** A move with no X/Y steps is just the Z run, whichever way it goes. */
  lemma ZOnlyTrace(zs: int)
    ensures MoveTrace(0, 0, zs) == Repeat(StepEvent(Z, zs > 0), Abs(zs))
  {
    assert Repeat(StepEvent(X, false), 0) == [] && Repeat(StepEvent(Y, false), 0) == [];
  }

  /** `penUp`: only Z moves, to the lift height; X and Y keep position,
      phase and coils. */
  function PenUp(m: Plotter): (r: Outcome)
    ensures r.state.x == m.x && r.state.y == m.y && r.state.z == PenUpZ
    ensures r.state.dx == m.dx && r.state.dy == m.dy
    ensures r.trace == Repeat(StepEvent(Z, ZSteps(m, PenUpZ) > 0), Abs(ZSteps(m, PenUpZ)))
  {
    ZOnlyTrace(ZSteps(m, PenUpZ));
    MoveTo(m, m.x, m.y, PenUpZ)
  }

  /** `penDown`: only Z moves, to the paper; X and Y keep position, phase
      and coils. */
  function PenDown(m: Plotter): (r: Outcome)
    ensures r.state.x == m.x && r.state.y == m.y && r.state.z == PenDownZ
    ensures r.state.dx == m.dx && r.state.dy == m.dy
    ensures r.trace == Repeat(StepEvent(Z, ZSteps(m, PenDownZ) > 0), Abs(ZSteps(m, PenDownZ)))
  {
    ZOnlyTrace(ZSteps(m, PenDownZ));
    MoveTo(m, m.x, m.y, PenDownZ)
  }

  /** `stopAllMotors`: every coil LOW; phases and position are kept so that
      motion resumes from the same phase. */
  function StopAllMotors(m: Plotter): (r: Plotter)
    ensures forall a :: r.Drv(a) == Driver(m.Drv(a).phase, Off)
    ensures SamePosition(m, r)
  {
    m.(dx := m.dx.(coils := Off), dy := m.dy.(coils := Off), dz := m.dz.(coils := Off))
  }
}
