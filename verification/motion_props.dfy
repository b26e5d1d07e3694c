/** Properties of `moveTo` and the helpers built on it: where a move ends,
    how many unit steps each axis receives, in which order, and what
    truncation does to the step counts. */
module MotionProperties {
  import opened Base
  import opened Schedule
  import opened Motion

  /** After `moveTo(x, y, z)` the believed position is the request, so an
      identical second call issues no step and changes nothing. */
  lemma MoveToIdempotent(m: Plotter, x: real, y: real, z: real)
    ensures var o := MoveTo(m, x, y, z);
      MoveTo(o.state, x, y, z) == Outcome(o.state, [])
  {
    var o := MoveTo(m, x, y, z);
    var o2 := MoveTo(o.state, x, y, z);
    assert XSteps(o.state, x) == 0 && YSteps(o.state, y) == 0 && ZSteps(o.state, z) == 0;
    assert o2.state.dx == o.state.dx && o2.state.dy == o.state.dy && o2.state.dz == o.state.dz;
    assert Repeat(StepEvent(X, false), 0) == [] && Repeat(StepEvent(Y, false), 0) == [];
  }

  /** The step counts are the truncated products of delta, steps per
      millimetre and inversion: X is mirrored, Y and Z are not, and each
      count is less than one step short of the exact product. */
  lemma StepCountsTruncate(m: Plotter, x: real, y: real, z: real)
    ensures XSteps(m, x) == -Trunc((x - m.x) * 40.0)
    ensures YSteps(m, y) == Trunc((y - m.y) * 40.0)
    ensures ZSteps(m, z) == Trunc((z - m.z) * 50.0)
    ensures var e := (x - m.x) * 40.0; var a := if e < 0.0 then -e else e;
      Abs(XSteps(m, x)) as real <= a < Abs(XSteps(m, x)) as real + 1.0
    ensures var e := (y - m.y) * 40.0; var a := if e < 0.0 then -e else e;
      Abs(YSteps(m, y)) as real <= a < Abs(YSteps(m, y)) as real + 1.0
    ensures var e := (z - m.z) * 50.0; var a := if e < 0.0 then -e else e;
      Abs(ZSteps(m, z)) as real <= a < Abs(ZSteps(m, z)) as real + 1.0
  {
    TruncNegate((x - m.x) * 40.0);
    TruncMagnitude((x - m.x) * 40.0);
    TruncMagnitude((y - m.y) * 40.0);
    TruncMagnitude((z - m.z) * 50.0);
  }

  /** A move shorter than one step on every axis issues no step at all, yet
      the believed position still becomes the request: the fraction that
      truncation drops is never made up later. */
  lemma SubStepMoveIssuesNothing(m: Plotter, x: real, y: real, z: real)
    requires -1.0 < (x - m.x) * 40.0 < 1.0
    requires -1.0 < (y - m.y) * 40.0 < 1.0
    requires -1.0 < (z - m.z) * 50.0 < 1.0
    ensures MoveTo(m, x, y, z).trace == []
    ensures MoveTo(m, x, y, z).state == m.(x := x, y := y, z := z)
  {
    StepCountsTruncate(m, x, y, z);
    assert Repeat(StepEvent(X, false), 0) == [] && Repeat(StepEvent(Y, false), 0) == [];
  }

  /** How often a given unit step occurs in a trace. */
  function Occurrences(t: seq<StepEvent>, e: StepEvent): nat
  {
    multiset(t)[e]
  }

  /** How often unit step `f` occurs in a run of `n` copies of `e`. */
  lemma RepeatOccurrences(e: StepEvent, n: nat, f: StepEvent)
    ensures Occurrences(Repeat(e, n), f) == (if f == e then n else 0)
  {
    RepeatMultiset(e, n);
  }

  /** The number of unit steps a move with counts `xs`, `ys`, `zs` issues in
      the direction of `e`: `|steps|` for the direction of the count's sign
      (positive is clockwise), none for the other direction. */
  function Expected(xs: int, ys: int, zs: int, e: StepEvent): nat
  {
    var n := match e.axis case X => xs case Y => ys case Z => zs;
    if e.clockwise == (n > 0) then Abs(n) else 0
  }

  lemma ZBeforeOccurrences(zs: int, e: StepEvent)
    ensures Occurrences(ZBefore(zs), e) == (if zs > 0 && e == StepEvent(Z, true) then zs else 0)
  {
    if zs > 0 {
      RepeatOccurrences(StepEvent(Z, true), zs, e);
    }
  }

  lemma ZAfterOccurrences(zs: int, e: StepEvent)
    ensures Occurrences(ZAfter(zs), e) == (if zs < 0 && e == StepEvent(Z, false) then -zs else 0)
  {
    if zs < 0 {
      RepeatOccurrences(StepEvent(Z, false), -zs, e);
    }
  }

  /** Occurrences in a move's trace add up over its three parts. */
  lemma MoveTraceSplit(xs: int, ys: int, zs: int, e: StepEvent)
    ensures Occurrences(MoveTrace(xs, ys, zs), e)
         == Occurrences(ZBefore(zs), e)
            + Occurrences(Repeat(StepEvent(X, xs > 0), Abs(xs)), e)
            + Occurrences(Repeat(StepEvent(Y, ys > 0), Abs(ys)), e)
            + Occurrences(ZAfter(zs), e)
  {
    var ex, ey := StepEvent(X, xs > 0), StepEvent(Y, ys > 0);
    var pre, post := ZBefore(zs), ZAfter(zs);
    var mid := Interleave(Repeat(ex, Abs(xs)), Repeat(ey, Abs(ys)));
    assert multiset(pre + mid + post) == multiset(pre) + multiset(mid) + multiset(post);
    InterleaveMultiset(Repeat(ex, Abs(xs)), Repeat(ey, Abs(ys)));
  }

  /** Every axis receives exactly `|steps|` unit steps, all in the direction
      of the sign of its count, and none in the other direction. */
  lemma MoveTraceCounts(xs: int, ys: int, zs: int, e: StepEvent)
    ensures Occurrences(MoveTrace(xs, ys, zs), e) == Expected(xs, ys, zs, e)
  {
    MoveTraceSplit(xs, ys, zs, e);
    RepeatOccurrences(StepEvent(X, xs > 0), Abs(xs), e);
    RepeatOccurrences(StepEvent(Y, ys > 0), Abs(ys), e);
    ZBeforeOccurrences(zs, e);
    ZAfterOccurrences(zs, e);
  }

  /** Every element of the X/Y part of a move belongs to X or to Y. */
  lemma InterleavedStepsArePlanar(xs: int, ys: int, j: int)
    requires 0 <= j < Abs(xs) + Abs(ys)
    ensures Interleave(Repeat(StepEvent(X, xs > 0), Abs(xs)), Repeat(StepEvent(Y, ys > 0), Abs(ys)))[j].axis != Z
  {
    InterleaveRunsShape(StepEvent(X, xs > 0), StepEvent(Y, ys > 0), Abs(xs), Abs(ys));
  }

  /** Pen ordering: when the pen rises every Z step precedes every X/Y step;
      when it falls every Z step follows them; otherwise Z does not step. So
      Z never moves on both sides of the travel. */
  lemma PenOrdering(xs: int, ys: int, zs: int)
    ensures var t := MoveTrace(xs, ys, zs);
      && (zs > 0 ==> forall j, k :: 0 <= j < |t| && 0 <= k < |t| && t[j].axis == Z && t[k].axis != Z ==> j < k)
      && (zs < 0 ==> forall j, k :: 0 <= j < |t| && 0 <= k < |t| && t[j].axis == Z && t[k].axis != Z ==> k < j)
      && (zs == 0 ==> forall j :: 0 <= j < |t| ==> t[j].axis != Z)
  {
    var t := MoveTrace(xs, ys, zs);
    var mid := Interleave(Repeat(StepEvent(X, xs > 0), Abs(xs)), Repeat(StepEvent(Y, ys > 0), Abs(ys)));
    var pre, post := ZBefore(zs), ZAfter(zs);
    assert t == pre + mid + post;
    forall j | 0 <= j < |t|
      ensures t[j].axis == Z <==> (j < |pre| || |pre| + |mid| <= j)
    {
      if j < |pre| {
        assert t[j] == pre[j];
      } else if j < |pre| + |mid| {
        assert t[j] == mid[j - |pre|];
        InterleavedStepsArePlanar(xs, ys, j - |pre|);
      } else {
        assert t[j] == post[j - |pre| - |mid|];
      }
    }
  }

  /** Co-stepping as the firmware writes it: the X/Y part of a move, which
      starts right after the pen lift, alternates X and Y for
      `2 * min(|xs|, |ys|)` steps and then steps only the longer axis. The
      X/Y part is the loop's `max(|xs|, |ys|)` rounds, X stepping in round
      `i` exactly when `i < |xs|` and Y exactly when `i < |ys|`. */
  lemma CoSteppingShape(xs: int, ys: int, zs: int)
    ensures var t := MoveTrace(xs, ys, zs);
      var ex, ey := StepEvent(X, xs > 0), StepEvent(Y, ys > 0);
      && t[|ZBefore(zs)|..|ZBefore(zs)| + Abs(xs) + Abs(ys)] == Rounds(ex, ey, Abs(xs), Abs(ys), 0)
      && DiagonalThenTail(t[|ZBefore(zs)|..|ZBefore(zs)| + Abs(xs) + Abs(ys)], ex, ey, Abs(xs), Abs(ys))
  {
    var ex, ey := StepEvent(X, xs > 0), StepEvent(Y, ys > 0);
    var mid := Interleave(Repeat(ex, Abs(xs)), Repeat(ey, Abs(ys)));
    MiddleOfThree(ZBefore(zs), mid, ZAfter(zs));
    RoundsAreInterleaving(ex, ey, Abs(xs), Abs(ys), 0);
    InterleaveRunsShape(ex, ey, Abs(xs), Abs(ys));
  }

  /** The middle part of a concatenation of three, cut out by length. */
  lemma MiddleOfThree<T>(a: seq<T>, b: seq<T>, c: seq<T>)
    ensures (a + b + c)[|a|..|a| + |b|] == b
  {
  }

  /** When the two counts differ, the axis with fewer steps takes its last
      step strictly before the final step of the X/Y travel, which belongs
      to the other axis: a diagonal followed by a straight tail, not a line
      of uniform slope. */
  lemma ShorterAxisFinishesFirst(xs: int, ys: int)
    requires Abs(xs) != Abs(ys)
    ensures var t := Interleave(Repeat(StepEvent(X, xs > 0), Abs(xs)), Repeat(StepEvent(Y, ys > 0), Abs(ys)));
      var short := if Abs(xs) < Abs(ys) then X else Y;
      && t[|t| - 1].axis != short
      && (forall j :: 0 <= j < |t| && t[j].axis == short ==> j < |t| - 1)
  {
    var ex, ey := StepEvent(X, xs > 0), StepEvent(Y, ys > 0);
    ShorterRunFinishesFirst(ex, ey, Abs(xs), Abs(ys));
    InterleaveRunsShape(ex, ey, Abs(xs), Abs(ys));
  }
}
