/** The G-code interpreter: `executeGCode` runs one line against the motion
    engine and the positioning-mode flag, and `executeGCodeBlock` runs every
    newline-separated segment of a text and counts the successes. */
module GCode {
  import opened Text
  import opened Number
  import opened HalfStep
  import opened Motion

  /** The interpreter's state: the motion engine and `absoluteMode`. */
  datatype Machine = Machine(motion: Plotter, absolute: bool)

  /** Power-on: origin, phases 0, coils off, absolute positioning. */
  const Startup: Machine := Machine(Initial, true)

  /** The commands the interpreter knows, by effect. */
  datatype Command =
    | Travel       // G0 / G00: pen up, then travel with the pen up
    | Draw         // G1 / G01: pen down, then travel to the target
    | Home         // G28
    | UseAbsolute  // G90
    | UseRelative  // G91
    | Lower        // M3: pen down
    | Lift         // M5: pen up
    | Report       // M114: read the position
    | Release      // M18 / M84: de-energise the coils
    | Unknown

  /** The mnemonic table, compared after upper-casing. */
  const Mnemonics: map<string, Command> := map[
    "G0" := Travel, "G00" := Travel, "G1" := Draw, "G01" := Draw, "G28" := Home,
    "G90" := UseAbsolute, "G91" := UseRelative, "M3" := Lower, "M5" := Lift,
    "M114" := Report, "M18" := Release, "M84" := Release]

  function Decode(mnemonic: string): (c: Command)
    ensures c == Unknown <==> mnemonic !in Mnemonics
  {
    if mnemonic in Mnemonics then Mnemonics[mnemonic] else Unknown
  }

  /** A line after trimming and upper-casing is either a no-op or a command. */
  datatype Line = Blank | Instr(cmd: Command)

  /** Trim, then upper-case. */
  function Preprocess(raw: string): string
  {
    Upper(Trim(raw))
  }

  /** Empty lines and lines starting with `;` or `(` do nothing. */
  predicate IsBlank(line: string)
  {
    |line| == 0 || line[0] == ';' || line[0] == '('
  }

  /** The mnemonic: the text before the first space when that space is not
      the first character, otherwise the whole line. Only a space separates
      it: `G1X5` and `G1<tab>X5` are mnemonics in their own right. */
  function Mnemonic(line: string): (r: string)
    ensures IndexOf(line, ' ') <= 0 ==> r == line
    ensures IndexOf(line, ' ') > 0 ==> 0 < |r| < |line| && r == line[..|r|] && line[|r|] == ' ' && ' ' !in r
  {
    var k := IndexOf(line, ' ');
    if k > 0 then line[..k] else line
  }

  function Kind(raw: string): Line
  {
    var line := Preprocess(raw);
    if IsBlank(line) then Blank else Instr(Decode(Mnemonic(line)))
  }

  /** A line succeeds unless its mnemonic is unknown. */
  predicate Recognised(raw: string)
  {
    Kind(raw) != Instr(Unknown)
  }

  /** An axis parameter: whether its letter occurs, and the target it resolves to. */
  datatype Param = Param(given: bool, value: real)

  /** Resolve one axis: read the number after the first occurrence of the
      letter; absolute mode takes it as the target, relative mode adds it to
      the current coordinate; without the letter the target is the current
      coordinate. */
  function Resolve(line: string, letter: char, current: real, absolute: bool): (p: Param)
    ensures p.given <==> letter in line
    ensures !p.given ==> p.value == current
  {
    var k := IndexOf(line, letter);
    if k < 0 then Param(false, current)
    else
      var v := ParseNumber(line[k + 1..]);
      Param(true, if absolute then v else current + v)
  }

  /** The parameters of a line, resolved against the position the machine
      holds when the line starts. */
  function ParamX(mc: Machine, raw: string): Param { Resolve(Preprocess(raw), 'X', mc.motion.x, mc.absolute) }
  function ParamY(mc: Machine, raw: string): Param { Resolve(Preprocess(raw), 'Y', mc.motion.y, mc.absolute) }
  function ParamZ(mc: Machine, raw: string): Param { Resolve(Preprocess(raw), 'Z', mc.motion.z, mc.absolute) }

  function Position(mc: Machine): (real, real, real)
  {
    (mc.motion.x, mc.motion.y, mc.motion.z)
  }

  /** The result of one line: success flag, new state, unit steps issued. */
  datatype LineResult = LineResult(ok: bool, machine: Machine, trace: seq<StepEvent>)

  /** `executeGCode(line)`. The contract states, per command, where the
      line leaves the plotter, what happens to the positioning mode, and
      that a failing line changes nothing. */
  function ExecuteLine(mc: Machine, raw: string): (r: LineResult)
    ensures r.ok <==> Recognised(raw)
    ensures !r.ok ==> r.machine == mc && r.trace == []
    ensures Kind(raw) == Blank ==> r == LineResult(true, mc, [])
    ensures r.machine.absolute == match Kind(raw)
                                  case Instr(UseAbsolute) => true
                                  case Instr(UseRelative) => false
                                  case _ => mc.absolute
    ensures Kind(raw) in {Instr(UseAbsolute), Instr(UseRelative), Instr(Report)} ==>
              r.machine.motion == mc.motion && r.trace == []
    ensures Kind(raw) == Instr(Release) ==>
              r.trace == [] && SamePosition(mc.motion, r.machine.motion)
              && forall a :: r.machine.motion.Drv(a) == Driver(mc.motion.Drv(a).phase, Off)
    ensures Kind(raw) == Instr(Travel) ==>
              Position(r.machine) == if ParamX(mc, raw).given || ParamY(mc, raw).given
                                     then (ParamX(mc, raw).value, ParamY(mc, raw).value, PenUpZ)
                                     else (mc.motion.x, mc.motion.y, PenUpZ)
    ensures Kind(raw) == Instr(Draw) ==>
              Position(r.machine) == if ParamX(mc, raw).given || ParamY(mc, raw).given || ParamZ(mc, raw).given
                                     then (ParamX(mc, raw).value, ParamY(mc, raw).value, ParamZ(mc, raw).value)
                                     else (mc.motion.x, mc.motion.y, PenDownZ)
    ensures Kind(raw) == Instr(Home) ==> Position(r.machine) == (0.0, 0.0, PenUpZ)
    ensures Kind(raw) == Instr(Lower) ==> Position(r.machine) == (mc.motion.x, mc.motion.y, PenDownZ)
    ensures Kind(raw) == Instr(Lift) ==> Position(r.machine) == (mc.motion.x, mc.motion.y, PenUpZ)
  {
    var line := Preprocess(raw);
    if IsBlank(line) then LineResult(true, mc, [])
    else
      var cur := mc.motion;
      var px := Resolve(line, 'X', cur.x, mc.absolute);
      var py := Resolve(line, 'Y', cur.y, mc.absolute);
      var pz := Resolve(line, 'Z', cur.z, mc.absolute);
      match Decode(Mnemonic(line))
      case Travel =>
        var up := PenUp(cur);
        if px.given || py.given then
          var mv := MoveTo(up.state, px.value, py.value, PenUpZ);
          LineResult(true, mc.(motion := mv.state), up.trace + mv.trace)
        else
          LineResult(true, mc.(motion := up.state), up.trace)
      case Draw =>
        var down := PenDown(cur);
        if px.given || py.given || pz.given then
          var mv := MoveTo(down.state, px.value, py.value, pz.value);
          LineResult(true, mc.(motion := mv.state), down.trace + mv.trace)
        else
          LineResult(true, mc.(motion := down.state), down.trace)
      case Home =>
        var h := HomeMotors(cur);
        LineResult(true, mc.(motion := h.state), h.trace)
      case UseAbsolute => LineResult(true, mc.(absolute := true), [])
      case UseRelative => LineResult(true, mc.(absolute := false), [])
      case Lower =>
        var down := PenDown(cur);
        LineResult(true, mc.(motion := down.state), down.trace)
      case Lift =>
        var up := PenUp(cur);
        LineResult(true, mc.(motion := up.state), up.trace)
      case Report => LineResult(true, mc, [])
      case Release => LineResult(true, mc.(motion := StopAllMotors(cur)), [])
      case Unknown => LineResult(false, mc, [])
  }

  /** The running totals of a block: lines that succeeded, state, unit steps. */
  datatype BlockResult = BlockResult(count: nat, machine: Machine, trace: seq<StepEvent>)

  /** Run lines one after another, each from the state the previous one
      left, counting successes; a failing line is passed over. */
  function RunLines(mc: Machine, ls: seq<string>): BlockResult
  {
    if |ls| == 0 then BlockResult(0, mc, []) else Then(RunLines(mc, ls[..|ls| - 1]), ls[|ls| - 1])
  }

  /** Run one more line after `prev`. */
  function Then(prev: BlockResult, l: string): (r: BlockResult)
    ensures r.count == prev.count + (if Recognised(l) then 1 else 0)
    ensures !Recognised(l) ==> r == prev
  {
    Extend(prev, ExecuteLine(prev.machine, l))
  }

  /** Add one line's result to the running totals. */
  function Extend(prev: BlockResult, o: LineResult): BlockResult
  {
    BlockResult(prev.count + (if o.ok then 1 else 0), o.machine, prev.trace + o.trace)
  }

  lemma RunLinesSnoc(mc: Machine, ls: seq<string>, l: string)
    ensures RunLines(mc, ls + [l]) == Then(RunLines(mc, ls), l)
  {
    assert (ls + [l])[..|ls|] == ls;
  }

  /** Number of lines with an unknown mnemonic. */
  function Failures(ls: seq<string>): (n: nat)
    ensures n <= |ls|
  {
    if |ls| == 0 then 0
    else Failures(ls[..|ls| - 1]) + (if Recognised(ls[|ls| - 1]) then 0 else 1)
  }

  lemma FailuresSnoc(ls: seq<string>, l: string)
    ensures Failures(ls + [l]) == Failures(ls) + (if Recognised(l) then 0 else 1)
  {
    assert (ls + [l])[..|ls|] == ls;
  }

  /** The success count of a run is the number of lines minus the number of
      unknown commands; it does not depend on the state the run starts from. */
  lemma {:induction false} RunLinesCount(mc: Machine, ls: seq<string>)
    ensures RunLines(mc, ls).count == |ls| - Failures(ls)
  {
    if |ls| > 0 {
      RunLinesCount(mc, ls[..|ls| - 1]);
    }
  }

  /** Running `a` and then `b` is running `a + b`: counts add, traces
      concatenate, and `b` starts from the state `a` left. */
  lemma {:induction false} RunLinesAppend(mc: Machine, a: seq<string>, b: seq<string>)
    ensures var ra := RunLines(mc, a); var rb := RunLines(ra.machine, b);
      RunLines(mc, a + b) == BlockResult(ra.count + rb.count, rb.machine, ra.trace + rb.trace)
  {
    if |b| > 0 {
      var b', l := b[..|b| - 1], b[|b| - 1];
      assert a + b == (a + b') + [l] && b == b' + [l];
      RunLinesSnoc(mc, a + b', l);
      RunLinesAppend(mc, a, b');
      var ra := RunLines(mc, a);
      RunLinesSnoc(ra.machine, b', l);
      var rb' := RunLines(ra.machine, b');
      ThenCarries(ra.count, ra.trace, rb', l);
      assert RunLines(mc, a + b') == BlockResult(ra.count + rb'.count, rb'.machine, ra.trace + rb'.trace);
      assert RunLines(mc, a + b) == Then(BlockResult(ra.count + rb'.count, rb'.machine, ra.trace + rb'.trace), l);
      assert RunLines(ra.machine, b) == Then(rb', l);
    } else {
      assert a + b == a;
      assert RunLines(mc, a).trace + [] == RunLines(mc, a).trace;
    }
  }

  /** A line's effect does not depend on the count and trace accumulated
      before it. */
  lemma ThenCarries(c: nat, t: seq<StepEvent>, p: BlockResult, l: string)
    ensures var q := Then(p, l);
      Then(BlockResult(c + p.count, p.machine, t + p.trace), l) == BlockResult(c + q.count, q.machine, t + q.trace)
  {
    ExtendCarries(c, t, p, ExecuteLine(p.machine, l));
  }

  lemma ExtendCarries(c: nat, t: seq<StepEvent>, p: BlockResult, o: LineResult)
    ensures var q := Extend(p, o);
      Extend(BlockResult(c + p.count, p.machine, t + p.trace), o) == BlockResult(c + q.count, q.machine, t + q.trace)
  {
    assert (t + p.trace) + o.trace == t + (p.trace + o.trace);
  }

  /** A line with an unknown mnemonic is passed over without effect: the
      lines after it run exactly as if it had not been there. */
  lemma FailingLineIsTransparent(mc: Machine, a: seq<string>, l: string, b: seq<string>)
    requires !Recognised(l)
    ensures RunLines(mc, a + [l] + b) == RunLines(mc, a + b)
  {
    RunLinesAppend(mc, a + [l], b);
    RunLinesAppend(mc, a, b);
    assert (a + [l])[..|a + [l]| - 1] == a;
  }

  /** The positioning mode persists across lines that do not set it. */
  lemma {:induction false} ModePersists(mc: Machine, ls: seq<string>)
    requires forall i :: 0 <= i < |ls| ==> Kind(ls[i]) != Instr(UseAbsolute) && Kind(ls[i]) != Instr(UseRelative)
    ensures RunLines(mc, ls).machine.absolute == mc.absolute
  {
    if |ls| > 0 {
      ModePersists(mc, ls[..|ls| - 1]);
    }
  }

  /** `executeGCodeBlock(gcode)`: scan for `\n` from the current start, run
      the segment before it, continue after it, until the start passes the
      end of the text; return the number of successful lines. */
  method ExecuteBlock(mc: Machine, text: string) returns (count: nat, out: Machine, trace: seq<StepEvent>)
    ensures BlockResult(count, out, trace) == RunLines(mc, Segments(text))
    ensures count == |Segments(text)| - Failures(Segments(text))
  {
    var acc := BlockResult(0, mc, []);
    var start := 0;
    ghost var done: seq<string> := [];
    while start < |text|
      invariant 0 <= start <= |text| + 1
      invariant Segments(text) == done + SegmentsFrom(text, start)
      invariant acc == RunLines(mc, done)
      decreases |text| + 1 - start
    {
      var end := IndexFrom(text, '\n', start);
      if end == -1 {
        end := |text|;
      }
      var line := text[start..end];
      NextSegment(text, start, done);
      RunLinesSnoc(mc, done, line);
      acc := RunOne(acc, line);
      done := done + [line];
      start := end + 1;
    }
    SegmentsPast(text, start);
    assert done + [] == done;
    RunLinesCount(mc, done);
    count, out, trace := acc.count, acc.machine, acc.trace;
  }

  /** The body of the block loop: execute one line on the running state and
      add its result to the totals. */
  method RunOne(prev: BlockResult, line: string) returns (next: BlockResult)
    ensures next == Then(prev, line)
  {
    var r := ExecuteLine(prev.machine, line);
    next := BlockResult(prev.count + (if r.ok then 1 else 0), r.machine, prev.trace + r.trace);
  }
}
