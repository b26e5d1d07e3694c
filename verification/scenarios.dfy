/** Concrete sessions with the interpreter: relative moves accumulate,
    absolute moves override, and a block's count skips only the unknown
    line. */
module Scenarios {
  import opened Text
  import opened Number
  import opened Motion
  import opened GCode
  import opened GCodeProperties

  /** The parameters of `G1 X5`: X is 5 (absolute) or X + 5 (relative);
      Y and Z are absent. */
  lemma ParamsOfG1X5(mc: Machine)
    ensures ParamX(mc, "G1 X5") == Param(true, if mc.absolute then 5.0 else mc.motion.x + 5.0)
    ensures !ParamY(mc, "G1 X5").given && !ParamZ(mc, "G1 X5").given
  {
    CanonicalLine("G1 X5");
    assert IntToString(5) == "5";
    assert "G1 X5" == "G1 " + ['X'] + (IntToString(5) + "");
    ReadsFirstOccurrence("G1 ", 'X', 5, "", mc.motion.x, mc.absolute);
    NoYZInG1X5(mc.motion.y, mc.motion.z, mc.absolute);
  }

  lemma NoYZInG1X5(cy: real, cz: real, absolute: bool)
    ensures !Resolve("G1 X5", 'Y', cy, absolute).given && !Resolve("G1 X5", 'Z', cz, absolute).given
  {
    var line := "G1 X5";
    assert forall i | 0 <= i < |line| :: line[i] != 'Y' && line[i] != 'Z';
  }

  /** `G1 X5` draws to X = 5 in absolute mode and to X + 5 in relative
      mode; Y keeps its value and the mode is untouched. */
  lemma DrawX5(mc: Machine)
    ensures var r := ExecuteLine(mc, "G1 X5");
      && r.ok && r.machine.absolute == mc.absolute
      && r.machine.motion.x == (if mc.absolute then 5.0 else mc.motion.x + 5.0)
      && r.machine.motion.y == mc.motion.y
  {
    SpaceSeparates();
    ParamsOfG1X5(mc);
  }

  lemma SetsRelative(mc: Machine)
    ensures var r := ExecuteLine(mc, "G91"); r.ok && r.machine == mc.(absolute := false) && r.trace == []
  {
    CanonicalLine("G91");
    assert IndexOf("G91", ' ') == -1;
  }

  lemma SetsAbsolute(mc: Machine)
    ensures var r := ExecuteLine(mc, "G90"); r.ok && r.machine == mc.(absolute := true) && r.trace == []
  {
    CanonicalLine("G90");
    assert IndexOf("G90", ' ') == -1;
  }

  /** From the origin: `G91`, `G1 X5`, `G1 X5` ends at X = 10 (relative
      deltas accumulate); then `G90`, `G1 X5` ends at X = 5 (absolute
      targets override). */
  lemma RelativeThenAbsolute()
    ensures var r1 := ExecuteLine(Startup, "G91");
      var r2 := ExecuteLine(r1.machine, "G1 X5");
      var r3 := ExecuteLine(r2.machine, "G1 X5");
      var r4 := ExecuteLine(r3.machine, "G90");
      var r5 := ExecuteLine(r4.machine, "G1 X5");
      r3.machine.motion.x == 10.0 && r5.machine.motion.x == 5.0
  {
    var r1 := ExecuteLine(Startup, "G91");
    SetsRelative(Startup);
    var r2 := ExecuteLine(r1.machine, "G1 X5");
    DrawX5(r1.machine);
    var r3 := ExecuteLine(r2.machine, "G1 X5");
    DrawX5(r2.machine);
    var r4 := ExecuteLine(r3.machine, "G90");
    SetsAbsolute(r3.machine);
    DrawX5(r4.machine);
  }

  /** The lines of the block `G90\nG1 X5 Y5\nBOGUS\nM5`. */
  lemma BlockSegments()
    ensures Segments("G90\nG1 X5 Y5\nBOGUS\nM5") == ["G90", "G1 X5 Y5", "BOGUS", "M5"]
  {
    var ls := ["G90", "G1 X5 Y5", "BOGUS", "M5"];
    assert Joined(ls) == "G90\nG1 X5 Y5\nBOGUS\nM5";
    SegmentsOfJoined(ls);
  }

  lemma G90Known() ensures Recognised("G90")
  {
    SetsAbsolute(Startup);
  }

  lemma G1Known() ensures Kind("G1 X5 Y5") == Instr(Draw)
  {
    CanonicalLine("G1 X5 Y5");
    assert Mnemonic("G1 X5 Y5") == "G1";
  }

  lemma BogusUnknown() ensures !Recognised("BOGUS")
  {
    CanonicalLine("BOGUS");
    assert IndexOf("BOGUS", ' ') == -1;
  }

  lemma M5Known() ensures Recognised("M5")
  {
    CanonicalLine("M5");
    assert IndexOf("M5", ' ') == -1;
  }

  /** Four lines of which only the third is unknown hold one failure. */
  lemma OneFailureOfFour(a: string, b: string, c: string, d: string)
    requires Recognised(a) && Recognised(b) && !Recognised(c) && Recognised(d)
    ensures Failures([a, b, c, d]) == 1
  {
    var l1: seq<string> := [a];
    var l2 := l1 + [b];
    var l3 := l2 + [c];
    FailuresSnoc([], a);
    assert [] + [a] == l1;
    FailuresSnoc(l1, b);
    FailuresSnoc(l2, c);
    FailuresSnoc(l3, d);
    assert l3 + [d] == [a, b, c, d];
  }

  lemma BlockFailures()
    ensures Failures(["G90", "G1 X5 Y5", "BOGUS", "M5"]) == 1
  {
    G90Known();
    G1Known();
    BogusUnknown();
    M5Known();
    OneFailureOfFour("G90", "G1 X5 Y5", "BOGUS", "M5");
  }

  /** Of the four lines of `G90\nG1 X5 Y5\nBOGUS\nM5` only `BOGUS` fails, so
      the block reports 3, from whatever state it starts. */
  lemma BlockCountsThree(mc: Machine)
    ensures RunLines(mc, Segments("G90\nG1 X5 Y5\nBOGUS\nM5")).count == 3
  {
    BlockSegments();
    RunLinesCount(mc, ["G90", "G1 X5 Y5", "BOGUS", "M5"]);
    BlockFailures();
  }

  lemma XOfG1X5Y5(c: real)
    ensures Resolve("G1 X5 Y5", 'X', c, true) == Param(true, 5.0)
  {
    assert IntToString(5) == "5";
    assert "G1 X5 Y5" == "G1 " + ['X'] + (IntToString(5) + " Y5");
    ReadsFirstOccurrence("G1 ", 'X', 5, " Y5", c, true);
  }

  lemma YOfG1X5Y5(c: real)
    ensures Resolve("G1 X5 Y5", 'Y', c, true) == Param(true, 5.0)
  {
    assert IntToString(5) == "5";
    assert "G1 X5 Y5" == "G1 X5 " + ['Y'] + (IntToString(5) + "");
    ReadsFirstOccurrence("G1 X5 ", 'Y', 5, "", c, true);
  }

  /** Decimal and negative parameters: in
      `G1 X12.34 Y-0.50`, X reads 12.34 ... */
  lemma XOfDecimalLine(c: real)
    ensures Resolve("G1 X12.34 Y-0.50", 'X', c, true) == Param(true, 12.34)
  {
    var tail := Sign(false) + (NatToString(12) + ("." + ("34" + " Y-0.50")));
    RendersTwelve();
    assert tail == "12.34 Y-0.50";
    assert "G1 X12.34 Y-0.50" == "G1 " + ['X'] + tail;
    ReadsFirstDecimal("G1 ", 'X', false, 12, "34", " Y-0.50", c, true);
    DecimalValues();
  }

  /** ... and Y reads -0.5. */
  lemma YOfDecimalLine(c: real)
    ensures Resolve("G1 X12.34 Y-0.50", 'Y', c, true) == Param(true, -0.5)
  {
    var tail := Sign(true) + (NatToString(0) + ("." + ("50" + "")));
    assert NatToString(0) == "0";
    assert tail == "-0.50";
    assert "G1 X12.34 Y-0.50" == "G1 X12.34 " + ['Y'] + tail;
    ReadsFirstDecimal("G1 X12.34 ", 'Y', true, 0, "50", "", c, true);
    DecimalValues();
  }

  lemma RendersTwelve()
    ensures NatToString(12) == "12"
  {
    assert NatToString(1) == "1";
  }

  lemma DecimalValues()
    ensures DecimalValue(12, "34") == 12.34
    ensures DecimalValue(0, "50") == 0.5
  {
    assert "34"[..1] == "3" && "50"[..1] == "5";
    assert DigitsValue("3") == 3 && DigitsValue("5") == 5;
    assert DigitsValue("34") == 34 && DigitsValue("50") == 50;
    assert Pow10(2) == 100;
  }

  /** In absolute mode `G1 X5 Y5` ends at (5, 5) and, without Z, at the
      height the line started from. */
  lemma DrawX5Y5(mc: Machine)
    requires mc.absolute
    ensures var r := ExecuteLine(mc, "G1 X5 Y5");
      r.ok && r.machine.absolute && Position(r.machine) == (5.0, 5.0, mc.motion.z)
  {
    G1Known();
    CanonicalLine("G1 X5 Y5");
    XOfG1X5Y5(mc.motion.x);
    YOfG1X5Y5(mc.motion.y);
    ZOfG1X5Y5(mc.motion.z);
    DrawWithoutZKeepsHeight(mc, "G1 X5 Y5");
  }

  lemma ZOfG1X5Y5(c: real)
    ensures !Resolve("G1 X5 Y5", 'Z', c, true).given
  {
    var line := "G1 X5 Y5";
    assert forall i | 0 <= i < |line| :: line[i] != 'Z';
  }

  lemma LiftKeepsPlace(mc: Machine)
    ensures var r := ExecuteLine(mc, "M5");
      r.ok && r.machine.absolute == mc.absolute && Position(r.machine) == (mc.motion.x, mc.motion.y, PenUpZ)
  {
    CanonicalLine("M5");
    assert IndexOf("M5", ' ') == -1;
  }

  /** A run of four lines whose third is unknown ends where the first,
      second and fourth line, run one after another, leave the machine. */
  lemma FourLinesSkippingThird(mc: Machine, a: string, b: string, c: string, d: string)
    requires !Recognised(c)
    ensures RunLines(mc, [a, b, c, d]).machine
         == ExecuteLine(ExecuteLine(ExecuteLine(mc, a).machine, b).machine, d).machine
  {
    var l1: seq<string> := [a];
    var l2 := l1 + [b];
    var l3 := l2 + [c];
    RunLinesSnoc(mc, [], a);
    assert [] + [a] == l1;
    RunLinesSnoc(mc, l1, b);
    RunLinesSnoc(mc, l2, c);
    RunLinesSnoc(mc, l3, d);
    assert l3 + [d] == [a, b, c, d];
  }

  /** From power-on the block `G90\nG1 X5 Y5\nBOGUS\nM5` ends at (5, 5, 5):
      the unknown line in the middle changes nothing. */
  lemma BlockEndsAtFiveFiveFive()
    ensures Position(RunLines(Startup, Segments("G90\nG1 X5 Y5\nBOGUS\nM5")).machine) == (5.0, 5.0, PenUpZ)
  {
    BlockSegments();
    BogusUnknown();
    FourLinesSkippingThird(Startup, "G90", "G1 X5 Y5", "BOGUS", "M5");
    SetsAbsolute(Startup);
    var m1 := ExecuteLine(Startup, "G90").machine;
    DrawX5Y5(m1);
    LiftKeepsPlace(ExecuteLine(m1, "G1 X5 Y5").machine);
  }
}
