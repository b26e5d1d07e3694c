/** Properties of the interpreter's parsing: how parameters are read and
    resolved, how the mnemonic is cut, and what a block's count means. */
module GCodeProperties {
  import opened Text
  import opened Number
  import opened Motion
  import opened GCode

  /** Relative mode is absolute mode shifted by the current coordinate: the
      same number is read either way, and relative adds it to where the axis
      is. Without the letter both modes keep the current coordinate. */
  lemma RelativeIsOffset(line: string, letter: char, current: real)
    ensures var abs := Resolve(line, letter, current, true);
      var rel := Resolve(line, letter, current, false);
      && abs.given == rel.given
      && (abs.given ==> rel.value == current + abs.value)
      && (!abs.given ==> rel.value == abs.value == current)
  {
  }

  /** A parameter is read from the first occurrence of its letter: the
      number is whatever `toFloat` makes of the text right after it,
      taken as the target (absolute) or added to the current coordinate
      (relative). */
  lemma ReadsAfterFirstOccurrence(pre: string, letter: char, tail: string, current: real, absolute: bool)
    requires letter !in pre
    ensures Resolve(pre + [letter] + tail, letter, current, absolute)
         == Param(true, if absolute then ParseNumber(tail) else current + ParseNumber(tail))
  {
    var s := pre + [letter] + tail;
    assert forall i :: 0 <= i < |pre| ==> s[i] == pre[i];
    assert s[|pre|] == letter;
    IndexFromAt(s, letter, 0, |pre|);
    assert s[|pre| + 1..] == tail;
  }

  /** With an integer `n` written right after the first occurrence of the
      letter and followed by anything that cannot continue a number, the
      parameter is `n` (absolute) or the current coordinate plus `n`
      (relative), whatever comes later in the line, including other
      occurrences of the letter. */
  lemma ReadsFirstOccurrence(pre: string, letter: char, n: int, rest: string, current: real, absolute: bool)
    requires letter !in pre
    requires Stops(rest)
    ensures Resolve(pre + [letter] + (IntToString(n) + rest), letter, current, absolute)
         == Param(true, if absolute then n as real else current + n as real)
  {
    ReadsAfterFirstOccurrence(pre, letter, IntToString(n) + rest, current, absolute);
    ParseRendered(n, rest);
  }

  /** The same for a decimal `[-]a.ds`, the form the web front end sends:
      the parameter is that decimal, or the current coordinate plus it. */
  lemma ReadsFirstDecimal(pre: string, letter: char, negative: bool, a: nat, ds: string, rest: string,
                          current: real, absolute: bool)
    requires letter !in pre
    requires forall i :: 0 <= i < |ds| ==> IsDigit(ds[i])
    requires |rest| == 0 || !IsDigit(rest[0])
    ensures var v := if negative then -DecimalValue(a, ds) else DecimalValue(a, ds);
      Resolve(pre + [letter] + (Sign(negative) + (NatToString(a) + ("." + (ds + rest)))), letter, current, absolute)
         == Param(true, if absolute then v else current + v)
  {
    ReadsAfterFirstOccurrence(pre, letter, Sign(negative) + (NatToString(a) + ("." + (ds + rest))), current, absolute);
    ParseDecimal(negative, a, ds, rest);
  }

  /** A line already in canonical form (no surrounding white space, no
      lower-case letter) is read as it stands. */
  lemma CanonicalLine(raw: string)
    requires |raw| == 0 || (!IsSpace(raw[0]) && !IsSpace(raw[|raw| - 1]))
    requires forall i :: 0 <= i < |raw| ==> !IsLower(raw[i])
    ensures Preprocess(raw) == raw
  {
    TrimKeeps(raw);
    UpperKeeps(raw);
  }

  /** Only a space ends the mnemonic: without one the whole line is looked
      up, and `G1X5` is not a command. */
  lemma NoSpaceNoCommand()
    ensures Kind("G1X5") == Instr(Unknown)
  {
    CanonicalLine("G1X5");
    assert IndexOf("G1X5", ' ') == -1;
  }

  /** A tab does not separate the mnemonic either. */
  lemma TabIsNoSeparator()
    ensures Kind("G1\tX5") == Instr(Unknown)
  {
    CanonicalLine("G1\tX5");
    assert IndexOf("G1\tX5", ' ') == -1;
  }

  /** With a space, the text before it is the mnemonic. */
  lemma SpaceSeparates()
    ensures Kind("G1 X5") == Instr(Draw)
  {
    CanonicalLine("G1 X5");
    assert IndexOf("G1 X5", ' ') == 2;
    assert Mnemonic("G1 X5") == "G1";
  }

  /** Case and surrounding white space do not matter: the line is trimmed
      and upper-cased before it is read, so upper-casing it, trimming it or
      doing both beforehand changes nothing, for every line and state. */
  lemma CaseAndSpaceInsensitive(mc: Machine, raw: string)
    ensures ExecuteLine(mc, Upper(raw)) == ExecuteLine(mc, raw)
    ensures ExecuteLine(mc, Trim(raw)) == ExecuteLine(mc, raw)
    ensures ExecuteLine(mc, Preprocess(raw)) == ExecuteLine(mc, raw)
  {
    var t := Trim(raw);
    TrimUpper(raw);
    UpperNormalises(t);
    assert Preprocess(Upper(raw)) == Preprocess(raw);
    SameReading(mc, Upper(raw), raw);
    TrimKeeps(t);
    assert Preprocess(t) == Preprocess(raw);
    SameReading(mc, t, raw);
    TrimUpper(t);
    assert Preprocess(Upper(t)) == Preprocess(raw);
    SameReading(mc, Upper(t), raw);
  }

  /** Two lines with the same preprocessed form run alike. */
  lemma SameReading(mc: Machine, a: string, b: string)
    requires Preprocess(a) == Preprocess(b)
    ensures ExecuteLine(mc, a) == ExecuteLine(mc, b)
  {
  }

  /** A lower-case, padded `g28` homes. */
  lemma PaddedLowerCaseHomes()
    ensures Kind("  g28\r") == Instr(Home)
  {
    var s := "  g28\r";
    assert SkipSpaces(s, 0) == SkipSpaces(s, 1) == SkipSpaces(s, 2) == 2;
    assert BackOverSpaces(s, 2, 6) == BackOverSpaces(s, 2, 5) == 5;
    assert Trim(s) == "g28";
    assert Upper("g28") == "G28";
    assert IndexOf("G28", ' ') == -1;
  }

  /** Comment lines (starting with `;` or `(` once trimmed) and lines of
      white space only do nothing and count as successes. */
  lemma CommentsSucceed(mc: Machine, raw: string)
    requires (|Trim(raw)| > 0 && Trim(raw)[0] in {';', '('}) || forall i :: 0 <= i < |raw| ==> IsSpace(raw[i])
    ensures ExecuteLine(mc, raw) == LineResult(true, mc, [])
  {
    TrimRemovesOnlySpace(raw);
  }

  /** `G1` resolves its targets from the position the line starts at, before
      its own pen-down: with X or Y given but no Z, the move returns the pen
      to the height it had when the line started. */
  lemma DrawWithoutZKeepsHeight(mc: Machine, raw: string)
    requires Kind(raw) == Instr(Draw)
    requires 'Z' !in Preprocess(raw) && ('X' in Preprocess(raw) || 'Y' in Preprocess(raw))
    ensures var r := ExecuteLine(mc, raw);
      && r.ok && r.machine.absolute == mc.absolute
      && Position(r.machine) == (ParamX(mc, raw).value, ParamY(mc, raw).value, mc.motion.z)
  {
  }

  /** `G0` ignores Z: it always ends with the pen up. */
  lemma TravelIgnoresZ(mc: Machine, raw: string)
    requires Kind(raw) == Instr(Travel)
    ensures ExecuteLine(mc, raw).machine.motion.z == PenUpZ
  {
  }
}
