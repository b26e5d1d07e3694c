/** The Arduino `String` operations the G-code interpreter relies on:
    `trim`, `toUpperCase`, `indexOf`, and the newline scan of the block
    executor. Characters are treated one by one (ASCII semantics). */
module Text {

  /** `isspace` in the C locale: space, tab, newline, vertical tab, form
      feed, carriage return. */
  predicate IsSpace(c: char)
  {
    c == ' ' || c == '\t' || c == '\n' || c == '\r' || c as int == 11 || c as int == 12
  }

  /** The first position at or after `i` that is not white space (or the end). */
  function SkipSpaces(s: string, i: nat): (k: nat)
    requires i <= |s|
    ensures i <= k <= |s|
    ensures k < |s| ==> !IsSpace(s[k])
    decreases |s| - i
  {
    if i == |s| || !IsSpace(s[i]) then i else SkipSpaces(s, i + 1)
  }

  /** Walking back from `j` towards `lo` over white space: the position just
      after the last non-space character in `[lo, j)` (or `lo`). */
  function BackOverSpaces(s: string, lo: nat, j: nat): (k: nat)
    requires lo <= j <= |s|
    ensures lo <= k <= j
    ensures k > lo ==> !IsSpace(s[k - 1])
    decreases j
  {
    if j == lo || !IsSpace(s[j - 1]) then j else BackOverSpaces(s, lo, j - 1)
  }

  lemma {:induction false} SkippedAreSpaces(s: string, i: nat)
    requires i <= |s|
    ensures forall k :: i <= k < SkipSpaces(s, i) ==> IsSpace(s[k])
    decreases |s| - i
  {
    if i < |s| && IsSpace(s[i]) {
      SkippedAreSpaces(s, i + 1);
    }
  }

  lemma {:induction false} DroppedAreSpaces(s: string, lo: nat, j: nat)
    requires lo <= j <= |s|
    ensures forall k :: BackOverSpaces(s, lo, j) <= k < j ==> IsSpace(s[k])
    decreases j
  {
    if j > lo && IsSpace(s[j - 1]) {
      DroppedAreSpaces(s, lo, j - 1);
    }
  }

  /** Number of white-space characters `s` starts with. */
  function Leading(s: string): (n: nat)
    ensures n <= |s|
  {
    SkipSpaces(s, 0)
  }

  /** `String::trim`: skip white space from the front, then walk back from
      the end over white space, stopping at the first kept character. */
  function Trim(s: string): (r: string)
    ensures Leading(s) + |r| <= |s| && r == s[Leading(s)..Leading(s) + |r|]
    ensures |r| > 0 ==> !IsSpace(r[0]) && !IsSpace(r[|r| - 1])
  {
    var a := SkipSpaces(s, 0);
    s[a..BackOverSpaces(s, a, |s|)]
  }

  /** The trimmed text is the part of `s` between its leading and its
      trailing white space, and it is empty exactly when `s` is all white
      space. */
  lemma TrimRemovesOnlySpace(s: string)
    ensures forall i :: 0 <= i < Leading(s) ==> IsSpace(s[i])
    ensures forall i :: Leading(s) + |Trim(s)| <= i < |s| ==> IsSpace(s[i])
    ensures |Trim(s)| == 0 <==> forall i :: 0 <= i < |s| ==> IsSpace(s[i])
  {
    var a := SkipSpaces(s, 0);
    SkippedAreSpaces(s, 0);
    DroppedAreSpaces(s, a, |s|);
  }

  /** Text that neither starts nor ends with white space is its own trim. */
  lemma TrimKeeps(s: string)
    requires |s| == 0 || (!IsSpace(s[0]) && !IsSpace(s[|s| - 1]))
    ensures Trim(s) == s
  {
    if |s| > 0 {
      assert SkipSpaces(s, 0) == 0;
      assert BackOverSpaces(s, 0, |s|) == |s|;
    }
  }

  predicate IsLower(c: char)
  {
    'a' <= c <= 'z'
  }

  /** `toupper` on one character: only `a`..`z` change. */
  function UpperChar(c: char): char
  {
    if IsLower(c) then (c as int - 32) as char else c
  }

  /** `String::toUpperCase`. */
  function Upper(s: string): (r: string)
    ensures |r| == |s|
    ensures forall i :: 0 <= i < |s| ==> r[i] == UpperChar(s[i])
  {
    seq(|s|, i requires 0 <= i < |s| => UpperChar(s[i]))
  }

  /** After upper-casing no lower-case letter is left, and upper-casing again
      changes nothing. */
  lemma UpperNormalises(s: string)
    ensures forall i :: 0 <= i < |s| ==> !IsLower(Upper(s)[i])
    ensures Upper(Upper(s)) == Upper(s)
  {
  }

  /** Upper-casing never makes or removes white space, so both scans of
      `trim` stop at the same positions in `Upper(s)` as in `s`. */
  lemma {:induction false} SkipSpacesUpper(s: string, i: nat)
    requires i <= |s|
    ensures SkipSpaces(Upper(s), i) == SkipSpaces(s, i)
    decreases |s| - i
  {
    if i < |s| && IsSpace(s[i]) {
      SkipSpacesUpper(s, i + 1);
    }
  }

  lemma {:induction false} BackOverSpacesUpper(s: string, lo: nat, j: nat)
    requires lo <= j <= |s|
    ensures BackOverSpaces(Upper(s), lo, j) == BackOverSpaces(s, lo, j)
    decreases j
  {
    if j > lo && IsSpace(s[j - 1]) {
      BackOverSpacesUpper(s, lo, j - 1);
    }
  }

  /** Trimming and upper-casing commute. */
  lemma TrimUpper(s: string)
    ensures Trim(Upper(s)) == Upper(Trim(s))
  {
    var a := SkipSpaces(s, 0);
    SkipSpacesUpper(s, 0);
    BackOverSpacesUpper(s, a, |s|);
    var b := BackOverSpaces(s, a, |s|);
    assert Upper(s)[a..b] == Upper(s[a..b]);
  }

  /** Text without lower-case letters is its own upper-case form. */
  lemma UpperKeeps(s: string)
    requires forall i :: 0 <= i < |s| ==> !IsLower(s[i])
    ensures Upper(s) == s
  {
  }

  /** `String::indexOf(c, from)`: the position of the first `c` at or after
      `from`, or -1 when there is none. */
  function IndexFrom(s: string, c: char, from: nat): (r: int)
    ensures r == -1 || from <= r < |s|
    ensures r >= 0 ==> s[r] == c
    decreases |s| - from
  {
    if from >= |s| then -1
    else if s[from] == c then from
    else IndexFrom(s, c, from + 1)
  }

  /** `indexOf(c, from)` finds the first `c`: none occurs between `from`
      and the position returned (or the end, when it returns -1). */
  lemma {:induction false} IndexFromIsFirst(s: string, c: char, from: nat)
    ensures var r := IndexFrom(s, c, from);
      forall i :: from <= i < (if r < 0 then |s| else r) ==> s[i] != c
    decreases |s| - from
  {
    if from < |s| && s[from] != c {
      IndexFromIsFirst(s, c, from + 1);
    }
  }

  /** When `c` sits at `k` and nowhere between `from` and `k`, the scan
      from `from` stops at `k`. */
  lemma {:induction false} IndexFromAt(s: string, c: char, from: nat, k: nat)
    requires from <= k < |s| && s[k] == c
    requires forall i :: from <= i < k ==> s[i] != c
    ensures IndexFrom(s, c, from) == k
    decreases k - from
  {
    if from < k {
      IndexFromAt(s, c, from + 1, k);
    }
  }

  /** `String::indexOf(c)`: the position of the first `c`, or -1 when there
      is none. */
  function IndexOf(s: string, c: char): (r: int)
    ensures -1 <= r < |s|
    ensures r == -1 <==> c !in s
    ensures r >= 0 ==> s[r] == c && c !in s[..r]
  {
    var r := IndexFrom(s, c, 0);
    IndexFromIsFirst(s, c, 0);
    assert r >= 0 ==> forall i :: 0 <= i < r ==> s[..r][i] != c;
    r
  }

  /** The segments the block executor's scan visits from position `start`:
      text up to the next `\n` (or the end), then the segments after it,
      until the start passes the end. A final `\n` therefore opens no
      further segment, while an empty text has none. */
  function SegmentsFrom(s: string, start: nat): seq<string>
    decreases |s| - start
  {
    if start >= |s| then []
    else
      var e := IndexFrom(s, '\n', start);
      if e < 0 then [s[start..]] else [s[start..e]] + SegmentsFrom(s, e + 1)
  }

  function Segments(s: string): seq<string>
  {
    SegmentsFrom(s, 0)
  }

  /** One pass of the scan: the segment from `start` to the next newline (or
      the end), then the segments from just after it. */
  lemma SegmentsFromStep(s: string, start: nat)
    requires start < |s|
    ensures var e := IndexFrom(s, '\n', start); var end := if e == -1 then |s| else e;
      SegmentsFrom(s, start) == [s[start..end]] + SegmentsFrom(s, end + 1)
  {
    if IndexFrom(s, '\n', start) == -1 {
      assert s[start..] == s[start..|s|];
    }
  }

  /** One pass of the scan seen from the lines already taken: the segment
      from `start` to the next newline (or the end) joins them. */
  lemma NextSegment(s: string, start: nat, done: seq<string>)
    requires start < |s| && Segments(s) == done + SegmentsFrom(s, start)
    ensures var e := IndexFrom(s, '\n', start);
      var end := if e == -1 then |s| else e;
      Segments(s) == (done + [s[start..end]]) + SegmentsFrom(s, end + 1)
  {
    var e := IndexFrom(s, '\n', start);
    var end := if e == -1 then |s| else e;
    SegmentsFromStep(s, start);
    var rest := SegmentsFrom(s, end + 1);
    assert done + ([s[start..end]] + rest) == (done + [s[start..end]]) + rest;
  }

  /** The scan ends once the start passes the end of the text. */
  lemma SegmentsPast(s: string, start: nat)
    requires start >= |s|
    ensures SegmentsFrom(s, start) == []
  {
  }

  /** No segment contains a newline. */
  lemma {:induction false} SegmentsHaveNoNewline(s: string, start: nat)
    ensures forall i :: 0 <= i < |SegmentsFrom(s, start)| ==> '\n' !in SegmentsFrom(s, start)[i]
    decreases |s| - start
  {
    if start < |s| {
      var e := IndexFrom(s, '\n', start);
      IndexFromIsFirst(s, '\n', start);
      if e >= 0 {
        SegmentsHaveNoNewline(s, e + 1);
        NoNewlineBetween(s, start, e);
      } else {
        NoNewlineBetween(s, start, |s|);
      }
    }
  }

  /** The text before the newline the scan finds holds no newline. */
  lemma NoNewlineBetween(s: string, start: nat, e: int)
    requires start <= e <= |s|
    requires forall i :: start <= i < e ==> s[i] != '\n'
    ensures '\n' !in s[start..e]
  {
    assert forall j :: 0 <= j < e - start ==> s[start..e][j] == s[start + j];
  }

  /** Lines each followed by a newline, as a file whose every line is terminated. */
  function Terminated(ls: seq<string>): string
  {
    if |ls| == 0 then "" else ls[0] + "\n" + Terminated(ls[1..])
  }

  /** Lines separated by newlines, with no newline after the last. */
  function Joined(ls: seq<string>): string
  {
    if |ls| == 0 then "" else if |ls| == 1 then ls[0] else ls[0] + "\n" + Joined(ls[1..])
  }

  /** Scanning text that follows a prefix is scanning that text alone,
      with positions shifted by the prefix length. */
  lemma {:induction false} IndexFromShift(p: string, r: string, c: char, i: nat)
    ensures IndexFrom(p + r, c, |p| + i) == (if IndexFrom(r, c, i) < 0 then -1 else |p| + IndexFrom(r, c, i))
    decreases |r| - i
  {
    if i < |r| {
      assert (p + r)[|p| + i] == r[i];
      IndexFromShift(p, r, c, i + 1);
    }
  }

  lemma {:induction false} SegmentsFromShift(p: string, r: string, i: nat)
    ensures SegmentsFrom(p + r, |p| + i) == SegmentsFrom(r, i)
    decreases |r| - i
  {
    if i < |r| {
      var e := IndexFrom(r, '\n', i);
      if e < 0 {
        ShiftLastSegment(p, r, i);
      } else {
        SegmentsFromShift(p, r, e + 1);
        ShiftSegment(p, r, i);
      }
    }
  }

  lemma ShiftLastSegment(p: string, r: string, i: nat)
    requires i < |r| && IndexFrom(r, '\n', i) < 0
    ensures SegmentsFrom(p + r, |p| + i) == SegmentsFrom(r, i)
  {
    IndexFromShift(p, r, '\n', i);
    SliceOfAppend(p, r, i, |r|);
    SegmentsFromStep(p + r, |p| + i);
    SegmentsFromStep(r, i);
  }

  lemma ShiftSegment(p: string, r: string, i: nat)
    requires i < |r|
    requires var e := IndexFrom(r, '\n', i);
      e >= 0 && SegmentsFrom(p + r, |p| + e + 1) == SegmentsFrom(r, e + 1)
    ensures SegmentsFrom(p + r, |p| + i) == SegmentsFrom(r, i)
  {
    var e := IndexFrom(r, '\n', i);
    IndexFromShift(p, r, '\n', i);
    SliceOfAppend(p, r, i, e);
    SegmentsFromStep(p + r, |p| + i);
    SegmentsFromStep(r, i);
  }

  lemma SliceOfAppend(p: string, r: string, a: nat, b: nat)
    requires a <= b <= |r|
    ensures (p + r)[|p| + a..|p| + b] == r[a..b]
    ensures (p + r)[|p| + a..] == r[a..]
  {
  }

  /** The scan finds the newline that ends a first line `l` and continues
      with what follows it. */
  lemma FirstSegment(l: string, rest: string)
    requires '\n' !in l
    ensures Segments(l + "\n" + rest) == [l] + Segments(rest)
  {
    var s := l + "\n" + rest;
    assert s == (l + "\n") + rest;
    assert forall j :: 0 <= j < |l| ==> s[j] == l[j];
    assert s[|l|] == '\n';
    IndexFromAt(s, '\n', 0, |l|);
    assert s[0..|l|] == l;
    assert Segments(s) == [l] + SegmentsFrom(s, |l| + 1);
    SegmentsFromShift(l + "\n", rest, 0);
  }

  /** Splitting recovers the lines of a text in which every line ends with
      a newline: the newline after the last line adds no empty segment. */
  lemma {:induction false} SegmentsOfTerminated(ls: seq<string>)
    requires forall i :: 0 <= i < |ls| ==> '\n' !in ls[i]
    ensures Segments(Terminated(ls)) == ls
  {
    if |ls| > 0 {
      FirstSegment(ls[0], Terminated(ls[1..]));
      SegmentsOfTerminated(ls[1..]);
      assert ls == [ls[0]] + ls[1..];
    }
  }

  /** Splitting recovers the lines of a newline-separated text, provided the
      last line is not empty (an empty last line leaves only a trailing
      newline, which opens no segment). */
  lemma {:induction false} SegmentsOfJoined(ls: seq<string>)
    requires forall i :: 0 <= i < |ls| ==> '\n' !in ls[i]
    requires |ls| > 0 ==> |ls[|ls| - 1]| > 0
    ensures Segments(Joined(ls)) == ls
  {
    if |ls| == 1 {
      assert IndexFrom(ls[0], '\n', 0) == -1;
      assert ls[0][0..] == ls[0];
    } else if |ls| > 1 {
      var tail := ls[1..];
      assert tail[|tail| - 1] == ls[|ls| - 1];
      FirstSegment(ls[0], Joined(tail));
      SegmentsOfJoined(tail);
      assert ls == [ls[0]] + tail;
    }
  }
}
