/** Event sequences used to describe stepping traces: a run of identical
    events, and the pairwise interleaving that the X/Y co-stepping loop
    produces. */
module Schedule {
  import opened Base

  /** `n` copies of `e`. */
  function Repeat<T>(e: T, n: nat): (r: seq<T>)
    ensures |r| == n
  {
    seq(n, _ => e)
  }

  /** Take one element of `a`, then one of `b`, while both last; then the
      remainder of whichever is longer. */
  function Interleave<T>(a: seq<T>, b: seq<T>): (r: seq<T>)
    ensures |r| == |a| + |b|
    decreases |a| + |b|
  {
    if |a| == 0 then b
    else if |b| == 0 then a
    else [a[0], b[0]] + Interleave(a[1..], b[1..])
  }

  lemma RepeatTail<T>(e: T, n: nat)
    requires n > 0
    ensures Repeat(e, n) == [e] + Repeat(e, n - 1)
    ensures Repeat(e, n)[1..] == Repeat(e, n - 1)
  {
    assert Repeat(e, n) == [e] + Repeat(e, n - 1);
  }

  /** Peeling the first iteration off an interleaving of two runs: one
      element of each run that is not yet empty. */
  lemma InterleaveStep<T>(ex: T, ey: T, a: nat, b: nat)
    ensures Interleave(Repeat(ex, a), Repeat(ey, b))
         == (if a > 0 then [ex] else []) + (if b > 0 then [ey] else [])
            + Interleave(Repeat(ex, if a > 0 then a - 1 else 0), Repeat(ey, if b > 0 then b - 1 else 0))
  {
    if a > 0 { RepeatTail(ex, a); }
    if b > 0 { RepeatTail(ey, b); }
  }

  /** A run of `e` holds exactly `n` occurrences of `e` and nothing else. */
  lemma {:induction false} RepeatMultiset<T>(e: T, n: nat)
    ensures multiset(Repeat(e, n)) == multiset{} [e := n]
  {
    if n > 0 {
      RepeatTail(e, n);
      RepeatMultiset(e, n - 1);
      assert multiset(Repeat(e, n)) == multiset{e} + multiset(Repeat(e, n - 1));
    }
  }

  /** Interleaving neither loses nor invents elements. */
  lemma {:induction false} InterleaveMultiset<T>(a: seq<T>, b: seq<T>)
    ensures multiset(Interleave(a, b)) == multiset(a) + multiset(b)
    decreases |a| + |b|
  {
    if |a| != 0 && |b| != 0 {
      InterleaveMultiset(a[1..], b[1..]);
      assert a == [a[0]] + a[1..];
      assert b == [b[0]] + b[1..];
    }
  }

  /** The shape of an interleaving of two runs: strict alternation for the
      first `2 * min(a, b)` positions (the diagonal), then the longer run
      alone (the straight tail). */
  ghost predicate DiagonalThenTail<T>(t: seq<T>, ex: T, ey: T, a: nat, b: nat)
  {
    && |t| == a + b
    && (forall j :: 0 <= j < 2 * Min(a, b) ==> t[j] == (if j % 2 == 0 then ex else ey))
    && (forall j :: 2 * Min(a, b) <= j < a + b ==> t[j] == (if a >= b then ex else ey))
  }

  lemma {:induction false} InterleaveRunsShape<T>(ex: T, ey: T, a: nat, b: nat)
    ensures DiagonalThenTail(Interleave(Repeat(ex, a), Repeat(ey, b)), ex, ey, a, b)
    decreases a + b
  {
    var t := Interleave(Repeat(ex, a), Repeat(ey, b));
    if a > 0 && b > 0 {
      RepeatTail(ex, a);
      RepeatTail(ey, b);
      var u := Interleave(Repeat(ex, a - 1), Repeat(ey, b - 1));
      InterleaveRunsShape(ex, ey, a - 1, b - 1);
      assert DiagonalThenTail(u, ex, ey, a - 1, b - 1);
      assert t == [ex, ey] + u;
      assert Min(a, b) == Min(a - 1, b - 1) + 1;
      forall j | 0 <= j < 2 * Min(a, b)
        ensures t[j] == (if j % 2 == 0 then ex else ey)
      {
        if j >= 2 {
          assert 0 <= j - 2 < 2 * Min(a - 1, b - 1);
          assert t[j] == u[j - 2];
          assert u[j - 2] == (if (j - 2) % 2 == 0 then ex else ey);
          assert (j - 2) % 2 == j % 2;
        }
      }
      forall j | 2 * Min(a, b) <= j < a + b
        ensures t[j] == (if a >= b then ex else ey)
      {
        assert 2 * Min(a - 1, b - 1) <= j - 2 < (a - 1) + (b - 1);
        assert t[j] == u[j - 2];
        assert u[j - 2] == (if a - 1 >= b - 1 then ex else ey);
      }
    }
  }

  /** Round `i` of a loop that runs `max(a, b)` rounds and in round `i`
      emits `ex` if `i < a`, then `ey` if `i < b`. */
  function Round<T>(ex: T, ey: T, a: nat, b: nat, i: nat): seq<T>
  {
    (if i < a then [ex] else []) + (if i < b then [ey] else [])
  }

  /** Rounds `i` up to `max(a, b) - 1` of that loop, in order. */
  function Rounds<T>(ex: T, ey: T, a: nat, b: nat, i: nat): seq<T>
    requires i <= Max(a, b)
    decreases Max(a, b) - i
  {
    if i == Max(a, b) then [] else Round(ex, ey, a, b, i) + Rounds(ex, ey, a, b, i + 1)
  }

  /** The round-by-round loop emits exactly the interleaving of the two runs
      that are still owed from round `i` on; in particular, from round 0 it
      emits `Interleave(Repeat(ex, a), Repeat(ey, b))` in `max(a, b)` rounds,
      every round non-empty. */
  lemma {:induction false} RoundsAreInterleaving<T>(ex: T, ey: T, a: nat, b: nat, i: nat)
    requires i <= Max(a, b)
    ensures Rounds(ex, ey, a, b, i)
         == Interleave(Repeat(ex, if i < a then a - i else 0), Repeat(ey, if i < b then b - i else 0))
    ensures i < Max(a, b) ==> |Round(ex, ey, a, b, i)| > 0
    decreases Max(a, b) - i
  {
    if i < Max(a, b) {
      RoundsAreInterleaving(ex, ey, a, b, i + 1);
      InterleaveStep(ex, ey, if i < a then a - i else 0, if i < b then b - i else 0);
    }
  }

  /** When one run is strictly shorter, all of its elements come before the
      final element of the interleaving, which belongs to the longer run:
      the shorter axis finishes strictly before the longer one. */
  lemma ShorterRunFinishesFirst<T>(ex: T, ey: T, a: nat, b: nat)
    requires ex != ey && a != b
    ensures var t := Interleave(Repeat(ex, a), Repeat(ey, b));
      && t[|t| - 1] == (if a < b then ey else ex)
      && (forall j :: 0 <= j < |t| && t[j] == (if a < b then ex else ey) ==> j < 2 * Min(a, b) <= |t| - 1)
  {
    InterleaveRunsShape(ex, ey, a, b);
  }
}
