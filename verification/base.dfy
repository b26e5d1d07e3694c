/** Small shared definitions: an optional value, integer helpers and the
    C++ `(int)` conversion of a floating-point value (truncation toward zero). */
module Base {

  datatype Option<+T> = None | Some(value: T)

  function Abs(n: int): (r: nat)
    ensures r == n || r == -n
  {
    if n < 0 then -n else n
  }

  function Min(a: int, b: int): (r: int)
    ensures r <= a && r <= b && (r == a || r == b)
  {
    if a <= b then a else b
  }

  function Max(a: int, b: int): (r: int)
    ensures r >= a && r >= b && (r == a || r == b)
  {
    if a >= b then a else b
  }

  /** `(int) v` in C++: drop the fractional part, rounding toward zero.
      The contract pins the result down uniquely: it has the sign of `v`
      and lies less than one unit closer to zero than `v`. */
  function Trunc(v: real): (t: int)
    ensures 0.0 <= v ==> 0 <= t && t as real <= v < t as real + 1.0
    ensures v < 0.0 ==> t <= 0 && t as real - 1.0 < v <= t as real
  {
    if v >= 0.0 then v.Floor else -((-v).Floor)
  }

  /** Truncation is symmetric about zero, unlike `Floor`. */
  lemma TruncNegate(v: real)
    ensures Trunc(-v) == -Trunc(v)
  {
  }

  /** The magnitude of a truncated value is at most the magnitude of the
      value, and less than one step short of it. */
  lemma TruncMagnitude(v: real)
    ensures Abs(Trunc(v)) as real <= (if v < 0.0 then -v else v)
    ensures (if v < 0.0 then -v else v) < Abs(Trunc(v)) as real + 1.0
  {
  }
}
