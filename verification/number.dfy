/** `String::toFloat` as the interpreter uses it: read the longest decimal
    prefix (white space, an optional sign, digits, an optional fraction) and
    return 0 when that prefix holds no digit. */
module Number {
  import Text

  predicate IsDigit(c: char)
  {
    '0' <= c <= '9'
  }

  function DigitValue(c: char): nat
    requires IsDigit(c)
  {
    c as int - '0' as int
  }

  function DigitChar(d: nat): (c: char)
    requires d < 10
    ensures IsDigit(c) && DigitValue(c) == d
  {
    ('0' as int + d) as char
  }

  /** The longest prefix of `s` made of digits. */
  function DigitPrefix(s: string): (r: string)
    ensures |r| <= |s| && r == s[..|r|]
    ensures forall i :: 0 <= i < |r| ==> IsDigit(r[i])
    ensures |r| < |s| ==> !IsDigit(s[|r|])
  {
    if |s| > 0 && IsDigit(s[0]) then [s[0]] + DigitPrefix(s[1..]) else []
  }

  /** The number a string of decimal digits denotes (0 for no digits). */
  function DigitsValue(ds: string): nat
    requires forall i :: 0 <= i < |ds| ==> IsDigit(ds[i])
  {
    if |ds| == 0 then 0 else DigitsValue(ds[..|ds| - 1]) * 10 + DigitValue(ds[|ds| - 1])
  }

  function Pow10(n: nat): (r: nat)
    ensures r > 0
  {
    if n == 0 then 1 else 10 * Pow10(n - 1)
  }

  /** Leading white space removed, as `strtod` does. */
  function SkipSpace(s: string): string
  {
    s[Text.SkipSpaces(s, 0)..]
  }

  /** The value of the decimal prefix of `s`: digits, then optionally a point
      and more digits. Reading stops at the first character that does not fit. */
  function Magnitude(s: string): (r: real)
    ensures r >= 0.0
  {
    var ip := DigitPrefix(s);
    var rest := s[|ip|..];
    var fp := if |rest| > 0 && rest[0] == '.' then DigitPrefix(rest[1..]) else [];
    DigitsValue(ip) as real + DigitsValue(fp) as real / Pow10(|fp|) as real
  }

  /** `String::toFloat`. A string with no digit where the number should be
      reads as 0. */
  function ParseNumber(s: string): (r: real)
    ensures r < 0.0 ==> var t := SkipSpace(s); |t| > 0 && t[0] == '-'
  {
    var t := SkipSpace(s);
    if |t| > 0 && t[0] == '-' then -Magnitude(t[1..])
    else if |t| > 0 && t[0] == '+' then Magnitude(t[1..])
    else Magnitude(t)
  }

  /** Decimal rendering of a natural number, without leading zeros. */
  function NatToString(n: nat): (s: string)
    ensures |s| > 0
    ensures forall i :: 0 <= i < |s| ==> IsDigit(s[i])
  {
    if n < 10 then [DigitChar(n)] else NatToString(n / 10) + [DigitChar(n % 10)]
  }

  /** Decimal rendering of an integer, with a `-` when negative. */
  function IntToString(n: int): string
  {
    if n < 0 then "-" + NatToString(-n) else NatToString(n)
  }

  /** Reading back a rendered natural number gives the number. */
  lemma {:induction false} DigitsValueOfNatToString(n: nat)
    ensures DigitsValue(NatToString(n)) == n
  {
    if n >= 10 {
      var s := NatToString(n);
      assert s[..|s| - 1] == NatToString(n / 10);
      DigitsValueOfNatToString(n / 10);
    }
  }

  /** The digit prefix of digits followed by a non-digit is those digits. */
  lemma {:induction false} DigitPrefixOf(ds: string, rest: string)
    requires forall i :: 0 <= i < |ds| ==> IsDigit(ds[i])
    requires |rest| == 0 || !IsDigit(rest[0])
    ensures DigitPrefix(ds + rest) == ds
  {
    if |ds| > 0 {
      assert (ds + rest)[1..] == ds[1..] + rest;
      DigitPrefixOf(ds[1..], rest);
      assert ds == [ds[0]] + ds[1..];
    } else {
      assert ds + rest == rest;
    }
  }

  /** What may follow a number without being read as part of it: anything but
      a digit or a decimal point. */
  predicate Stops(rest: string)
  {
    |rest| == 0 || (!IsDigit(rest[0]) && rest[0] != '.')
  }

  /** `toFloat` reads back any rendered integer, whatever non-numeric text
      follows it: this is how "X12 Y-3" yields 12 for X. */
  lemma ParseRendered(n: int, rest: string)
    requires Stops(rest)
    ensures ParseNumber(IntToString(n) + rest) == n as real
  {
    if n < 0 {
      var t := NatToString(-n) + rest;
      MagnitudeRendered(-n, rest);
      assert IntToString(n) + rest == "-" + t;
      SignedRendered(t);
    } else {
      var t := NatToString(n) + rest;
      MagnitudeRendered(n, rest);
      UnsignedRendered(t);
    }
  }

  /** A leading minus sign negates the magnitude that follows it. */
  lemma SignedRendered(t: string)
    ensures ParseNumber("-" + t) == -Magnitude(t)
  {
    assert ("-" + t)[0] == '-';
    assert ("-" + t)[1..] == t;
  }

  /** Text starting with a digit is read as a magnitude. */
  lemma UnsignedRendered(t: string)
    requires |t| > 0 && IsDigit(t[0])
    ensures ParseNumber(t) == Magnitude(t)
  {
    assert !Text.IsSpace(t[0]);
    assert SkipSpace(t) == t;
  }

  /** The decimal prefix of a rendered natural number followed by a stop is
      that number. */
  lemma MagnitudeRendered(a: nat, rest: string)
    requires Stops(rest)
    ensures |NatToString(a) + rest| > 0 && IsDigit((NatToString(a) + rest)[0])
    ensures Magnitude(NatToString(a) + rest) == a as real
  {
    var ds := NatToString(a);
    DigitPrefixOf(ds, rest);
    DigitsValueOfNatToString(a);
    assert (ds + rest)[|ds|..] == rest;
    assert (ds + rest)[0] == ds[0];
  }

  /** The value of a decimal with integer part `a` and fraction digits `ds`. */
  function DecimalValue(a: nat, ds: string): real
    requires forall i :: 0 <= i < |ds| ==> IsDigit(ds[i])
  {
    a as real + DigitsValue(ds) as real / Pow10(|ds|) as real
  }

  /** The digits of `a`, a point and the digits `ds`, followed by anything
      that is not a digit, read as that decimal. */
  lemma MagnitudeDecimal(a: nat, ds: string, rest: string)
    requires forall i :: 0 <= i < |ds| ==> IsDigit(ds[i])
    requires |rest| == 0 || !IsDigit(rest[0])
    ensures Magnitude(NatToString(a) + ("." + (ds + rest))) == DecimalValue(a, ds)
  {
    var n := NatToString(a);
    var tail := "." + (ds + rest);
    DigitPrefixOf(n, tail);
    DigitsValueOfNatToString(a);
    assert (n + tail)[|n|..] == tail;
    assert tail[1..] == ds + rest;
    DigitPrefixOf(ds, rest);
  }

  /** An optional minus sign. */
  function Sign(negative: bool): string
  {
    if negative then "-" else ""
  }

  /** `toFloat` reads back a decimal `[-]a.ds` exactly, whatever non-digit
      text follows it: this is how "X12.34" yields 12.34 and "Y-0.50"
      yields -0.5. */
  lemma ParseDecimal(negative: bool, a: nat, ds: string, rest: string)
    requires forall i :: 0 <= i < |ds| ==> IsDigit(ds[i])
    requires |rest| == 0 || !IsDigit(rest[0])
    ensures ParseNumber(Sign(negative) + (NatToString(a) + ("." + (ds + rest))))
         == if negative then -DecimalValue(a, ds) else DecimalValue(a, ds)
  {
    var t := NatToString(a) + ("." + (ds + rest));
    MagnitudeDecimal(a, ds, rest);
    assert t[0] == NatToString(a)[0];
    if negative {
      SignedRendered(t);
    } else {
      assert Sign(false) + t == t;
      UnsignedRendered(t);
    }
  }

  /** Text that does not start (after white space and a sign) with a digit,
      or a point followed by a digit, reads as 0: a malformed parameter is
      not an error. */
  lemma NonNumericIsZero(s: string)
    requires var t := SkipSpace(s);
      var u := if |t| > 0 && (t[0] == '-' || t[0] == '+') then t[1..] else t;
      (|u| == 0 || !IsDigit(u[0])) && (|u| < 2 || u[0] != '.' || !IsDigit(u[1]))
    ensures ParseNumber(s) == 0.0
  {
  }
}
