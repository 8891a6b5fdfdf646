/**
 * The Python built-ins the interpreter relies on, restricted to ASCII:
 * str.isdigit, int() of a token, and str() of an int.
 */
module Builtins {
  import opened Outcomes

  predicate IsDigit(c: char) {
    '0' <= c <= '9'
  }

  /** str.isdigit: a non-empty string of decimal digits. */
  predicate IsDigits(s: string) {
    |s| > 0 && forall i :: 0 <= i < |s| ==> IsDigit(s[i])
  }

  predicate AllDigits(s: string) {
    forall i :: 0 <= i < |s| ==> IsDigit(s[i])
  }

  function DigitValue(c: char): (d: nat)
    requires IsDigit(c)
    ensures d < 10
  {
    c as int - '0' as int
  }

  function DigitChar(d: nat): (c: char)
    requires d < 10
    ensures IsDigit(c) && DigitValue(c) == d
  {
    ('0' as int + d) as char
  }

  /** The number a string of decimal digits denotes, most significant digit first. */
  function DigitsValue(s: string): nat
    requires AllDigits(s)
  {
    if s == [] then 0 else DigitsValue(s[..|s| - 1]) * 10 + DigitValue(s[|s| - 1])
  }

  /** int(s) for an optionally signed decimal literal; None where Python raises ValueError. */
  function ParseInt(s: string): (r: Option<int>)
    ensures r.Some? <==> IsDigits(s) || (|s| > 1 && (s[0] == '-' || s[0] == '+') && IsDigits(s[1..]))
    ensures IsDigits(s) ==> r.Some? && r.value >= 0
  {
    if IsDigits(s) then Some(DigitsValue(s))
    else if |s| > 1 && s[0] == '-' && IsDigits(s[1..]) then Some(0 - DigitsValue(s[1..]) as int)
    else if |s| > 1 && s[0] == '+' && IsDigits(s[1..]) then Some(DigitsValue(s[1..]))
    else None
  }

  /** str(n) for a natural number: its shortest decimal numeral. */
  function NatToString(n: nat): string
  {
    if n < 10 then [DigitChar(n)] else NatToString(n / 10) + [DigitChar(n % 10)]
  }

  /** str(i) for an int: a minus sign before the numeral of a negative number. */
  function IntToString(i: int): string
  {
    if i < 0 then "-" + NatToString(-i) else NatToString(i)
  }

  /** A numeral as str() writes it: no leading zero unless it is "0" itself. */
  predicate Canonical(s: string) {
    IsDigits(s) && (s[0] == '0' ==> |s| == 1)
  }

  lemma {:induction false} NatToStringIsCanonical(n: nat)
    ensures Canonical(NatToString(n))
    ensures DigitsValue(NatToString(n)) == n
  {
    if n >= 10 {
      NatToStringIsCanonical(n / 10);
      var s := NatToString(n / 10);
      var t := s + [DigitChar(n % 10)];
      assert t[..|t| - 1] == s;
      assert t[0] == s[0];
    }
  }

  /** int(str(i)) == i. */
  lemma IntToStringRoundTrip(i: int)
    ensures ParseInt(IntToString(i)) == Some(i)
  {
    if i < 0 {
      NatToStringIsCanonical(-i);
      var s := IntToString(i);
      assert s[1..] == NatToString(-i);
      assert !IsDigits(s);
    } else {
      NatToStringIsCanonical(i);
    }
  }

  lemma {:induction false} LeadingDigitBounds(s: string)
    requires IsDigits(s) && s[0] != '0'
    ensures DigitsValue(s) > 0
  {
    if |s| > 1 {
      var p := s[..|s| - 1];
      assert p[0] == s[0];
      LeadingDigitBounds(p);
    } else {
      assert DigitsValue(s) == DigitsValue(s[..0]) * 10 + DigitValue(s[0]);
    }
  }

  /** str(int(s)) == s for every numeral str() can produce. */
  lemma {:induction false} CanonicalRoundTrip(s: string)
    requires Canonical(s)
    ensures NatToString(DigitsValue(s)) == s
  {
    var n := |s|;
    if n == 1 {
      assert s[..0] == [];
      assert [DigitChar(DigitValue(s[0]))] == s;
    } else {
      var p := s[..n - 1];
      assert p[0] == s[0];
      LeadingDigitBounds(p);
      CanonicalRoundTrip(p);
      var v := DigitsValue(s);
      assert v / 10 == DigitsValue(p) && v % 10 == DigitValue(s[n - 1]);
      assert DigitChar(DigitValue(s[n - 1])) == s[n - 1];
      assert p + [s[n - 1]] == s;
    }
  }
}
