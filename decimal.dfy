/** Decimal digit strings: the `\d+` runs of the formatter's placeholders
    and the canonical spelling of a natural number, which is how JavaScript
    writes an array index as a property key. */
module Decimal {

  predicate IsDigit(c: char) {
    '0' <= c <= '9'
  }

  predicate AllDigits(s: string) {
    forall i :: 0 <= i < |s| ==> IsDigit(s[i])
  }

  function DigitValue(c: char): nat
    requires IsDigit(c)
  {
    (c as int) - ('0' as int)
  }

  function DigitChar(d: nat): (c: char)
    requires d < 10
    ensures IsDigit(c) && DigitValue(c) == d
  {
    ('0' as int + d) as char
  }

  /** The number a run of digits spells, most significant digit first. */
  function Value(s: string): nat
    requires AllDigits(s)
  {
    if s == [] then 0 else Value(s[..|s| - 1]) * 10 + DigitValue(s[|s| - 1])
  }

  /** A digit string in the form `String(n)` produces: non-empty and without a
      leading zero unless it is "0" itself. Exactly these strings are array
      indices when used as property keys. */
  predicate Canonical(s: string) {
    |s| > 0 && AllDigits(s) && (s[0] != '0' || |s| == 1)
  }

  /** `String(n)` for a natural number `n`. */
  function Show(n: nat): (s: string)
    ensures Canonical(s) && Value(s) == n
    decreases n
  {
    if n < 10 then [DigitChar(n)]
    else
      var p := Show(n / 10);
      assert (p + [DigitChar(n % 10)])[..|p|] == p;
      p + [DigitChar(n % 10)]
  }

  lemma {:induction false} LeadingDigitBound(s: string)
    requires AllDigits(s) && |s| > 0
    ensures Value(s) >= DigitValue(s[0])
    decreases |s|
  {
    if |s| > 1 {
      var p := s[..|s| - 1];
      assert p[0] == s[0];
      LeadingDigitBound(p);
    }
  }

  /** The other half of the round trip: a canonical string is the spelling of
      its own value, so `Show` and `Value` are inverse bijections between
      naturals and canonical strings. */
  lemma {:induction false} ShowValue(s: string)
    requires Canonical(s)
    ensures Show(Value(s)) == s
    decreases |s|
  {
    if |s| > 1 {
      var p := s[..|s| - 1];
      assert p[0] == s[0];
      LeadingDigitBound(p);
      ShowValue(p);
      var d := DigitValue(s[|s| - 1]);
      assert Value(s) / 10 == Value(p) && Value(s) % 10 == d;
      assert DigitChar(d) == s[|s| - 1];
      assert s == p + [s[|s| - 1]];
    }
  }
}
