/**
 * Decimal text for the numbers the order page shows: a non-negative integer
 * as JavaScript's `String(n)` writes it, and an amount in cents as
 * `(cents / 100).toFixed(2)` writes it ("90.00", "360.00").
 * Each formatter has a reader, and the round trip is proved.
 */
module Decimal {
  import opened Wrappers

  predicate IsDigit(c: char) {
    '0' <= c <= '9'
  }

  predicate AllDigits(s: string) {
    forall i :: 0 <= i < |s| ==> IsDigit(s[i])
  }

  function DigitValue(c: char): nat
    requires IsDigit(c)
  {
    c as int - '0' as int
  }

  function DigitChar(d: nat): (c: char)
    requires d < 10
    ensures IsDigit(c) && DigitValue(c) == d
  {
    ('0' as int + d) as char
  }

  /** The number a string of decimal digits denotes, most significant digit first. */
  function DigitsValue(s: string): nat
    requires AllDigits(s)
  {
    if s == [] then 0 else DigitsValue(s[..|s| - 1]) * 10 + DigitValue(s[|s| - 1])
  }

  /** Canonical decimal text: at least one digit and no leading zero. */
  predicate Canonical(s: string) {
    |s| >= 1 && AllDigits(s) && (s[0] == '0' ==> s == "0")
  }

  /** `String(n)` for a non-negative integer: its canonical decimal digits. */
  function NatToString(n: nat): (s: string)
    ensures Canonical(s)
    ensures DigitsValue(s) == n
    decreases n
  {
    if n < 10 then [DigitChar(n)]
    else
      var prefix := NatToString(n / 10);
      var s := prefix + [DigitChar(n % 10)];
      assert s[..|s| - 1] == prefix;
      s
  }

  /** Reads decimal digits back; `None` for empty text or a non-digit. */
  function ParseNat(s: string): Option<nat> {
    if |s| >= 1 && AllDigits(s) then Some(DigitsValue(s)) else None
  }

  lemma NatRoundTrip(n: nat)
    ensures ParseNat(NatToString(n)) == Some(n)
  {
  }

  /** Digits whose first digit is not '0' denote a positive number. */
  lemma {:induction false} LeadingNonZeroIsPositive(s: string)
    requires |s| >= 1 && AllDigits(s) && s[0] != '0'
    ensures DigitsValue(s) >= 1
  {
    if |s| > 1 {
      var p := s[..|s| - 1];
      assert p[0] == s[0];
      LeadingNonZeroIsPositive(p);
    }
  }

  /** The other direction: every canonical digit string is what `NatToString` writes for its value. */
  lemma {:induction false} CanonicalRoundTrip(s: string)
    requires Canonical(s)
    ensures NatToString(DigitsValue(s)) == s
  {
    if |s| > 1 {
      var p := s[..|s| - 1];
      var d := DigitValue(s[|s| - 1]);
      assert p[0] == s[0];
      LeadingNonZeroIsPositive(p);
      CanonicalRoundTrip(p);
      var n := DigitsValue(s);
      assert n == DigitsValue(p) * 10 + d;
      assert n / 10 == DigitsValue(p) && n % 10 == d;
      assert DigitChar(d) == s[|s| - 1];
      assert s == p + [s[|s| - 1]];
    }
  }

  /** `(cents / 100).toFixed(2)`: whole units, a point, then exactly two digits. */
  function FormatCents(cents: nat): (s: string)
    ensures |s| >= 4 && s[|s| - 3] == '.'
    ensures forall i :: 0 <= i < |s| && i != |s| - 3 ==> IsDigit(s[i])
    ensures Canonical(s[..|s| - 3])
    ensures ParseCents(s) == Some(cents)
  {
    var whole := NatToString(cents / 100);
    var s := whole + "." + [DigitChar(cents % 100 / 10), DigitChar(cents % 10)];
    assert s[..|s| - 3] == whole;
    s
  }

  /** Reads "<digits>.<digit><digit>" back as cents; `None` for any other shape. */
  function ParseCents(s: string): Option<nat> {
    if |s| >= 4 && s[|s| - 3] == '.' && AllDigits(s[..|s| - 3])
       && IsDigit(s[|s| - 2]) && IsDigit(s[|s| - 1])
    then Some(DigitsValue(s[..|s| - 3]) * 100 + DigitValue(s[|s| - 2]) * 10 + DigitValue(s[|s| - 1]))
    else None
  }

  /** Two different amounts are never shown as the same text. */
  lemma FormatCentsInjective(a: nat, b: nat)
    requires FormatCents(a) == FormatCents(b)
    ensures a == b
  {
    assert ParseCents(FormatCents(a)) == Some(a);
  }

  /** `FormatCents` is the only canonical spelling: any canonical text that reads as `cents` is `FormatCents(cents)`. */
  lemma CentsTextIsUnique(s: string, cents: nat)
    requires ParseCents(s) == Some(cents) && Canonical(s[..|s| - 3])
    ensures s == FormatCents(cents)
  {
    var w := s[..|s| - 3];
    var wv := DigitsValue(w);
    var d1 := DigitValue(s[|s| - 2]);
    var d2 := DigitValue(s[|s| - 1]);
    assert cents / 100 == wv && cents % 100 / 10 == d1 && cents % 10 == d2 by {
      assert cents == wv * 100 + d1 * 10 + d2;
    }
    assert NatToString(wv) == w by {
      CanonicalRoundTrip(w);
    }
    assert FormatCents(cents) == w + "." + [s[|s| - 2], s[|s| - 1]];
    assert s == w + "." + [s[|s| - 2], s[|s| - 1]];
  }
}
