/**
  Base-10 rendering of natural numbers, as produced by Go's `%d` verb for a
  non-negative integer, together with its inverse.
 */
module Decimal {

  predicate IsDigit(c: char) {
    '0' <= c <= '9'
  }

  predicate IsDigits(s: string) {
    forall i :: 0 <= i < |s| ==> IsDigit(s[i])
  }

  /** A non-empty digit string without a redundant leading zero. */
  predicate IsCanonical(s: string) {
    |s| >= 1 && IsDigits(s) && (s[0] == '0' ==> |s| == 1)
  }

  function DigitChar(d: nat): (c: char)
    requires d < 10
    ensures IsDigit(c)
  {
    ('0' as int + d) as char
  }

  function DigitValue(c: char): (d: nat)
    requires IsDigit(c)
    ensures d < 10
  {
    c as int - '0' as int
  }

  /** The `%d` rendering of `n`. */
  function FromNat(n: nat): (s: string)
    ensures IsCanonical(s)
    ensures s[0] == '0' <==> n == 0
    decreases n
  {
    if n < 10 then [DigitChar(n)] else FromNat(n / 10) + [DigitChar(n % 10)]
  }

  /** The value of a digit string, most significant digit first. */
  function ToNat(s: string): nat
    requires IsDigits(s)
    decreases |s|
  {
    if |s| == 0 then 0 else ToNat(s[..|s| - 1]) * 10 + DigitValue(s[|s| - 1])
  }

  /** Reading back a rendering yields the number that was rendered. */
  lemma {:induction false} ToNatFromNat(n: nat)
    ensures ToNat(FromNat(n)) == n
    decreases n
  {
    var s := FromNat(n);
    if n >= 10 {
      assert s[..|s| - 1] == FromNat(n / 10);
      ToNatFromNat(n / 10);
    } else {
      assert s[..|s| - 1] == [];
    }
  }

  /** A canonical digit string of two or more digits denotes at least ten. */
  lemma {:induction false} CanonicalAtLeastTen(s: string)
    requires IsDigits(s) && |s| >= 2 && s[0] != '0'
    ensures ToNat(s) >= 10
    decreases |s|
  {
    var p := s[..|s| - 1];
    if |s| == 2 {
      assert p[..0] == [];
      assert ToNat(p) == DigitValue(s[0]);
    } else {
      assert p[0] == s[0];
      CanonicalAtLeastTen(p);
    }
  }

  /** Rendering the value of a canonical digit string gives the string back. */
  lemma {:induction false} FromNatToNat(s: string)
    requires IsCanonical(s)
    ensures FromNat(ToNat(s)) == s
    decreases |s|
  {
    var p := s[..|s| - 1];
    var d := DigitValue(s[|s| - 1]);
    assert DigitChar(d) == s[|s| - 1];
    if |s| == 1 {
      assert p == [];
      assert FromNat(ToNat(s)) == [s[0]];
    } else {
      CanonicalAtLeastTen(s);
      var n := ToNat(s);
      assert n == ToNat(p) * 10 + d;
      assert n / 10 == ToNat(p) && n % 10 == d;
      assert p[0] == s[0];
      FromNatToNat(p);
      assert s == p + [s[|s| - 1]];
    }
  }

  /** Length of the longest run of digits at the start of `t`. */
  function LeadingDigits(t: string): (n: nat)
    ensures n <= |t|
    ensures IsDigits(t[..n])
    ensures n < |t| ==> !IsDigit(t[n])
    decreases |t|
  {
    if |t| == 0 || !IsDigit(t[0]) then 0 else 1 + LeadingDigits(t[1..])
  }

  /** The digit run of `d + rest` is exactly `d` when `rest` starts with a non-digit. */
  lemma {:induction false} LeadingDigitsOfConcat(d: string, rest: string)
    requires IsDigits(d)
    requires |rest| > 0 && !IsDigit(rest[0])
    ensures LeadingDigits(d + rest) == |d|
    decreases |d|
  {
    if |d| == 0 {
      assert d + rest == rest;
    } else {
      assert (d + rest)[1..] == d[1..] + rest;
      LeadingDigitsOfConcat(d[1..], rest);
    }
  }
}
