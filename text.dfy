/**
 Character-level helpers shared by the calendar model: PHP's `strtoupper`
 (ASCII letters only), the upper-case test that `toString` uses to tell
 real properties from bookkeeping keys, and decimal digit strings as
 PHP's `date()` prints them.
 */
module Text {

  predicate IsLowerAscii(c: char) {
    'a' <= c <= 'z'
  }

  predicate IsDigit(c: char) {
    '0' <= c <= '9'
  }

  predicate IsDigits(s: string) {
    forall i :: 0 <= i < |s| ==> IsDigit(s[i])
  }

  /** `strtoupper` on one character: only `a`..`z` change. */
  function UpperChar(c: char): (u: char)
    ensures !IsLowerAscii(u)
    ensures IsLowerAscii(c) ==> u as int == c as int - 32
    ensures !IsLowerAscii(c) ==> u == c
  {
    if IsLowerAscii(c) then (c as int - 32) as char else c
  }

  /** `strtoupper($s)`. */
  function Upper(s: string): (r: string)
    ensures |r| == |s|
    ensures forall i :: 0 <= i < |s| ==> r[i] == UpperChar(s[i])
  {
    if s == [] then [] else [UpperChar(s[0])] + Upper(s[1..])
  }

  /** `strtoupper($key) == $key`: the test `toString` applies to every key. */
  predicate IsUpper(s: string) {
    Upper(s) == s
  }

  /** A key is its own upper case exactly when it holds no letter `a`..`z`. */
  lemma IsUpperIffNoLower(s: string)
    ensures IsUpper(s) <==> forall i :: 0 <= i < |s| ==> !IsLowerAscii(s[i])
  {
    if forall i :: 0 <= i < |s| ==> !IsLowerAscii(s[i]) {
      assert forall i :: 0 <= i < |s| ==> Upper(s)[i] == s[i];
    } else {
      var i :| 0 <= i < |s| && IsLowerAscii(s[i]);
      assert Upper(s)[i] != s[i];
    }
  }

  /** Every key written through `strtoupper` passes the upper-case test. */
  lemma UpperIsUpper(s: string)
    ensures IsUpper(Upper(s))
  {
    IsUpperIffNoLower(Upper(s));
  }

  /**
   The lower-case bookkeeping keys of a component can never be the result
   of `strtoupper`, so no property written by name can overwrite them.
   */
  lemma UpperIsNotBookkeeping(s: string)
    ensures Upper(s) != "type" && Upper(s) != "sequence" && Upper(s) != "children"
  {
    if |s| > 0 {
      assert !IsLowerAscii(Upper(s)[0]);
    }
  }

  /** Keys and values that are written in upper case already. */
  lemma UpperOfUpperCase(s: string)
    requires forall i :: 0 <= i < |s| ==> !IsLowerAscii(s[i])
    ensures Upper(s) == s
  {
    IsUpperIffNoLower(s);
  }

  function DigitChar(d: nat): (c: char)
    requires d < 10
    ensures IsDigit(c)
  {
    ('0' as int + d) as char
  }

  function DigitValue(c: char): (d: nat)
    requires IsDigit(c)
    ensures d < 10 && DigitChar(d) == c
  {
    c as int - '0' as int
  }

  function Pow10(w: nat): (p: nat)
    ensures p >= 1
  {
    if w == 0 then 1 else 10 * Pow10(w - 1)
  }

  /**
   The `width` lowest decimal digits of `n`, left-padded with zeros:
   PHP's `date()` codes `Y` (width 4), `m`, `d`, `H`, `i`, `s` (width 2).
   */
  function Pad(n: nat, width: nat): (r: string)
    ensures |r| == width && IsDigits(r)
  {
    if width == 0 then "" else Pad(n / 10, width - 1) + [DigitChar(n % 10)]
  }

  /** `n` in decimal without leading zeros: `date()` codes `j`, `n`, `G`. */
  function Decimal(n: nat): (r: string)
    ensures |r| > 0 && IsDigits(r)
  {
    if n < 10 then [DigitChar(n)] else Decimal(n / 10) + [DigitChar(n % 10)]
  }

  /** The number a digit string denotes, as PHP reads a numeric string. */
  function ValueOf(s: string): nat
    requires IsDigits(s)
  {
    if s == [] then 0 else ValueOf(s[..|s| - 1]) * 10 + DigitValue(s[|s| - 1])
  }

  lemma {:induction false} PadRoundTrip(n: nat, width: nat)
    requires n < Pow10(width)
    ensures ValueOf(Pad(n, width)) == n
  {
    if width > 0 {
      var r := Pad(n, width);
      var m, d := n / 10, n % 10;
      assert n == m * 10 + d;
      assert m < Pow10(width - 1);
      assert r[..|r| - 1] == Pad(m, width - 1);
      assert DigitValue(r[|r| - 1]) == d;
      PadRoundTrip(m, width - 1);
    }
  }

  lemma {:induction false} DecimalRoundTrip(n: nat)
    ensures ValueOf(Decimal(n)) == n
  {
    var r := Decimal(n);
    if n < 10 {
      assert r[..0] == "";
    } else {
      assert r[..|r| - 1] == Decimal(n / 10);
      DecimalRoundTrip(n / 10);
    }
  }
}
