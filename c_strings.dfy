/** The parts of the C library the receiver leans on: `isspace`, `atoi`
    and the `%d` conversion of `sprintf`. Strings are the characters before
    the terminating NUL. */
module CStrings {

  /** The characters `isspace` accepts in the C locale. */
  predicate IsSpace(c: char) {
    c == ' ' || c == '\t' || c == '\n' || c == '\U{000B}' || c == '\U{000C}' || c == '\r'
  }

  predicate IsDigit(c: char) {
    '0' <= c <= '9'
  }

  function DigitValue(c: char): (d: nat)
    requires IsDigit(c)
    ensures d <= 9
  {
    c as int - '0' as int
  }

  function DigitChar(d: nat): (c: char)
    requires d <= 9
    ensures IsDigit(c) && DigitValue(c) == d
  {
    ('0' as int + d) as char
  }

  function Pow10(n: nat): (p: nat)
    ensures p >= 1
  {
    if n == 0 then 1 else 10 * Pow10(n - 1)
  }

  /** The value of a string of decimal digits, most significant first. */
  function Number(digits: string): (n: nat)
    requires forall k :: 0 <= k < |digits| ==> IsDigit(digits[k])
    ensures n < Pow10(|digits|)
  {
    if digits == [] then 0
    else 10 * Number(digits[..|digits| - 1]) + DigitValue(digits[|digits| - 1])
  }

  /** The longest prefix of `s` made of decimal digits. */
  function DigitPrefix(s: string): (d: string)
    ensures |d| <= |s| && d == s[..|d|]
    ensures forall k :: 0 <= k < |d| ==> IsDigit(d[k])
    ensures |d| < |s| ==> !IsDigit(s[|d|])
  {
    if s == [] || !IsDigit(s[0]) then [] else [s[0]] + DigitPrefix(s[1..])
  }

  /** Index of the first character at or after `from` that is not white space. */
  function SkipSpaces(s: string, from: nat): (k: nat)
    requires from <= |s|
    ensures from <= k <= |s|
    ensures forall m :: from <= m < k ==> IsSpace(s[m])
    ensures k < |s| ==> !IsSpace(s[k])
    decreases |s| - from
  {
    if from == |s| || !IsSpace(s[from]) then from else SkipSpaces(s, from + 1)
  }

  /** C's `atoi`: leading white space, an optional sign, then the longest run
      of decimal digits; no digits at all gives 0. */
  function Atoi(s: string): (n: int)
    ensures var k := SkipSpaces(s, 0);
      (n < 0 ==> k < |s| && s[k] == '-') &&
      (k == |s| || (!IsDigit(s[k]) && s[k] != '-' && s[k] != '+') ==> n == 0)
  {
    var k := SkipSpaces(s, 0);
    var signed := k < |s| && (s[k] == '-' || s[k] == '+');
    var m: int := Number(DigitPrefix(s[if signed then k + 1 else k..]));
    if k < |s| && s[k] == '-' then -m else m
  }

  /** `atoi` of a string that does not begin with white space, a sign or a
      digit is 0; on at most three characters its value lies in -99..999. */
  lemma AtoiWindow(s: string)
    requires |s| <= 3
    ensures -99 <= Atoi(s) <= 999
    ensures |s| > 0 && !IsSpace(s[0]) && !IsDigit(s[0]) && s[0] != '-' && s[0] != '+' ==> Atoi(s) == 0
  {
    var k := SkipSpaces(s, 0);
    if k < |s| && (s[k] == '-' || s[k] == '+') {
      var d := DigitPrefix(s[k + 1..]);
      assert |d| <= 2;
      assert Pow10(|d|) <= 100 by {
        if |d| == 2 { assert Pow10(2) == 100; } else if |d| == 1 { assert Pow10(1) == 10; }
      }
    } else {
      var d := DigitPrefix(s[k..]);
      assert |d| <= 3;
      assert Pow10(|d|) <= 1000 by {
        assert Pow10(1) == 10 && Pow10(2) == 100 && Pow10(3) == 1000;
      }
      if |s| > 0 && !IsSpace(s[0]) && !IsDigit(s[0]) {
        assert k == 0;
        assert d == [];
      }
    }
  }

  /** `atoi` of three decimal digits is their value. */
  lemma AtoiOfThreeDigits(s: string)
    requires |s| == 3 && IsDigit(s[0]) && IsDigit(s[1]) && IsDigit(s[2])
    ensures Atoi(s) == 100 * DigitValue(s[0]) + 10 * DigitValue(s[1]) + DigitValue(s[2])
  {
    assert SkipSpaces(s, 0) == 0;
    assert DigitPrefix(s[2..]) == s[2..];
    assert DigitPrefix(s[1..]) == s[1..];
    assert DigitPrefix(s) == s;
    assert s[..2][..1] == s[..1];
    assert s[..1][..0] == [];
    assert Number(s[..1]) == DigitValue(s[0]);
    assert Number(s[..2]) == 10 * DigitValue(s[0]) + DigitValue(s[1]);
    assert s[..3] == s;
  }

  /** The decimal digits of a natural number, as `%d` prints it. */
  function NaturalString(n: nat): (s: string)
    ensures |s| >= 1 && forall k :: 0 <= k < |s| ==> IsDigit(s[k])
    decreases n
  {
    if n < 10 then [DigitChar(n)] else NaturalString(n / 10) + [DigitChar(n % 10)]
  }

  /** `sprintf("%d", n)`. */
  function Decimal(n: int): (s: string)
    ensures |s| >= 1 && (n < 0 <==> s[0] == '-')
    ensures forall k :: (if n < 0 then 1 else 0) <= k < |s| ==> IsDigit(s[k])
    ensures n < 0 ==> |s| >= 2
  {
    if n < 0 then "-" + NaturalString(-n) else NaturalString(n)
  }

  /** Reading back the digits that `%d` prints gives the number again. */
  lemma {:induction false} NaturalStringRoundTrip(n: nat)
    ensures Number(NaturalString(n)) == n
    decreases n
  {
    if n >= 10 {
      NaturalStringRoundTrip(n / 10);
      var s := NaturalString(n);
      assert s[..|s| - 1] == NaturalString(n / 10);
    }
  }

  /** `atoi` inverts `%d` on every integer. */
  lemma DecimalRoundTrip(n: int)
    ensures Atoi(Decimal(n)) == n
  {
    var s := Decimal(n);
    var digits := NaturalString(if n < 0 then -n else n);
    NaturalStringRoundTrip(if n < 0 then -n else n);
    assert !IsSpace(s[0]);
    assert SkipSpaces(s, 0) == 0;
    DigitsArePrefix(digits);
    if n < 0 {
      assert s[1..] == digits;
    } else {
      assert s[0..] == digits;
    }
  }

  lemma {:induction false} DigitsArePrefix(d: string)
    requires forall k :: 0 <= k < |d| ==> IsDigit(d[k])
    ensures DigitPrefix(d) == d
  {
    if d != [] {
      DigitsArePrefix(d[1..]);
    }
  }
}
