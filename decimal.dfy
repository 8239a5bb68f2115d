/**
 * Decimal rendering of counters, as `std::to_string` produces it for the
 * label numbers of the emitter, and reading a number back off the end of a
 * label.
 */
module Decimal {

  predicate IsDigit(c: char) {
    '0' <= c <= '9'
  }

  predicate AllDigits(s: string) {
    forall i :: 0 <= i < |s| ==> IsDigit(s[i])
  }

  function DigitChar(d: nat): (c: char)
    requires d < 10
    ensures IsDigit(c)
  {
    ('0' as int + d) as char
  }

  function DigitValue(c: char): nat
    requires IsDigit(c)
  {
    c as int - '0' as int
  }

  /** The shortest decimal numeral of `n`, without sign or leading zeros. */
  function NatToString(n: nat): (s: string)
    ensures 1 <= |s| && AllDigits(s)
    ensures |s| > 1 ==> s[0] != '0'
    decreases n
  {
    if n < 10 then [DigitChar(n)] else NatToString(n / 10) + [DigitChar(n % 10)]
  }

  /** The value of a numeral, most significant digit first. */
  function DigitsValue(s: string): nat
    requires AllDigits(s)
    decreases |s|
  {
    if s == [] then 0 else DigitsValue(s[..|s| - 1]) * 10 + DigitValue(s[|s| - 1])
  }

  lemma {:induction false} ValueOfNatToString(n: nat)
    ensures DigitsValue(NatToString(n)) == n
    decreases n
  {
    var s := NatToString(n);
    if n < 10 {
      assert s[..|s| - 1] == [];
    } else {
      ValueOfNatToString(n / 10);
      assert s[..|s| - 1] == NatToString(n / 10);
    }
  }

  /** Distinct numbers never render to the same numeral. */
  lemma NatToStringInjective(m: nat, n: nat)
    requires NatToString(m) == NatToString(n)
    ensures m == n
  {
    ValueOfNatToString(m);
    ValueOfNatToString(n);
  }

  /** The maximal run of digits at the end of `s`. */
  function DigitSuffix(s: string): (d: string)
    ensures AllDigits(d) && |d| <= |s|
    decreases |s|
  {
    if s == [] || !IsDigit(s[|s| - 1]) then [] else DigitSuffix(s[..|s| - 1]) + [s[|s| - 1]]
  }

  /** The digit suffix is the whole run of digits that ends the string. */
  lemma {:induction false} DigitSuffixShape(s: string)
    ensures var d := DigitSuffix(s); d == s[|s| - |d|..] && (|d| < |s| ==> !IsDigit(s[|s| - |d| - 1]))
    decreases |s|
  {
    if s != [] && IsDigit(s[|s| - 1]) {
      var init := s[..|s| - 1];
      DigitSuffixShape(init);
      var d := DigitSuffix(init);
      assert init[|init| - |d|..] + [s[|s| - 1]] == s[|s| - |d| - 1..];
    }
  }

  /** The number a label ends in. */
  function LabelNumber(name: string): nat {
    DigitsValue(DigitSuffix(name))
  }

  predicate EndsInNonDigit(base: string) {
    base == [] || !IsDigit(base[|base| - 1])
  }

  lemma {:induction false} DigitSuffixOfNumeral(base: string, digits: string)
    requires EndsInNonDigit(base) && AllDigits(digits)
    ensures DigitSuffix(base + digits) == digits
    decreases |digits|
  {
    if digits != [] {
      var s := base + digits;
      assert s[..|s| - 1] == base + digits[..|digits| - 1];
      DigitSuffixOfNumeral(base, digits[..|digits| - 1]);
    } else {
      assert base + digits == base;
    }
  }

  /** `base + NatToString(n)` splits back into `base` and the digits of `n`. */
  lemma NumeralParts(base: string, n: nat)
    requires EndsInNonDigit(base)
    ensures var name := base + NatToString(n); var d := DigitSuffix(name);
      d != [] && name[..|name| - |d|] == base && DigitsValue(d) == n
  {
    ValueOfNatToString(n);
    NumberedParts(base, NatToString(n));
  }

  lemma NumberedParts(base: string, digits: string)
    requires EndsInNonDigit(base) && AllDigits(digits) && digits != []
    ensures var name := base + digits; var d := DigitSuffix(name);
      d == digits && name[..|name| - |d|] == base
  {
    DigitSuffixOfNumeral(base, digits);
    assert (base + digits)[..|base + digits| - |digits|] == base;
  }

  /** Reading the number back off `base + NatToString(n)` gives `n`. */
  lemma LabelRoundTrip(base: string, n: nat)
    requires EndsInNonDigit(base)
    ensures LabelNumber(base + NatToString(n)) == n
  {
    DigitSuffixOfNumeral(base, NatToString(n));
    ValueOfNatToString(n);
  }

  /** A label built from a base that does not end in a digit determines its base and its number. */
  lemma LabelDeterminesParts(b1: string, n1: nat, b2: string, n2: nat)
    requires EndsInNonDigit(b1) && EndsInNonDigit(b2)
    requires b1 + NatToString(n1) == b2 + NatToString(n2)
    ensures b1 == b2 && n1 == n2
  {
    var s := b1 + NatToString(n1);
    LabelRoundTrip(b1, n1);
    LabelRoundTrip(b2, n2);
    assert b1 == s[..|b1|];
    assert b2 == s[..|b2|];
  }

  /**
   * Two labels built from bases that do not end in a digit are equal only
   * when both the bases and the numbers are equal.
   */
  lemma LabelsDistinct(b1: string, n1: nat, b2: string, n2: nat)
    requires EndsInNonDigit(b1) && EndsInNonDigit(b2)
    requires b1 != b2 || n1 != n2
    ensures b1 + NatToString(n1) != b2 + NatToString(n2)
  {
    if b1 + NatToString(n1) == b2 + NatToString(n2) {
      LabelDeterminesParts(b1, n1, b2, n2);
    }
  }
}
