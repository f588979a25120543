/**
 * Python's `float(text)` restricted to plain decimal literals: surrounding
 * whitespace, an optional sign, digits with at most one decimal point and at
 * least one digit. The value is the exact real the literal denotes, not the
 * nearest double: two distinct decimals that round to the same double (such as
 * `6.0000000000000001` and `6.0`) can compare differently here than in the
 * program, and a literal that underflows to `0.0` stays non-zero here.
 * Anything else is a parse failure (the `ValueError` the program catches),
 * even where Python's `float` would accept it (exponents, `inf`, `nan`,
 * underscores, non-ASCII decimal digits).
 */
module Decimal {
  import opened Wrappers
  import opened Text

  predicate IsDigit(c: char)
  {
    '0' <= c <= '9'
  }

  function DigitValue(c: char): (d: nat)
    requires IsDigit(c)
    ensures d < 10
  {
    c as int - '0' as int
  }

  function DigitChar(d: nat): (c: char)
    requires d < 10
    ensures IsDigit(c) && DigitValue(c) == d
  {
    ('0' as int + d) as char
  }

  predicate AllDigits(s: string)
  {
    forall i :: 0 <= i < |s| ==> IsDigit(s[i])
  }

  /** The value of a run of decimal digits, most significant first. */
  function DigitsValue(s: string): nat
    requires AllDigits(s)
  {
    if s == [] then 0 else 10 * DigitsValue(s[..|s| - 1]) + DigitValue(s[|s| - 1])
  }

  function Pow10(n: nat): (p: nat)
    ensures p >= 1
  {
    if n == 0 then 1 else 10 * Pow10(n - 1)
  }

  /** The value of `whole.frac`. */
  function PointValue(whole: string, frac: string): real
    requires AllDigits(whole) && AllDigits(frac)
  {
    DigitsValue(whole) as real + DigitsValue(frac) as real / Pow10(|frac|) as real
  }

  /** An unsigned literal: `digits`, `digits.`, `.digits` or `digits.digits`. */
  function ParseUnsigned(t: string): (r: Option<real>)
    ensures r.Some? ==> r.value >= 0.0
  {
    if '.' in t then
      var i := IndexOf(t, '.');
      var whole, frac := t[..i], t[i + 1..];
      if |whole| + |frac| > 0 && AllDigits(whole) && AllDigits(frac) then
        assert t == whole + ['.'] + frac;
        Some(PointValue(whole, frac))
      else None
    else if t != [] && AllDigits(t) then Some(DigitsValue(t) as real)
    else None
  }

  /**
   * The four information separators U+001C..U+001F. `str.isspace()` accepts
   * them, but `float()` strips only ASCII whitespace `\t\n\v\f\r` and space
   * among the ASCII characters, and rejects a string that holds one of them.
   */
  predicate IsInformationSeparator(c: char)
  {
    '\U{1C}' <= c <= '\U{1F}'
  }

  /**
   * `float(s)` on the restricted grammar. Apart from the information
   * separators, the characters `float()` strips are those `strip()` removes.
   */
  function ParseFloat(s: string): (r: Option<real>)
    ensures r.Some? ==> Strip(s) != []
    ensures r.Some? ==> forall i :: 0 <= i < |s| ==> !IsInformationSeparator(s[i])
  {
    if exists i :: 0 <= i < |s| && IsInformationSeparator(s[i]) then None
    else
      var t := Strip(s);
      if t != [] && t[0] == '-' then
        match ParseUnsigned(t[1..])
        case Some(v) => Some(-v)
        case None => None
      else if t != [] && t[0] == '+' then ParseUnsigned(t[1..])
      else ParseUnsigned(t)
  }

  /** Only a literal with a minus sign parses to a negative number. */
  lemma ParseFloatWithoutMinus(s: string)
    requires '-' !in s
    ensures ParseFloat(s).Some? ==> ParseFloat(s).value >= 0.0
  {
    var t := Strip(s);
    if t != [] && t[0] == '-' {
      StripKeepsCharacters(s, '-');
    }
  }

  /** An unsigned literal that parses is made of digits and at most one point, and is not empty. */
  lemma ParsedUnsignedShape(t: string)
    requires ParseUnsigned(t).Some?
    ensures t != [] && forall i :: 0 <= i < |t| ==> IsDigit(t[i]) || t[i] == '.'
  {
    if '.' in t {
      var i := IndexOf(t, '.');
      assert t == t[..i] + ['.'] + t[i + 1..];
    }
  }

  /** Python's `str(n)` for a natural number: its decimal digits without leading zeros. */
  function NatToString(n: nat): (s: string)
    ensures s != [] && AllDigits(s)
    ensures |s| > 1 ==> s[0] != '0'
  {
    if n < 10 then [DigitChar(n)] else NatToString(n / 10) + [DigitChar(n % 10)]
  }

  /** Reading the digits of `str(n)` gives `n` back. */
  lemma {:induction false} DigitsOfNatToString(n: nat)
    ensures DigitsValue(NatToString(n)) == n
  {
    var s := NatToString(n);
    if n >= 10 {
      DigitsOfNatToString(n / 10);
      assert s[..|s| - 1] == NatToString(n / 10);
    }
  }

  /** `float(str(n)) == n` for every natural number. */
  lemma NatToStringParses(n: nat)
    ensures ParseFloat(NatToString(n)) == Some(n as real)
  {
    var s := NatToString(n);
    assert !IsSpace(s[0]) && !IsSpace(s[|s| - 1]);
    StripUnpadded(s);
    DigitsOfNatToString(n);
  }

  /** A string that is blank after stripping never parses. */
  lemma BlankNeverParses(s: string)
    requires Blank(s)
    ensures ParseFloat(s) == None
  {
    StripEmptyIffBlank(s);
  }
}
