/**
 * The written forms the "Normal Values" texts of the templates take, and the
 * bounds the abnormal-result rule reads from each: two plain numbers
 * ("4.0 - 6.0 million/cu.mm", "1.0 - 2.3"), an upper bound with a thousands
 * separator ("4000 - 10,000 /cu.mm"), prose ("Adequate On Smear", a range
 * written per sex), and a range from zero ("0 - 46 U/L", "00 - 06 %").
 */
module RangeForms {
  import opened Wrappers
  import opened Text
  import opened Decimal
  import opened NormalRange

  /** A character no decimal literal can contain: not a digit, a point, a sign or whitespace. */
  predicate Foreign(c: char)
  {
    !IsDigit(c) && c != '.' && c != '-' && c != '+' && !IsSpace(c)
  }

  /**
   * The modelled `float` fails on any text holding a foreign character, such as
   * a comma or a letter. Python's own `float` accepts some of these (`"1e3"`,
   * `"inf"`, non-ASCII digits), which the model does not cover.
   */
  lemma ForeignCharacterRejected(s: string, k: nat)
    requires k < |s| && Foreign(s[k])
    ensures ParseFloat(s) == None
  {
    var c := s[k];
    var t := Strip(s);
    StripKeepsNonSpace(s, k);
    var i :| 0 <= i < |t| && t[i] == c;
    if t != [] && (t[0] == '-' || t[0] == '+') {
      assert i > 0;
      if ParseUnsigned(t[1..]).Some? {
        ParsedUnsignedShape(t[1..]);
      }
    } else if ParseUnsigned(t).Some? {
      ParsedUnsignedShape(t);
    }
  }

  /** Text with a foreign character before its first `-` yields neither bound. */
  lemma ProseHasNoBounds(normal: string, k: nat)
    requires k < |normal| && Foreign(normal[k]) && '-' !in normal[..k]
    ensures ParseRange(normal) == Range(None, None)
  {
    LowerIsTextBeforeFirstDash(normal);
    if '-' in normal {
      var j := IndexOf(normal, '-');
      if j <= k {
        assert false;
      }
      assert normal[..j][k] == normal[k];
      ForeignCharacterRejected(normal[..j], k);
    } else {
      ForeignCharacterRejected(normal, k);
    }
  }

  /** `a - b tail` whose upper number holds a foreign character keeps the lower bound and loses the upper. */
  lemma UnparsableUpper(a: string, b: string, tail: string, k: nat)
    requires Numeral(a) && ParseUnsigned(a).Some?
    requires '-' !in b && ' ' !in b && k < |b| && Foreign(b[k])
    requires tail == [] || tail[0] == ' '
    ensures ParseRange(a + " - " + b + tail) == Range(ParseUnsigned(a), None)
  {
    NumeralFacts(a);
    PaddedNumber(a);
    RangeOfWrittenForm(a, b, tail);
    ForeignCharacterRejected(b, k);
  }

  /** A run of zeros. */
  predicate Zeros(s: string)
  {
    s != [] && forall i :: 0 <= i < |s| ==> s[i] == '0'
  }

  lemma {:induction false} ZerosValue(s: string)
    requires Zeros(s)
    ensures AllDigits(s) && DigitsValue(s) == 0
  {
    if |s| > 1 {
      ZerosValue(s[..|s| - 1]);
    }
  }

  /** A result of zero, or a zero bound, is never set in bold, whatever the other numbers are. */
  lemma ZeroDisablesBold(result: string, range: Range)
    requires ParseFloat(result) == Some(0.0) || range.lower == Some(0.0) || range.upper == Some(0.0)
    ensures !ResultIsBold(result, range)
  {
    BoldExactlyWhenOutOfRange(result, range);
  }

  /**
   * A range written from zero, `0 - b tail` or `00 - b tail`, has the lower
   * bound 0, which Python treats as false: no result is ever bold against it.
   */
  lemma RangeFromZeroNeverBold(a: string, b: string, tail: string, result: string)
    requires Zeros(a) && Numeral(b)
    requires tail == [] || tail[0] == ' '
    ensures ParseRange(a + " - " + b + tail).lower == Some(0.0)
    ensures !ResultIsBold(result, ParseRange(a + " - " + b + tail))
  {
    ZerosValue(a);
    assert '.' !in a by {
      assert !IsDigit('.');
    }
    assert ParseUnsigned(a) == Some(0.0);
    NumeralRange(a, b, tail);
    ZeroDisablesBold(result, ParseRange(a + " - " + b + tail));
  }

  /** A result equal to either bound of a well-ordered range is printed in the regular font. */
  lemma BoundaryNotBold(result: string, range: Range)
    requires ParseFloat(result).Some? && range.lower.Some? && range.upper.Some?
    requires range.lower.value <= range.upper.value
    requires ParseFloat(result).value == range.lower.value || ParseFloat(result).value == range.upper.value
    ensures !ResultIsBold(result, range)
  {
    BoldExactlyWhenOutOfRange(result, range);
  }
}
