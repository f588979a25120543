/**
 * The abnormal-result rule of `LabReportPDF.add_test_table`: how a "Normal
 * Values" text becomes a lower and an upper bound, and when a result is
 * printed in bold.
 */
module NormalRange {
  import opened Wrappers
  import opened Text
  import opened Decimal

  /** The bounds the program extracts; a bound whose parse failed stays `None`. */
  datatype Range = Range(lower: Option<real>, upper: Option<real>)

  /**
   * The lower bound is `float` of the text before the first `-`; the upper
   * bound is `float` of the second space-separated token of the text between
   * the first and second `-`. The first failure abandons the rest, so a failed
   * lower bound leaves the upper one unset as well.
   */
  function ParseRange(normal: string): (r: Range)
    ensures r.upper.Some? ==> r.lower.Some?
  {
    var parts := Split(normal, '-');
    var lower := ParseFloat(parts[0]);
    if lower.None? then Range(None, None)
    else if |parts| < 2 then Range(lower, None)
    else
      var tokens := Split(parts[1], ' ');
      if |tokens| < 2 then Range(lower, None)
      else Range(lower, ParseFloat(tokens[1]))
  }

  /** Neither bound can be negative: the minus sign that would make it so is the separator the text is cut at. */
  lemma BoundsNonNegative(normal: string)
    ensures ParseRange(normal).lower.Some? ==> ParseRange(normal).lower.value >= 0.0
    ensures ParseRange(normal).upper.Some? ==> ParseRange(normal).upper.value >= 0.0
  {
    var parts := Split(normal, '-');
    SplitPieces(normal, '-');
    ParseFloatWithoutMinus(parts[0]);
    if |parts| >= 2 {
      var tokens := Split(parts[1], ' ');
      SplitPieces(parts[1], ' ');
      if |tokens| >= 2 {
        assert '-' !in tokens[1];
        ParseFloatWithoutMinus(tokens[1]);
      }
    }
  }

  /** Python truthiness of an optional float: present and non-zero. */
  predicate Truthy(b: Option<real>)
  {
    b.Some? && b.value != 0.0
  }

  /**
   * Whether the result cell is set in bold. A blank result is printed as it is;
   * an unparsable one goes through the bare `except` in the regular font; a
   * number is bold only when it, the lower bound and the upper bound are all
   * truthy and the number lies strictly below the lower or strictly above the
   * upper bound. Every other path uses a non-bold style.
   */
  function ResultIsBold(result: string, range: Range): (bold: bool)
    ensures bold ==> ParseFloat(result).Some? && range.lower.Some? && range.upper.Some?
    ensures bold ==> ParseFloat(result).value < range.lower.value || ParseFloat(result).value > range.upper.value
  {
    if result != [] && Strip(result) != [] then
      match ParseFloat(result)
      case None => false
      case Some(v) =>
        if v != 0.0 && Truthy(range.lower) && Truthy(range.upper) then
          if v < range.lower.value then true
          else if v > range.upper.value then true
          else false
        else false
    else false
  }

  /**
   * A result padded with an information separator passes the blank check, but
   * `float()` rejects it, so it is printed in the regular font.
   */
  lemma SeparatorPaddedResultRegular(digits: string, range: Range)
    requires digits != [] && AllDigits(digits)
    ensures Strip("\U{1C}" + digits) != []
    ensures !ResultIsBold("\U{1C}" + digits, range)
  {
    var s := "\U{1C}" + digits;
    assert !IsSpace(s[1]);
    StripKeepsNonSpace(s, 1);
    assert IsInformationSeparator(s[0]);
  }

  /** The lower bound is the number written before the first `-`, whatever follows. */
  lemma LowerIsTextBeforeFirstDash(normal: string)
    ensures ParseRange(normal).lower
         == ParseFloat(if '-' in normal then normal[..IndexOf(normal, '-')] else normal)
  {
    SplitFirst(normal, '-');
  }

  /** The first piece of `x + y` split at `sep` is `x`, when `x` has no `sep` and `y` is empty or starts with one. */
  lemma SplitFirstOfPrefix(x: string, y: string, sep: char)
    requires sep !in x
    requires y == [] || y[0] == sep
    ensures Split(x + y, sep)[0] == x
  {
    SplitFirst(x + y, sep);
    if y != [] {
      assert (x + y)[|x|] == sep;
      IndexOfAfterPrefix(x, sep, y[1..]);
      assert x + y == x + [sep] + y[1..];
      assert (x + y)[..|x|] == x;
    } else {
      assert x + y == x;
    }
  }

  /** Splitting `a + [sep] + rest` at `sep`, with no `sep` in `a`: the first piece is `a`, the second the first piece of `rest`. */
  lemma PiecesAroundSeparator(a: string, sep: char, rest: string)
    requires sep !in a
    ensures |Split(a + [sep] + rest, sep)| >= 2
    ensures Split(a + [sep] + rest, sep)[0] == a
    ensures Split(a + [sep] + rest, sep)[1] == Split(rest, sep)[0]
  {
    SplitAfterPiece(a, sep, rest);
  }

  /** The text between the first and second `-` of ` b tail` is ` b` followed by a prefix of `tail`. */
  lemma SegmentAfterDash(b: string, tail: string) returns (m: nat)
    requires '-' !in b
    ensures m <= |tail|
    ensures Split([' '] + b + tail, '-')[0] == [' '] + b + tail[..m]
  {
    var rest := [' '] + b + tail;
    SplitFirst(rest, '-');
    if '-' in rest {
      var j := IndexOf(rest, '-');
      m := j - 1 - |b|;
      assert rest[..j] == [' '] + b + tail[..m];
    } else {
      m := |tail|;
      assert tail[..m] == tail;
    }
  }

  /**
   * A range written `a - b tail`, where `a` holds no `-`, `b` holds neither `-`
   * nor a space and `tail` is empty or starts with a space, has the lower
   * bound `float(a + " ")` and, when that succeeds, the upper bound `float(b)`.
   */
  lemma RangeOfWrittenForm(a: string, b: string, tail: string)
    requires '-' !in a
    requires '-' !in b && ' ' !in b
    requires tail == [] || tail[0] == ' '
    ensures ParseRange(a + " - " + b + tail)
         == if ParseFloat(a + " ").Some? then Range(ParseFloat(a + " "), ParseFloat(b)) else Range(None, None)
  {
    var rest := [' '] + b + tail;
    assert a + " - " + b + tail == (a + [' ']) + ['-'] + rest;
    PiecesAroundSeparator(a + [' '], '-', rest);
    SecondToken(b, tail);
  }

  /** After the first `-` of `a - b tail`, the second space-separated token is `b`. */
  lemma SecondToken(b: string, tail: string)
    requires '-' !in b && ' ' !in b
    requires tail == [] || tail[0] == ' '
    ensures |Split(Split([' '] + b + tail, '-')[0], ' ')| >= 2
    ensures Split(Split([' '] + b + tail, '-')[0], ' ')[1] == b
  {
    var m := SegmentAfterDash(b, tail);
    var t := tail[..m];
    assert t == [] || t[0] == ' ';
    assert [' '] + b + t == [] + [' '] + (b + t);
    PiecesAroundSeparator([], ' ', b + t);
    SplitFirstOfPrefix(b, t, ' ');
  }

  /** A text without any `-` has at most a lower bound: `float` of the whole text. */
  lemma RangeWithoutDash(normal: string)
    requires '-' !in normal
    ensures ParseRange(normal) == Range(ParseFloat(normal), None)
  {
  }

  /** Whitespace around a number written without padding does not change what `float` reads. */
  lemma PaddedNumber(a: string)
    requires a != [] && !IsSpace(a[0]) && !IsSpace(a[|a| - 1])
    ensures ParseFloat(a + " ") == ParseFloat(a)
  {
    assert TrimStart(a + " ") == a + " ";
    assert (a + " ")[..|a|] == a;
    assert TrimEnd(a + " ") == TrimEnd(a);
    StripUnpadded(a);
  }

  /** A bare unsigned number as the templates write it: digits and decimal points only. */
  predicate Numeral(s: string)
  {
    s != [] && forall i :: 0 <= i < |s| ==> IsDigit(s[i]) || s[i] == '.'
  }

  lemma NumeralFacts(s: string)
    requires Numeral(s)
    ensures '-' !in s && ' ' !in s
    ensures !IsSpace(s[0]) && !IsSpace(s[|s| - 1])
    ensures ParseFloat(s) == ParseUnsigned(s)
  {
    assert !IsSpace(s[0]) && !IsSpace(s[|s| - 1]);
    StripUnpadded(s);
  }

  /** A range written `a - b tail` with bare numbers `a` and `b` has exactly the bounds those numbers denote. */
  lemma NumeralRange(a: string, b: string, tail: string)
    requires Numeral(a) && Numeral(b)
    requires tail == [] || tail[0] == ' '
    requires ParseUnsigned(a).Some?
    ensures ParseRange(a + " - " + b + tail) == Range(ParseUnsigned(a), ParseUnsigned(b))
  {
    NumeralFacts(a);
    NumeralFacts(b);
    PaddedNumber(a);
    RangeOfWrittenForm(a, b, tail);
  }

  /** The bold rule in one statement: a number, both bounds, none of them zero, and outside the range. */
  lemma BoldExactlyWhenOutOfRange(result: string, range: Range)
    ensures ResultIsBold(result, range) <==>
      && ParseFloat(result).Some?
      && ParseFloat(result).value != 0.0
      && Truthy(range.lower) && Truthy(range.upper)
      && !(range.lower.value <= ParseFloat(result).value <= range.upper.value)
  {
  }
}
