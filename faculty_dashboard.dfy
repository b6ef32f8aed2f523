/**
 * The faculty dashboard's grading prompt (which inputs are sent, and as what), the grade label of
 * the performance table, and the guard before the performance fetch. The prompt's answer is
 * checked with JavaScript's string-to-number conversion and sent through `parseInt`.
 */
module FacultyDashboard {
  import opened Records
  import opened Text

  /** A JavaScript number as far as this page can produce one from a string. */
  datatype JsNum = NaN | Finite(value: real) | PosInfinity | NegInfinity

  function Pow10(n: nat): (p: nat)
    ensures p >= 1
  {
    if n == 0 then 1 else 10 * Pow10(n - 1)
  }

  /** The length of the run of decimal digits at the start of `s`. */
  function DigitRun(s: string): (n: nat)
    ensures n <= |s| && AllDigits(s[..n])
    ensures n < |s| ==> !IsDigit(s[n])
  {
    if s != [] && IsDigit(s[0]) then
      var n := 1 + DigitRun(s[1..]);
      assert s[..n] == [s[0]] + s[1..][..n - 1];
      n
    else 0
  }

  /** The value of `whole.fraction`. */
  function Mantissa(whole: string, fraction: string): real
    requires AllDigits(whole) && AllDigits(fraction)
  {
    DigitsValue(whole) as real + DigitsValue(fraction) as real / Pow10(|fraction|) as real
  }

  /** What follows the mantissa: nothing, or `e`/`E`, an optional sign and at least one digit. */
  function Exponent(mantissa: real, rest: string): Option<real> {
    if rest == [] then Some(mantissa)
    else if rest[0] != 'e' && rest[0] != 'E' then None
    else
      var e := rest[1..];
      var negative := e != [] && e[0] == '-';
      var digits := if e != [] && (e[0] == '+' || e[0] == '-') then e[1..] else e;
      if digits == [] || !AllDigits(digits) then None
      else if negative then Some(mantissa / Pow10(DigitsValue(digits)) as real)
      else Some(mantissa * Pow10(DigitsValue(digits)) as real)
  }

  /** An unsigned decimal literal taking the whole string: digits, an optional fraction, an optional exponent. */
  function UnsignedDecimal(s: string): Option<real> {
    var i := DigitRun(s);
    var afterWhole := s[i..];
    var hasPoint := afterWhole != [] && afterWhole[0] == '.';
    var afterPoint := if hasPoint then afterWhole[1..] else afterWhole;
    var j := if hasPoint then DigitRun(afterPoint) else 0;
    if i == 0 && j == 0 then None
    else Exponent(Mantissa(s[..i], afterPoint[..j]), afterPoint[j..])
  }

  /** A plain run of digits is read as its decimal value. */
  lemma UnsignedDecimalDigits(s: string)
    requires s != [] && AllDigits(s)
    ensures UnsignedDecimal(s) == Some(DigitsValue(s) as real)
  {
    DigitRunAll(s);
    assert s[..|s|] == s;
    assert s[|s|..] == [];
    assert Mantissa(s, []) == DigitsValue(s) as real;
  }

  /**
   * `Number(s)` for decimal input: surrounding white space is ignored, the empty string is 0, a
   * sign may precede a decimal literal or "Infinity", and anything else is NaN.
   */
  function ToNumber(s: string): JsNum {
    var t := Trim(s);
    if t == [] then Finite(0.0)
    else
      var negative := t[0] == '-';
      var body := if t[0] == '+' || t[0] == '-' then t[1..] else t;
      if body == "Infinity" then (if negative then NegInfinity else PosInfinity)
      else match UnsignedDecimal(body)
        case None => NaN
        case Some(v) => Finite(if negative then -v else v)
  }

  /** `parseInt(s)`: leading white space, an optional sign, then the longest run of digits; none is NaN. */
  function ParseInt(s: string): Option<int> {
    var t := TrimStart(s);
    var negative := t != [] && t[0] == '-';
    var body := if t != [] && (t[0] == '+' || t[0] == '-') then t[1..] else t;
    var k := DigitRun(body);
    if k == 0 then None
    else
      Some(if negative then -(DigitsValue(body[..k]) as int) else DigitsValue(body[..k]))
  }

  /** The prompt test `grade && !isNaN(grade) && grade >= 0 && grade <= 100`. */
  predicate AcceptedAsWritten(input: string) {
    input != "" && ToNumber(input).Finite? && 0.0 <= ToNumber(input).value <= 100.0
  }

  /**
   * The request `gradeSubmission` makes: `None` when nothing is sent (the prompt was cancelled or
   * the test failed), otherwise the JSON grade, where `None` is the `null` a NaN becomes.
   * The ensures only name the two conversions; what they mean together (a checked value other
   * than the one sent) is stated by `ExponentGradeSent`, `BlankSentAsNull` and
   * `CorrectedAgreesOnWholeNumbers` below.
   */
  function GradeRequest(input: Option<string>): (r: Option<Option<int>>)
    ensures r.Some? <==> input.Some? && AcceptedAsWritten(input.value)
    ensures r.Some? ==> r.value == ParseInt(input.value)
  {
    if input.Some? && AcceptedAsWritten(input.value) then Some(ParseInt(input.value)) else None
  }

  lemma Thousand()
    ensures AllDigits("1000") && DigitsValue("1000") == 1000
  {
    assert DigitsValue("1") == 1;
    assert DigitsValue("10") == 10 by { assert "10"[..1] == "1"; }
    assert DigitsValue("100") == 100 by { assert "100"[..2] == "10"; }
    assert "1000"[..3] == "100";
  }

  /** The digit run of `d + rest` is `d` when `rest` does not start with a digit. */
  lemma {:induction false} DigitRunPrefix(d: string, rest: string)
    requires AllDigits(d) && (rest == [] || !IsDigit(rest[0]))
    ensures DigitRun(d + rest) == |d|
  {
    if d != [] {
      assert (d + rest)[1..] == d[1..] + rest;
      DigitRunPrefix(d[1..], rest);
    } else {
      assert d + rest == rest;
    }
  }

  /** A string with no white space at either end is its own trimmed form. */
  lemma TrimNoEdgeSpace(s: string)
    requires s != [] && !IsSpace(s[0]) && !IsSpace(s[|s| - 1])
    ensures TrimStart(s) == s && Trim(s) == s
  {
  }

  /** Whole digits followed by something other than a digit or a point: the rest is the exponent part. */
  lemma WholeThenExponent(d: string, rest: string)
    requires d != [] && AllDigits(d) && rest != [] && !IsDigit(rest[0]) && rest[0] != '.'
    ensures UnsignedDecimal(d + rest) == Exponent(Mantissa(d, []), rest)
  {
    var s := d + rest;
    DigitRunPrefix(d, rest);
    assert s[..|d|] == d && s[|d|..] == rest;
  }

  lemma NegativeExponent(m: real, k: string)
    requires k != [] && AllDigits(k)
    ensures Exponent(m, "e-" + k) == Some(m / Pow10(DigitsValue(k)) as real)
  {
    var rest := "e-" + k;
    assert rest[0] == 'e' && rest[1..][0] == '-';
    assert rest[1..][1..] == k;
  }

  lemma WholeMantissa(d: string)
    requires AllDigits(d)
    ensures Mantissa(d, []) == DigitsValue(d) as real
  {
    assert DigitsValue([]) == 0 && Pow10(0) == 1;
  }

  /** `Number` of a trimmed string starting with a digit is its unsigned decimal value, or NaN. */
  lemma ToNumberUnsigned(s: string)
    requires s != [] && IsDigit(s[0]) && Trim(s) == s
    ensures ToNumber(s) == (if UnsignedDecimal(s).Some? then Finite(UnsignedDecimal(s).value) else NaN)
  {
    assert s != "Infinity" by { assert "Infinity"[0] == 'I'; }
  }

  /** `parseInt` of a string starting with a digit reads its leading digit run. */
  lemma ParseIntUnsigned(s: string)
    requires s != [] && IsDigit(s[0]) && TrimStart(s) == s
    ensures DigitRun(s) > 0 && ParseInt(s) == Some(DigitsValue(s[..DigitRun(s)]))
  {
  }

  /** `<digits>e-<digits>` has no white space to trim. */
  lemma ExponentLiteralTrimmed(d: string, k: string)
    requires d != [] && AllDigits(d) && k != [] && AllDigits(k)
    ensures Trim(d + ("e-" + k)) == d + ("e-" + k) && TrimStart(d + ("e-" + k)) == d + ("e-" + k)
  {
    var s := d + ("e-" + k);
    assert s[0] == d[0] && s[|s| - 1] == k[|k| - 1];
    TrimNoEdgeSpace(s);
  }

  /** `Number` on `<digits>e-<digits>`: the digits scaled down by the exponent. */
  lemma ScaledDownNumber(d: string, k: string)
    requires d != [] && AllDigits(d) && k != [] && AllDigits(k)
    ensures ToNumber(d + ("e-" + k)) == Finite(DigitsValue(d) as real / Pow10(DigitsValue(k)) as real)
  {
    var rest := "e-" + k;
    var s := d + rest;
    ExponentLiteralTrimmed(d, k);
    WholeThenExponent(d, rest);
    WholeMantissa(d);
    NegativeExponent(Mantissa(d, []), k);
    ToNumberUnsigned(s);
  }

  /** `parseInt` on `<digits>e-<digits>`: only the digits before the `e`. */
  lemma ScaledDownParseInt(d: string, k: string)
    requires d != [] && AllDigits(d) && k != [] && AllDigits(k)
    ensures ParseInt(d + ("e-" + k)) == Some(DigitsValue(d) as int)
  {
    var rest := "e-" + k;
    var s := d + rest;
    ExponentLiteralTrimmed(d, k);
    ParseIntUnsigned(s);
    DigitRunPrefix(d, rest);
    assert s[..|d|] == d;
  }

  /** `Number` and `parseInt` on `<digits>e-<digits>`: the scaled value, and only the digits before the `e`. */
  lemma ScaledDown(d: string, k: string)
    requires d != [] && AllDigits(d) && k != [] && AllDigits(k)
    ensures ToNumber(d + "e-" + k) == Finite(DigitsValue(d) as real / Pow10(DigitsValue(k)) as real)
    ensures ParseInt(d + "e-" + k) == Some(DigitsValue(d) as int)
  {
    assert d + "e-" + k == d + ("e-" + k);
    ScaledDownNumber(d, k);
    ScaledDownParseInt(d, k);
  }

  lemma NonNegativeQuotient(a: real, b: real)
    requires a >= 0.0 && b > 0.0
    ensures a / b >= 0.0
  {
  }

  /** A grade in exponent form is tested on its scaled value but sent as the digits before the `e`. */
  lemma ExponentGradeSent(d: string, k: string)
    requires d != [] && AllDigits(d) && k != [] && AllDigits(k)
    requires DigitsValue(d) as real / Pow10(DigitsValue(k)) as real <= 100.0
    ensures GradeRequest(Some(d + "e-" + k)) == Some(Some(DigitsValue(d)))
  {
    NonNegativeQuotient(DigitsValue(d) as real, Pow10(DigitsValue(k)) as real);
    ScaledDown(d, k);
  }

  /** "1000e-1" passes the range test as 100 but is sent as 1000. */
  lemma ExponentGradeSentOutOfRange(d: string, k: string)
    requires d == "1000" && k == "1"
    ensures ToNumber(d + "e-" + k) == Finite(100.0)
    ensures GradeRequest(Some(d + "e-" + k)) == Some(Some(1000))
  {
    Thousand();
    assert AllDigits(k) && DigitsValue(k) == 1;
    assert Pow10(1) == 10;
    assert DigitsValue(d) as real == 1000.0 && Pow10(DigitsValue(k)) as real == 10.0;
    assert 1000.0 / 10.0 == 100.0;
    assert DigitsValue(d) as real / Pow10(DigitsValue(k)) as real == 100.0;
    ScaledDown(d, k);
    ExponentGradeSent(d, k);
  }

  /** Only white space: both `trimStart` and `trim` leave nothing. */
  lemma BlankTrims(s: string)
    requires forall i :: 0 <= i < |s| ==> IsSpace(s[i])
    ensures TrimStart(s) == [] && Trim(s) == []
  {
    TrimEmpty(s);
  }

  /** Any answer of blanks passes the test (it converts to 0) and is sent as `null`. */
  lemma BlankSentAsNull(s: string)
    requires s != [] && forall i :: 0 <= i < |s| ==> IsSpace(s[i])
    ensures GradeRequest(Some(s)) == Some(None)
  {
    BlankTrims(s);
  }

  /** The single-space answer, for one. */
  lemma BlankGradeSentAsNull()
    ensures GradeRequest(Some(" ")) == Some(None)
  {
    BlankSentAsNull(" ");
  }

  /**
   * The evidently intended request: the prompt's answer must be a number in 0..100 with something
   * besides white space, and the whole part of that same number is sent.
   */
  function CorrectedGradeRequest(input: Option<string>): (r: Option<int>)
    ensures r.Some? ==> 0 <= r.value <= 100
    ensures r.Some? ==> input.Some? && ToNumber(input.value).Finite? && r.value == ToNumber(input.value).value.Floor
  {
    if input.None? || Trim(input.value) == [] then None
    else match ToNumber(input.value)
      case Finite(v) => if 0.0 <= v <= 100.0 then Some(v.Floor) else None
      case _ => None
  }

  lemma TrimDigits(s: string)
    requires s != [] && AllDigits(s)
    ensures TrimStart(s) == s && Trim(s) == s
  {
  }

  lemma {:induction false} DigitRunAll(s: string)
    requires AllDigits(s)
    ensures DigitRun(s) == |s|
  {
    if s != [] {
      DigitRunAll(s[1..]);
    }
  }

  /** On a plain whole number in range the two requests agree: both send that number. */
  lemma CorrectedAgreesOnWholeNumbers(s: string)
    requires s != [] && AllDigits(s) && DigitsValue(s) <= 100
    ensures GradeRequest(Some(s)) == Some(Some(DigitsValue(s) as int))
    ensures CorrectedGradeRequest(Some(s)) == Some(DigitsValue(s) as int)
  {
    TrimDigits(s);
    DigitRunAll(s);
    UnsignedDecimalDigits(s);
    assert s[..|s|] == s;
    assert ToNumber(s) == Finite(DigitsValue(s) as real);
  }

  /** The performance table's grade cell: `grade || 'Not graded'`. */
  function GradeLabel(grade: Option<int>): string {
    if grade.None? || grade.value == 0 then "Not graded" else IntToString(grade.value)
  }

  /** A stored 0 reads as ungraded, exactly like a missing grade. */
  lemma GradeLabelIff(grade: Option<int>)
    ensures GradeLabel(grade) == "Not graded" <==> grade.None? || grade.value == 0
  {
    if grade.Some? && grade.value != 0 {
      var s := IntToString(grade.value);
      assert s[0] == '-' || IsDigit(s[0]);
      assert "Not graded"[0] == 'N';
    }
  }

  /**
   * `updatePerformanceTable` fetches only when both selects hold a value (an empty value is falsy).
   * The body is the source's early return `!courseId || !assignmentId`; the ensures is the same
   * guard read positively.
   */
  function ShouldFetchPerformance(courseId: string, assignmentId: string): (b: bool)
    ensures b <==> courseId != [] && assignmentId != []
  {
    !(courseId == [] || assignmentId == [])
  }
}
