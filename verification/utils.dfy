/**
 * The date formatting helpers of the service: `format_date` ("YYYY-MM-DD") and
 * `format_date_range` (the display name of a payment period). Month names follow the
 * C locale's `%b` table; years print as four digits. Each format has a parser that
 * inverts it, which shows what the text determines.
 */
module Utils {
  import opened Wrappers
  import opened Dates

  /** The C locale's abbreviated month names, `%b`. */
  const MonthAbbrevs: seq<string> :=
    ["Jan", "Feb", "Mar", "Apr", "May", "Jun", "Jul", "Aug", "Sep", "Oct", "Nov", "Dec"]

  function MonthAbbrev(m: Month): (r: string)
    ensures |r| == 3
  {
    MonthAbbrevs[m - 1]
  }

  /** The month whose abbreviation is `s`, if any. */
  function MonthOf(s: string): (r: Option<Month>)
    ensures r.Some? ==> MonthAbbrev(r.value) == s
  {
    if s == "Jan" then Some(1) else if s == "Feb" then Some(2)
    else if s == "Mar" then Some(3) else if s == "Apr" then Some(4)
    else if s == "May" then Some(5) else if s == "Jun" then Some(6)
    else if s == "Jul" then Some(7) else if s == "Aug" then Some(8)
    else if s == "Sep" then Some(9) else if s == "Oct" then Some(10)
    else if s == "Nov" then Some(11) else if s == "Dec" then Some(12)
    else None
  }

  lemma MonthOfAbbrev(m: Month)
    ensures MonthOf(MonthAbbrev(m)) == Some(m)
  {
  }

  function Pow10(n: nat): (r: nat)
    ensures r >= 1
  {
    if n == 0 then 1 else 10 * Pow10(n - 1)
  }

  predicate IsDigit(c: char) {
    '0' <= c <= '9'
  }

  predicate AllDigits(s: string) {
    forall i :: 0 <= i < |s| ==> IsDigit(s[i])
  }

  function DigitChar(d: int): (c: char)
    requires 0 <= d < 10
    ensures IsDigit(c)
  {
    (48 + d) as char
  }

  /** The last `width` decimal digits of `n`, zero-padded on the left (`%0<width>d`). */
  function FixedDigits(n: nat, width: nat): (r: string)
    ensures |r| == width
    ensures AllDigits(r)
  {
    if width == 0 then [] else FixedDigits(n / 10, width - 1) + [DigitChar(n % 10)]
  }

  /** The number a string of decimal digits denotes. */
  function DigitsValue(s: string): nat
    requires AllDigits(s)
  {
    if s == [] then 0 else 10 * DigitsValue(s[..|s| - 1]) + (s[|s| - 1] as int - 48)
  }

  /** Reading back a zero-padded number that fits its width gives the number. */
  lemma {:induction false} DigitsValueOfFixedDigits(n: nat, width: nat)
    requires n < Pow10(width)
    ensures DigitsValue(FixedDigits(n, width)) == n
  {
    if width > 0 {
      assert n / 10 < Pow10(width - 1);
      DigitsValueOfFixedDigits(n / 10, width - 1);
      var r := FixedDigits(n, width);
      assert r[..|r| - 1] == FixedDigits(n / 10, width - 1);
    }
  }

  /** `date.strftime("%Y-%m-%d")`. */
  function FormatDate(d: DateTime): (r: string)
    ensures |r| == 10
    ensures r[4] == '-' && r[7] == '-'
    ensures AllDigits(r[..4]) && AllDigits(r[5..7]) && AllDigits(r[8..])
  {
    var r := FixedDigits(d.year, 4) + "-" + FixedDigits(d.month, 2) + "-" + FixedDigits(d.day, 2);
    assert r[..4] == FixedDigits(d.year, 4);
    assert r[5..7] == FixedDigits(d.month, 2);
    assert r[8..] == FixedDigits(d.day, 2);
    r
  }

  /** Reads "YYYY-MM-DD" back into (year, month, day). */
  function ParseDate(s: string): Option<(int, int, int)> {
    if |s| == 10 && s[4] == '-' && s[7] == '-'
       && AllDigits(s[..4]) && AllDigits(s[5..7]) && AllDigits(s[8..])
    then Some((DigitsValue(s[..4]), DigitsValue(s[5..7]), DigitsValue(s[8..])))
    else None
  }

  /** The formatted date determines year, month and day; time of day is dropped. */
  lemma FormatDateRoundTrip(d: DateTime)
    ensures ParseDate(FormatDate(d)) == Some((d.year as int, d.month as int, d.day as int))
  {
    var r := FormatDate(d);
    assert r[..4] == FixedDigits(d.year, 4);
    assert r[5..7] == FixedDigits(d.month, 2);
    assert r[8..] == FixedDigits(d.day, 2);
    DigitsValueOfFixedDigits(d.year, 4);
    DigitsValueOfFixedDigits(d.month, 2);
    DigitsValueOfFixedDigits(d.day, 2);
  }

  /** `date.strftime("%b %Y")`. */
  function MonthYearText(d: DateTime): (r: string)
    ensures |r| == 8
  {
    MonthAbbrev(d.month) + " " + FixedDigits(d.year, 4)
  }

  /**
   * `format_date_range`: "Mon YYYY" for one month, "Mon - Mon YYYY" within one year,
   * "Mon YYYY - Mon YYYY" otherwise. The start need not precede the end.
   */
  function FormatDateRange(start: DateTime, end: DateTime): (r: string)
    ensures |r| == 8 <==> (start.month == end.month && start.year == end.year)
    ensures |r| == 14 <==> (start.month != end.month && start.year == end.year)
    ensures |r| == 19 <==> start.year != end.year
    ensures r[..3] == MonthAbbrev(start.month)
    ensures r[|r| - 4..] == FixedDigits(end.year, 4)
  {
    var r :=
      if start.month == end.month && start.year == end.year then MonthYearText(start)
      else if start.year == end.year then MonthAbbrev(start.month) + " - " + MonthYearText(end)
      else MonthYearText(start) + " - " + MonthYearText(end);
    assert r[..3] == MonthAbbrev(start.month);
    r
  }

  /** The part of a date that a range name shows. */
  datatype MonthYear = MonthYear(month: Month, year: Year)

  function MonthYearOf(d: DateTime): MonthYear {
    MonthYear(d.month, d.year)
  }

  /** Reads "Mon YYYY" back. */
  function ParseMonthYear(s: string): Option<MonthYear> {
    if |s| == 8 && s[3] == ' ' && AllDigits(s[4..]) && MonthOf(s[..3]).Some?
       && 1 <= DigitsValue(s[4..]) <= 9999
    then Some(MonthYear(MonthOf(s[..3]).value, DigitsValue(s[4..])))
    else None
  }

  /** Reads a range name back into the month and year of its start and of its end. */
  function ParseDateRange(s: string): Option<(MonthYear, MonthYear)> {
    if |s| == 8 then
      match ParseMonthYear(s)
      case Some(my) => Some((my, my))
      case None => None
    else if |s| == 14 && s[3..6] == " - " then
      match (MonthOf(s[..3]), ParseMonthYear(s[6..]))
      case (Some(m), Some(e)) => Some((MonthYear(m, e.year), e))
      case _ => None
    else if |s| == 19 && s[8..11] == " - " then
      match (ParseMonthYear(s[..8]), ParseMonthYear(s[11..]))
      case (Some(b), Some(e)) => Some((b, e))
      case _ => None
    else None
  }

  lemma ParseMonthYearText(d: DateTime)
    ensures ParseMonthYear(MonthYearText(d)) == Some(MonthYearOf(d))
  {
    var r := MonthYearText(d);
    assert r[..3] == MonthAbbrev(d.month);
    assert r[4..] == FixedDigits(d.year, 4);
    MonthOfAbbrev(d.month);
    DigitsValueOfFixedDigits(d.year, 4);
  }

  /**
   * A range name determines the month and year of both ends, and nothing else
   * about them: the day and the time of day never reach the text.
   */
  lemma FormatDateRangeRoundTrip(start: DateTime, end: DateTime)
    ensures ParseDateRange(FormatDateRange(start, end)) == Some((MonthYearOf(start), MonthYearOf(end)))
  {
    var r := FormatDateRange(start, end);
    ParseMonthYearText(start);
    ParseMonthYearText(end);
    if start.month == end.month && start.year == end.year {
    } else if start.year == end.year {
      assert r[..3] == MonthAbbrev(start.month);
      assert r[3..6] == " - ";
      assert r[6..] == MonthYearText(end);
      MonthOfAbbrev(start.month);
    } else {
      assert r[..8] == MonthYearText(start);
      assert r[8..11] == " - ";
      assert r[11..] == MonthYearText(end);
    }
  }

  /** Two ranges whose ends agree in month and year get the same name. */
  lemma FormatDateRangeIgnoresDayAndTime(start: DateTime, end: DateTime, start': DateTime, end': DateTime)
    requires MonthYearOf(start) == MonthYearOf(start') && MonthYearOf(end) == MonthYearOf(end')
    ensures FormatDateRange(start, end) == FormatDateRange(start', end')
  {
  }

  lemma {:induction false} YearDigits2022And2023()
    ensures FixedDigits(2022, 4) == "2022" && FixedDigits(2023, 4) == "2023"
  {
    assert FixedDigits(2, 1) == "2";
    assert FixedDigits(20, 2) == "20";
    assert FixedDigits(202, 3) == "202";
  }

  lemma FormatDateRangeOneMonth()
    ensures FormatDateRange(DateTime(2023, 6, 1, 0, 0, 0, 0), DateTime(2023, 6, 30, 0, 0, 0, 0)) == "Jun 2023"
  {
    YearDigits2022And2023();
    assert MonthYearText(DateTime(2023, 6, 1, 0, 0, 0, 0)) == "Jun" + " " + "2023";
  }

  lemma FormatDateRangeOneYear()
    ensures FormatDateRange(DateTime(2023, 6, 1, 0, 0, 0, 0), DateTime(2023, 7, 31, 23, 59, 59, 0)) == "Jun - Jul 2023"
  {
    YearDigits2022And2023();
    var end := DateTime(2023, 7, 31, 23, 59, 59, 0);
    assert MonthYearText(end) == "Jul" + " " + "2023";
    assert FormatDateRange(DateTime(2023, 6, 1, 0, 0, 0, 0), end) == "Jun" + " - " + "Jul 2023";
  }

  lemma MonthYearTextsAcrossYears()
    ensures MonthYearText(DateTime(2022, 12, 1, 0, 0, 0, 0)) == "Dec 2022"
    ensures MonthYearText(DateTime(2023, 1, 31, 0, 0, 0, 0)) == "Jan 2023"
  {
    YearDigits2022And2023();
    assert MonthYearText(DateTime(2022, 12, 1, 0, 0, 0, 0)) == "Dec" + " " + "2022";
    assert MonthYearText(DateTime(2023, 1, 31, 0, 0, 0, 0)) == "Jan" + " " + "2023";
  }

  lemma FormatDateRangeAcrossYears()
    ensures FormatDateRange(DateTime(2022, 12, 1, 0, 0, 0, 0), DateTime(2023, 1, 31, 0, 0, 0, 0)) == "Dec 2022 - Jan 2023"
  {
    var start, end := DateTime(2022, 12, 1, 0, 0, 0, 0), DateTime(2023, 1, 31, 0, 0, 0, 0);
    var a, b := MonthYearText(start), MonthYearText(end);
    MonthYearTextsAcrossYears();
    assert a + " - " + b == "Dec 2022 - Jan 2023" by {
      assert a == "Dec 2022" && b == "Jan 2023";
    }
    assert FormatDateRange(start, end) == a + " - " + b;
  }

  /** The worked examples: one month, two months of one year, across a year end. */
  lemma FormatDateRangeExamples()
    ensures FormatDateRange(DateTime(2023, 6, 1, 0, 0, 0, 0), DateTime(2023, 6, 30, 0, 0, 0, 0)) == "Jun 2023"
    ensures FormatDateRange(DateTime(2023, 6, 1, 0, 0, 0, 0), DateTime(2023, 7, 31, 23, 59, 59, 0)) == "Jun - Jul 2023"
    ensures FormatDateRange(DateTime(2022, 12, 1, 0, 0, 0, 0), DateTime(2023, 1, 31, 0, 0, 0, 0)) == "Dec 2022 - Jan 2023"
  {
    FormatDateRangeOneMonth();
    FormatDateRangeOneYear();
    FormatDateRangeAcrossYears();
  }
}
