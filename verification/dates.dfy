/** Calendar dates and the `YYYY-MM-DD` strings sent as query parameters. Every
    screen formats a `Date` the same way: the full year unpadded, then the month
    (`getMonth() + 1`) and the day, each zero-padded to two digits. */
module Dates {
  import opened Wrappers

  /** A local calendar date; `month` is zero-based as `Date.getMonth()` returns it. */
  datatype Date = Date(year: nat, month: nat, day: nat)

  predicate Valid(d: Date) {
    d.month < 12 && 1 <= d.day <= 31
  }

  /** Calendar order of two dates (the time of day is ignored). */
  predicate DayLe(a: Date, b: Date) {
    a.year < b.year
    || (a.year == b.year && a.month < b.month)
    || (a.year == b.year && a.month == b.month && a.day <= b.day)
  }

  predicate IsDigit(c: char) {
    '0' <= c <= '9'
  }

  predicate AllDigits(s: string) {
    forall k | 0 <= k < |s| :: IsDigit(s[k])
  }

  function DigitChar(n: nat): (c: char)
    requires n < 10
    ensures IsDigit(c)
  {
    ('0' as int + n) as char
  }

  function DigitValue(c: char): (n: nat)
    requires IsDigit(c)
    ensures n < 10
  {
    c as int - '0' as int
  }

  /** `String(n)` for a natural number: its decimal digits without leading zeros. */
  function Decimal(n: nat): (s: string)
    ensures 1 <= |s| && AllDigits(s)
    ensures n < 10 <==> |s| == 1
  {
    if n < 10 then [DigitChar(n)] else Decimal(n / 10) + [DigitChar(n % 10)]
  }

  /** The value of a string of decimal digits. */
  function ParseDecimal(s: string): nat
    requires AllDigits(s)
  {
    if |s| == 0 then 0 else ParseDecimal(s[..|s| - 1]) * 10 + DigitValue(s[|s| - 1])
  }

  /** Reading back the digits `Decimal` writes gives the number. */
  lemma {:induction false} DecimalRoundTrip(n: nat)
    ensures ParseDecimal(Decimal(n)) == n
  {
    if n >= 10 {
      var s := Decimal(n);
      assert s[..|s| - 1] == Decimal(n / 10);
      DecimalRoundTrip(n / 10);
    }
  }

  /** `String(n).padStart(2, '0')`. */
  function Pad2(n: nat): (s: string)
    ensures AllDigits(s)
    ensures n < 100 ==> |s| == 2
    ensures n < 100 ==> ParseDecimal(s) == n
  {
    var d := Decimal(n);
    DecimalRoundTrip(n);
    if |d| >= 2 then d
    else
      assert d[0] == DigitChar(n);
      "0" + d
  }

  /** `${yyyy}-${mm}-${dd}`, as `getDateStr` and both `formatDate` copies build it. */
  function FormatDate(d: Date): (s: string)
    requires Valid(d)
    ensures |s| == |Decimal(d.year)| + 6
    ensures s[..|s| - 6] == Decimal(d.year)
    ensures s[|s| - 6] == '-' && s[|s| - 3] == '-'
  {
    Decimal(d.year) + "-" + Pad2(d.month + 1) + "-" + Pad2(d.day)
  }

  /** Reads a `YYYY-MM-DD` string back into a date, when it has that shape. */
  function ParseDate(s: string): Option<Date> {
    if |s| < 7 || s[|s| - 6] != '-' || s[|s| - 3] != '-' then None
    else ParseFields(s[..|s| - 6], s[|s| - 5..|s| - 3], s[|s| - 2..])
  }

  /** The date the year, month and day fields of a `YYYY-MM-DD` string denote, when
      all three are digits and the month is not zero. */
  function ParseFields(y: string, m: string, d: string): Option<Date> {
    if !(AllDigits(y) && AllDigits(m) && AllDigits(d)) || ParseDecimal(m) == 0 then None
    else Some(Date(ParseDecimal(y), ParseDecimal(m) - 1, ParseDecimal(d)))
  }

  /** `ParseDate` splits a string of the shape `FormatDate` writes back into its fields. */
  lemma ParseDateSplits(y: string, m: string, dd: string)
    requires |y| >= 1 && |m| == 2 && |dd| == 2
    ensures ParseDate(y + "-" + m + "-" + dd) == ParseFields(y, m, dd)
  {
    var s := y + "-" + m + "-" + dd;
    assert s[..|s| - 6] == y;
    assert s[|s| - 5..|s| - 3] == m;
    assert s[|s| - 2..] == dd;
  }

  /** Formatting loses nothing: the string reads back as the same date. */
  lemma FormatDateRoundTrip(d: Date)
    requires Valid(d)
    ensures ParseDate(FormatDate(d)) == Some(d)
  {
    DecimalRoundTrip(d.year);
    ParseDateSplits(Decimal(d.year), Pad2(d.month + 1), Pad2(d.day));
  }

  /** Distinct dates never format to the same query string. */
  lemma FormatDateInjective(a: Date, b: Date)
    requires Valid(a) && Valid(b) && FormatDate(a) == FormatDate(b)
    ensures a == b
  {
    FormatDateRoundTrip(a);
    FormatDateRoundTrip(b);
  }
}
