/** Calendar dates as the service handles them: chrono's `NaiveDate`
    (proleptic Gregorian), parsed from and printed as `YYYY-MM-DD`. */
module Dates {
  import opened Base
  import opened Text

  datatype Date = Date(year: int, month: int, day: int)

  predicate IsLeapYear(y: int) {
    y % 4 == 0 && (y % 100 != 0 || y % 400 == 0)
  }

  function DaysInMonth(y: int, m: int): (n: int)
    requires 1 <= m <= 12
    ensures 28 <= n <= 31
    ensures n == 29 <==> m == 2 && IsLeapYear(y)
  {
    if m == 2 then (if IsLeapYear(y) then 29 else 28)
    else if m == 4 || m == 6 || m == 9 || m == 11 then 30
    else 31
  }

  /** A day that exists in the Gregorian calendar. */
  predicate ValidDate(d: Date) {
    1 <= d.month <= 12 && 1 <= d.day <= DaysInMonth(d.year, d.month)
  }

  /** `a > b` on `NaiveDate`: later year, else later month, else later day. */
  predicate IsAfter(a: Date, b: Date) {
    a.year > b.year
    || (a.year == b.year && (a.month > b.month || (a.month == b.month && a.day > b.day)))
  }

  /** `IsAfter` is a strict total order on dates. */
  lemma IsAfterStrictTotalOrder(a: Date, b: Date, c: Date)
    ensures !IsAfter(a, a)
    ensures IsAfter(a, b) ==> !IsAfter(b, a)
    ensures IsAfter(a, b) && IsAfter(b, c) ==> IsAfter(a, c)
    ensures a != b ==> IsAfter(a, b) || IsAfter(b, a)
  {
  }

  predicate AllDigits(s: string) {
    forall i :: 0 <= i < |s| ==> IsDigit(s[i])
  }

  function TwoDigits(s: string): (n: nat)
    requires |s| == 2 && AllDigits(s)
    ensures n < 100
  {
    10 * DigitValue(s[0]) + DigitValue(s[1])
  }

  function FourDigits(s: string): (n: nat)
    requires |s| == 4 && AllDigits(s)
    ensures n < 10000
  {
    1000 * DigitValue(s[0]) + 100 * DigitValue(s[1]) + 10 * DigitValue(s[2]) + DigitValue(s[3])
  }

  function Pad2(n: nat): (s: string)
    requires n < 100
    ensures |s| == 2 && AllDigits(s)
  {
    [DigitChar(n / 10), DigitChar(n % 10)]
  }

  function Pad4(n: nat): (s: string)
    requires n < 10000
    ensures |s| == 4 && AllDigits(s)
  {
    [DigitChar(n / 1000), DigitChar(n / 100 % 10), DigitChar(n / 10 % 10), DigitChar(n % 10)]
  }

  /** The year range that `%Y` writes with exactly four digits. */
  predicate FourDigitYear(d: Date) {
    0 <= d.year <= 9999
  }

  /** `NaiveDate::parse_from_str(s, "%Y-%m-%d")`, restricted to the strict
      ten-character spelling. */
  function ParseDate(s: string): (r: Option<Date>)
    ensures r.Some? ==> ValidDate(r.value) && FourDigitYear(r.value)
  {
    if |s| == 10 && s[4] == '-' && s[7] == '-'
       && AllDigits(s[..4]) && AllDigits(s[5..7]) && AllDigits(s[8..])
    then
      var d := Date(FourDigits(s[..4]), TwoDigits(s[5..7]), TwoDigits(s[8..]));
      if ValidDate(d) then Some(d) else None
    else None
  }

  /** The year as chrono displays it: four digits inside 0..=9999,
      otherwise a sign and at least four digits. */
  function YearText(y: int): (s: string)
    ensures 0 <= y <= 9999 ==> s == Pad4(y)
    ensures !(0 <= y <= 9999) ==> |s| >= 2 && (s[0] == '+' <==> y > 9999) && (s[0] == '-' <==> y < 0)
  {
    if 0 <= y <= 9999 then Pad4(y)
    else if -9999 <= y < 0 then "-" + Pad4(-y)
    else if y < 0 then "-" + NatToString(-y)
    else "+" + NatToString(y)
  }

  /** `NaiveDate::to_string()`. */
  function FormatDate(d: Date): (s: string)
    requires ValidDate(d)
    ensures FourDigitYear(d) ==> |s| == 10 && s[4] == '-' && s[7] == '-'
  {
    YearText(d.year) + "-" + Pad2(d.month) + "-" + Pad2(d.day)
  }

  lemma Pad2RoundTrip(n: nat)
    requires n < 100
    ensures TwoDigits(Pad2(n)) == n
  {
  }

  lemma Pad4RoundTrip(n: nat)
    requires n < 10000
    ensures FourDigits(Pad4(n)) == n
  {
    var q := n / 10;
    var r := q / 10;
    assert n == 10 * q + n % 10;
    assert q == 10 * r + q % 10;
    assert r == 10 * (r / 10) + r % 10;
    assert n / 100 == r && n / 1000 == r / 10;
  }

  lemma TwoDigitsRoundTrip(s: string)
    requires |s| == 2 && AllDigits(s)
    ensures Pad2(TwoDigits(s)) == s
  {
  }

  lemma FourDigitsRoundTrip(s: string)
    requires |s| == 4 && AllDigits(s)
    ensures Pad4(FourDigits(s)) == s
  {
    var a, b, c, d := DigitValue(s[0]), DigitValue(s[1]), DigitValue(s[2]), DigitValue(s[3]);
    var n := FourDigits(s);
    DivModDigit(n, 100 * a + 10 * b + c, d);
    DivModDigit(100 * a + 10 * b + c, 10 * a + b, c);
    DivModDigit(10 * a + b, a, b);
    assert n / 100 == 10 * a + b && n / 1000 == a;
    var p := Pad4(n);
    assert p[0] == s[0] && p[1] == s[1] && p[2] == s[2] && p[3] == s[3];
  }

  lemma DivModDigit(n: nat, q: nat, r: nat)
    requires r < 10 && n == 10 * q + r
    ensures n / 10 == q && n % 10 == r
  {
  }

  /** Printing a date and parsing the text gives the date back. */
  lemma FormatThenParse(d: Date)
    requires ValidDate(d) && FourDigitYear(d)
    ensures ParseDate(FormatDate(d)) == Some(d)
  {
    var s := FormatDate(d);
    assert s[..4] == Pad4(d.year);
    assert s[5..7] == Pad2(d.month);
    assert s[8..] == Pad2(d.day);
    Pad4RoundTrip(d.year);
    Pad2RoundTrip(d.month);
    Pad2RoundTrip(d.day);
  }

  /** Only the canonical spelling parses: a parsed text is exactly what
      printing its date writes. */
  lemma ParseThenFormat(s: string)
    requires ParseDate(s).Some?
    ensures FormatDate(ParseDate(s).value) == s
  {
    FourDigitsRoundTrip(s[..4]);
    TwoDigitsRoundTrip(s[5..7]);
    TwoDigitsRoundTrip(s[8..]);
    assert s == s[..4] + "-" + s[5..7] + "-" + s[8..];
  }

  /** The leap-year rule at work: 29 February exists in 2024 and 2000... */
  lemma LeapDaysExist()
    ensures ParseDate("2024-02-29") == Some(Date(2024, 2, 29))
    ensures ParseDate("2000-02-29") == Some(Date(2000, 2, 29))
  {
    var s := "2024-02-29";
    assert FourDigits(s[..4]) == 2024 && TwoDigits(s[5..7]) == 2 && TwoDigits(s[8..]) == 29;
    var t := "2000-02-29";
    assert FourDigits(t[..4]) == 2000 && TwoDigits(t[5..7]) == 2 && TwoDigits(t[8..]) == 29;
  }

  /** ...but not in 2025 or 1900. */
  lemma NonLeapDaysMissing()
    ensures ParseDate("2025-02-29") == None
    ensures ParseDate("1900-02-29") == None
  {
  }
}
