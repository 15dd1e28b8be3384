/** Calendar dates as Python's `datetime` holds them, the month-then-day
    order the zodiac ranges are compared in, and ISO formatting of a date. */
module Calendar {
  import opened PyText

  /** The year, month and day fields of a `datetime`. */
  datatype Date = Date(year: int, month: int, day: int)

  /** `datetime.MINYEAR` and `datetime.MAXYEAR`. */
  const MinYear := 1
  const MaxYear := 9999

  predicate IsLeapYear(year: int) {
    year % 4 == 0 && (year % 100 != 0 || year % 400 == 0)
  }

  /** Number of days in a month of the proleptic Gregorian calendar. */
  function DaysInMonth(year: int, month: int): (n: int)
    requires 1 <= month <= 12
    ensures 28 <= n <= 31
    ensures month == 2 ==> (n == 29 <==> IsLeapYear(year))
  {
    if month == 2 then (if IsLeapYear(year) then 29 else 28)
    else if month == 4 || month == 6 || month == 9 || month == 11 then 30
    else 31
  }

  /** A date `datetime` can represent. */
  predicate ValidDate(d: Date) {
    MinYear <= d.year <= MaxYear && 1 <= d.month <= 12 && 1 <= d.day <= DaysInMonth(d.year, d.month)
  }

  /** What a `datetime` holds: only valid dates. */
  type DateTime = d: Date | ValidDate(d) witness Date(2000, 1, 1)

  /** Longest length of a month over all years: February counts 29 days. */
  function MaxDaysInMonth(month: int): (n: int)
    requires 1 <= month <= 12
    ensures forall y :: DaysInMonth(y, month) <= n
    ensures n == DaysInMonth(2000, month)
  {
    if month == 2 then 29 else DaysInMonth(2001, month)
  }

  /** A (month, day) pair that some valid date has, Feb 29 included. */
  predicate ValidMonthDay(month: int, day: int) {
    1 <= month <= 12 && 1 <= day <= MaxDaysInMonth(month)
  }

  lemma ValidDateMonthDay(d: Date)
    requires ValidDate(d)
    ensures ValidMonthDay(d.month, d.day)
  {
  }

  /** Natural month-then-day order on (month, day) pairs. */
  predicate LexLe(a: (int, int), b: (int, int)) {
    a.0 < b.0 || (a.0 == b.0 && a.1 <= b.1)
  }

  /** The calendar day after (month, day) in a leap year, Dec 31 wrapping to Jan 1. */
  function NextDay(month: int, day: int): (r: (int, int))
    requires ValidMonthDay(month, day)
    ensures ValidMonthDay(r.0, r.1)
    ensures r != (1, 1) ==> LexLe((month, day), r) && (month, day) != r
    ensures r == (1, 1) <==> (month, day) == (12, 31)
  {
    if day < MaxDaysInMonth(month) then (month, day + 1)
    else if month < 12 then (month + 1, 1)
    else (1, 1)
  }

  /** `n` written in decimal and left-padded with zeros to at least `width` digits. */
  function ZeroPadded(n: nat, width: nat): (r: string)
    ensures |r| == if |NatToString(n)| < width then width else |NatToString(n)|
    ensures AllLiteralChars(r) && NoUnderscore(r)
    ensures LiteralValue(r) == n
  {
    var digits := NatToString(n);
    var pad := if |digits| < width then width - |digits| else 0;
    LeadingZeros(pad, digits);
    Zeros(pad) + digits
  }

  /** Four, two and two digits joined by dashes: the fields sit at fixed places and every other character is a digit. */
  lemma IsoLayout(y: string, m: string, dd: string)
    requires |y| == 4 && |m| == 2 && |dd| == 2
    requires AllLiteralChars(y) && NoUnderscore(y) && AllLiteralChars(m) && NoUnderscore(m)
    requires AllLiteralChars(dd) && NoUnderscore(dd)
    ensures var r := y + "-" + m + "-" + dd;
      && |r| == 10 && r[4] == '-' && r[7] == '-'
      && r[..4] == y && r[5..7] == m && r[8..] == dd
      && forall k :: 0 <= k < |r| && k != 4 && k != 7 ==> IsDigit(r[k])
  {
    var r := y + "-" + m + "-" + dd;
    assert r[..4] == y && r[5..7] == m && r[8..] == dd;
    assert forall k :: 0 <= k < 4 ==> r[k] == y[k];
    assert forall k :: 5 <= k < 7 ==> r[k] == m[k - 5];
    assert forall k :: 8 <= k < 10 ==> r[k] == dd[k - 8];
  }

  /** `strftime("%Y-%m-%d")` of a valid date: four-digit year, two-digit
      month and day, separated by dashes; each field reads back as its number. */
  function FormatIsoDate(d: Date): (r: string)
    requires ValidDate(d)
    ensures |r| == 10 && r[4] == '-' && r[7] == '-'
    ensures AllLiteralChars(r[..4]) && LiteralValue(r[..4]) == d.year
    ensures AllLiteralChars(r[5..7]) && LiteralValue(r[5..7]) == d.month
    ensures AllLiteralChars(r[8..]) && LiteralValue(r[8..]) == d.day
    ensures forall k :: 0 <= k < |r| && k != 4 && k != 7 ==> IsDigit(r[k])
  {
    NatToStringLength(d.year);
    NatToStringLength(d.month);
    NatToStringLength(d.day);
    var y, m, dd := ZeroPadded(d.year, 4), ZeroPadded(d.month, 2), ZeroPadded(d.day, 2);
    IsoLayout(y, m, dd);
    y + "-" + m + "-" + dd
  }
}
