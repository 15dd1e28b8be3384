/** The birth-date classifier (`ZodiacDateManager`): boundary strings such
    as "Mar 21" are parsed into (month, day) pairs, a date is tested against
    a row's range, and the first row whose range holds the date gives the sign. */
module ZodiacDates {
  import opened Wrappers
  import opened PyText
  import opened Calendar
  import opened Errors
  import opened ZodiacTable

  /** The fixed month-abbreviation map of `_parse_date_range`. */
  const MonthMap: map<string, int> := map[
    "Jan" := 1, "Feb" := 2, "Mar" := 3, "Apr" := 4,
    "May" := 5, "Jun" := 6, "Jul" := 7, "Aug" := 8,
    "Sep" := 9, "Oct" := 10, "Nov" := 11, "Dec" := 12
  ]

  predicate NoComma(s: string) {
    forall k :: 0 <= k < |s| ==> s[k] != ','
  }

  /** Every key is a single comma-free word and every value a month number. */
  lemma MonthMapFacts()
    ensures forall a :: a in MonthMap ==> IsWord(a) && NoComma(a) && 1 <= MonthMap[a] <= 12
  {
    forall a | a in MonthMap ensures IsWord(a) && NoComma(a) && 1 <= MonthMap[a] <= 12 {
      assert |a| == 3;
    }
  }

  /** `_parse_date_range`: commas are deleted, the rest is split on
      whitespace, token 1 is read as the day with `int()`, and token 0 is
      looked up as the month. Tokens after the second are ignored and the day
      is not range-checked. */
  function ParseDateRange(dateStr: string): (r: Result<(int, int), Error>)
    ensures r.Ok? ==> 1 <= r.value.0 <= 12
    ensures r.Err? ==> r.error.MissingToken? || r.error.InvalidLiteral? || r.error.InvalidMonthAbbreviation?
  {
    var parts := Split(RemoveAll(dateStr, ','));
    if |parts| == 0 then Err(MissingToken(0))
    else if |parts| == 1 then Err(MissingToken(1))
    else
      match ParseIntLiteral(parts[1])
      case None => Err(InvalidLiteral(parts[1]))
      case Some(day) =>
        if parts[0] in MonthMap then
          MonthMapFacts();
          Ok((MonthMap[parts[0]], day))
        else Err(InvalidMonthAbbreviation(parts[0]))
  }

  /** Two comma-free words separated by a space: the day is read before the month is looked up. */
  lemma ParseTwoWords(abbr: string, dayToken: string)
    requires IsWord(abbr) && NoComma(abbr) && IsWord(dayToken) && NoComma(dayToken)
    ensures ParseDateRange(abbr + " " + dayToken) ==
      match ParseIntLiteral(dayToken)
      case None => Err(InvalidLiteral(dayToken))
      case Some(day) =>
        if abbr in MonthMap then Ok((MonthMap[abbr], day)) else Err(InvalidMonthAbbreviation(abbr))
  {
    var s := abbr + " " + dayToken;
    assert forall k :: 0 <= k < |s| ==> s[k] != ',' by {
      forall k | 0 <= k < |s| ensures s[k] != ',' {
        if k < |abbr| { assert s[k] == abbr[k]; }
        else if k > |abbr| { assert s[k] == dayToken[k - |abbr| - 1]; }
      }
    }
    RemoveAllAbsent(s, ',');
    SplitTwoWords(abbr, dayToken);
  }

  /** "<Mmm> <d>" for a known abbreviation and a natural day parses to (month, d). */
  lemma ParseWellFormed(abbr: string, day: nat)
    requires abbr in MonthMap
    ensures ParseDateRange(abbr + " " + NatToString(day)) == Ok((MonthMap[abbr], day))
  {
    MonthMapFacts();
    ParseNatToString(day);
    ParseTwoWords(abbr, NatToString(day));
  }

  /** Commas anywhere in a boundary string are ignored. */
  lemma ParseIgnoresComma(a: string, b: string)
    ensures ParseDateRange(a + "," + b) == ParseDateRange(a + b)
  {
    RemoveAllAppend(a + ",", b, ',');
    RemoveAllAppend(a, ",", ',');
    RemoveAllAppend(a, b, ',');
    assert RemoveAll(",", ',') == [];
    assert RemoveAll(a + "," + b, ',') == RemoveAll(a + b, ',');
  }

  /** "Mar 21," parses the same as "Mar 21". */
  lemma ParseTrailingComma(abbr: string, day: nat)
    requires abbr in MonthMap
    ensures ParseDateRange(abbr + " " + NatToString(day) + ",") == Ok((MonthMap[abbr], day))
  {
    var s := abbr + " " + NatToString(day);
    ParseIgnoresComma(s, []);
    assert s + "," + [] == s + "," && s + [] == s;
    ParseWellFormed(abbr, day);
  }

  /** An unknown abbreviation with a numeric day fails naming the abbreviation ("Xyz 5" names "Xyz"). */
  lemma ParseUnknownMonth(abbr: string, day: nat)
    requires IsWord(abbr) && NoComma(abbr) && abbr !in MonthMap
    ensures ParseDateRange(abbr + " " + NatToString(day)) == Err(InvalidMonthAbbreviation(abbr))
  {
    ParseNatToString(day);
    ParseTwoWords(abbr, NatToString(day));
  }

  /** A non-numeric day token fails, whatever the month token is. */
  lemma ParseBadDay(abbr: string, dayToken: string)
    requires IsWord(abbr) && NoComma(abbr) && IsWord(dayToken) && NoComma(dayToken)
    requires ParseIntLiteral(dayToken) == None
    ensures ParseDateRange(abbr + " " + dayToken) == Err(InvalidLiteral(dayToken))
  {
    ParseTwoWords(abbr, dayToken);
  }

  /** A single word has no day token: `parts[1]` raises IndexError. */
  lemma ParseSingleWord(w: string)
    requires IsWord(w) && NoComma(w)
    ensures ParseDateRange(w) == Err(MissingToken(1))
  {
    RemoveAllAbsent(w, ',');
    SplitWordThen(w, []);
    assert w + [] == w;
  }

  /** `_is_date_in_range`, with its three-clause structure for both range shapes. */
  function IsDateInRange(month: int, day: int, dateBegin: (int, int), dateEnd: (int, int)): bool {
    var (beginMonth, beginDay) := dateBegin;
    var (endMonth, endDay) := dateEnd;
    if beginMonth > endMonth then
      (month == beginMonth && day >= beginDay) ||
      (month == endMonth && day <= endDay) ||
      (month > beginMonth || month < endMonth)
    else
      (month == beginMonth && day >= beginDay) ||
      (month == endMonth && day <= endDay) ||
      (beginMonth < month < endMonth)
  }

  /** A range that wraps from December into January holds exactly the dates on or after its start or on or before its end. */
  lemma InRangeWrapping(month: int, day: int, dateBegin: (int, int), dateEnd: (int, int))
    requires dateBegin.0 > dateEnd.0
    ensures IsDateInRange(month, day, dateBegin, dateEnd) <==>
            LexLe(dateBegin, (month, day)) || LexLe((month, day), dateEnd)
  {
  }

  /** A range whose end month is after its start month holds exactly the dates between its bounds. */
  lemma InRangeNonWrapping(month: int, day: int, dateBegin: (int, int), dateEnd: (int, int))
    requires dateBegin.0 < dateEnd.0
    ensures IsDateInRange(month, day, dateBegin, dateEnd) <==>
            LexLe(dateBegin, (month, day)) && LexLe((month, day), dateEnd)
  {
  }

  /** With start and end in one month the clauses form a union: every day of
      that month up to the end day, or from the start day on, is inside. */
  lemma InRangeSameMonth(month: int, day: int, dateBegin: (int, int), dateEnd: (int, int))
    requires dateBegin.0 == dateEnd.0
    ensures IsDateInRange(month, day, dateBegin, dateEnd) <==>
            month == dateBegin.0 && (day >= dateBegin.1 || day <= dateEnd.1)
  {
  }

  /** Mar 1 lies "in" the range Mar 5 to Mar 10, though it is before its start. */
  lemma SameMonthRangeIsNotInterval()
    ensures IsDateInRange(3, 1, (3, 5), (3, 10))
    ensures !LexLe((3, 5), (3, 1))
  {
  }

  /** Both boundary strings of a row parse. */
  predicate RowParses(row: Row) {
    ParseDateRange(row.dateBegin).Ok? && ParseDateRange(row.dateEnd).Ok?
  }

  /** The error `get_zodiac_sign` raises for a row that does not parse: the start string is parsed first. */
  function RowParseError(row: Row): (e: Error)
    requires !RowParses(row)
    ensures e == if ParseDateRange(row.dateBegin).Err? then ParseDateRange(row.dateBegin).error
                 else ParseDateRange(row.dateEnd).error
  {
    match ParseDateRange(row.dateBegin)
    case Err(e) => e
    case Ok(_) => ParseDateRange(row.dateEnd).error
  }

  /** The row parses and its range holds the date. */
  predicate RowContains(row: Row, date: Date) {
    RowParses(row) &&
    IsDateInRange(date.month, date.day, ParseDateRange(row.dateBegin).value, ParseDateRange(row.dateEnd).value)
  }

  /** What `get_zodiac_sign` returns or raises: rows are tried in order, each
      parsed when reached; the first containing row gives the sign. */
  function ClassifyRows(rows: seq<Row>, date: Date): (r: Result<string, Error>)
    ensures r.Ok? ==> exists i :: 0 <= i < |rows| && rows[i].zodiac == r.value && RowContains(rows[i], date)
  {
    if rows == [] then Err(UnableToDetermineSign(date))
    else
      match ParseDateRange(rows[0].dateBegin)
      case Err(e) => Err(e)
      case Ok(dateBegin) =>
        match ParseDateRange(rows[0].dateEnd)
        case Err(e) => Err(e)
        case Ok(dateEnd) =>
          if IsDateInRange(date.month, date.day, dateBegin, dateEnd) then Ok(rows[0].zodiac)
          else
            var r := ClassifyRows(rows[1..], date);
            assert r.Ok? ==> exists i :: 0 <= i < |rows[1..]| && rows[1..][i].zodiac == r.value && RowContains(rows[1..][i], date);
            assert forall i :: 0 <= i < |rows[1..]| ==> rows[1..][i] == rows[i + 1];
            r
  }

  /** Every row before index `i` parses and misses the date. */
  predicate MissedBefore(rows: seq<Row>, date: Date, i: int)
    requires 0 <= i <= |rows|
  {
    forall j :: 0 <= j < i ==> RowParses(rows[j]) && !RowContains(rows[j], date)
  }

  /** The first row containing the date gives the sign. */
  lemma {:induction false} ClassifyFindsFirst(rows: seq<Row>, date: Date, i: int)
    requires 0 <= i < |rows| && MissedBefore(rows, date, i) && RowContains(rows[i], date)
    ensures ClassifyRows(rows, date) == Ok(rows[i].zodiac)
  {
    if i > 0 {
      assert RowParses(rows[0]) && !RowContains(rows[0], date);
      assert rows[1..][i - 1] == rows[i];
      ClassifyFindsFirst(rows[1..], date, i - 1);
    }
  }

  /** A malformed row reached before any match makes classification fail with its parse error. */
  lemma {:induction false} ClassifyStopsAtMalformed(rows: seq<Row>, date: Date, i: int)
    requires 0 <= i < |rows| && MissedBefore(rows, date, i) && !RowParses(rows[i])
    ensures ClassifyRows(rows, date) == Err(RowParseError(rows[i]))
  {
    if i > 0 {
      assert RowParses(rows[0]) && !RowContains(rows[0], date);
      assert rows[1..][i - 1] == rows[i];
      ClassifyStopsAtMalformed(rows[1..], date, i - 1);
    }
  }

  /** When every row parses and none contains the date, classification raises. */
  lemma {:induction false} ClassifyNoMatch(rows: seq<Row>, date: Date)
    requires MissedBefore(rows, date, |rows|)
    ensures ClassifyRows(rows, date) == Err(UnableToDetermineSign(date))
  {
    if rows != [] {
      assert RowParses(rows[0]) && !RowContains(rows[0], date);
      ClassifyNoMatch(rows[1..], date);
    }
  }

  predicate AllRowsParse(rows: seq<Row>) {
    forall j :: 0 <= j < |rows| ==> RowParses(rows[j])
  }

  /** Rows that contain the date all carry the same sign. */
  predicate NoOverlapAt(rows: seq<Row>, date: Date) {
    forall i, j :: 0 <= i < |rows| && 0 <= j < |rows| && RowContains(rows[i], date) && RowContains(rows[j], date) ==>
      rows[i].zodiac == rows[j].zodiac
  }

  /** For well-formed rows without overlap, the result is the sign of any containing row, or an error when none contains. */
  lemma {:induction false} ClassifyUnordered(rows: seq<Row>, date: Date)
    requires AllRowsParse(rows) && NoOverlapAt(rows, date)
    ensures forall i :: 0 <= i < |rows| && RowContains(rows[i], date) ==> ClassifyRows(rows, date) == Ok(rows[i].zodiac)
    ensures (forall i :: 0 <= i < |rows| ==> !RowContains(rows[i], date)) ==>
            ClassifyRows(rows, date) == Err(UnableToDetermineSign(date))
  {
    if w :| 0 <= w < |rows| && RowContains(rows[w], date) {
      var first := FirstContainingFrom(rows, date, 0, w);
      ClassifyFindsFirst(rows, date, first);
      assert forall i :: 0 <= i < |rows| && RowContains(rows[i], date) ==> rows[i].zodiac == rows[first].zodiac;
    } else {
      ClassifyNoMatch(rows, date);
    }
  }

  /** From a containing row at `w`, with every row before `lo` missing the date,
      finds the first containing row. */
  lemma FirstContainingFrom(rows: seq<Row>, date: Date, lo: int, w: int) returns (i: int)
    requires AllRowsParse(rows)
    requires 0 <= lo <= w < |rows| && MissedBefore(rows, date, lo) && RowContains(rows[w], date)
    ensures lo <= i <= w && RowContains(rows[i], date) && MissedBefore(rows, date, i)
    decreases w - lo
  {
    if RowContains(rows[lo], date) {
      i := lo;
    } else {
      var missed := rows[lo];
      assert RowParses(missed) && !RowContains(missed, date);
      assert MissedBefore(rows, date, lo + 1) by {
        forall j | 0 <= j < lo + 1 ensures RowParses(rows[j]) && !RowContains(rows[j], date) {
          if j == lo { assert rows[j] == missed; }
        }
      }
      i := FirstContainingFrom(rows, date, lo + 1, w);
    }
  }

  /** For well-formed rows without overlap, reordering the rows does not change the result. */
  lemma ClassifyOrderIndependent(rows: seq<Row>, reordered: seq<Row>, date: Date)
    requires AllRowsParse(rows) && NoOverlapAt(rows, date)
    requires multiset(rows) == multiset(reordered)
    ensures ClassifyRows(rows, date) == ClassifyRows(reordered, date)
  {
    assert forall r :: r in rows <==> r in reordered by {
      forall r ensures r in rows <==> r in reordered {
        assert r in rows <==> r in multiset(rows);
        assert r in reordered <==> r in multiset(reordered);
      }
    }
    assert AllRowsParse(reordered) by {
      forall j | 0 <= j < |reordered| ensures RowParses(reordered[j]) {
        assert reordered[j] in rows;
      }
    }
    assert NoOverlapAt(reordered, date) by {
      forall i, j | 0 <= i < |reordered| && 0 <= j < |reordered| && RowContains(reordered[i], date) && RowContains(reordered[j], date)
        ensures reordered[i].zodiac == reordered[j].zodiac
      {
        assert reordered[i] in rows && reordered[j] in rows;
      }
    }
    ClassifyUnordered(rows, date);
    ClassifyUnordered(reordered, date);
    if exists i :: 0 <= i < |rows| && RowContains(rows[i], date) {
      var i :| 0 <= i < |rows| && RowContains(rows[i], date);
      assert rows[i] in reordered;
      var k :| 0 <= k < |reordered| && reordered[k] == rows[i];
    } else {
      forall k | 0 <= k < |reordered| ensures !RowContains(reordered[k], date) {
        assert reordered[k] in rows;
      }
    }
  }

  /** The date manager: the sign table it loaded, and the lookup over it. */
  class ZodiacDateManager {
    /** The table rows, as read from the CSV file with cells stripped. */
    const zodiacData: seq<Row>

    constructor (rows: seq<Row>)
      ensures zodiacData == rows
    {
      zodiacData := rows;
    }

    /** `get_zodiac_sign`: scan the rows in order, parsing each row's bounds
        when it is reached, and return the sign of the first range that holds
        the birth date. */
    method GetZodiacSign(birthDate: DateTime) returns (r: Result<string, Error>)
      ensures r == ClassifyRows(zodiacData, birthDate)
    {
      var month := birthDate.month;
      var day := birthDate.day;
      var i := 0;
      while i < |zodiacData|
        invariant 0 <= i <= |zodiacData|
        invariant ClassifyRows(zodiacData[i..], birthDate) == ClassifyRows(zodiacData, birthDate)
      {
        var rest := zodiacData[i..];
        assert rest[0] == zodiacData[i] && rest[1..] == zodiacData[i + 1..];
        var row := zodiacData[i];
        var parsedBegin := ParseDateRange(row.dateBegin);
        if parsedBegin.Err? {
          return Err(parsedBegin.error);
        }
        var parsedEnd := ParseDateRange(row.dateEnd);
        if parsedEnd.Err? {
          return Err(parsedEnd.error);
        }
        if IsDateInRange(month, day, parsedBegin.value, parsedEnd.value) {
          return Ok(row.zodiac);
        }
        i := i + 1;
      }
      r := Err(UnableToDetermineSign(birthDate));
    }
  }
}
