/** Properties of the sign table under the classifier: every boundary
    parses, the rows follow each other around the calendar, only Capricorn
    wraps past the new year, and every (month, day) of a leap year lies in
    exactly one row, so the lookup never raises for a `datetime`. */
module ZodiacTableFacts {
  import opened Wrappers
  import opened PyText
  import opened Calendar
  import opened Errors
  import opened ZodiacTable
  import opened ZodiacDates

  /** The (month, day) bounds the table's strings stand for, row by row. */
  const Bounds: seq<((int, int), (int, int))> := [
    ((3, 21), (4, 19)), ((4, 20), (5, 20)), ((5, 21), (6, 20)), ((6, 21), (7, 22)),
    ((7, 23), (8, 22)), ((8, 23), (9, 22)), ((9, 23), (10, 22)), ((10, 23), (11, 21)),
    ((11, 22), (12, 21)), ((12, 22), (1, 19)), ((1, 20), (2, 18)), ((2, 19), (3, 20))
  ]

  /** The table has twelve rows, each with its own sign. */
  lemma TableShape()
    ensures |ZodiacRows| == 12 == |Bounds|
    ensures forall i, j :: 0 <= i < j < |ZodiacRows| ==> ZodiacRows[i].zodiac != ZodiacRows[j].zodiac
  {
  }

  /** A boundary string `s` equal to "<abbr> <day>" parses to (month, day). */
  lemma BoundaryIs(s: string, abbr: string, day: nat, digits: string)
    requires abbr in MonthMap && digits == NatToString(day) && s == abbr + " " + digits
    ensures ParseDateRange(s) == Ok((MonthMap[abbr], day))
  {
    ParseWellFormed(abbr, day);
  }

  lemma Row0BeginParses(row: Row)
    requires row == ZodiacRows[0]
    ensures ParseDateRange(row.dateBegin) == Ok(Bounds[0].0)
  {
    assert NatToString(21) == "21";
    BoundaryIs(row.dateBegin, "Mar", 21, "21");
  }

  lemma Row0EndParses(row: Row)
    requires row == ZodiacRows[0]
    ensures ParseDateRange(row.dateEnd) == Ok(Bounds[0].1)
  {
    assert NatToString(19) == "19";
    BoundaryIs(row.dateEnd, "Apr", 19, "19");
  }

  lemma Row1BeginParses(row: Row)
    requires row == ZodiacRows[1]
    ensures ParseDateRange(row.dateBegin) == Ok(Bounds[1].0)
  {
    assert NatToString(20) == "20";
    BoundaryIs(row.dateBegin, "Apr", 20, "20");
  }

  lemma Row1EndParses(row: Row)
    requires row == ZodiacRows[1]
    ensures ParseDateRange(row.dateEnd) == Ok(Bounds[1].1)
  {
    assert NatToString(20) == "20";
    BoundaryIs(row.dateEnd, "May", 20, "20");
  }

  lemma Row2BeginParses(row: Row)
    requires row == ZodiacRows[2]
    ensures ParseDateRange(row.dateBegin) == Ok(Bounds[2].0)
  {
    assert NatToString(21) == "21";
    BoundaryIs(row.dateBegin, "May", 21, "21");
  }

  lemma Row2EndParses(row: Row)
    requires row == ZodiacRows[2]
    ensures ParseDateRange(row.dateEnd) == Ok(Bounds[2].1)
  {
    assert NatToString(20) == "20";
    BoundaryIs(row.dateEnd, "Jun", 20, "20");
  }

  lemma Row3BeginParses(row: Row)
    requires row == ZodiacRows[3]
    ensures ParseDateRange(row.dateBegin) == Ok(Bounds[3].0)
  {
    assert NatToString(21) == "21";
    BoundaryIs(row.dateBegin, "Jun", 21, "21");
  }

  lemma Row3EndParses(row: Row)
    requires row == ZodiacRows[3]
    ensures ParseDateRange(row.dateEnd) == Ok(Bounds[3].1)
  {
    assert NatToString(22) == "22";
    BoundaryIs(row.dateEnd, "Jul", 22, "22");
  }

  lemma Row4BeginParses(row: Row)
    requires row == ZodiacRows[4]
    ensures ParseDateRange(row.dateBegin) == Ok(Bounds[4].0)
  {
    assert NatToString(23) == "23";
    BoundaryIs(row.dateBegin, "Jul", 23, "23");
  }

  lemma Row4EndParses(row: Row)
    requires row == ZodiacRows[4]
    ensures ParseDateRange(row.dateEnd) == Ok(Bounds[4].1)
  {
    assert NatToString(22) == "22";
    BoundaryIs(row.dateEnd, "Aug", 22, "22");
  }

  lemma Row5BeginParses(row: Row)
    requires row == ZodiacRows[5]
    ensures ParseDateRange(row.dateBegin) == Ok(Bounds[5].0)
  {
    assert NatToString(23) == "23";
    BoundaryIs(row.dateBegin, "Aug", 23, "23");
  }

  lemma Row5EndParses(row: Row)
    requires row == ZodiacRows[5]
    ensures ParseDateRange(row.dateEnd) == Ok(Bounds[5].1)
  {
    assert NatToString(22) == "22";
    BoundaryIs(row.dateEnd, "Sep", 22, "22");
  }

  lemma Row6BeginParses(row: Row)
    requires row == ZodiacRows[6]
    ensures ParseDateRange(row.dateBegin) == Ok(Bounds[6].0)
  {
    assert NatToString(23) == "23";
    BoundaryIs(row.dateBegin, "Sep", 23, "23");
  }

  lemma Row6EndParses(row: Row)
    requires row == ZodiacRows[6]
    ensures ParseDateRange(row.dateEnd) == Ok(Bounds[6].1)
  {
    assert NatToString(22) == "22";
    BoundaryIs(row.dateEnd, "Oct", 22, "22");
  }

  lemma Row7BeginParses(row: Row)
    requires row == ZodiacRows[7]
    ensures ParseDateRange(row.dateBegin) == Ok(Bounds[7].0)
  {
    assert NatToString(23) == "23";
    BoundaryIs(row.dateBegin, "Oct", 23, "23");
  }

  lemma Row7EndParses(row: Row)
    requires row == ZodiacRows[7]
    ensures ParseDateRange(row.dateEnd) == Ok(Bounds[7].1)
  {
    assert NatToString(21) == "21";
    BoundaryIs(row.dateEnd, "Nov", 21, "21");
  }

  lemma Row8BeginParses(row: Row)
    requires row == ZodiacRows[8]
    ensures ParseDateRange(row.dateBegin) == Ok(Bounds[8].0)
  {
    assert NatToString(22) == "22";
    BoundaryIs(row.dateBegin, "Nov", 22, "22");
  }

  lemma Row8EndParses(row: Row)
    requires row == ZodiacRows[8]
    ensures ParseDateRange(row.dateEnd) == Ok(Bounds[8].1)
  {
    assert NatToString(21) == "21";
    BoundaryIs(row.dateEnd, "Dec", 21, "21");
  }

  lemma Row9BeginParses(row: Row)
    requires row == ZodiacRows[9]
    ensures ParseDateRange(row.dateBegin) == Ok(Bounds[9].0)
  {
    assert NatToString(22) == "22";
    BoundaryIs(row.dateBegin, "Dec", 22, "22");
  }

  lemma Row9EndParses(row: Row)
    requires row == ZodiacRows[9]
    ensures ParseDateRange(row.dateEnd) == Ok(Bounds[9].1)
  {
    assert NatToString(19) == "19";
    BoundaryIs(row.dateEnd, "Jan", 19, "19");
  }

  lemma Row10BeginParses(row: Row)
    requires row == ZodiacRows[10]
    ensures ParseDateRange(row.dateBegin) == Ok(Bounds[10].0)
  {
    assert NatToString(20) == "20";
    BoundaryIs(row.dateBegin, "Jan", 20, "20");
  }

  lemma Row10EndParses(row: Row)
    requires row == ZodiacRows[10]
    ensures ParseDateRange(row.dateEnd) == Ok(Bounds[10].1)
  {
    assert NatToString(18) == "18";
    BoundaryIs(row.dateEnd, "Feb", 18, "18");
  }

  lemma Row11BeginParses(row: Row)
    requires row == ZodiacRows[11]
    ensures ParseDateRange(row.dateBegin) == Ok(Bounds[11].0)
  {
    assert NatToString(19) == "19";
    BoundaryIs(row.dateBegin, "Feb", 19, "19");
  }

  lemma Row11EndParses(row: Row)
    requires row == ZodiacRows[11]
    ensures ParseDateRange(row.dateEnd) == Ok(Bounds[11].1)
  {
    assert NatToString(20) == "20";
    BoundaryIs(row.dateEnd, "Mar", 20, "20");
  }

  lemma RowParsesToBounds(i: int)
    requires 0 <= i < 12
    ensures ParseDateRange(ZodiacRows[i].dateBegin) == Ok(Bounds[i].0)
    ensures ParseDateRange(ZodiacRows[i].dateEnd) == Ok(Bounds[i].1)
  {
    var row := ZodiacRows[i];
    if i == 0 {
      Row0BeginParses(row);
      Row0EndParses(row);
    } else if i == 1 {
      Row1BeginParses(row);
      Row1EndParses(row);
    } else if i == 2 {
      Row2BeginParses(row);
      Row2EndParses(row);
    } else if i == 3 {
      Row3BeginParses(row);
      Row3EndParses(row);
    } else if i == 4 {
      Row4BeginParses(row);
      Row4EndParses(row);
    } else if i == 5 {
      Row5BeginParses(row);
      Row5EndParses(row);
    } else if i == 6 {
      Row6BeginParses(row);
      Row6EndParses(row);
    } else if i == 7 {
      Row7BeginParses(row);
      Row7EndParses(row);
    } else if i == 8 {
      Row8BeginParses(row);
      Row8EndParses(row);
    } else if i == 9 {
      Row9BeginParses(row);
      Row9EndParses(row);
    } else if i == 10 {
      Row10BeginParses(row);
      Row10EndParses(row);
    } else {
      Row11BeginParses(row);
      Row11EndParses(row);
    }
  }

  /** Every boundary string parses to a (month, day) that exists in a leap year. */
  lemma TableParses()
    ensures forall i :: 0 <= i < |ZodiacRows| ==>
      ParseDateRange(ZodiacRows[i].dateBegin) == Ok(Bounds[i].0) &&
      ParseDateRange(ZodiacRows[i].dateEnd) == Ok(Bounds[i].1)
    ensures AllRowsParse(ZodiacRows)
    ensures forall i :: 0 <= i < |Bounds| ==> ValidMonthDay(Bounds[i].0.0, Bounds[i].0.1) && ValidMonthDay(Bounds[i].1.0, Bounds[i].1.1)
  {
    forall i | 0 <= i < |ZodiacRows|
      ensures ParseDateRange(ZodiacRows[i].dateBegin) == Ok(Bounds[i].0)
      ensures ParseDateRange(ZodiacRows[i].dateEnd) == Ok(Bounds[i].1)
    {
      RowParsesToBounds(i);
    }
  }

  /** Only Capricorn, Dec 22 to Jan 19, starts in a later month than it ends. */
  lemma OnlyCapricornWraps()
    ensures forall i :: 0 <= i < |Bounds| ==> (Bounds[i].0.0 > Bounds[i].1.0 <==> ZodiacRows[i].zodiac == "Capricorn")
    ensures ZodiacRows[9].zodiac == "Capricorn" && Bounds[9] == ((12, 22), (1, 19))
    ensures forall i :: 0 <= i < |Bounds| && i != 9 ==> Bounds[i].0.0 < Bounds[i].1.0
  {
  }

  /** Each row begins on the day after the previous row ends, Pisces ending the day before Aries begins. */
  lemma TableContiguous()
    ensures forall i :: 0 <= i < |Bounds| - 1 ==>
      ValidMonthDay(Bounds[i].1.0, Bounds[i].1.1) && Bounds[i + 1].0 == NextDay(Bounds[i].1.0, Bounds[i].1.1)
    ensures Bounds[0].0 == NextDay(Bounds[11].1.0, Bounds[11].1.1)
  {
    forall i | 0 <= i < |Bounds| - 1
      ensures ValidMonthDay(Bounds[i].1.0, Bounds[i].1.1) && Bounds[i + 1].0 == NextDay(Bounds[i].1.0, Bounds[i].1.1)
    {
      var (m, d) := Bounds[i].1;
      assert ValidMonthDay(m, d);
    }
  }

  /** The row of the table whose range holds a (month, day), found month by month. */
  function RowOf(month: int, day: int): (i: int)
    requires ValidMonthDay(month, day)
    ensures 0 <= i < |Bounds|
    ensures IsDateInRange(month, day, Bounds[i].0, Bounds[i].1)
  {
    if month == 1 then (if day <= 19 then 9 else 10)
    else if month == 2 then (if day <= 18 then 10 else 11)
    else if month == 3 then (if day <= 20 then 11 else 0)
    else if month == 4 then (if day <= 19 then 0 else 1)
    else if month == 5 then (if day <= 20 then 1 else 2)
    else if month == 6 then (if day <= 20 then 2 else 3)
    else if month == 7 then (if day <= 22 then 3 else 4)
    else if month == 8 then (if day <= 22 then 4 else 5)
    else if month == 9 then (if day <= 22 then 5 else 6)
    else if month == 10 then (if day <= 22 then 6 else 7)
    else if month == 11 then (if day <= 21 then 7 else 8)
    else (if day <= 21 then 8 else 9)
  }

  /** Under `_is_date_in_range`, every (month, day) of a leap year, Feb 29
      included, lies in exactly one row's range. */
  lemma TablePartitionsYear(month: int, day: int)
    requires ValidMonthDay(month, day)
    ensures forall i :: 0 <= i < |Bounds| ==> (IsDateInRange(month, day, Bounds[i].0, Bounds[i].1) <==> i == RowOf(month, day))
  {
  }

  /** The table's rows contain a date exactly when their bounds do. */
  lemma RowContainsIsBounds(date: Date)
    ensures forall i :: 0 <= i < |ZodiacRows| ==>
      (RowContains(ZodiacRows[i], date) <==> IsDateInRange(date.month, date.day, Bounds[i].0, Bounds[i].1))
  {
    TableParses();
  }

  /** For any valid (month, day), the lookup over the table succeeds with the sign of the one row that holds it. */
  lemma TableClassifies(date: Date)
    requires ValidMonthDay(date.month, date.day)
    ensures ClassifyRows(ZodiacRows, date) == Ok(ZodiacRows[RowOf(date.month, date.day)].zodiac)
    ensures NoOverlapAt(ZodiacRows, date)
  {
    TableParses();
    RowContainsIsBounds(date);
    TablePartitionsYear(date.month, date.day);
    ClassifyUnordered(ZodiacRows, date);
  }

  /** The lookup never raises for a date `datetime` can hold. */
  lemma TableTotal(date: Date)
    requires ValidDate(date)
    ensures ClassifyRows(ZodiacRows, date).Ok?
  {
    TableClassifies(date);
  }

  /** The sign a valid (month, day) gets from the table, in any year. */
  lemma SignOfDay(date: Date, month: int, day: int, sign: string)
    requires date.month == month && date.day == day && ValidMonthDay(month, day)
    requires ZodiacRows[RowOf(month, day)].zodiac == sign
    ensures ClassifyRows(ZodiacRows, date) == Ok(sign)
  {
    TableClassifies(date);
  }

  /** Dec 21 is Sagittarius, Dec 22 and Jan 19 Capricorn, Jan 20 Aquarius, in any year. */
  lemma BoundaryDates(date: Date)
    ensures date.month == 12 && date.day == 21 ==> ClassifyRows(ZodiacRows, date) == Ok("Sagittarius")
    ensures date.month == 12 && date.day == 22 ==> ClassifyRows(ZodiacRows, date) == Ok("Capricorn")
    ensures date.month == 1 && date.day == 19 ==> ClassifyRows(ZodiacRows, date) == Ok("Capricorn")
    ensures date.month == 1 && date.day == 20 ==> ClassifyRows(ZodiacRows, date) == Ok("Aquarius")
  {
    if date.month == 12 && date.day == 21 {
      SignOfDay(date, 12, 21, "Sagittarius");
    } else if date.month == 12 && date.day == 22 {
      SignOfDay(date, 12, 22, "Capricorn");
    } else if date.month == 1 && date.day == 19 {
      SignOfDay(date, 1, 19, "Capricorn");
    } else if date.month == 1 && date.day == 20 {
      SignOfDay(date, 1, 20, "Aquarius");
    }
  }

  /** Listing the table's rows in any other order gives the same sign for every valid date. */
  lemma TableOrderIrrelevant(reordered: seq<Row>, date: Date)
    requires multiset(reordered) == multiset(ZodiacRows)
    requires ValidMonthDay(date.month, date.day)
    ensures ClassifyRows(reordered, date) == ClassifyRows(ZodiacRows, date)
  {
    TableParses();
    TableClassifies(date);
    ClassifyOrderIndependent(ZodiacRows, reordered, date);
  }
}
