/** The sign table written to the CSV file: one row per sign with its
    first and last day as "<month abbreviation> <day>" strings. */
module ZodiacTable {

  /** A row with the columns "Date begin", "Date End" and "Zodiac". */
  datatype Row = Row(dateBegin: string, dateEnd: string, zodiac: string)

  const ZodiacRows: seq<Row> := [
    Row("Mar 21", "Apr 19", "Aries"),
    Row("Apr 20", "May 20", "Taurus"),
    Row("May 21", "Jun 20", "Gemini"),
    Row("Jun 21", "Jul 22", "Cancer"),
    Row("Jul 23", "Aug 22", "Leo"),
    Row("Aug 23", "Sep 22", "Virgo"),
    Row("Sep 23", "Oct 22", "Libra"),
    Row("Oct 23", "Nov 21", "Scorpio"),
    Row("Nov 22", "Dec 21", "Sagittarius"),
    Row("Dec 22", "Jan 19", "Capricorn"),
    Row("Jan 20", "Feb 18", "Aquarius"),
    Row("Feb 19", "Mar 20", "Pisces")
  ]
}
