/**
 * java.time.LocalDate and java.time.Month as the application uses them: dates
 * compared chronologically, the English month names of Month.name(), and
 * the ISO form yyyy-MM-dd of LocalDate.toString().
 */
module Calendar {

  import opened Text

  /** Four-digit years, the range in which LocalDate.toString() is plain yyyy. */
  type Year = y: int | 0 <= y <= 9999
  type MonthNumber = m: int | 1 <= m <= 12 witness 1
  type DayOfMonth = d: int | 1 <= d <= 31 witness 1

  datatype Date = Date(year: Year, month: MonthNumber, day: DayOfMonth)

  /** LocalDateTime, reduced to what the application stores: a date and a time of day. */
  datatype DateTime = DateTime(date: Date, nanoOfDay: nat)

  /** Chronological order of dates. */
  predicate Before(a: Date, b: Date)
  {
    a.year < b.year
    || (a.year == b.year && a.month < b.month)
    || (a.year == b.year && a.month == b.month && a.day < b.day)
  }

  /** A day number that increases with the date (months padded to 32 days, years to 416). */
  function DateOrdinal(d: Date): int
  {
    d.year * 416 + d.month * 32 + d.day
  }

  /** Ordinals order dates chronologically, in both directions, and tell distinct dates apart. */
  lemma {:induction false} DateOrdinalOrder(a: Date, b: Date)
    ensures DateOrdinal(a) < DateOrdinal(b) <==> Before(a, b)
    ensures DateOrdinal(a) == DateOrdinal(b) <==> a == b
  {
  }

  /** Month.of(m).name(). */
  function MonthName(m: MonthNumber): string
  {
    match m
    case 1 => "JANUARY"
    case 2 => "FEBRUARY"
    case 3 => "MARCH"
    case 4 => "APRIL"
    case 5 => "MAY"
    case 6 => "JUNE"
    case 7 => "JULY"
    case 8 => "AUGUST"
    case 9 => "SEPTEMBER"
    case 10 => "OCTOBER"
    case 11 => "NOVEMBER"
    case _ => "DECEMBER"
  }

  /** Month.of(m).name().substring(0, 3): JAN, FEB, ... */
  function ShortMonthName(m: MonthNumber): string
  {
    MonthName(m)[..3]
  }

  /** Month.valueOf over the upper-case names: the inverse of MonthName (0 for an unknown name). */
  function MonthOfName(name: string): int
  {
    if name == "JANUARY" then 1 else if name == "FEBRUARY" then 2
    else if name == "MARCH" then 3 else if name == "APRIL" then 4
    else if name == "MAY" then 5 else if name == "JUNE" then 6
    else if name == "JULY" then 7 else if name == "AUGUST" then 8
    else if name == "SEPTEMBER" then 9 else if name == "OCTOBER" then 10
    else if name == "NOVEMBER" then 11 else if name == "DECEMBER" then 12
    else 0
  }

  /** The month a three-letter abbreviation stands for (0 for an unknown one). */
  function MonthOfShortName(name: string): int
  {
    if name == "JAN" then 1 else if name == "FEB" then 2
    else if name == "MAR" then 3 else if name == "APR" then 4
    else if name == "MAY" then 5 else if name == "JUN" then 6
    else if name == "JUL" then 7 else if name == "AUG" then 8
    else if name == "SEP" then 9 else if name == "OCT" then 10
    else if name == "NOV" then 11 else if name == "DEC" then 12
    else 0
  }

  /**
   * Full and short month names are read back as the month they name, so
   * distinct months have distinct labels; the short name is three letters.
   */
  lemma MonthNamesRoundTrip(m: MonthNumber)
    ensures MonthOfName(MonthName(m)) == m
    ensures |ShortMonthName(m)| == 3 && MonthOfShortName(ShortMonthName(m)) == m
  {
    FullNameRoundTrip(m);
    ShortNameRoundTrip(m);
  }

  lemma FullNameRoundTrip(m: MonthNumber)
    ensures MonthOfName(MonthName(m)) == m
  {
  }

  lemma {:induction false} ShortNameRoundTrip(m: MonthNumber)
    ensures |ShortMonthName(m)| == 3 && MonthOfShortName(ShortMonthName(m)) == m
  {
    match m
    case 1 => assert ShortMonthName(m) == "JAN";
    case 2 => assert ShortMonthName(m) == "FEB";
    case 3 => assert ShortMonthName(m) == "MAR";
    case 4 => assert ShortMonthName(m) == "APR";
    case 5 => assert ShortMonthName(m) == "MAY";
    case 6 => assert ShortMonthName(m) == "JUN";
    case 7 => assert ShortMonthName(m) == "JUL";
    case 8 => assert ShortMonthName(m) == "AUG";
    case 9 => assert ShortMonthName(m) == "SEP";
    case 10 => assert ShortMonthName(m) == "OCT";
    case 11 => assert ShortMonthName(m) == "NOV";
    case _ => assert ShortMonthName(m) == "DEC";
  }

  lemma {:induction false} MonthNamesDistinct(a: MonthNumber, b: MonthNumber)
    ensures MonthName(a) == MonthName(b) <==> a == b
    ensures ShortMonthName(a) == ShortMonthName(b) <==> a == b
  {
    MonthNamesRoundTrip(a);
    MonthNamesRoundTrip(b);
  }

  /** LocalDate.toString() for a four-digit year: yyyy-MM-dd. */
  function IsoDate(d: Date): string
  {
    PadDigits(d.year, 4) + "-" + PadDigits(d.month, 2) + "-" + PadDigits(d.day, 2)
  }

  lemma {:induction false} IsoParts(y: string, m: string, d: string)
    requires |y| == 4 && |m| == 2 && |d| == 2
    ensures var s := y + "-" + m + "-" + d;
            |s| == 10 && s[..4] == y && s[5..7] == m && s[8..] == d
  {
  }

  /** The ISO form is ten characters long and tells distinct dates apart. */
  lemma {:induction false} IsoDateInjective(a: Date, b: Date)
    ensures |IsoDate(a)| == 10
    ensures IsoDate(a) == IsoDate(b) <==> a == b
  {
    PadDigitsLength(a.year, 4);
    PadDigitsLength(a.month, 2);
    PadDigitsLength(a.day, 2);
    IsoParts(PadDigits(a.year, 4), PadDigits(a.month, 2), PadDigits(a.day, 2));
    PadDigitsLength(b.year, 4);
    PadDigitsLength(b.month, 2);
    PadDigitsLength(b.day, 2);
    IsoParts(PadDigits(b.year, 4), PadDigits(b.month, 2), PadDigits(b.day, 2));
    if IsoDate(a) == IsoDate(b) {
      assert Pow10(4) == 10000 && Pow10(2) == 100;
      PadDigitsInjective(a.year, b.year, 4);
      PadDigitsInjective(a.month, b.month, 2);
      PadDigitsInjective(a.day, b.day, 2);
    }
  }
}
