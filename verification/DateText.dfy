/** Calendar dates as text: the parser, the printer and the time-stripping helper. */
module DateText {
  import opened Calendar
  import opened Text

  datatype ParsedDate = Parsed(time: Time) | InvalidDate

  /** Strip the time of day by rebuilding the date from its UTC fields. */
  function ToDateOnly(date: Time): Time {
    DateUTC(GetUTCFullYear(date), GetUTCMonth(date), GetUTCDate(date))
  }

  function ParseDateUTC(text: string): ParsedDate {
    var parts := Split(text, '-');
    if |parts| != 3 then InvalidDate
    else
      match (NumberOf(parts[0]), NumberOf(parts[1]), NumberOf(parts[2]))
      case (Some(year), Some(month), Some(day)) => Parsed(DateUTC(year, month - 1, day))
      case _ => InvalidDate
  }

  function FormatDate(date: Time): string {
    var m := PadStart2(IntText(GetUTCMonth(date) + 1));
    var d := PadStart2(IntText(GetUTCDate(date)));
    IntText(GetUTCFullYear(date)) + "-" + m + "-" + d
  }

  /** dddd-dd-dd, the shape of a full-date of section 5.6 of RFC 3339. */
  predicate FullDateShape(s: string) {
    && |s| == 10 && s[4] == '-' && s[7] == '-'
    && AllDigits(s[..4]) && AllDigits(s[5..7]) && AllDigits(s[8..])
  }

  /** The three numbers of a full-date name a day of the calendar. */
  predicate NamesADay(s: string)
    requires FullDateShape(s)
  {
    var month, day := ValueOf(s[5..7]), ValueOf(s[8..]);
    && 1 <= month <= 12
    && 1 <= day <= DaysInMonth(12 * ValueOf(s[..4]) + month - 1)
  }

  // ---------------------------------------------------------------- toDateOnly

  /** The UTC fields of a date built from plain civil fields are those fields. */
  lemma FieldsOfDateUTC(year: int, month: int, date: int)
    requires PlainYear(year) && 0 <= month < 12
    requires 1 <= date <= DaysInMonth(12 * year + month)
    ensures GetUTCFullYear(DateUTC(year, month, date)) == year
    ensures GetUTCMonth(DateUTC(year, month, date)) == month
    ensures GetUTCDate(DateUTC(year, month, date)) == date
  {
    DateUTCLands(year, month, date);
    CivilBijection(12 * year + month, date);
  }

  /** Stripping the time gives midnight of the same day, except in the years that Date.UTC reinterprets. */
  lemma ToDateOnlyIsMidnight(date: Time)
    ensures IsMidnight(ToDateOnly(date))
    ensures ToDateOnly(date) == DayOf(date) * MS_PER_DAY <==> PlainYear(GetUTCFullYear(date))
  {
    hide MonthStart, DaysInMonth;
    var am := MonthOf(DayOf(date));
    assert am == 12 * GetUTCFullYear(date) + GetUTCMonth(date);
    if !PlainYear(GetUTCFullYear(date)) {
      MonthStartSpread(am, am + 12 * 1900);
    }
  }

  // -------------------------------------------------------- printing then parsing

  /** Three digit strings parse to the date they name. */
  lemma ParseOfTriple(y: string, m: string, d: string)
    requires AllDigits(y) && AllDigits(m) && AllDigits(d)
    ensures ParseDateUTC(y + "-" + m + "-" + d) == Parsed(DateUTC(ValueOf(y), ValueOf(m) - 1, ValueOf(d)))
  {
    hide Split, Join, ValueOf, DateUTC;
    JoinOfThree(y, m, d, '-');
    SplitJoin([y, m, d], '-');
  }

  /** A leading minus sign makes a fourth part. */
  lemma ParseOfNegativeYear(y: string, m: string, d: string)
    requires AllDigits(y) && AllDigits(m) && AllDigits(d)
    ensures ParseDateUTC("-" + y + "-" + m + "-" + d) == InvalidDate
  {
    hide Split, Join, ValueOf, DateUTC;
    JoinOfThree(y, m, d, '-');
    SplitJoin([y, m, d], '-');
    SplitPrefix("", y + "-" + m + "-" + d, '-');
    assert "" + "-" + (y + "-" + m + "-" + d) == "-" + y + "-" + m + "-" + d;
  }

  /** Parsing a printed date strips its time: exactly the dates from the year 0 on survive. */
  lemma ParseOfFormat(date: Time)
    ensures ParseDateUTC(FormatDate(date)) == Parsed(ToDateOnly(date)) <==> GetUTCFullYear(date) >= 0
  {
    hide ParseDateUTC, GetUTCFullYear, GetUTCMonth, GetUTCDate, DateUTC, Numeral, ValueOf, PadStart2;
    var y, m, d := GetUTCFullYear(date), GetUTCMonth(date) + 1, GetUTCDate(date);
    PaddedRoundTrip(m);
    PaddedRoundTrip(d);
    var ms, ds := PadStart2(Numeral(m)), PadStart2(Numeral(d));
    if y >= 0 {
      ParseOfTriple(Numeral(y), ms, ds);
      NumeralRoundTrip(y);
    } else {
      ParseOfNegativeYear(Numeral(-y), ms, ds);
    }
  }

  // -------------------------------------------------------- parsing then printing

  lemma ParseOfFullDate(s: string)
    requires FullDateShape(s)
    ensures ParseDateUTC(s) == Parsed(DateUTC(ValueOf(s[..4]), ValueOf(s[5..7]) - 1, ValueOf(s[8..])))
  {
    hide ParseDateUTC, DateUTC, ValueOf;
    ParseOfTriple(s[..4], s[5..7], s[8..]);
    assert s == s[..4] + "-" + s[5..7] + "-" + s[8..];
  }

  lemma FourDigitYear(s: string)
    requires |s| == 4 && AllDigits(s)
    ensures s[0] != '0' ==> Numeral(ValueOf(s)) == s
    ensures ValueOf(s) >= 1000 <==> s[0] != '0'
  {
    assert s[..3][..2] == s[..2] && s[..2][..1] == s[..1] && s[..1][..0] == "";
    assert ValueOf(s[..1]) == DigitValue(s[0]);
    assert ValueOf(s[..2]) == 10 * ValueOf(s[..1]) + DigitValue(s[1]);
    assert ValueOf(s[..3]) == 10 * ValueOf(s[..2]) + DigitValue(s[2]);
    if s[0] != '0' {
      CanonicalNumeral(s);
    }
  }

  /** A valid full-date from the year 1000 on prints back as itself. */
  lemma FormatOfValidFullDate(s: string)
    requires FullDateShape(s) && NamesADay(s) && ValueOf(s[..4]) >= 1000
    ensures ParseDateUTC(s).Parsed? && FormatDate(ParseDateUTC(s).time) == s
  {
    hide ParseDateUTC, DaysInMonth, DateUTC, GetUTCFullYear, GetUTCMonth, GetUTCDate, ValueOf, Numeral, PadStart2;
    var year, month, day := ValueOf(s[..4]), ValueOf(s[5..7]), ValueOf(s[8..]);
    ParseOfFullDate(s);
    FieldsOfDateUTC(year, month - 1, day);
    FourDigitYear(s[..4]);
    PaddedNumeral(s[5..7]);
    PaddedNumeral(s[8..]);
    assert s == s[..4] + "-" + s[5..7] + "-" + s[8..];
  }

  /** A full-date that prints back as itself names a day, and its year has no leading zero. */
  lemma FormatFixesOnlyValid(s: string, t: Time)
    requires FullDateShape(s) && FormatDate(t) == s
    ensures NamesADay(s) && ValueOf(s[..4]) >= 1000
  {
    hide DaysInMonth, GetUTCFullYear, GetUTCMonth, GetUTCDate, ValueOf, Numeral, PadStart2;
    var y, m, d := GetUTCFullYear(t), GetUTCMonth(t) + 1, GetUTCDate(t);
    PaddedRoundTrip(m);
    PaddedRoundTrip(d);
    var ms, ds := PadStart2(Numeral(m)), PadStart2(Numeral(d));
    CutText(s, IntText(y), ms, ds);
    YearIsNatural(y, s[..4]);
    NumeralRoundTrip(y);
    FourDigitYear(s[..4]);
    UTCDateInMonth(t);
  }

  lemma CutText(s: string, y: string, m: string, d: string)
    requires FullDateShape(s) && s == y + "-" + m + "-" + d && |m| == 2 && |d| == 2
    ensures s[..4] == y && s[5..7] == m && s[8..] == d
  {
  }

  lemma YearIsNatural(y: int, text: string)
    requires AllDigits(text) && text == IntText(y)
    ensures y >= 0 && text == Numeral(y)
  {
    assert text != "" && IsDigit(text[0]);
  }

  lemma UTCDateInMonth(t: Time)
    ensures 1 <= GetUTCDate(t) <= DaysInMonth(12 * GetUTCFullYear(t) + GetUTCMonth(t))
  {
    hide MonthStart, DaysInMonth;
    assert 12 * GetUTCFullYear(t) + GetUTCMonth(t) == MonthOf(DayOf(t));
  }

  /**
   Printing undoes parsing on exactly the full-dates that name a day and whose year is
   at least 1000; every other string of that shape prints as a different string.
   */
  lemma FormatOfParse(s: string)
    requires FullDateShape(s)
    ensures ParseDateUTC(s).Parsed?
    ensures FormatDate(ParseDateUTC(s).time) == s <==> NamesADay(s) && ValueOf(s[..4]) >= 1000
  {
    hide ParseDateUTC, FormatDate, ValueOf, DateUTC, DaysInMonth;
    ParseOfFullDate(s);
    if NamesADay(s) && ValueOf(s[..4]) >= 1000 {
      FormatOfValidFullDate(s);
    } else if FormatDate(ParseDateUTC(s).time) == s {
      FormatFixesOnlyValid(s, ParseDateUTC(s).time);
    }
  }
}
