/**
 The proleptic Gregorian calendar as the JavaScript Date object computes it
 (section 21.4.1 of ECMA-262): a time value counts milliseconds from the epoch, and
 MakeDay accepts months and days outside their usual ranges and carries them over.

 Months are handled as one integer, the absolute month 12 * year + month with a
 zero-based month, so that carrying is ordinary addition.
 */
module Calendar {
  type Time = int
  type Day = int
  type AbsMonth = int

  const MS_PER_DAY := 86_400_000

  // ---------------------------------------------------------------- day numbers

  predicate IsLeap(year: int) {
    year % 4 == 0 && (year % 100 != 0 || year % 400 == 0)
  }

  function DaysInMonth(am: AbsMonth): (n: int)
    ensures 28 <= n <= 31
  {
    var m := am % 12;
    if m == 1 then (if IsLeap(am / 12) then 29 else 28)
    else if m == 3 || m == 5 || m == 8 || m == 10 then 30
    else 31
  }

  /** January 1970, the month of the epoch. */
  const EPOCH_MONTH: AbsMonth := 23640

  /** The day number of the first day of an absolute month, counted month by month from the epoch. */
  function MonthStart(am: AbsMonth): Day
    decreases if am < EPOCH_MONTH then EPOCH_MONTH - am else am - EPOCH_MONTH
  {
    if am == EPOCH_MONTH then 0
    else if am > EPOCH_MONTH then MonthStart(am - 1) + DaysInMonth(am - 1)
    else MonthStart(am + 1) - DaysInMonth(am)
  }

  /** Consecutive month starts are exactly one month length apart, on both sides of the epoch. */
  lemma MonthLength(am: AbsMonth)
    ensures MonthStart(am + 1) - MonthStart(am) == DaysInMonth(am)
  {
  }

  /** DayFromYear of section 21.4.1.3 of ECMA-262: the day number of 1 January in closed form. */
  function DayFromYear(year: int): Day {
    365 * (year - 1970) + (year - 1969) / 4 - (year - 1901) / 100 + (year - 1601) / 400
  }

  lemma YearLength(year: int)
    ensures DayFromYear(year + 1) - DayFromYear(year) == (if IsLeap(year) then 366 else 365)
  {
    CarryOfQuotient(year - 1969, 4);
    CarryOfQuotient(year - 1901, 100);
    CarryOfQuotient(year - 1601, 400);
  }

  /** x / n grows by one exactly when x + 1 is a multiple of n. */
  lemma CarryOfQuotient(x: int, n: int)
    requires n == 4 || n == 100 || n == 400
    ensures (x + 1) / n == x / n + (if (x + 1) % n == 0 then 1 else 0)
  {
  }

  /** The days of the year before a month, counted from January (MonthFromTime in section 21.4.1 of ECMA-262). */
  lemma {:induction false} DayWithinYear(year: int, m: int)
    requires 0 <= m <= 12
    ensures MonthStart(12 * year + m) - MonthStart(12 * year)
            == [0, 31, 59, 90, 120, 151, 181, 212, 243, 273, 304, 334, 365][m]
               + (if IsLeap(year) && m >= 2 then 1 else 0)
    decreases m
  {
    hide MonthStart;
    if m > 0 {
      DayWithinYear(year, m - 1);
      MonthLength(12 * year + (m - 1));
      assert (12 * year + (m - 1)) / 12 == year && (12 * year + (m - 1)) % 12 == m - 1;
    }
  }

  lemma {:induction false} JanuaryAgrees(year: int)
    ensures MonthStart(12 * year) == DayFromYear(year)
    decreases if year < 1970 then 1970 - year else year - 1970
  {
    hide MonthStart;
    if year > 1970 {
      JanuaryAgrees(year - 1);
      DayWithinYear(year - 1, 12);
      YearLength(year - 1);
    } else if year < 1970 {
      JanuaryAgrees(year + 1);
      DayWithinYear(year, 12);
      YearLength(year);
    } else {
      EpochIsDayZero();
    }
  }

  lemma EpochIsDayZero()
    ensures MonthStart(12 * 1970) == 0
  {
  }

  /** Counting month by month gives the closed form of the standard, at every month of every year. */
  lemma ClosedFormAgrees(year: int, m: int)
    requires 0 <= m < 12
    ensures MonthStart(12 * year + m)
            == DayFromYear(year) + [0, 31, 59, 90, 120, 151, 181, 212, 243, 273, 304, 334][m]
               + (if IsLeap(year) && m >= 2 then 1 else 0)
  {
    hide MonthStart;
    JanuaryAgrees(year);
    DayWithinYear(year, m);
  }

  lemma {:induction false} MonthStartSpread(a: AbsMonth, b: AbsMonth)
    requires a <= b
    ensures 28 * (b - a) <= MonthStart(b) - MonthStart(a) <= 31 * (b - a)
    decreases b - a
  {
    hide MonthStart, DaysInMonth;
    if a < b {
      MonthStartSpread(a, b - 1);
      MonthLength(b - 1);
    }
  }

  // ------------------------------------------------------------ civil date of a day

  /** The absolute month that a day falls in, searched from a starting guess. */
  function MonthFrom(day: Day, guess: AbsMonth): (am: AbsMonth)
    ensures MonthStart(am) <= day < MonthStart(am) + DaysInMonth(am)
    decreases day < MonthStart(guess),
              if day < MonthStart(guess) then MonthStart(guess) - day else day - MonthStart(guess)
  {
    MonthLength(guess);
    MonthLength(guess - 1);
    if day < MonthStart(guess) then MonthFrom(day, guess - 1)
    else if day >= MonthStart(guess) + DaysInMonth(guess) then MonthFrom(day, guess + 1)
    else guess
  }

  function MonthOf(day: Day): (am: AbsMonth)
    ensures MonthStart(am) <= day < MonthStart(am) + DaysInMonth(am)
  {
    MonthFrom(day, EPOCH_MONTH)
  }

  /** The day of the month, from 1. */
  function DateOf(day: Day): (d: int)
    ensures 1 <= d <= DaysInMonth(MonthOf(day))
    ensures MonthStart(MonthOf(day)) + d - 1 == day
  {
    day - MonthStart(MonthOf(day)) + 1
  }

  /** A day falls in exactly one month. */
  lemma MonthOfUnique(day: Day, am: AbsMonth)
    requires MonthStart(am) <= day < MonthStart(am) + DaysInMonth(am)
    ensures MonthOf(day) == am
  {
    hide MonthStart, DaysInMonth;
    var other := MonthOf(day);
    MonthLength(am);
    MonthLength(other);
    if other < am {
      MonthStartSpread(other + 1, am);
    } else if am < other {
      MonthStartSpread(am + 1, other);
    }
  }

  /** Day numbers and civil dates (absolute month, day of month) are in bijection. */
  lemma CivilBijection(am: AbsMonth, d: int)
    requires 1 <= d <= DaysInMonth(am)
    ensures MonthOf(MonthStart(am) + d - 1) == am
    ensures DateOf(MonthStart(am) + d - 1) == d
  {
    MonthOfUnique(MonthStart(am) + d - 1, am);
  }

  lemma MonthOfMonotone(a: Day, b: Day)
    requires a <= b
    ensures MonthOf(a) <= MonthOf(b)
  {
    hide MonthStart, DaysInMonth;
    if MonthOf(b) < MonthOf(a) {
      MonthLength(MonthOf(b));
      MonthStartSpread(MonthOf(b) + 1, MonthOf(a));
    }
  }

  // ------------------------------------------------------------------- Date objects

  /** MakeDay of ECMA-262: month and date may lie outside their usual ranges. */
  function MakeDay(year: int, month: int, date: int): Day {
    MonthStart(12 * year + month) + date - 1
  }

  /** Date.UTC reads the years 0 to 99 as 1900 to 1999 (section 21.4.3.4 of ECMA-262). */
  function FullYear(year: int): int {
    if 0 <= year <= 99 then 1900 + year else year
  }

  /** new Date(Date.UTC(year, month, date)) with a zero-based month. */
  function DateUTC(year: int, month: int, date: int): Time {
    MakeDay(FullYear(year), month, date) * MS_PER_DAY
  }

  function DayOf(t: Time): Day {
    t / MS_PER_DAY
  }

  function GetUTCFullYear(t: Time): int {
    MonthOf(DayOf(t)) / 12
  }

  function GetUTCMonth(t: Time): (m: int)
    ensures 0 <= m < 12
  {
    MonthOf(DayOf(t)) % 12
  }

  function GetUTCDate(t: Time): (d: int)
    ensures 1 <= d <= 31
  {
    DateOf(DayOf(t))
  }

  predicate IsMidnight(t: Time) {
    t % MS_PER_DAY == 0
  }

  /** Years that Date.UTC does not reinterpret. */
  predicate PlainYear(year: int) {
    !(0 <= year <= 99)
  }

  /**
   With a plain year, Date.UTC lands on the civil date it is given, carrying included; the years 0 to 99 land in the
   twentieth century.
   */
  lemma DateUTCLands(year: int, month: int, date: int)
    ensures var day := MonthStart(12 * (if 0 <= year <= 99 then year + 1900 else year) + month) + date - 1;
            && DateUTC(year, month, date) == 86_400_000 * day
            && IsMidnight(DateUTC(year, month, date)) && DayOf(DateUTC(year, month, date)) == day
  {
  }
}
