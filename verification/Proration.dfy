/** First-period rent, the first cycle end and the advance of the billing date. */
module Proration {
  import opened Calendar
  import opened DateText
  import opened Numbers

  // ------------------------------------------------------------- billing periods

  function GetFirstCycleEnd(joinDate: Time, billingCycleDay: int): Time {
    var targetMonth := GetUTCMonth(joinDate) + 1;
    if targetMonth > 11 then DateUTC(GetUTCFullYear(joinDate) + 1, 0, billingCycleDay)
    else DateUTC(GetUTCFullYear(joinDate), targetMonth, billingCycleDay)
  }

  function AdvanceBillingDate(current: Time, cycleDay: int): Time {
    var nextMonth := GetUTCMonth(current) + 1;
    if nextMonth > 11 then DateUTC(GetUTCFullYear(current) + 1, 0, cycleDay)
    else DateUTC(GetUTCFullYear(current), nextMonth, cycleDay)
  }

  /** The billing date after n advances from the first cycle end. */
  function BillingDate(joinDate: Time, cycleDay: int, n: nat): Time {
    if n == 0 then GetFirstCycleEnd(joinDate, cycleDay)
    else AdvanceBillingDate(BillingDate(joinDate, cycleDay, n - 1), cycleDay)
  }

  /** Midnight of cycleDay in the (n + 1)-th month after the month of joining. */
  function CycleDayAfter(joinDate: Time, cycleDay: int, n: int): Time {
    (MonthStart(MonthOf(DayOf(joinDate)) + 1 + n) + cycleDay - 1) * MS_PER_DAY
  }

  lemma AdvanceFrom(current: Time, cycleDay: int)
    ensures AdvanceBillingDate(current, cycleDay) == GetFirstCycleEnd(current, cycleDay)
    ensures PlainYear((MonthOf(DayOf(current)) + 1) / 12) ==>
              AdvanceBillingDate(current, cycleDay) == CycleDayAfter(current, cycleDay, 0)
    ensures !PlainYear((MonthOf(DayOf(current)) + 1) / 12) ==>
              AdvanceBillingDate(current, cycleDay) == CycleDayAfter(current, cycleDay, 12 * 1900)
  {
    hide MonthStart, DaysInMonth;
    var am := MonthOf(DayOf(current));
    var y, m := GetUTCFullYear(current), GetUTCMonth(current);
    assert am == 12 * y + m;
    if m == 11 {
      assert (am + 1) / 12 == y + 1 && 12 * (y + 1) == am + 1;
    } else {
      assert (am + 1) / 12 == y && 12 * y + (m + 1) == am + 1;
    }
  }

  lemma MonthOfCycleDay(joinDate: Time, cycleDay: int, n: int)
    requires 1 <= cycleDay <= 28
    ensures MonthOf(DayOf(CycleDayAfter(joinDate, cycleDay, n))) == MonthOf(DayOf(joinDate)) + 1 + n
    ensures DateOf(DayOf(CycleDayAfter(joinDate, cycleDay, n))) == cycleDay
  {
    hide MonthStart, DaysInMonth;
    CivilBijection(MonthOf(DayOf(joinDate)) + 1 + n, cycleDay);
  }

  /** From a first cycle end in the year 100 or later, no advance ever misses its month. */
  lemma {:induction false} CycleDaysLand(joinDate: Time, cycleDay: int, n: nat)
    requires 1 <= cycleDay <= 28
    requires MonthOf(DayOf(joinDate)) + 1 >= 1200
    ensures BillingDate(joinDate, cycleDay, n) == CycleDayAfter(joinDate, cycleDay, n)
  {
    hide MonthStart, DaysInMonth, GetFirstCycleEnd, AdvanceBillingDate;
    if n == 0 {
      AdvanceFrom(joinDate, cycleDay);
    } else {
      CycleDaysLand(joinDate, cycleDay, n - 1);
      MonthOfCycleDay(joinDate, cycleDay, n - 1);
      AdvanceFrom(BillingDate(joinDate, cycleDay, n - 1), cycleDay);
    }
  }

  /** A date that starts in or before the years Date.UTC reinterprets leaves the schedule. */
  lemma CycleDaysMiss(joinDate: Time, cycleDay: int) returns (n: nat)
    requires 1 <= cycleDay <= 28
    requires MonthOf(DayOf(joinDate)) + 1 < 1200
    ensures BillingDate(joinDate, cycleDay, n) != CycleDayAfter(joinDate, cycleDay, n)
  {
    hide MonthStart, DaysInMonth, GetFirstCycleEnd, AdvanceBillingDate;
    var first := MonthOf(DayOf(joinDate)) + 1;
    n := if first < 0 then -first else 0;
    if BillingDate(joinDate, cycleDay, n) == CycleDayAfter(joinDate, cycleDay, n) {
      if n == 0 {
        AdvanceFrom(joinDate, cycleDay);
        MonthStartSpread(first, first + 12 * 1900);
        assert false;
      } else if BillingDate(joinDate, cycleDay, n - 1) != CycleDayAfter(joinDate, cycleDay, n - 1) {
        n := n - 1;
      } else {
        MonthOfCycleDay(joinDate, cycleDay, n - 1);
        AdvanceFrom(BillingDate(joinDate, cycleDay, n - 1), cycleDay);
        MonthStartSpread(first + n, first + n + 12 * 1900);
        assert false;
      }
    }
  }

  /**
   Every billing date, for every number of advances, is the cycle day of its own month:
   true exactly when the month after joining lies in the year 100 or later.
   */
  lemma BillingDatesLand(joinDate: Time, cycleDay: int)
    requires 1 <= cycleDay <= 28
    ensures (forall n: nat :: BillingDate(joinDate, cycleDay, n) == CycleDayAfter(joinDate, cycleDay, n))
            <==> MonthOf(DayOf(joinDate)) + 1 >= 1200
  {
    if MonthOf(DayOf(joinDate)) + 1 >= 1200 {
      forall n: nat
        ensures BillingDate(joinDate, cycleDay, n) == CycleDayAfter(joinDate, cycleDay, n)
      {
        CycleDaysLand(joinDate, cycleDay, n);
      }
    } else {
      var n := CycleDaysMiss(joinDate, cycleDay);
      assert BillingDate(joinDate, cycleDay, n) != CycleDayAfter(joinDate, cycleDay, n);
    }
  }

  /**
   Billing periods tile time: consecutive billing dates are 28 to 31 days apart and fall in
   consecutive months, and the first period has 1 to 58 days.
   */
  lemma BillingPeriodsTile(joinDate: Time, cycleDay: int, n: nat)
    requires 1 <= cycleDay <= 28
    requires MonthOf(DayOf(joinDate)) + 1 >= 1200
    ensures var from, next := DayOf(BillingDate(joinDate, cycleDay, n)), DayOf(BillingDate(joinDate, cycleDay, n + 1));
            28 <= next - from <= 31 && MonthOf(next) == MonthOf(from) + 1
    ensures 1 <= DayOf(BillingDate(joinDate, cycleDay, 0)) - DayOf(joinDate) <= 58
    ensures IsMidnight(BillingDate(joinDate, cycleDay, n))
  {
    hide MonthStart, DaysInMonth, GetFirstCycleEnd, AdvanceBillingDate, BillingDate;
    var am := MonthOf(DayOf(joinDate));
    CycleDaysLand(joinDate, cycleDay, 0);
    CycleDaysLand(joinDate, cycleDay, n);
    CycleDaysLand(joinDate, cycleDay, n + 1);
    MonthOfCycleDay(joinDate, cycleDay, n);
    MonthOfCycleDay(joinDate, cycleDay, n + 1);
    MonthLength(am);
    MonthLength(am + 1 + n);
  }

  // --------------------------------------------------------------- prorated rent

  /** Rent for the days [first, last): each day costs the rent over the length of its month. */
  ghost function PerDaySum(first: Day, last: Day, rent: real): real
    decreases last - first
  {
    if last <= first then 0.0
    else PerDaySum(first, last - 1, rent) + Per(rent, DaysInMonth(MonthOf(last - 1)))
  }

  /** Days that share a month cost the same. */
  lemma {:induction false} PerDaySumInMonth(first: Day, mid: Day, last: Day, am: AbsMonth, rent: real)
    requires first <= mid <= last
    requires MonthStart(am) <= mid && last <= MonthStart(am) + DaysInMonth(am)
    ensures PerDaySum(first, last, rent)
            == PerDaySum(first, mid, rent) + Times(Per(rent, DaysInMonth(am)), last - mid)
    decreases last - mid
  {
    hide MonthStart, DaysInMonth, Per, MonthOf, Times;
    if mid == last {
      TimesAdd(Per(rent, DaysInMonth(am)), 0, 0);
    } else {
      MonthOfUnique(last - 1, am);
      PerDaySumInMonth(first, mid, last - 1, am, rent);
      TimesAdd(Per(rent, DaysInMonth(am)), last - 1 - mid, 1);
    }
  }

  /** Rounded to paise as Math.round(total * 100) / 100. */
  function RoundPaise(total: real): real {
    Round(total * 100.0) as real / 100.0
  }

  function MonthDays(year: int, month: int): (n: int)
    ensures n >= 1
  {
    GetUTCDate(DateUTC(year, month + 1, 0))
  }

  /** The first instant of the month after the cursor's, in every year. */
  function FirstOfNextMonth(cursor: Time): (next: Time)
    ensures next > cursor
    ensures IsMidnight(next)
  {
    var am := MonthOf(DayOf(cursor));
    var next := DateUTC(GetUTCFullYear(cursor), GetUTCMonth(cursor) + 1, 1);
    NextMonthIsLater(cursor);
    next
  }

  lemma NextMonthIsLater(cursor: Time)
    ensures DateUTC(GetUTCFullYear(cursor), GetUTCMonth(cursor) + 1, 1) > cursor
    ensures PlainYear(GetUTCFullYear(cursor)) ==>
              DateUTC(GetUTCFullYear(cursor), GetUTCMonth(cursor) + 1, 1)
              == (MonthStart(MonthOf(DayOf(cursor))) + DaysInMonth(MonthOf(DayOf(cursor)))) * MS_PER_DAY
  {
    hide MonthStart, DaysInMonth;
    var am := MonthOf(DayOf(cursor));
    assert am == 12 * GetUTCFullYear(cursor) + GetUTCMonth(cursor);
    MonthLength(am);
    MonthStartSpread(am + 1, am + 1 + 12 * 1900);
  }

  lemma MonthDaysIsLength(year: int, month: int)
    requires PlainYear(year) && 0 <= month < 12
    ensures MonthDays(year, month) == DaysInMonth(12 * year + month)
  {
    hide MonthStart, DaysInMonth;
    var am := 12 * year + month;
    MonthLength(am);
    DateUTCLands(year, month + 1, 0);
    CivilBijection(am, DaysInMonth(am));
  }

  /** What the loop adds from a cursor on: one segment for each calendar month. */
  function SegmentTotal(cursor: Time, periodEnd: Time, rent: real): real
    decreases periodEnd - cursor
  {
    if cursor >= periodEnd then 0.0
    else
      var next := FirstOfNextMonth(cursor);
      var segmentEnd := if periodEnd < next then periodEnd else next;
      var days := Round((segmentEnd - cursor) as real / MS_PER_DAY as real);
      Times(Per(rent, MonthDays(GetUTCFullYear(cursor), GetUTCMonth(cursor))), days)
      + SegmentTotal(next, periodEnd, rent)
  }

  function ProratedRent(joinDate: Time, billingCycleDay: int, monthlyRent: real): real {
    RoundPaise(SegmentTotal(ToDateOnly(joinDate), GetFirstCycleEnd(joinDate, billingCycleDay), monthlyRent))
  }

  lemma ProratedRentIs(joinDate: Time, billingCycleDay: int, monthlyRent: real)
    ensures ProratedRent(joinDate, billingCycleDay, monthlyRent)
            == RoundPaise(SegmentTotal(ToDateOnly(joinDate), GetFirstCycleEnd(joinDate, billingCycleDay), monthlyRent))
  {
  }

  lemma SegmentTotalStep(cursor: Time, periodEnd: Time, rent: real)
    requires cursor < periodEnd
    ensures var next := FirstOfNextMonth(cursor);
            var segmentEnd := if periodEnd < next then periodEnd else next;
            SegmentTotal(cursor, periodEnd, rent)
            == Times(Per(rent, MonthDays(GetUTCFullYear(cursor), GetUTCMonth(cursor))),
                    Round((segmentEnd - cursor) as real / MS_PER_DAY as real))
               + SegmentTotal(next, periodEnd, rent)
  {
  }

  method CalculateProratedRent(joinDate: Time, billingCycleDay: int, monthlyRent: real)
    returns (periodStart: Time, periodEnd: Time, proratedAmount: real)
    ensures periodStart == ToDateOnly(joinDate)
    ensures periodEnd == GetFirstCycleEnd(joinDate, billingCycleDay)
    ensures proratedAmount == ProratedRent(joinDate, billingCycleDay, monthlyRent)
    ensures GetUTCFullYear(joinDate) >= 100 ==>
              proratedAmount == RoundPaise(PerDaySum(DayOf(joinDate), DayOf(periodEnd), monthlyRent))
  {
    hide GetFirstCycleEnd, ToDateOnly, FirstOfNextMonth, MonthDays, Round, Times, Per, SegmentTotal, PerDaySum,
         ProratedRent, RoundPaise,
         GetUTCFullYear, GetUTCMonth;
    periodStart := ToDateOnly(joinDate);
    periodEnd := GetFirstCycleEnd(joinDate, billingCycleDay);
    var totalAmount := 0.0;
    var cursor := periodStart;
    while cursor < periodEnd
      invariant totalAmount + SegmentTotal(cursor, periodEnd, monthlyRent)
                == SegmentTotal(periodStart, periodEnd, monthlyRent)
      decreases periodEnd - cursor
    {
      var daysInMonth := MonthDays(GetUTCFullYear(cursor), GetUTCMonth(cursor));
      var dailyRate := Per(monthlyRent, daysInMonth);
      var firstOfNextMonth := FirstOfNextMonth(cursor);
      var segmentEnd := if periodEnd < firstOfNextMonth then periodEnd else firstOfNextMonth;
      var days := Round((segmentEnd - cursor) as real / MS_PER_DAY as real);
      SegmentTotalStep(cursor, periodEnd, monthlyRent);
      totalAmount := totalAmount + Times(dailyRate, days);
      cursor := firstOfNextMonth;
    }
    SegmentTotalEmpty(cursor, periodEnd, monthlyRent);
    proratedAmount := RoundPaise(totalAmount);
    ProratedRentIs(joinDate, billingCycleDay, monthlyRent);
    if GetUTCFullYear(joinDate) >= 100 {
      ProrationIsPerDay(joinDate, billingCycleDay, monthlyRent);
    }
  }

  lemma WholeDays(a: Time, b: Time)
    requires IsMidnight(a) && IsMidnight(b)
    ensures Round((b - a) as real / MS_PER_DAY as real) == DayOf(b) - DayOf(a)
  {
    var k := DayOf(b) - DayOf(a);
    assert b - a == k * MS_PER_DAY;
    assert (b - a) as real / MS_PER_DAY as real == k as real;
    hide Round;
    var r := Round(k as real);
    assert r as real - 0.5 <= k as real < r as real + 0.5;
  }

  /** From a midnight cursor in a plain year, the month segments add up to the per-day sum. */
  lemma {:induction false} SegmentsRefineDays(first: Day, cursor: Time, periodEnd: Time, rent: real)
    requires IsMidnight(cursor) && IsMidnight(periodEnd)
    requires MonthOf(DayOf(cursor)) >= 1200
    requires first <= DayOf(cursor)
    requires cursor <= periodEnd
    ensures PerDaySum(first, DayOf(cursor), rent) + SegmentTotal(cursor, periodEnd, rent)
            == PerDaySum(first, DayOf(periodEnd), rent)
    decreases periodEnd - cursor
  {
    hide MonthStart, DaysInMonth, MonthDays, Round, DateUTC, PerDaySum, Times, Per;
    if cursor < periodEnd {
      var am := MonthOf(DayOf(cursor));
      var y, m := GetUTCFullYear(cursor), GetUTCMonth(cursor);
      assert am == 12 * y + m && y >= 100;
      NextMonthIsLater(cursor);
      MonthDaysIsLength(y, m);
      var next := FirstOfNextMonth(cursor);
      var segmentEnd := if periodEnd < next then periodEnd else next;
      WholeDays(cursor, segmentEnd);
      PerDaySumInMonth(first, DayOf(cursor), DayOf(segmentEnd), am, rent);
      if next <= periodEnd {
        MonthOfMonotone(DayOf(cursor), DayOf(next));
        SegmentsRefineDays(first, next, periodEnd, rent);
      } else {
        assert SegmentTotal(next, periodEnd, rent) == 0.0;
      }
    }
  }

  lemma PerDaySumEmpty(first: Day, last: Day, rent: real)
    requires last <= first
    ensures PerDaySum(first, last, rent) == 0.0
  {
  }

  /** The month-segment loop computes the per-day sum, for every rent and every cycle day. */
  lemma ProrationIsPerDay(joinDate: Time, billingCycleDay: int, rent: real)
    requires GetUTCFullYear(joinDate) >= 100
    ensures SegmentTotal(ToDateOnly(joinDate), GetFirstCycleEnd(joinDate, billingCycleDay), rent)
            == PerDaySum(DayOf(joinDate), DayOf(GetFirstCycleEnd(joinDate, billingCycleDay)), rent)
  {
    hide MonthStart, DaysInMonth, ToDateOnly, PerDaySum, SegmentTotal;
    var start, end := ToDateOnly(joinDate), GetFirstCycleEnd(joinDate, billingCycleDay);
    ToDateOnlyIsMidnight(joinDate);
    assert IsMidnight(end);
    assert DayOf(start) == DayOf(joinDate);
    PerDaySumEmpty(DayOf(start), DayOf(start), rent);
    if start <= end {
      SegmentsRefineDays(DayOf(start), start, end, rent);
    } else {
      PerDaySumEmpty(DayOf(start), DayOf(end), rent);
      SegmentTotalEmpty(start, end, rent);
    }
  }

  lemma SegmentTotalEmpty(cursor: Time, periodEnd: Time, rent: real)
    requires cursor >= periodEnd
    ensures SegmentTotal(cursor, periodEnd, rent) == 0.0
  {
  }

  /** The rent charged at onboarding: the prorated amount rounded up to whole rupees. */
  function FirstRentCharge(joinDate: Time, billingCycleDay: int, monthlyRent: real): int {
    Ceil(ProratedRent(joinDate, billingCycleDay, monthlyRent))
  }

  lemma RoundThenCeil(total: real)
    ensures total - 0.005 < Ceil(RoundPaise(total)) as real <= total + 0.995
  {
    hide Round, Ceil;
    var r := Round(total * 100.0);
    var c := Ceil(RoundPaise(total));
    assert total - 0.005 < RoundPaise(total) <= total + 0.005;
    assert r as real <= (100 * c) as real < r as real + 100.0;
    assert 100 * c <= r + 99;
  }

  /** The charge stays within half a paisa below and 99.5 paise above the exact per-day rent. */
  lemma ChargeNearPerDaySum(joinDate: Time, billingCycleDay: int, rent: real)
    requires GetUTCFullYear(joinDate) >= 100
    ensures var exact := PerDaySum(DayOf(joinDate), DayOf(GetFirstCycleEnd(joinDate, billingCycleDay)), rent);
            exact - 0.005 < FirstRentCharge(joinDate, billingCycleDay, rent) as real <= exact + 0.995
  {
    hide PerDaySum, SegmentTotal, GetFirstCycleEnd, Ceil, RoundPaise, ToDateOnly;
    ProrationIsPerDay(joinDate, billingCycleDay, rent);
    RoundThenCeil(SegmentTotal(ToDateOnly(joinDate), GetFirstCycleEnd(joinDate, billingCycleDay), rent));
  }
}
