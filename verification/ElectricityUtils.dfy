/** Tenant-days in a month and the equal split of a room's bill. */
module ElectricityUtils {
  import opened Calendar
  import opened DateText
  import opened Numbers
  import opened Text

  function GetTenantDaysInMonth(joinedAt: Time, leftAt: Option<Time>, month: int, year: int): int {
    var monthStart := DateUTC(year, month - 1, 1);
    var monthEnd := DateUTC(year, month, 0);
    var occupancyStart := ToDateOnly(joinedAt);
    var start := if occupancyStart > monthStart then occupancyStart else monthStart;
    var occupancyEnd := if leftAt.Some? then ToDateOnly(leftAt.value) else monthEnd;
    var end := if occupancyEnd < monthEnd then occupancyEnd else monthEnd;
    if start > end then 0
    else Round((end - start) as real / MS_PER_DAY as real) + 1
  }

  // --------------------------------------------------------------- tenant-days

  ghost predicate InStay(joined: Day, left: Option<Day>, d: Day) {
    joined <= d && (left.Some? ==> d <= left.value)
  }

  /** The days of an absolute month inside [joined, left]; an open stay has no last day. */
  ghost function OccupiedDays(joined: Day, left: Option<Day>, am: AbsMonth): set<Day> {
    set d | MonthStart(am) <= d < MonthStart(am) + DaysInMonth(am) && InStay(joined, left, d)
  }

  ghost function DayOfOption(t: Option<Time>): Option<Day> {
    if t.Some? then Some(DayOf(t.value)) else None
  }

  lemma {:induction false} IntervalSize(days: set<Day>, first: Day, last: Day)
    requires forall d :: d in days <==> first <= d <= last
    ensures |days| == if last < first then 0 else last - first + 1
    decreases last - first
  {
    if last < first {
      assert days == {};
    } else {
      assert last in days;
      IntervalSize(days - {last}, first, last - 1);
    }
  }

  /** Dates whose year Date.UTC does not reinterpret. */
  ghost predicate PlainStay(joinedAt: Time, leftAt: Option<Time>) {
    PlainYear(GetUTCFullYear(joinedAt)) && (leftAt.Some? ==> PlainYear(GetUTCFullYear(leftAt.value)))
  }

  /** Later than the last year that Date.UTC reinterprets. */
  predicate Modern(t: Time) {
    GetUTCFullYear(t) >= 100
  }

  ghost predicate ModernStay(joinedAt: Time, leftAt: Option<Time>) {
    Modern(joinedAt) && (leftAt.Some? ==> Modern(leftAt.value))
  }

  lemma MonthBounds(month: int, year: int)
    requires 1 <= month <= 12 && PlainYear(year)
    ensures var am := 12 * year + month - 1;
            && DateUTC(year, month - 1, 1) == MonthStart(am) * MS_PER_DAY
            && DateUTC(year, month, 0) == (MonthStart(am) + DaysInMonth(am) - 1) * MS_PER_DAY
  {
    hide MonthStart, DaysInMonth;
    MonthLength(12 * year + month - 1);
  }

  /** The tenant-days of a month are the number of its calendar days inside the stay. */
  lemma TenantDaysCountDays(joinedAt: Time, leftAt: Option<Time>, month: int, year: int)
    requires 1 <= month <= 12 && PlainYear(year)
    requires PlainStay(joinedAt, leftAt)
    ensures GetTenantDaysInMonth(joinedAt, leftAt, month, year)
            == |OccupiedDays(DayOf(joinedAt), DayOfOption(leftAt), 12 * year + month - 1)|
  {
    hide MonthStart, DaysInMonth, ToDateOnly, DateUTC, Round, GetUTCFullYear, PlainYear;
    var am := 12 * year + month - 1;
    MonthBounds(month, year);
    ToDateOnlyIsMidnight(joinedAt);
    if leftAt.Some? {
      ToDateOnlyIsMidnight(leftAt.value);
    }
    var lastOfMonth := MonthStart(am) + DaysInMonth(am) - 1;
    var joined := DayOf(joinedAt);
    var first := if joined > MonthStart(am) then joined else MonthStart(am);
    var left := if leftAt.Some? then DayOf(leftAt.value) else lastOfMonth;
    var last := if left < lastOfMonth then left else lastOfMonth;
    IntervalSize(OccupiedDays(joined, DayOfOption(leftAt), am), first, last);
    RoundedDays(first, last);
  }

  lemma RoundedDays(first: Day, last: Day)
    ensures Round((last * MS_PER_DAY - first * MS_PER_DAY) as real / MS_PER_DAY as real) == last - first
  {
    hide Round;
    var k := last - first;
    assert last * MS_PER_DAY - first * MS_PER_DAY == k * MS_PER_DAY;
    assert (k * MS_PER_DAY) as real / MS_PER_DAY as real == k as real;
    var r := Round(k as real);
    assert r as real - 0.5 <= k as real < r as real + 0.5;
  }

  /** Tenant-days of one absolute month. */
  function TenantDays(joinedAt: Time, leftAt: Option<Time>, am: AbsMonth): int {
    GetTenantDaysInMonth(joinedAt, leftAt, am % 12 + 1, am / 12)
  }

  /** Tenant-days summed over the months from first up to, but not including, end. */
  ghost function TenantDaysSum(joinedAt: Time, leftAt: Option<Time>, first: AbsMonth, end: AbsMonth): int
    decreases end - first
  {
    if end <= first then 0
    else TenantDaysSum(joinedAt, leftAt, first, end - 1) + TenantDays(joinedAt, leftAt, end - 1)
  }

  lemma TenantDaysFormula(joinedAt: Time, leftAt: Option<Time>, am: AbsMonth)
    requires am >= 1200 && ModernStay(joinedAt, leftAt)
    ensures var joined, lastOfMonth := DayOf(joinedAt), MonthStart(am) + DaysInMonth(am) - 1;
            var first := if joined > MonthStart(am) then joined else MonthStart(am);
            var last := if leftAt.Some? && DayOf(leftAt.value) < lastOfMonth then DayOf(leftAt.value) else lastOfMonth;
            TenantDays(joinedAt, leftAt, am) == if last < first then 0 else last - first + 1
  {
    hide MonthStart, DaysInMonth, GetTenantDaysInMonth, GetUTCFullYear;
    TenantDaysCountDays(joinedAt, leftAt, am % 12 + 1, am / 12);
    var joined, lastOfMonth := DayOf(joinedAt), MonthStart(am) + DaysInMonth(am) - 1;
    var first := if joined > MonthStart(am) then joined else MonthStart(am);
    var last := if leftAt.Some? && DayOf(leftAt.value) < lastOfMonth then DayOf(leftAt.value) else lastOfMonth;
    IntervalSize(OccupiedDays(joined, DayOfOption(leftAt), am), first, last);
  }

  /** Up to any month, the tenant-days so far are the days from joining to that month's end, cut at leaving. */
  lemma {:induction false} TenantDaysSoFar(joinedAt: Time, leftAt: Option<Time>, end: AbsMonth)
    requires ModernStay(joinedAt, leftAt)
    requires leftAt.Some? ==> DayOf(joinedAt) <= DayOf(leftAt.value)
    requires MonthOf(DayOf(joinedAt)) < end
    ensures var left := leftAt.Some? && DayOf(leftAt.value) < MonthStart(end);
            var lastDay := if left then DayOf(leftAt.value) else MonthStart(end) - 1;
            TenantDaysSum(joinedAt, leftAt, MonthOf(DayOf(joinedAt)), end) == lastDay - DayOf(joinedAt) + 1
    decreases end
  {
    hide MonthStart, DaysInMonth, TenantDays;
    var first := MonthOf(DayOf(joinedAt));
    TenantDaysFormula(joinedAt, leftAt, end - 1);
    MonthLength(end - 1);
    if first < end - 1 {
      TenantDaysSoFar(joinedAt, leftAt, end - 1);
      MonthLength(first);
      MonthStartSpread(first + 1, end - 1);
    } else {
      assert TenantDaysSum(joinedAt, leftAt, first, first) == 0;
    }
  }

  /** Over all months of a finished stay, the tenant-days are exactly the days of the stay. */
  lemma TenantDaysTelescope(joinedAt: Time, leftAt: Time)
    requires Modern(joinedAt) && Modern(leftAt)
    requires DayOf(joinedAt) <= DayOf(leftAt)
    ensures TenantDaysSum(joinedAt, Some(leftAt), MonthOf(DayOf(joinedAt)), MonthOf(DayOf(leftAt)) + 1)
            == DayOf(leftAt) - DayOf(joinedAt) + 1
  {
    hide MonthStart, DaysInMonth, TenantDaysSum;
    MonthOfMonotone(DayOf(joinedAt), DayOf(leftAt));
    MonthLength(MonthOf(DayOf(leftAt)));
    TenantDaysSoFar(joinedAt, Some(leftAt), MonthOf(DayOf(leftAt)) + 1);
  }

  // ---------------------------------------------------------- billing period

  /** The first and last day of a month, and the due date on its last day. */
  function GetBillingPeriodDates(month: int, year: int): (Time, Time, Time) {
    (DateUTC(year, month - 1, 1), DateUTC(year, month, 0), DateUTC(year, month, 0))
  }

  /** The period runs from the first to the last day of the month, and the bill is due on the last. */
  lemma BillingPeriodIsTheMonth(month: int, year: int)
    requires 1 <= month <= 12 && PlainYear(year)
    ensures var (periodStart, periodEnd, dueDate) := GetBillingPeriodDates(month, year);
            var am := 12 * year + month - 1;
            && DayOf(periodStart) == MonthStart(am) && DayOf(periodEnd) == MonthStart(am + 1) - 1
                && dueDate == periodEnd
            && MonthOf(DayOf(periodStart)) == MonthOf(DayOf(periodEnd)) == am
  {
    hide MonthStart, DaysInMonth, DateUTC;
    var am := 12 * year + month - 1;
    MonthBounds(month, year);
    MonthLength(am);
    MonthOfUnique(MonthStart(am), am);
    MonthOfUnique(MonthStart(am + 1) - 1, am);
  }

  // --------------------------------------------------------------- equal split

  function SplitAmountEqually(totalAmount: int, count: int): (shares: seq<int>)
    ensures |shares| == if count <= 0 then 0 else count
  {
    if count <= 0 then []
    else
      var base := totalAmount / count;
      var remainder := totalAmount - base * count;
      seq(count, i => if i < remainder then base + 1 else base)
  }

  function Sum(xs: seq<int>): int {
    if xs == [] then 0 else Sum(xs[..|xs| - 1]) + xs[|xs| - 1]
  }

  lemma {:induction false} SumOfSteps(xs: seq<int>, base: int, extra: int)
    requires 0 <= extra
    requires forall i :: 0 <= i < |xs| ==> xs[i] == if i < extra then base + 1 else base
    ensures Sum(xs) == base * |xs| + (if |xs| < extra then |xs| else extra)
  {
    if xs != [] {
      SumOfSteps(xs[..|xs| - 1], base, extra);
    }
  }

  /** The shares add up to the total, differ by at most one, and the larger ones come first. */
  lemma SplitIsExactAndFair(totalAmount: int, count: int)
    requires count > 0
    ensures var shares := SplitAmountEqually(totalAmount, count);
            && Sum(shares) == totalAmount
            && (forall i, j :: 0 <= i <= j < |shares| ==> 0 <= shares[i] - shares[j] <= 1)
  {
    var shares := SplitAmountEqually(totalAmount, count);
    var base := totalAmount / count;
    assert 0 <= totalAmount - base * count < count;
    SumOfSteps(shares, base, totalAmount - base * count);
  }
}
