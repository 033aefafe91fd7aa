/** Calendar months and paid periods (billing-period.ts), on dates of the Gregorian calendar in UTC
    (section 21.4.1 of ECMA-262). */
module BillingPeriod {
  import opened Basics

  /** A moment, compared field by field; `time` is the time of day. */
  datatype Moment = Moment(year: int, month: int, day: int, time: nat)

  predicate LeapYear(y: int) {
    y % 4 == 0 && (y % 100 != 0 || y % 400 == 0)
  }

  function DaysIn(year: int, month: int): (n: int)
    ensures 28 <= n <= 31
  {
    if month == 2 then (if LeapYear(year) then 29 else 28)
    else if month == 4 || month == 6 || month == 9 || month == 11 then 30
    else 31
  }

  predicate Valid(m: Moment) {
    1 <= m.month <= 12 && 1 <= m.day <= DaysIn(m.year, m.month) && m.time < 86_400_000
  }

  predicate Before(a: Moment, b: Moment) {
    || a.year < b.year
    || (a.year == b.year && a.month < b.month)
    || (a.year == b.year && a.month == b.month && a.day < b.day)
    || (a.year == b.year && a.month == b.month && a.day == b.day && a.time < b.time)
  }

  /** Months counted from year 0. */
  function MonthIndex(m: Moment): int {
    12 * m.year + m.month - 1
  }

  function DaysOfMonth(index: int): (n: int)
    ensures 28 <= n <= 31
  {
    DaysIn(index / 12, index % 12 + 1)
  }

  /** The same day and time in the month `months` later, or the last day of that month. */
  function AddMonths(m: Moment, months: int): Moment {
    var index := MonthIndex(m) + months;
    Moment(index / 12, index % 12 + 1, Min(m.day, DaysOfMonth(index)), m.time)
  }

  /** As the source goes about it: to the first of the month, to the month, to the day. */
  method ShiftMonths(date: Moment, months: int) returns (d: Moment)
    requires Valid(date)
    ensures d == AddMonths(date, months) && Valid(d)
  {
    d := date;
    var day := d.day;
    d := d.(day := 1);
    var zeroBased := d.month - 1 + months;
    d := d.(year := d.year + zeroBased / 12, month := zeroBased % 12 + 1);
    MonthCarries(date.year, date.month, months);
    var lastDay := DaysIn(d.year, d.month);
    d := d.(day := if day < lastDay then day else lastDay);
  }

  lemma MonthCarries(year: int, month: int, months: int)
    requires 1 <= month <= 12
    ensures var z := month - 1 + months; var index := 12 * year + month - 1 + months;
            year + z / 12 == index / 12 && z % 12 == index % 12
  {
    var z := month - 1 + months;
    assert 12 * year + z == 12 * (year + z / 12) + z % 12;
  }

  lemma AddMonthsIndex(m: Moment, months: int)
    requires Valid(m)
    ensures Valid(AddMonths(m, months)) && MonthIndex(AddMonths(m, months)) == MonthIndex(m) + months
  {
  }

  lemma LaterMonthIsLater(a: Moment, b: Moment)
    requires Valid(a) && Valid(b) && MonthIndex(a) < MonthIndex(b)
    ensures Before(a, b)
  {
  }

  // ---------------------------------------------------------------- periods

  datatype SubscriptionStatus = Active | Trialing | PastDue | Ended

  datatype Subscription = Subscription(
    planId: nat,
    status: SubscriptionStatus,
    periodStart: Moment,
    periodEnd: Option<Moment>,
    providerReference: Option<string>)

  datatype Period = Period(start: Moment, end: Moment, extended: bool)

  /** The plan is the subscription's and has not run out. */
  predicate StillCurrent(current: Option<Subscription>, planId: nat, now: Moment) {
    current.Some? && current.value.planId == planId && current.value.status.Active?
    && current.value.periodEnd.Some? && Before(now, current.value.periodEnd.value)
  }

  function NextPeriod(current: Option<Subscription>, planId: nat, months: int, now: Moment): Period {
    var extend := StillCurrent(current, planId, now);
    var start := if extend then current.value.periodEnd.value else now;
    Period(start, AddMonths(start, months), extend)
  }

  /** A paid period is never shortened: it ends after now, and after the end it extends. */
  lemma PeriodEndsLater(current: Option<Subscription>, planId: nat, months: int, now: Moment)
    requires months >= 1 && Valid(now) && (current.Some? && current.value.periodEnd.Some? ==> Valid(current.value.periodEnd.value))
    ensures var p := NextPeriod(current, planId, months, now);
            && Valid(p.end) && Before(now, p.end) && Before(p.start, p.end)
            && (p.extended ==> p.start == current.value.periodEnd.value)
  {
    var p := NextPeriod(current, planId, months, now);
    AddMonthsIndex(p.start, months);
    LaterMonthIsLater(p.start, p.end);
  }

  // ---------------------------------------------------------------- renewing month by month

  function Renewed(end: Moment, k: nat): Moment {
    if k == 0 then end else AddMonths(Renewed(end, k - 1), 1)
  }

  /** The length of the j-th month after a month. */
  function Visited(index: int, j: int): (n: int)
    ensures 28 <= n <= 31
  {
    DaysOfMonth(index + j)
  }

  /** The shortest of the first `k` months after a month, and of a given number of days. */
  function ShortestDay(index: int, day: int, k: nat): int {
    if k == 0 then day else Min(ShortestDay(index, day, k - 1), Visited(index, k))
  }

  lemma {:induction false} ShortestDayIsLeast(index: int, day: int, k: nat)
    ensures ShortestDay(index, day, k) <= day
    ensures forall j | 1 <= j <= k :: ShortestDay(index, day, k) <= Visited(index, j)
    ensures ShortestDay(index, day, k) == day || exists j :: 1 <= j <= k && ShortestDay(index, day, k) == Visited(index, j)
  {
    if k > 0 {
      ShortestDayIsLeast(index, day, k - 1);
      if ShortestDay(index, day, k) == Visited(index, k) {
      } else if ShortestDay(index, day, k) != day {
        var j :| 1 <= j <= k - 1 && ShortestDay(index, day, k - 1) == Visited(index, j);
      }
    }
  }

  /** k renewals end in the month k later, on the least of the first day and the lengths of the visited months,
      at the same time of day. */
  lemma {:induction false} RenewedIs(end: Moment, k: nat)
    requires Valid(end)
    ensures var r := Renewed(end, k);
            && Valid(r) && MonthIndex(r) == MonthIndex(end) + k
            && r.day == ShortestDay(MonthIndex(end), end.day, k) && r.time == end.time
  {
    if k > 0 {
      RenewedIs(end, k - 1);
      AddMonthsIndex(Renewed(end, k - 1), 1);
    }
  }

  lemma RenewingExtends(end: Moment, k: nat)
    requires Valid(end)
    ensures Before(Renewed(end, k), Renewed(end, k + 1))
  {
    RenewedIs(end, k);
    RenewedIs(end, k + 1);
    LaterMonthIsLater(Renewed(end, k), Renewed(end, k + 1));
  }

  /** Renewing k times never goes past adding k months at once, and loses at most three days against it. */
  lemma RenewingLosesAtMostThreeDays(end: Moment, k: nat)
    requires Valid(end)
    ensures var r, s := Renewed(end, k), AddMonths(end, k);
            && r.year == s.year && r.month == s.month && r.time == s.time
            && s.day - 3 <= r.day <= s.day
  {
    RenewedIs(end, k);
    AddMonthsIndex(end, k);
    ShortestDayIsLeast(MonthIndex(end), end.day, k);
    SameMonth(Renewed(end, k), AddMonths(end, k));
    if k > 0 {
      assert Renewed(end, k).day <= Visited(MonthIndex(end), k);
    }
  }

  lemma SameMonth(a: Moment, b: Moment)
    requires Valid(a) && Valid(b) && MonthIndex(a) == MonthIndex(b)
    ensures a.year == b.year && a.month == b.month
  {
  }
}
