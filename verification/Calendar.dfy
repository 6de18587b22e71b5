/**
 * Civil dates and the calendar arithmetic behind subscription ends and account expiry.
 *
 * A date is counted by its month index (twelve times the year plus the month) and its day; the
 * ordinal of a date is the number of days before it, defined by adding up month lengths. An instant
 * is a number of microseconds, so a day is `DAY` of them.
 */
module Calendar {
  const DAY: nat := 86_400_000_000
  const MINUTE: nat := 60_000_000

  datatype Date = Date(year: int, month: int, day: int)

  predicate Leap(year: int) {
    year % 4 == 0 && (year % 100 != 0 || year % 400 == 0)
  }

  function DaysInMonth(year: int, month: int): (n: int)
    ensures 28 <= n <= 31
    ensures month == 2 <==> n < 30
    ensures n == 29 <==> month == 2 && Leap(year)
  {
    if month == 2 then (if Leap(year) then 29 else 28)
    else if month in {4, 6, 9, 11} then 30
    else 31
  }

  predicate Valid(d: Date) {
    1 <= d.year && 1 <= d.month <= 12 && 1 <= d.day <= DaysInMonth(d.year, d.month)
  }

  predicate Before(a: Date, b: Date) {
    a.year < b.year || (a.year == b.year && (a.month < b.month || (a.month == b.month && a.day < b.day)))
  }

  function Min(a: int, b: int): int { if a < b then a else b }

  /** The date `months` later, its day clamped to the length of the month it lands in. */
  function AddMonths(d: Date, months: nat): Date
    requires Valid(d)
  {
    var monthIndex := d.month - 1 + months;
    var year := d.year + monthIndex / 12;
    var month := monthIndex % 12 + 1;
    Date(year, month, Min(d.day, DaysInMonth(year, month)))
  }

  function NextDay(d: Date): (n: Date)
    requires Valid(d)
    ensures Valid(n)
  {
    if d.day < DaysInMonth(d.year, d.month) then d.(day := d.day + 1)
    else if d.month < 12 then Date(d.year, d.month + 1, 1)
    else Date(d.year + 1, 1, 1)
  }

  // ---- Ordinals ----

  const FIRST: Date := Date(1, 1, 1)
  const FIRST_MONTH: nat := 12

  type Month = i: nat | FIRST_MONTH <= i witness FIRST_MONTH

  function MonthIndex(d: Date): Month
    requires Valid(d)
  {
    12 * d.year + d.month - 1
  }

  function MonthLength(index: Month): (n: int)
    ensures 28 <= n <= 31
  {
    DaysInMonth(index / 12, index % 12 + 1)
  }

  /** Days from the first representable day to the first of the month with this index. */
  function MonthStart(index: Month): nat {
    if index == FIRST_MONTH then 0 else MonthStart(index - 1) + MonthLength(index - 1)
  }

  function Ordinal(d: Date): nat
    requires Valid(d)
  {
    MonthStart(MonthIndex(d)) + d.day - 1
  }

  /** The date with a given ordinal, counted forward from the first representable day. */
  function FromOrdinal(n: nat): (d: Date)
    ensures Valid(d) && Ordinal(d) == n
  {
    if n == 0 then FIRST
    else
      var d := FromOrdinal(n - 1);
      NextDayOrdinal(d);
      NextDay(d)
  }

  lemma MonthLengthOf(d: Date)
    requires Valid(d)
    ensures MonthLength(MonthIndex(d)) == DaysInMonth(d.year, d.month)
  {
    assert MonthIndex(d) / 12 == d.year && MonthIndex(d) % 12 == d.month - 1;
  }

  lemma NextMonthIndex(d: Date)
    requires Valid(d) && d.day == DaysInMonth(d.year, d.month)
    ensures MonthIndex(NextDay(d)) == MonthIndex(d) + 1 && NextDay(d).day == 1
  {
  }

  lemma NextDayOrdinal(d: Date)
    requires Valid(d)
    ensures Ordinal(NextDay(d)) == Ordinal(d) + 1
  {
    hide MonthLength, Leap;
    if d.day == DaysInMonth(d.year, d.month) {
      NextMonthIndex(d);
      MonthLengthOf(d);
    }
  }

  /** `months` consecutive months hold between 28 and 31 days each. */
  lemma {:induction false} MonthSpan(index: Month, months: nat)
    ensures 28 * months <= MonthStart(index + months) - MonthStart(index) <= 31 * months
  {
    hide MonthLength;
    if months > 0 { MonthSpan(index, months - 1); }
  }

  /** The ordinal orders dates exactly as the calendar does, so it identifies a date. */
  lemma OrdinalOrders(a: Date, b: Date)
    requires Valid(a) && Valid(b)
    ensures Before(a, b) <==> Ordinal(a) < Ordinal(b)
    ensures Ordinal(a) == Ordinal(b) ==> a == b
  {
    hide DaysInMonth, MonthLength;
    if MonthIndex(a) == MonthIndex(b) {
      assert a.year == b.year && a.month == b.month;
    } else if MonthIndex(a) < MonthIndex(b) {
      LaterMonth(a, b);
    } else {
      LaterMonth(b, a);
    }
  }

  lemma LaterMonth(a: Date, b: Date)
    requires Valid(a) && Valid(b) && MonthIndex(a) < MonthIndex(b)
    ensures Ordinal(a) < Ordinal(b)
    ensures Before(a, b)
  {
    hide DaysInMonth, MonthLength;
    MonthLengthOf(a);
    MonthSpan(MonthIndex(a) + 1, MonthIndex(b) - MonthIndex(a) - 1);
  }

  /** Days before each month of a common year, and the whole year. */
  const DAYS_BEFORE: seq<nat> := [0, 31, 59, 90, 120, 151, 181, 212, 243, 273, 304, 334, 365]

  /** Days before a year: 365 for each earlier year, and one more for every fourth of them but for the
      centuries not divisible by 400. */
  function DaysBeforeYear(year: int): int {
    365 * (year - 1) + (year - 1) / 4 - (year - 1) / 100 + (year - 1) / 400
  }

  lemma QuotientStep(year: int, n: int)
    requires n == 4 || n == 100 || n == 400
    ensures year / n == (year - 1) / n + if year % n == 0 then 1 else 0
  {
    if n == 4 { } else if n == 100 { } else { }
  }

  lemma CenturyIsFourth(year: int)
    ensures year % 100 == 0 ==> year % 4 == 0
  {
    if year % 100 == 0 { assert year == 4 * (25 * (year / 100)); }
  }

  lemma FourCenturies(year: int)
    ensures year % 400 == 0 ==> year % 100 == 0
  {
    if year % 400 == 0 { assert year == 100 * (4 * (year / 400)); }
  }

  lemma LeapStep(year: int)
    ensures DaysBeforeYear(year + 1) == DaysBeforeYear(year) + 365 + if Leap(year) then 1 else 0
  {
    QuotientStep(year, 4);
    QuotientStep(year, 100);
    QuotientStep(year, 400);
    CenturyIsFourth(year);
    FourCenturies(year);
  }

  lemma MonthLengths(year: int, month: nat)
    requires 1 <= month <= 12
    ensures DaysInMonth(year, month) == DAYS_BEFORE[month] - DAYS_BEFORE[month - 1]
                                        + if month == 2 && Leap(year) then 1 else 0
  {
    hide Leap;
  }

  lemma {:induction false} MonthsOfYear(year: int, months: nat)
    requires 1 <= year && months <= 12
    ensures MonthStart(12 * year + months) - MonthStart(12 * year)
            == DAYS_BEFORE[months] + if Leap(year) && months >= 2 then 1 else 0
  {
    hide Leap, DaysInMonth, MonthStart;
    if months > 0 {
      MonthsOfYear(year, months - 1);
      var index := 12 * year + months - 1;
      assert index / 12 == year && index % 12 == months - 1;
      MonthLengths(year, months);
      MonthStep(index);
    }
  }

  lemma {:induction false} NewYear(year: int)
    requires 1 <= year
    ensures MonthStart(12 * year) == DaysBeforeYear(year)
  {
    hide Leap, MonthLength;
    if year > 1 {
      hide MonthStart, DaysBeforeYear;
      NewYear(year - 1);
      MonthsOfYear(year - 1, 12);
      LeapStep(year - 1);
    }
  }

  /** The ordinal is the Gregorian one: the days of the earlier years, of the earlier months, and of the
      month so far, counting a leap day from March on. */
  lemma OrdinalIsGregorian(d: Date)
    requires Valid(d)
    ensures Ordinal(d) == DaysBeforeYear(d.year) + DAYS_BEFORE[d.month - 1]
                          + (if d.month > 2 && Leap(d.year) then 1 else 0) + d.day - 1
  {
    hide Leap, DaysInMonth, MonthStart, DaysBeforeYear;
    NewYear(d.year);
    MonthsOfYear(d.year, d.month - 1);
  }

  // ---- AddMonths on dates ----

  lemma AddMonthsIndex(d: Date, k: nat)
    requires Valid(d)
    ensures Valid(AddMonths(d, k))
    ensures MonthIndex(AddMonths(d, k)) == MonthIndex(d) + k
    ensures AddMonths(d, k).day == Min(d.day, MonthLength(MonthIndex(d) + k))
  {
    hide DaysInMonth, MonthLength;
    var r := AddMonths(d, k);
    var monthIndex := d.month - 1 + k;
    assert monthIndex == 12 * (monthIndex / 12) + monthIndex % 12;
    MonthLengthOf(r);
  }

  lemma MonthStep(index: Month)
    ensures MonthStart(index + 1) == MonthStart(index) + MonthLength(index)
  {
    hide MonthLength;
  }

  /** Adding k months moves a date by at least 28 and at most 31 days a month. */
  lemma AddMonthsSpan(d: Date, k: nat)
    requires Valid(d)
    ensures Valid(AddMonths(d, k))
    ensures 28 * k <= Ordinal(AddMonths(d, k)) - Ordinal(d) <= 31 * k
  {
    hide DaysInMonth, MonthLength, AddMonths, MonthStart;
    AddMonthsIndex(d, k);
    MonthLengthOf(d);
    MonthSpan(MonthIndex(d), k);
    if k > 0 {
      MonthStep(MonthIndex(d));
      MonthStep(MonthIndex(d) + k);
      MonthSpan(MonthIndex(d) + 1, k);
    }
  }

  lemma AddMonthsMonotone(a: Date, b: Date, k: nat)
    requires Valid(a) && Valid(b) && !Before(b, a)
    ensures Valid(AddMonths(a, k)) && Valid(AddMonths(b, k))
    ensures !Before(AddMonths(b, k), AddMonths(a, k))
    ensures Ordinal(AddMonths(a, k)) <= Ordinal(AddMonths(b, k))
  {
    hide DaysInMonth, MonthLength, AddMonths, MonthStart;
    AddMonthsIndex(a, k);
    AddMonthsIndex(b, k);
    OrdinalOrders(AddMonths(b, k), AddMonths(a, k));
    if MonthIndex(a) < MonthIndex(b) {
      LaterMonth(AddMonths(a, k), AddMonths(b, k));
    }
  }

  lemma AddMonthsStrict(d: Date, j: nat, k: nat)
    requires Valid(d) && j < k
    ensures Valid(AddMonths(d, j)) && Valid(AddMonths(d, k))
    ensures Ordinal(AddMonths(d, j)) < Ordinal(AddMonths(d, k))
  {
    hide DaysInMonth, MonthLength, AddMonths, MonthStart;
    AddMonthsIndex(d, j);
    AddMonthsIndex(d, k);
    LaterMonth(AddMonths(d, j), AddMonths(d, k));
  }

  /** Two additions never overtake one, and agree with it exactly when the stop-over month cut nothing
      that the final month would have kept. */
  lemma AddMonthsCompose(d: Date, a: nat, b: nat)
    requires Valid(d)
    ensures Valid(AddMonths(d, a)) && Valid(AddMonths(AddMonths(d, a), b)) && Valid(AddMonths(d, a + b))
    ensures Ordinal(AddMonths(AddMonths(d, a), b)) <= Ordinal(AddMonths(d, a + b))
    ensures AddMonths(AddMonths(d, a), b) == AddMonths(d, a + b) <==>
              d.day <= AddMonths(d, a).day || AddMonths(d, a + b).day <= AddMonths(d, a).day
    ensures d.day <= 28 ==> AddMonths(AddMonths(d, a), b) == AddMonths(d, a + b)
  {
    hide DaysInMonth, MonthLength, AddMonths, MonthStart;
    AddMonthsIndex(d, a);
    AddMonthsIndex(d, a + b);
    AddMonthsIndex(AddMonths(d, a), b);
    var x, y := AddMonths(AddMonths(d, a), b), AddMonths(d, a + b);
    assert MonthIndex(x) == MonthIndex(y);
    assert x.year == y.year && x.month == y.month;
  }

  // ---- Instants and plan ends ----

  datatype Interval = TrialWeek | Monthly | Quarterly | Semiannual | Yearly

  type Instant = nat

  function DateOf(t: Instant): (d: Date)
    ensures Valid(d) && Ordinal(d) == t / DAY
  {
    FromOrdinal(t / DAY)
  }

  /** The instant on date `d` at the time of day of `t`. */
  function At(d: Date, t: Instant): nat
    requires Valid(d)
  {
    Ordinal(d) * DAY + t % DAY
  }

  function AddMonthsAt(t: Instant, months: nat): (end: Instant)
    ensures t + 28 * months * DAY <= end <= t + 31 * months * DAY
  {
    AddMonthsSpan(DateOf(t), months);
    AtSplits(AddMonths(DateOf(t), months), t);
    At(AddMonths(DateOf(t), months), t)
  }

  /** The instant k months on lies on the date k months on, at the same time of day. */
  lemma AddMonthsAtLands(t: Instant, months: nat)
    ensures Valid(DateOf(t)) && Valid(AddMonths(DateOf(t), months))
    ensures var end := AddMonthsAt(t, months);
      DateOf(end) == AddMonths(DateOf(t), months) && end % DAY == t % DAY
  {
    hide DaysInMonth, MonthLength, MonthStart, AddMonths, FromOrdinal;
    AddMonthsIndex(DateOf(t), months);
    AtSplits(AddMonths(DateOf(t), months), t);
    OrdinalOrders(DateOf(AddMonthsAt(t, months)), AddMonths(DateOf(t), months));
  }

  lemma AtSplits(d: Date, t: Instant)
    requires Valid(d)
    ensures At(d, t) / DAY == Ordinal(d) && At(d, t) % DAY == t % DAY
  {
    hide DaysInMonth, MonthLength;
  }

  const TRIAL_DURATION_DAYS: nat := 7
  const PAID_DURATION_MONTHS: nat := 6

  function CalculateEnd(interval: Interval, startsAt: Instant): (end: Instant)
    ensures startsAt + 7 * DAY <= end
  {
    match interval
    case TrialWeek => startsAt + TRIAL_DURATION_DAYS * DAY
    case Semiannual => AddMonthsAt(startsAt, PAID_DURATION_MONTHS)
    case Monthly => AddMonthsAt(startsAt, 1)
    case Quarterly => AddMonthsAt(startsAt, 3)
    case Yearly => AddMonthsAt(startsAt, 12)
  }

  /** From one start, a longer plan always ends strictly later. */
  lemma PlanEndsOrdered(t: Instant)
    ensures t < CalculateEnd(TrialWeek, t) < CalculateEnd(Monthly, t) < CalculateEnd(Quarterly, t)
              < CalculateEnd(Semiannual, t) < CalculateEnd(Yearly, t)
  {
    hide DaysInMonth, MonthLength;
    AddMonthsStrict(DateOf(t), 1, 3);
    AddMonthsStrict(DateOf(t), 3, 6);
    AddMonthsStrict(DateOf(t), 6, 12);
  }

  // ---- Plan lengths ----

  /** February lasts 28 or 29 days, April, June, September and November 30, the others 31. */
  predicate LastsAs(month: int, days: int) {
    if month == 1 then 28 <= days <= 29 else days == if month in {3, 5, 8, 10} then 30 else 31
  }

  /** The length of the month `j` after one that is month `m` of its year. */
  lemma LengthAfter(index: Month, m: int, j: nat)
    requires index % 12 == m && j <= 12
    ensures LastsAs((m + j) % 12, MonthLength(index + j))
  {
    assert (index + j) % 12 == (m + j) % 12;
  }

  lemma AddedDays(d: Date, k: nat)
    requires Valid(d)
    ensures var i := MonthIndex(d); var last := MonthLength(i + k);
      Valid(AddMonths(d, k))
      && Ordinal(AddMonths(d, k)) - Ordinal(d) == MonthStart(i + k) - MonthStart(i) + Min(0, last - d.day)
      && d.day <= MonthLength(i)
  {
    hide DaysInMonth, MonthLength, MonthStart, AddMonths;
    AddMonthsIndex(d, k);
    MonthLengthOf(d);
  }

  lemma ThreeMonths(index: Month)
    ensures MonthStart(index + 3) - MonthStart(index) ==
              MonthLength(index) + MonthLength(index + 1) + MonthLength(index + 2)
  {
    hide MonthLength;
    MonthStep(index);
    MonthStep(index + 1);
    MonthStep(index + 2);
  }

  /** A quarter is 89 to 92 days, cut days included. */
  lemma QuarterSpan(d: Date)
    requires Valid(d)
    ensures Valid(AddMonths(d, 3)) && 89 <= Ordinal(AddMonths(d, 3)) - Ordinal(d) <= 92
  {
    hide DaysInMonth, MonthLength, MonthStart, AddMonths, Valid, Ordinal;
    AddedDays(d, 3);
    ThreeMonths(MonthIndex(d));
    LengthsAfter(MonthIndex(d), MonthIndex(d) % 12);
  }

  /** The lengths of a month and of the six after it, its place in the year given. */
  lemma LengthsAfter(i: Month, m: int)
    requires i % 12 == m
    ensures LastsAs(m, MonthLength(i))
    ensures LastsAs((m + 1) % 12, MonthLength(i + 1)) && LastsAs((m + 2) % 12, MonthLength(i + 2))
    ensures LastsAs((m + 3) % 12, MonthLength(i + 3)) && LastsAs((m + 4) % 12, MonthLength(i + 4))
    ensures LastsAs((m + 5) % 12, MonthLength(i + 5)) && LastsAs((m + 6) % 12, MonthLength(i + 6))
  {
    hide MonthLength, LastsAs;
    LengthAfter(i, m, 0);
    LengthAfter(i, m, 1);
    LengthAfter(i, m, 2);
    LengthAfter(i, m, 3);
    LengthAfter(i, m, 4);
    LengthAfter(i, m, 5);
    LengthAfter(i, m, 6);
  }

  /** Half a year is 181 to 184 days. */
  lemma HalfYearSpan(d: Date)
    requires Valid(d)
    ensures Valid(AddMonths(d, 6)) && 181 <= Ordinal(AddMonths(d, 6)) - Ordinal(d) <= 184
  {
    hide DaysInMonth, MonthLength, MonthStart, AddMonths, Valid, Ordinal;
    AddedDays(d, 6);
    ThreeMonths(MonthIndex(d));
    ThreeMonths(MonthIndex(d) + 3);
    LengthsAfter(MonthIndex(d), MonthIndex(d) % 12);
  }

  /** The days of six months that start at a place in the year, 29 February aside. */
  function SixMonthDays(m: int): int {
    if m in {0, 1, 8, 10} then 181 else if m in {9, 11} then 182 else if m in {3, 5} then 183 else 184
  }

  lemma SixMonths(i: Month, m: int)
    requires i % 12 == m
    ensures var days := MonthStart(i + 6) - MonthStart(i);
      && (2 <= m <= 7 ==> days == SixMonthDays(m))
      && (m < 2 || 7 < m ==> SixMonthDays(m) <= days <= SixMonthDays(m) + 1)
      && (m == 1 ==> days == 153 + MonthLength(i))
  {
    hide DaysInMonth, MonthLength, MonthStart;
    ThreeMonths(i);
    ThreeMonths(i + 3);
    LengthsAfter(i, m);
  }

  /** Twelve months hold one February, whichever they start with. */
  lemma TwelveMonths(i: Month)
    ensures 365 <= MonthStart(i + 12) - MonthStart(i) <= 366
    ensures i % 12 == 1 ==> MonthStart(i + 12) - MonthStart(i) == 337 + MonthLength(i)
  {
    hide MonthLength, MonthStart;
    SixMonths(i, i % 12);
    SixMonths(i + 6, (i + 6) % 12);
  }

  /** A year is 365 or 366 days, also from 29 February. */
  lemma YearSpan(d: Date)
    requires Valid(d)
    ensures Valid(AddMonths(d, 12)) && 365 <= Ordinal(AddMonths(d, 12)) - Ordinal(d) <= 366
  {
    hide DaysInMonth, MonthLength, MonthStart, AddMonths, Valid, Ordinal;
    AddedDays(d, 12);
    TwelveMonths(MonthIndex(d));
    LengthAfter(MonthIndex(d), MonthIndex(d) % 12, 0);
    LengthAfter(MonthIndex(d), MonthIndex(d) % 12, 12);
  }

  /** A plan ends on the date its number of calendar months on, at the time of day it started, or a week on. */
  predicate EndsMonthsOn(end: Instant, t: Instant, months: nat) {
    var d := DateOf(t);
    && end % DAY == t % DAY
    && DateOf(end).year * 12 + DateOf(end).month == d.year * 12 + d.month + months
    && DateOf(end).day == Min(d.day, DaysInMonth(DateOf(end).year, DateOf(end).month))
  }

  lemma PlanEndsOnTheCalendar(t: Instant)
    ensures EndsMonthsOn(CalculateEnd(Monthly, t), t, 1)
    ensures EndsMonthsOn(CalculateEnd(Quarterly, t), t, 3)
    ensures EndsMonthsOn(CalculateEnd(Semiannual, t), t, 6)
    ensures EndsMonthsOn(CalculateEnd(Yearly, t), t, 12)
    ensures CalculateEnd(TrialWeek, t) == t + 7 * 24 * 60 * 60 * 1_000_000
  {
    hide FromOrdinal, MonthStart;
    EndsMonthsOnSo(t, 1);
    EndsMonthsOnSo(t, 3);
    EndsMonthsOnSo(t, 6);
    EndsMonthsOnSo(t, 12);
  }

  lemma EndsMonthsOnSo(t: Instant, months: nat)
    ensures EndsMonthsOn(AddMonthsAt(t, months), t, months)
  {
    hide FromOrdinal, MonthStart, DaysInMonth;
    AddMonthsAtLands(t, months);
  }

  /** The length of every plan, in whole days. */
  lemma PlanLengths(t: Instant)
    ensures CalculateEnd(TrialWeek, t) == t + 7 * DAY
    ensures t + 28 * DAY <= CalculateEnd(Monthly, t) <= t + 31 * DAY
    ensures t + 89 * DAY <= CalculateEnd(Quarterly, t) <= t + 92 * DAY
    ensures t + 181 * DAY <= CalculateEnd(Semiannual, t) <= t + 184 * DAY
    ensures CalculateEnd(Yearly, t) == t + 365 * DAY || CalculateEnd(Yearly, t) == t + 366 * DAY
  {
    hide DaysInMonth, MonthLength, MonthStart, AddMonths, Ordinal, FromOrdinal;
    var d := DateOf(t);
    QuarterSpan(d);
    HalfYearSpan(d);
    YearSpan(d);
    assert t == Ordinal(d) * DAY + t % DAY;
  }

  /** The later of two start dates loses its lead when both are cut down to the same landing day. */
  predicate ClampMerges(a: Date, b: Date, k: nat)
    requires Valid(a)
  {
    && a.year == b.year && a.month == b.month
    && MonthLength(MonthIndex(a) + k) <= a.day < b.day
  }

  lemma AddMonthsMerge(a: Date, b: Date, k: nat)
    requires Valid(a) && Valid(b) && !Before(b, a)
    ensures Valid(AddMonths(a, k)) && Valid(AddMonths(b, k))
    ensures Ordinal(AddMonths(a, k)) <= Ordinal(AddMonths(b, k))
    ensures Ordinal(AddMonths(a, k)) == Ordinal(AddMonths(b, k)) <==> a == b || ClampMerges(a, b, k)
  {
    hide DaysInMonth, MonthLength, AddMonths, MonthStart;
    AddMonthsMonotone(a, b, k);
    AddMonthsIndex(a, k);
    AddMonthsIndex(b, k);
    if MonthIndex(a) < MonthIndex(b) {
      LaterMonth(AddMonths(a, k), AddMonths(b, k));
    } else {
      assert a.year == b.year && a.month == b.month;
    }
  }

  /** Adding months keeps the order of instants, except exactly when the two dates merge and the later
      instant has the earlier time of day. */
  lemma AddMonthsAtOrder(s: Instant, t: Instant, k: nat)
    requires s <= t
    ensures AddMonthsAt(s, k) <= AddMonthsAt(t, k) <==>
              !(ClampMerges(DateOf(s), DateOf(t), k) && t % DAY < s % DAY)
  {
    hide DaysInMonth, MonthLength, AddMonths, MonthStart, Ordinal, FromOrdinal;
    OrdinalOrders(DateOf(t), DateOf(s));
    AddMonthsMerge(DateOf(s), DateOf(t), k);
  }

  /** The case is real: 30 January 23:00 and 31 January 01:00 of a common year swap when a month is added. */
  lemma ClampSwapExists(year: nat)
    requires 1 <= year && !Leap(year)
    ensures var s := Ordinal(Date(year, 1, 30)) * DAY + 23 * 60 * MINUTE;
            var t := Ordinal(Date(year, 1, 31)) * DAY + 60 * MINUTE;
            s < t && AddMonthsAt(t, 1) < AddMonthsAt(s, 1)
  {
    hide FromOrdinal, AddMonths, MonthStart;
    var a, b := Date(year, 1, 30), Date(year, 1, 31);
    var s := Ordinal(a) * DAY + 23 * 60 * MINUTE;
    var t := Ordinal(b) * DAY + 60 * MINUTE;
    assert s / DAY == Ordinal(a) && t / DAY == Ordinal(b);
    OrdinalOrders(DateOf(s), a);
    OrdinalOrders(DateOf(t), b);
    FebruaryMerges(year);
    assert t % DAY < s % DAY;
    AddMonthsAtOrder(s, t, 1);
  }

  lemma FebruaryMerges(year: nat)
    requires 1 <= year && !Leap(year)
    ensures ClampMerges(Date(year, 1, 30), Date(year, 1, 31), 1)
  {
    var next := MonthIndex(Date(year, 1, 30)) + 1;
    assert next / 12 == year && next % 12 == 1;
  }
}
