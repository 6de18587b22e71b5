/**
 * The directory's age filter: a range of ages becomes a range of birth dates. The simple
 * specification it must refine is the age shown on the profile.
 */
module AgeFilter {
  import opened Calendar
  import opened Wrappers

  const MIN_YEAR := 1
  const MAX_YEAR := 9999

  predicate Representable(d: Date) { Valid(d) && MIN_YEAR <= d.year <= MAX_YEAR }

  function CalculateAge(birth: Date, today: Date): int {
    today.year - birth.year -
      if (today.month < birth.month || (today.month == birth.month && today.day < birth.day)) then 1 else 0
  }

  /** The same day `years` earlier, 28 February standing in for a missing 29 February. A year outside
      the representable range raises, in both attempts. */
  function YearsAgo(reference: Date, years: int): (r: Option<Date>)
    requires Representable(reference)
    ensures r.Some? <==> MIN_YEAR <= reference.year - years <= MAX_YEAR
    ensures r.Some? ==>
              Representable(r.value) && r.value.year == reference.year - years && r.value.month == reference.month
              && r.value.day == Min(reference.day, DaysInMonth(r.value.year, r.value.month))
  {
    var year := reference.year - years;
    if !(MIN_YEAR <= year <= MAX_YEAR) then None
    else if reference.day <= DaysInMonth(year, reference.month) then Some(Date(year, reference.month, reference.day))
    else Some(Date(year, 2, 28))
  }

  function DayAfter(d: Date): (r: Option<Date>)
    requires Representable(d)
    ensures r.Some? ==> Representable(r.value)
  {
    if d == Date(MAX_YEAR, 12, 31) then None else Some(NextDay(d))
  }

  datatype Outcome = Accepts(yes: bool) | Overflow

  /** One profile against the filter. Overflow is the uncaught date error. */
  function Accepts(birth: Option<Date>, today: Date, minimum: Option<int>, maximum: Option<int>): Outcome
    requires Representable(today)
    requires birth.Some? ==> Representable(birth.value)
  {
    var swap := minimum.Some? && maximum.Some? && maximum.value < minimum.value;
    var low := if swap then maximum else minimum;
    var high := if swap then minimum else maximum;
    var youngest := if low.Some? then YearsAgo(today, low.value) else None;
    if low.Some? && youngest.None? then Overflow
    else
      var beforeOldest := if high.Some? then YearsAgo(today, high.value + 1) else None;
      if high.Some? && beforeOldest.None? then Overflow
      else
        var oldest := if high.Some? then DayAfter(beforeOldest.value) else None;
        if high.Some? && oldest.None? then Overflow
        else Outcome.Accepts(
               && (low.Some? ==> birth.Some? && !Before(youngest.value, birth.value))
               && (high.Some? ==> birth.Some? && !Before(birth.value, oldest.value)))
  }

  /** One bound: born on or before the date `years` ago is the same as being at least that old. */
  lemma AtLeastAge(birth: Date, today: Date, years: int)
    requires Representable(birth) && Representable(today) && YearsAgo(today, years).Some?
    ensures !Before(YearsAgo(today, years).value, birth) <==> years <= CalculateAge(birth, today)
  {
  }

  lemma NotBeforeNextDay(d: Date, b: Date)
    requires Valid(d) && Valid(b)
    ensures !Before(b, NextDay(d)) <==> Before(d, b)
  {
    hide DaysInMonth, MonthStart;
    NextDayOrdinal(d);
    OrdinalOrders(b, NextDay(d));
    OrdinalOrders(d, b);
  }

  predicate InBounds(age: int, minimum: Option<int>, maximum: Option<int>) {
    if minimum.Some? && maximum.Some? && maximum.value < minimum.value
    then maximum.value <= age <= minimum.value
    else (minimum.Some? ==> minimum.value <= age) && (maximum.Some? ==> age <= maximum.value)
  }

  /** Whenever the filter answers, it answers what the age says, leap days included; a profile with no
      birth date passes only an empty filter. */
  lemma FilterMatchesAge(birth: Option<Date>, today: Date, minimum: Option<int>, maximum: Option<int>)
    requires Representable(today)
    requires birth.Some? ==> Representable(birth.value)
    requires Accepts(birth, today, minimum, maximum).Accepts?
    ensures Accepts(birth, today, minimum, maximum).yes <==>
              if birth.Some? then InBounds(CalculateAge(birth.value, today), minimum, maximum)
              else minimum.None? && maximum.None?
  {
    hide DaysInMonth, NextDay, YearsAgo, CalculateAge;
    if birth.Some? {
      var swap := minimum.Some? && maximum.Some? && maximum.value < minimum.value;
      var low := if swap then maximum else minimum;
      var high := if swap then minimum else maximum;
      if low.Some? { AtLeastAge(birth.value, today, low.value); }
      if high.Some? {
        AtLeastAge(birth.value, today, high.value + 1);
        NotBeforeNextDay(YearsAgo(today, high.value + 1).value, birth.value);
      }
    }
  }

  /** The bounds on which it answers: each birth-date limit must fall in the representable years. */
  lemma FilterAnswers(birth: Option<Date>, today: Date, minimum: Option<int>, maximum: Option<int>)
    requires Representable(today)
    requires birth.Some? ==> Representable(birth.value)
    ensures
      var swap := minimum.Some? && maximum.Some? && maximum.value < minimum.value;
      var low := if swap then maximum else minimum;
      var high := if swap then minimum else maximum;
      Accepts(birth, today, minimum, maximum).Accepts? <==>
        && (low.Some? ==> MIN_YEAR <= today.year - low.value <= MAX_YEAR)
        && (high.Some? ==> MIN_YEAR <= today.year - (high.value + 1) <= MAX_YEAR
                           && !(today.year - (high.value + 1) == MAX_YEAR && today.month == 12 && today.day == 31))
  {
    hide NextDay;
  }

  /** It does not always answer: asked for profiles at least as old as the current year, it raises. */
  lemma FilterOverflows(birth: Option<Date>, today: Date)
    requires Representable(today)
    requires birth.Some? ==> Representable(birth.value)
    ensures Accepts(birth, today, Some(today.year), None) == Overflow
  {
  }
}
