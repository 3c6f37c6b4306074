/** The date-range resolver.

    An instant is a whole number of microseconds since 0001-01-01T00:00:00 UTC, which was a Monday, in the Gregorian
    calendar (section 3.2.1 of ISO 8601:2004); weeks begin on Monday (section 2.2.8 of ISO 8601:2004).  The
    representable instants are those of the years 1 to 9999. */
module Calendar {
  import opened Wrappers

  type Instant = int

  const DAY: int := 86_400_000_000

  // ----- Years and months -----

  predicate Leap(y: int) {
    y % 4 == 0 && (y % 100 != 0 || y % 400 == 0)
  }

  /** Days from 0001-01-01 to January 1st of year y. */
  function DaysBeforeYear(y: int): int {
    (y - 1) * 365 + (y - 1) / 4 - (y - 1) / 100 + (y - 1) / 400
  }

  function DaysInMonth(y: int, m: int): (n: int)
    requires 1 <= m <= 12
    ensures 28 <= n <= 31
  {
    if m == 2 then (if Leap(y) then 29 else 28)
    else if m in {4, 6, 9, 11} then 30
    else 31
  }

  /** Days from January 1st to the first of month m; m == 13 gives the length of the year. */
  function DaysBeforeMonth(y: int, m: int): (n: int)
    requires 1 <= m <= 13
    ensures 28 * (m - 1) <= n
  {
    if m == 1 then 0 else DaysBeforeMonth(y, m - 1) + DaysInMonth(y, m - 1)
  }

  lemma NextMultipleOf4(y: int)
    ensures y / 4 - (y - 1) / 4 == if y % 4 == 0 then 1 else 0
  {
  }

  lemma NextMultipleOf100(y: int)
    ensures y / 100 - (y - 1) / 100 == if y % 100 == 0 then 1 else 0
  {
  }

  lemma NextMultipleOf400(y: int)
    ensures y / 400 - (y - 1) / 400 == if y % 400 == 0 then 1 else 0
  {
  }

  lemma MultiplesNest(y: int)
    ensures y % 400 == 0 ==> y % 100 == 0
    ensures y % 100 == 0 ==> y % 4 == 0
  {
  }

  lemma LeapDays(y: int)
    ensures DaysBeforeYear(y + 1) == DaysBeforeYear(y) + (if Leap(y) then 366 else 365)
  {
    NextMultipleOf4(y);
    NextMultipleOf100(y);
    NextMultipleOf400(y);
    MultiplesNest(y);
  }

  lemma MonthsMakeAYear(y: int)
    ensures DaysBeforeMonth(y, 13) == if Leap(y) then 366 else 365
  {
    hide Leap;
    assert DaysBeforeMonth(y, 2) == 31;
    assert DaysBeforeMonth(y, 3) == if Leap(y) then 60 else 59;
    assert DaysBeforeMonth(y, 5) == DaysBeforeMonth(y, 3) + 61;
    assert DaysBeforeMonth(y, 7) == DaysBeforeMonth(y, 5) + 61;
    assert DaysBeforeMonth(y, 9) == DaysBeforeMonth(y, 7) + 62;
    assert DaysBeforeMonth(y, 11) == DaysBeforeMonth(y, 9) + 61;
    assert DaysBeforeMonth(y, 13) == DaysBeforeMonth(y, 11) + 61;
  }

  lemma YearLength(y: int)
    ensures DaysBeforeYear(y + 1) == DaysBeforeYear(y) + DaysBeforeMonth(y, 13)
    ensures DaysBeforeMonth(y, 13) == if y % 4 == 0 && (y % 100 != 0 || y % 400 == 0) then 366 else 365
  {
    LeapDays(y);
    MonthsMakeAYear(y);
  }

  /** The first day of a month without the table of lengths: in a year that begins with March the months take
      30.6 days each, rounded. */
  lemma {:induction false} MonthsByFormula(y: int, m: int)
    requires 1 <= m <= 12
    ensures DaysBeforeMonth(y, m) ==
            (367 * m - 362) / 12 +
            (if m <= 2 then 0 else if y % 4 == 0 && (y % 100 != 0 || y % 400 == 0) then -1 else -2)
  {
    if m > 1 { MonthsByFormula(y, m - 1); }
  }

  /** The calendar is that of the known dates: day 0 is 1 January of the year 1, 1 January 1970 came 719162 days later,
      1900 was no leap year and 2000 was one, and 1 January 2024 was a Monday. */
  lemma KnownDates()
    ensures DayNumber(1, 1, 1) == 0 && DayNumber(1970, 1, 1) == 719162
    ensures DayNumber(1900, 3, 1) == DayNumber(1900, 2, 28) + 1 && DayNumber(2000, 3, 1) == DayNumber(2000, 2, 29) + 1
    ensures DayNumber(2024, 1, 1) == 738885 && Weekday(738885 * DAY) == 0
  {
    hide DaysBeforeMonth;
    MonthsByFormula(1, 1);
    MonthsByFormula(1970, 1);
    MonthsByFormula(1900, 2);
    MonthsByFormula(1900, 3);
    MonthsByFormula(2000, 2);
    MonthsByFormula(2000, 3);
    MonthsByFormula(2024, 1);
  }

  lemma FourHundredMore(n: int)
    ensures (n + 400) / 4 == n / 4 + 100 && (n + 400) % 4 == n % 4
    ensures (n + 400) / 100 == n / 100 + 4 && (n + 400) % 100 == n % 100
    ensures (n + 400) / 400 == n / 400 + 1 && (n + 400) % 400 == n % 400
  {
  }

  /** And it repeats after 400 years, 97 of them leap years. */
  lemma RepeatsAfter400Years(y: int, m: int)
    requires 1 <= m <= 12
    ensures DaysBeforeYear(y + 400) == DaysBeforeYear(y) + 400 * 365 + 97
    ensures DaysInMonth(y + 400, m) == DaysInMonth(y, m)
  {
    FourHundredMore(y - 1);
    FourHundredMore(y);
  }

  function YearFrom(y: int, day: int): (year: int)
    requires y >= 1 && DaysBeforeYear(y) <= day
    ensures year >= y && DaysBeforeYear(year) <= day < DaysBeforeYear(year + 1)
    decreases day - DaysBeforeYear(y)
  {
    YearLength(y);
    if day < DaysBeforeYear(y + 1) then y else YearFrom(y + 1, day)
  }

  /** `datetime.year` of a day counted from 0001-01-01. */
  function YearOf(day: int): (year: int)
    requires day >= 0
    ensures year >= 1 && DaysBeforeYear(year) <= day < DaysBeforeYear(year + 1)
  {
    YearFrom(1, day)
  }

  function MonthFrom(y: int, m: int, dayOfYear: int): (month: int)
    requires 1 <= m <= 12 && DaysBeforeMonth(y, m) <= dayOfYear < DaysBeforeMonth(y, 13)
    ensures m <= month <= 12 && DaysBeforeMonth(y, month) <= dayOfYear < DaysBeforeMonth(y, month + 1)
    decreases 12 - m
  {
    if m == 12 || dayOfYear < DaysBeforeMonth(y, m + 1) then m else MonthFrom(y, m + 1, dayOfYear)
  }

  /** `datetime.month` */
  function MonthOf(day: int): (month: int)
    requires day >= 0
    ensures 1 <= month <= 12
    ensures var y := YearOf(day);
            DaysBeforeYear(y) + DaysBeforeMonth(y, month) <= day < DaysBeforeYear(y) + DaysBeforeMonth(y, month + 1)
  {
    YearLength(YearOf(day));
    MonthFrom(YearOf(day), 1, day - DaysBeforeYear(YearOf(day)))
  }

  /** The day of a date. */
  function DayNumber(y: int, m: int, d: int): int
    requires 1 <= m <= 12
  {
    DaysBeforeYear(y) + DaysBeforeMonth(y, m) + d - 1
  }

  const LAST_YEAR: int := 9999

  /** The first instant past the representable ones. */
  const LIMIT: Instant := 3652059 * DAY

  lemma LimitIsTheEndOfTheLastYear()
    ensures DaysBeforeYear(LAST_YEAR + 1) == 3652059
  {
  }

  // ----- The resolver -----

  /** From the first to the last instant, both included. */
  datatype Range = Range(first: Instant, last: Instant)

  datatype Expression = Today | Tomorrow | ThisWeek | NextWeek | ThisMonth | NextMonth | ExplicitRange

  /** A datetime as a caller passes it, without or with an offset from UTC. */
  datatype Stamp = Naive(local: Instant) | Aware(local: Instant, offset: int)

  predicate Representable(t: Instant) {
    0 <= t < LIMIT
  }

  function EnsureUtc(s: Stamp): Result<Instant> {
    if s.Naive? then Err(ValueError)
    else if Representable(s.local - s.offset) then Ok(s.local - s.offset)
    else Err(OverflowError)
  }

  /** `t + timedelta` */
  function Plus(t: Instant, delta: int): Result<Instant> {
    if Representable(t + delta) then Ok(t + delta) else Err(OverflowError)
  }

  function DayOf(t: Instant): int {
    t / DAY
  }

  function DayStart(t: Instant): Instant {
    DayOf(t) * DAY
  }

  function DayEnd(t: Instant): Instant {
    DayOf(t) * DAY + DAY - 1
  }

  function SameDayRange(t: Instant): Range {
    Range(DayStart(t), DayEnd(t))
  }

  /** `datetime.weekday()`: 0 on Monday. */
  function Weekday(t: Instant): int {
    DayOf(t) % 7
  }

  function WeekRange(ref: Instant, weeksOffset: nat): Result<Range> {
    match Plus(ref, -Weekday(ref) * DAY)
    case Err(e) => Err(e)
    case Ok(thisMonday) =>
      match Plus(thisMonday, 7 * weeksOffset * DAY)
      case Err(e) => Err(e)
      case Ok(monday) =>
        match Plus(monday, 6 * DAY)
        case Err(e) => Err(e)
        case Ok(sunday) => Ok(Range(DayStart(monday), DayEnd(sunday)))
  }

  function MonthRange(ref: Instant, monthsOffset: nat): Result<Range>
    requires Representable(ref)
  {
    var totalMonths := MonthOf(DayOf(ref)) - 1 + monthsOffset;
    var y := YearOf(DayOf(ref)) + totalMonths / 12;
    var m := totalMonths % 12 + 1;
    if y > LAST_YEAR then Err(ValueError)
    else Ok(Range(DayNumber(y, m, 1) * DAY, DayNumber(y, m, DaysInMonth(y, m)) * DAY + DAY - 1))
  }

  function ExplicitRangeOf(start: Option<Stamp>, end: Option<Stamp>): Result<Range> {
    if start.None? || end.None? then Err(ValueError)
    else
      match EnsureUtc(start.value)
      case Err(e) => Err(e)
      case Ok(first) =>
        match EnsureUtc(end.value)
        case Err(e) => Err(e)
        case Ok(last) => if first > last then Err(ValueError) else Ok(Range(first, last))
  }

  /** `resolve`, for a reference in UTC. */
  function ResolveAt(expression: Expression, start: Option<Stamp>, end: Option<Stamp>, ref: Instant): Result<Range>
    requires Representable(ref)
  {
    match expression
    case Today => Ok(SameDayRange(ref))
    case Tomorrow => (match Plus(ref, DAY) case Err(e) => Err(e) case Ok(tomorrow) => Ok(SameDayRange(tomorrow)))
    case ThisWeek => WeekRange(ref, 0)
    case NextWeek => WeekRange(ref, 1)
    case ThisMonth => MonthRange(ref, 0)
    case NextMonth => MonthRange(ref, 1)
    case ExplicitRange => ExplicitRangeOf(start, end)
  }

  /** `resolve`: the reference is given, or the current time. */
  function Resolve(expression: Expression, start: Option<Stamp>, end: Option<Stamp>, reference: Stamp): Result<Range> {
    match EnsureUtc(reference)
    case Err(e) => Err(e)
    case Ok(ref) => ResolveAt(expression, start, end, ref)
  }

  // ----- Days, weeks and months tile the time line -----

  datatype Period = Days | Weeks | Months

  /** The number of the period an instant lies in. */
  function Index(p: Period, t: Instant): int
    requires t >= 0
  {
    match p
    case Days => DayOf(t)
    case Weeks => DayOf(t) / 7
    case Months => YearOf(DayOf(t)) * 12 + MonthOf(DayOf(t)) - 1
  }

  function MonthStart(k: int): int {
    DayNumber(k / 12, k % 12 + 1, 1)
  }

  /** The first instant of a period. */
  function StartOf(p: Period, k: int): Instant {
    match p
    case Days => k * DAY
    case Weeks => 7 * k * DAY
    case Months => MonthStart(k) * DAY
  }

  lemma NextMonthStarts(k: int)
    ensures MonthStart(k + 1) == MonthStart(k) + DaysInMonth(k / 12, k % 12 + 1)
  {
    var y, m := k / 12, k % 12 + 1;
    if m == 12 {
      assert (k + 1) / 12 == y + 1 && (k + 1) % 12 == 0;
      YearLength(y);
      assert DaysBeforeMonth(y, 13) == DaysBeforeMonth(y, 12) + DaysInMonth(y, 12);
    } else {
      assert (k + 1) / 12 == y && (k + 1) % 12 == m;
    }
  }

  lemma {:induction false} StartsIncrease(p: Period, j: int, k: int)
    requires j < k
    ensures StartOf(p, j) < StartOf(p, k)
    decreases k - j
  {
    if p.Months? {
      NextMonthStarts(k - 1);
      if j < k - 1 { StartsIncrease(p, j, k - 1); }
    }
  }

  lemma MonthsFitYears(y: int, m: int)
    requires 1 <= m <= 12
    ensures (y * 12 + m - 1) / 12 == y && (y * 12 + m - 1) % 12 == m - 1
  {
  }

  lemma MonthFits(d: int)
    requires d >= 0
    ensures var k := YearOf(d) * 12 + MonthOf(d) - 1;
            MonthStart(k) <= d < MonthStart(k + 1)
  {
    hide YearOf, MonthOf, DaysBeforeYear, DaysInMonth;
    var y, m := YearOf(d), MonthOf(d);
    MonthsFitYears(y, m);
    NextMonthStarts(y * 12 + m - 1);
    assert DaysBeforeMonth(y, m + 1) == DaysBeforeMonth(y, m) + DaysInMonth(y, m);
  }

  lemma IndexFits(p: Period, t: Instant)
    requires t >= 0
    ensures StartOf(p, Index(p, t)) <= t < StartOf(p, Index(p, t) + 1)
  {
    hide YearOf, MonthOf, MonthStart;
    var d := DayOf(t);
    assert d * DAY <= t < d * DAY + DAY;
    match p
    case Days =>
    case Weeks => assert 7 * (d / 7) <= d < 7 * (d / 7) + 7;
    case Months => MonthFits(d);
  }

  /** Each instant lies in exactly one period, the one of its index, and the periods follow each other without gap. */
  lemma PeriodsTile(p: Period, t: Instant, k: int)
    requires t >= 0
    ensures StartOf(p, k) <= t < StartOf(p, k + 1) <==> k == Index(p, t)
  {
    hide *;
    IndexFits(p, t);
    var i := Index(p, t);
    if k < i {
      if k + 1 < i { StartsIncrease(p, k + 1, i); }
    } else if i < k {
      if i + 1 < k { StartsIncrease(p, i + 1, k); }
    }
  }

  // ----- What the resolver returns -----

  function This(p: Period): Expression {
    match p case Days => Today case Weeks => ThisWeek case Months => ThisMonth
  }

  function Following(p: Period): Expression {
    match p case Days => Tomorrow case Weeks => NextWeek case Months => NextMonth
  }

  function Whole(p: Period, k: int): Range {
    Range(StartOf(p, k), StartOf(p, k + 1) - 1)
  }

  function At(expression: Expression, ref: Instant): Result<Range>
    requires Representable(ref)
  {
    ResolveAt(expression, None, None, ref)
  }

  lemma {:induction false} YearsIncrease(y: int, z: int)
    requires y <= z
    ensures DaysBeforeYear(y) <= DaysBeforeYear(z)
    decreases z - y
  {
    if y < z {
      YearLength(z - 1);
      YearsIncrease(y, z - 1);
    }
  }

  /** A month ends by the limit exactly when its year is representable. */
  lemma MonthEndsByLimit(k: int)
    ensures MonthStart(k + 1) * DAY <= LIMIT <==> k / 12 <= LAST_YEAR
  {
    LimitIsTheEndOfTheLastYear();
    var y, m := k / 12, k % 12 + 1;
    NextMonthStarts(k);
    YearLength(y);
    if y <= LAST_YEAR {
      YearsIncrease(y + 1, LAST_YEAR + 1);
      assert DaysBeforeMonth(y, m + 1) == DaysBeforeMonth(y, m) + DaysInMonth(y, m);
      DaysLeftInYear(y, m + 1);
    } else {
      YearsIncrease(LAST_YEAR + 1, y);
    }
  }

  lemma {:induction false} DaysLeftInYear(y: int, m: int)
    requires 1 <= m <= 13
    ensures DaysBeforeMonth(y, m) <= DaysBeforeMonth(y, 13)
    decreases 13 - m
  {
    if m < 13 { DaysLeftInYear(y, m + 1); }
  }

  /** A result is the whole period k, or an error when that period ends past the year 9999. */
  predicate IsPeriod(r: Result<Range>, p: Period, k: int) {
    if StartOf(p, k + 1) <= LIMIT then r == Ok(Whole(p, k)) else r.Err?
  }

  /** THIS_x and NEXT_x are whole periods: those numbered `Index` and `Index + 1`.  A range is refused exactly when
      its period ends past the year 9999, as THIS_WEEK is in the last days of that year. */
  lemma ResolvesToWholePeriods(p: Period, ref: Instant)
    requires Representable(ref)
    ensures IsPeriod(At(This(p), ref), p, Index(p, ref))
    ensures IsPeriod(At(Following(p), ref), p, Index(p, ref) + 1)
  {
    hide IsPeriod, WeekRange, MonthRange, Index, Plus, SameDayRange;
    match p
    case Days => DayResolves(ref);
    case Weeks =>
      WeekResolves(ref, 0);
      WeekResolves(ref, 1);
    case Months =>
      MonthResolves(ref, 0);
      MonthResolves(ref, 1);
  }

  lemma DayResolves(ref: Instant)
    requires Representable(ref)
    ensures IsPeriod(At(Today, ref), Days, Index(Days, ref))
    ensures IsPeriod(At(Tomorrow, ref), Days, Index(Days, ref) + 1)
  {
    assert DayOf(ref + DAY) == DayOf(ref) + 1;
  }

  lemma DayFits(t: Instant)
    ensures DayOf(t) * DAY <= t < DayOf(t) * DAY + DAY
  {
  }

  lemma DayAt(d: int, rest: int)
    requires 0 <= rest < DAY
    ensures DayOf(d * DAY + rest) == d
  {
  }

  lemma WeekResolves(ref: Instant, offset: nat)
    requires Representable(ref) && offset <= 1
    ensures IsPeriod(WeekRange(ref, offset), Weeks, Index(Weeks, ref) + offset)
  {
    hide DayOf;
    DayFits(ref);
    var d, w := DayOf(ref), DayOf(ref) / 7;
    var rest, first := ref - d * DAY, 7 * (w + offset);
    assert d == 7 * w + d % 7;
    assert ref - Weekday(ref) * DAY == 7 * w * DAY + rest;
    DayAt(first, rest);
    DayAt(first + 6, rest);
  }

  lemma MonthResolves(ref: Instant, offset: nat)
    requires Representable(ref) && offset <= 1
    ensures IsPeriod(MonthRange(ref, offset), Months, Index(Months, ref) + offset)
  {
    hide YearOf, MonthOf, DaysBeforeYear, DaysBeforeMonth, DaysInMonth;
    var y, m := YearOf(DayOf(ref)), MonthOf(DayOf(ref));
    var k := y * 12 + m - 1 + offset;
    var total := m - 1 + offset;
    assert k / 12 == y + total / 12 && k % 12 == total % 12;
    MonthEndsByLimit(k);
    NextMonthStarts(k);
  }

  /** The number of the last period of the years 1 to 9999 that is whole. */
  function LastWhole(p: Period): int {
    match p case Days => 3652058 case Weeks => 521721 case Months => LAST_YEAR * 12 + 11
  }

  lemma LastPeriods()
    ensures DayNumber(LAST_YEAR, 12, 1) == 3652028 && MonthStart(LastWhole(Months)) == 3652028
    ensures MonthStart(LastWhole(Months) + 1) == 3652059
  {
    MonthsFitYears(LAST_YEAR, 12);
    NextMonthStarts(LastWhole(Months));
    MonthsMakeAYear(LAST_YEAR);
    assert DaysBeforeMonth(LAST_YEAR, 13) == DaysBeforeMonth(LAST_YEAR, 12) + 31;
    assert DaysBeforeYear(LAST_YEAR) == 3651694;
    hide DaysBeforeYear, DaysBeforeMonth;
  }

  lemma LastEndsInTime(p: Period)
    ensures StartOf(p, LastWhole(p) + 1) <= LIMIT < StartOf(p, LastWhole(p) + 2)
  {
    hide MonthStart;
    LastPeriods();
    if !p.Weeks? { StartsIncrease(p, LastWhole(p) + 1, LastWhole(p) + 2); }
  }

  lemma RefusedAfterTheLast(p: Period, r: Result<Range>, k: int)
    requires IsPeriod(r, p, k)
    ensures r.Err? <==> k > LastWhole(p)
  {
    hide StartOf, LastWhole;
    LastEndsInTime(p);
    if k < LastWhole(p) { StartsIncrease(p, k + 1, LastWhole(p) + 1); }
    if k > LastWhole(p) + 1 { StartsIncrease(p, LastWhole(p) + 2, k + 1); }
  }

  lemma IndexIsFrom(p: Period, t: Instant, k: int)
    requires t >= 0
    ensures Index(p, t) >= k <==> t >= StartOf(p, k)
  {
    hide *;
    IndexFits(p, t);
    var i := Index(p, t);
    if i < k && i + 1 < k { StartsIncrease(p, i + 1, k); }
    if k < i { StartsIncrease(p, k, i); }
  }

  /** The refusals by date: THIS_WEEK from 27 December 9999 on, a Monday, TODAY and THIS_MONTH never, TOMORROW from 31
      December on, NEXT_WEEK from 20 December on, and NEXT_MONTH from 1 December on. */
  lemma RefusedByDate(p: Period, ref: Instant)
    requires Representable(ref)
    ensures At(This(p), ref).Err? <==> p.Weeks? && ref >= DayNumber(LAST_YEAR, 12, 27) * DAY
    ensures var day := match p case Days => 31 case Weeks => 20 case Months => 1;
            At(Following(p), ref).Err? <==> ref >= DayNumber(LAST_YEAR, 12, day) * DAY
  {
    LastPeriods();
    ResolvesToWholePeriods(p, ref);
    hide At, IsPeriod, Index, MonthStart;
    RefusedAfterTheLast(p, At(This(p), ref), Index(p, ref));
    RefusedAfterTheLast(p, At(Following(p), ref), Index(p, ref) + 1);
    IndexIsFrom(p, ref, LastWhole(p) + 1);
    IndexIsFrom(p, ref, LastWhole(p));
  }

  lemma AprilOf2024()
    ensures DayNumber(2024, 4, 10) == 738985 && DayNumber(2024, 4, 11) == 738986
    ensures MonthStart(2024 * 12 + 3) == 738976 && MonthStart(2024 * 12 + 4) == 739006
  {
    hide DaysBeforeMonth;
    MonthsByFormula(2024, 4);
    MonthsByFormula(2024, 5);
  }

  lemma ThisIs(p: Period, ref: Instant, k: int)
    requires Representable(ref) && StartOf(p, k) <= ref < StartOf(p, k + 1) <= LIMIT
    ensures At(This(p), ref) == Ok(Range(StartOf(p, k), StartOf(p, k + 1) - 1))
  {
    hide At, StartOf, Index;
    PeriodsTile(p, ref, k);
    ResolvesToWholePeriods(p, ref);
  }

  /** 10 April 2024 was a Wednesday: its week is that of the 8th to the 14th, its month is that of 30 days. */
  lemma TenthOfApril(ref: Instant)
    requires DayNumber(2024, 4, 10) * DAY <= ref < DayNumber(2024, 4, 11) * DAY
    ensures DayNumber(2024, 4, 10) == 738985
    ensures Representable(ref) && At(Today, ref) == Ok(Range(738985 * DAY, 738986 * DAY - 1))
    ensures At(ThisWeek, ref) == Ok(Range(738983 * DAY, 738990 * DAY - 1))
    ensures At(ThisMonth, ref) == Ok(Range(738976 * DAY, 739006 * DAY - 1))
  {
    hide DayNumber, MonthStart, At;
    AprilOf2024();
    ThisIs(Days, ref, 738985);
    ThisIs(Weeks, ref, 105569);
    ThisIs(Months, ref, 2024 * 12 + 3);
  }

  /** An explicit range is refused without both ends, for an end without an offset or outside the years 1 to 9999, and
      when it ends before it begins; otherwise it is the range given, in UTC. */
  lemma ExplicitRangesExactly(start: Option<Stamp>, end: Option<Stamp>, ref: Instant)
    requires Representable(ref)
    ensures var r := ResolveAt(ExplicitRange, start, end, ref);
            if && start.Some? && end.Some? && start.value.Aware? && end.value.Aware?
               && 0 <= start.value.local - start.value.offset <= end.value.local - end.value.offset < LIMIT
            then r == Ok(Range(start.value.local - start.value.offset, end.value.local - end.value.offset))
            else r.Err?
  {
  }

  /** A reference without an offset is refused, and so is one outside the years 1 to 9999; every other one is taken as
      the instant it is. */
  lemma ReferencesExactly(expression: Expression, start: Option<Stamp>, end: Option<Stamp>, reference: Stamp)
    ensures var t := reference.local - if reference.Aware? then reference.offset else 0;
            if reference.Aware? && 0 <= t < LIMIT
            then Resolve(expression, start, end, reference) == ResolveAt(expression, start, end, t)
            else Resolve(expression, start, end, reference).Err?
  {
    hide ResolveAt;
  }

  /** THIS_x contains its reference, and is the same for every reference in it. */
  lemma ThisContainsItsReference(p: Period, ref: Instant, other: Instant)
    requires Representable(ref) && Representable(other) && At(This(p), ref).Ok?
    ensures var r := At(This(p), ref).value;
            && r.first <= ref <= r.last
            && (r.first <= other <= r.last <==> At(This(p), other) == Ok(r))
  {
    hide Index, StartOf, At;
    ResolvesToWholePeriods(p, ref);
    ResolvesToWholePeriods(p, other);
    PeriodsTile(p, ref, Index(p, ref));
    PeriodsTile(p, other, Index(p, ref));
    PeriodsTile(p, other, Index(p, other));
  }

  /** NEXT_x begins one microsecond after THIS_x ends, and is what THIS_x resolves to inside it. */
  lemma NextFollowsThis(p: Period, ref: Instant, other: Instant)
    requires Representable(ref) && Representable(other) && At(Following(p), ref).Ok?
    ensures At(This(p), ref).Ok?
    ensures var n := At(Following(p), ref).value;
            && n.first == At(This(p), ref).value.last + 1
            && (n.first <= other <= n.last <==> At(This(p), other) == Ok(n))
  {
    hide Index, StartOf, At;
    var k := Index(p, ref) + 1;
    ResolvesToWholePeriods(p, ref);
    StartsIncrease(p, k, k + 1);
    ResolvesToWholePeriods(p, other);
    PeriodsTile(p, other, k);
    PeriodsTile(p, other, Index(p, other));
  }

  lemma FirstStartsAtZero(p: Period)
    ensures StartOf(p, if p.Months? then 12 else 0) == 0
  {
    assert DaysBeforeYear(1) == 0 && DaysBeforeMonth(1, 1) == 0;
    hide DaysBeforeYear, DaysBeforeMonth;
    assert MonthStart(12) == DayNumber(1, 1, 1);
  }

  lemma PeriodsStartAtZero(p: Period, t: Instant)
    requires t >= 0
    ensures StartOf(p, Index(p, t)) >= 0
  {
    hide *;
    var first := if p.Months? then 12 else 0;
    FirstStartsAtZero(p);
    IndexFits(p, t);
    if first < Index(p, t) { StartsIncrease(p, first, Index(p, t)); }
    if Index(p, t) + 1 < first { StartsIncrease(p, Index(p, t) + 1, first); }
  }

  /** Passed back as an explicit range, whatever offsets from UTC its ends are written with, a resolved range is
      resolved to itself. */
  lemma ExplicitRangeGivesItBack(p: Period, following: bool, ref: Instant, other: Instant, offset: int, lastOffset: int)
    requires Representable(ref) && Representable(other)
    requires At(if following then Following(p) else This(p), ref).Ok?
    ensures var r := At(if following then Following(p) else This(p), ref).value;
            ResolveAt(ExplicitRange, Some(Aware(r.first + offset, offset)),
                      Some(Aware(r.last + lastOffset, lastOffset)), other)
              == Ok(r)
  {
    hide Index, StartOf, At;
    var k := Index(p, ref);
    ResolvesToWholePeriods(p, ref);
    PeriodsStartAtZero(p, ref);
    StartsIncrease(p, k, k + 1);
    StartsIncrease(p, k + 1, k + 2);
  }
}
