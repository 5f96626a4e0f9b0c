/** Days since the Unix epoch to a proleptic Gregorian date: the date stamp that
    the price-table build script writes. */
module Calendar {

  datatype Date = Date(year: int, month: int, day: int)

  // ---- The calendar itself (independent of the algorithm) ----

  predicate IsLeap(y: int) {
    y % 4 == 0 && (y % 100 != 0 || y % 400 == 0)
  }

  function MonthLength(y: int, m: int): int {
    if m == 2 then (if IsLeap(y) then 29 else 28)
    else if m == 4 || m == 6 || m == 9 || m == 11 then 30
    else 31
  }

  predicate Valid(d: Date) {
    1 <= d.month <= 12 && 1 <= d.day <= MonthLength(d.year, d.month)
  }

  /** The next day, by turning the calendar page. */
  function NextDay(d: Date): Date {
    if d.day < MonthLength(d.year, d.month) then d.(day := d.day + 1)
    else if d.month < 12 then Date(d.year, d.month + 1, 1)
    else Date(d.year + 1, 1, 1)
  }

  // ---- The algorithm ----

  const DAYS_TO_MARCH_YEAR_ZERO := 719_468
  const DAYS_PER_ERA := 146_097
  const SECS_PER_DAY := 86_400

  function YearOfEra(doe: int): int {
    (doe - doe / 1460 + doe / 36_524 - doe / 146_096) / 365
  }

  /** First day, within an era, of the March-based year yoe. */
  function EraYearStart(yoe: int): int {
    365 * yoe + yoe / 4 - yoe / 100
  }

  /** Day doy of the March-based year y, in civil terms. */
  function DateInMarchYear(y: int, doy: int): Date {
    var mp := (5 * doy + 2) / 153;
    var d := doy - (153 * mp + 2) / 5 + 1;
    var m := if mp < 10 then mp + 3 else mp - 9;
    Date(if m <= 2 then y + 1 else y, m, d)
  }

  function CivilFromDays(days: int): Date {
    var z := days + DAYS_TO_MARCH_YEAR_ZERO;
    var era := z / DAYS_PER_ERA;
    var doe := z % DAYS_PER_ERA;
    var yoe := YearOfEra(doe);
    DateInMarchYear(yoe + era * 400, doe - EraYearStart(yoe))
  }

  function Today(secsSinceEpoch: int): Date {
    CivilFromDays(secsSinceEpoch / SECS_PER_DAY)
  }

  // ---- The standard count of days ----

  /** Leap years in 1..y (negative y: minus those in y+1..0). */
  function LeapYearsThrough(y: int): int {
    y / 4 - y / 100 + y / 400
  }

  /** Day number of 1 January of year y. */
  function YearStart(y: int): int {
    365 * y + LeapYearsThrough(y - 1) - 719_527
  }

  /** Days of year y before month m. */
  function DaysBeforeMonth(y: int, m: int): int
    decreases m
  {
    if m <= 1 then 0 else DaysBeforeMonth(y, m - 1) + MonthLength(y, m - 1)
  }

  function DaysFromCivil(d: Date): int {
    YearStart(d.year) + DaysBeforeMonth(d.year, d.month) + d.day - 1
  }

  // ---- Proofs ----

  lemma Quotient(n: int, d: int, q: int)
    requires 0 < d && d * q <= n < d * q + d
    ensures n / d == q
  {
    if n / d < q {
      NextMultiple(d, n / d, q);
    } else if q < n / d {
      NextMultiple(d, q, n / d);
    }
  }

  lemma NextMultiple(d: int, a: int, b: int)
    requires 0 < d && a < b
    ensures d * a + d <= d * b
  {
    assert d * (b - a - 1) == d * b - d * a - d;
  }

  /** Where the year lies in its era: c centuries of 36524 days, then q groups of
      1461 days, then t years of 365, then u days. */
  predicate Parts(c: int, q: int, t: int, u: int) {
    && 0 <= c <= 3 && 0 <= q <= 24 && 0 <= t <= 3
    && (0 <= u < 365 || (t == 3 && u == 365 && q < 24))
  }

  lemma PartsOfEra(doe: int) returns (c: int, q: int, t: int, u: int)
    requires 0 <= doe < 146_096
    ensures Parts(c, q, t, u) && doe == 36_524 * c + 1461 * q + 365 * t + u
  {
    c := doe / 36_524;
    var r := doe - 36_524 * c;
    q := r / 1461;
    var s := r - 1461 * q;
    t := if s == 1460 then 3 else s / 365;
    u := s - 365 * t;
  }

  lemma EraYearStartByParts(c: int, q: int, t: int)
    requires 0 <= c <= 4 && 0 <= q <= 24 && 0 <= t <= 3
    ensures EraYearStart(100 * c + 4 * q + t) == 36_524 * c + 1461 * q + 365 * t
  {
    Quotient(100 * c + 4 * q + t, 4, 25 * c + q);
    Quotient(100 * c + 4 * q + t, 100, c);
  }

  lemma NextEraYearStart(c: int, q: int, t: int)
    requires 0 <= c <= 3 && 0 <= q <= 24 && 0 <= t <= 3
    ensures EraYearStart(100 * c + 4 * q + t + 1)
            == 36_524 * c + 1461 * q + 365 * t + (if t == 3 && q < 24 then 366 else 365)
  {
    if t < 3 {
      EraYearStartByParts(c, q, t + 1);
    } else if q < 24 {
      EraYearStartByParts(c, q + 1, 0);
    } else {
      EraYearStartByParts(c + 1, 0, 0);
    }
  }

  lemma YearOfEraByParts(c: int, q: int, t: int, u: int)
    requires Parts(c, q, t, u)
    ensures YearOfEra(36_524 * c + 1461 * q + 365 * t + u) == 100 * c + 4 * q + t
  {
    var doe := 36_524 * c + 1461 * q + 365 * t + u;
    var e := if q + 365 * t + u + 24 * c >= 1460 then 1 else 0;
    Quotient(doe, 36_524, c);
    Quotient(doe, 1460, 25 * c + q + e);
    Quotient(doe, 146_096, 0);
    YearOfCorrectedDays(c, q, t, u, e);
  }

  lemma YearOfCorrectedDays(c: int, q: int, t: int, u: int, e: int)
    requires Parts(c, q, t, u)
    requires e == if q + 365 * t + u + 24 * c >= 1460 then 1 else 0
    ensures (36_524 * c + 1461 * q + 365 * t + u - (25 * c + q + e) + c) / 365 == 100 * c + 4 * q + t
  {
    var y := 100 * c + 4 * q + t;
    assert 365 * y + u - e == 36_524 * c + 1461 * q + 365 * t + u - (25 * c + q + e) + c;
    Quotient(365 * y + u - e, 365, y);
  }

  /** The corrected division finds the year whose span holds the day: the last
      year of an era is one day longer than its closed form says. */
  lemma YearOfEraFindsItsYear(doe: int)
    requires 0 <= doe < DAYS_PER_ERA
    ensures 0 <= YearOfEra(doe) < 400
    ensures EraYearStart(YearOfEra(doe)) <= doe
    ensures doe < EraYearStart(YearOfEra(doe) + 1) || (YearOfEra(doe) == 399 && doe == 146_096)
  {
    if doe < 146_096 {
      hide YearOfEra, EraYearStart;
      var c, q, t, u := PartsOfEra(doe);
      YearOfEraByParts(c, q, t, u);
      EraYearStartByParts(c, q, t);
      NextEraYearStart(c, q, t);
    }
  }

  /** Months counted from March have a closed form for the days before them. */
  lemma DaysBeforeMonthTable(y: int)
    ensures var leap := if IsLeap(y) then 1 else 0;
            && DaysBeforeMonth(y, 1) == 0 && DaysBeforeMonth(y, 2) == 31
            && DaysBeforeMonth(y, 3) == 59 + leap && DaysBeforeMonth(y, 4) == 90 + leap
            && DaysBeforeMonth(y, 5) == 120 + leap && DaysBeforeMonth(y, 6) == 151 + leap
            && DaysBeforeMonth(y, 7) == 181 + leap && DaysBeforeMonth(y, 8) == 212 + leap
            && DaysBeforeMonth(y, 9) == 243 + leap && DaysBeforeMonth(y, 10) == 273 + leap
            && DaysBeforeMonth(y, 11) == 304 + leap && DaysBeforeMonth(y, 12) == 334 + leap
            && DaysBeforeMonth(y, 13) == 365 + leap
  {
    var d := m => DaysBeforeMonth(y, m);
    assert d(3) == d(2) + MonthLength(y, 2) && d(2) == d(1) + MonthLength(y, 1);
    assert d(5) == d(4) + MonthLength(y, 4) && d(4) == d(3) + MonthLength(y, 3);
    assert d(7) == d(6) + MonthLength(y, 6) && d(6) == d(5) + MonthLength(y, 5);
    assert d(9) == d(8) + MonthLength(y, 8) && d(8) == d(7) + MonthLength(y, 7);
    assert d(11) == d(10) + MonthLength(y, 10) && d(10) == d(9) + MonthLength(y, 9);
    assert d(13) == d(12) + MonthLength(y, 12) && d(12) == d(11) + MonthLength(y, 11);
  }

  lemma LeapYearsStep(y: int)
    ensures LeapYearsThrough(y) == LeapYearsThrough(y - 1) + (if IsLeap(y) then 1 else 0)
  {
    hide IsLeap;
    FloorStep(y, 4);
    FloorStep(y, 100);
    FloorStep(y, 400);
    LeapByDivisors(y);
  }

  lemma FloorStep(y: int, k: int)
    requires k > 0
    ensures y / k == (y - 1) / k + (if y % k == 0 then 1 else 0)
  {
    var q, r := y / k, y % k;
    if r == 0 {
      assert k * (q - 1) == k * q - k;
      Quotient(y - 1, k, q - 1);
    } else {
      Quotient(y - 1, k, q);
    }
  }

  lemma LeapByDivisors(y: int)
    ensures (if IsLeap(y) then 1 else 0)
            == (if y % 4 == 0 then 1 else 0) - (if y % 100 == 0 then 1 else 0) + (if y % 400 == 0 then 1 else 0)
  {
    if y % 100 == 0 {
      Quotient(y, 4, 25 * (y / 100));
    }
    if y % 400 == 0 {
      Quotient(y, 100, 4 * (y / 400));
    }
  }

  lemma YearLength(y: int)
    ensures YearStart(y + 1) == YearStart(y) + (if IsLeap(y) then 366 else 365)
  {
    hide IsLeap, LeapYearsThrough;
    LeapYearsStep(y);
  }

  /** Months counted from March start on days 0, 31, 61, ... of the March-based
      year, which is what the 153-days-in-five-months rule yields. */
  lemma MarchMonths(doy: int)
    requires 0 <= doy <= 365
    ensures var mp := (5 * doy + 2) / 153;
            && 0 <= mp <= 11
            && (153 * mp + 2) / 5 <= doy
            && (mp < 11 ==> doy < (153 * (mp + 1) + 2) / 5)
  {
    var mp := (5 * doy + 2) / 153;
    assert mp == 0 || mp == 1 || mp == 2 || mp == 3 || mp == 4 || mp == 5
        || mp == 6 || mp == 7 || mp == 8 || mp == 9 || mp == 10 || mp == 11;
  }

  /** Within March-based year y, day doy is the date the algorithm names. */
  lemma DayOfMarchYear(y: int, doy: int)
    requires 0 <= doy <= 364 || (doy == 365 && IsLeap(y + 1))
    ensures var date := DateInMarchYear(y, doy);
            && Valid(date)
            && date.year == (if doy < 306 then y else y + 1)
            && DaysBeforeMonth(date.year, date.month) + date.day - 1
               == (if doy < 306 then doy + 59 + (if IsLeap(y) then 1 else 0) else doy - 306)
  {
    MarchMonths(doy);
    DaysBeforeMonthTable(y);
    DaysBeforeMonthTable(y + 1);
    var mp := (5 * doy + 2) / 153;
    assert mp == 0 || mp == 1 || mp == 2 || mp == 3 || mp == 4 || mp == 5
        || mp == 6 || mp == 7 || mp == 8 || mp == 9 || mp == 10 || mp == 11;
  }

  lemma DayNumberInMarchYear(era: int, yoe: int, doy: int)
    requires 0 <= yoe < 400
    requires 0 <= doy <= 364 || (doy == 365 && IsLeap(yoe + era * 400 + 1))
    ensures DaysFromCivil(DateInMarchYear(yoe + era * 400, doy))
            == era * DAYS_PER_ERA + EraYearStart(yoe) + doy - DAYS_TO_MARCH_YEAR_ZERO
  {
    hide DateInMarchYear, YearStart, EraYearStart, IsLeap, Valid, DaysBeforeMonth;
    MarchYearStart(era, yoe);
    DayOfMarchYear(yoe + era * 400, doy);
  }

  /** Main result: every day number gives a real date, and counting days back
      from that date gives the day number again. */
  lemma CivilFromDaysIsExact(z: int)
    ensures Valid(CivilFromDays(z))
    ensures DaysFromCivil(CivilFromDays(z)) == z
  {
    hide DateInMarchYear, YearOfEra, EraYearStart, IsLeap, Valid, DaysFromCivil;
    var day := z + DAYS_TO_MARCH_YEAR_ZERO;
    var era, doe := day / DAYS_PER_ERA, day % DAYS_PER_ERA;
    var yoe := YearOfEra(doe);
    var doy := doe - EraYearStart(yoe);
    YearOfEraFindsItsYear(doe);
    MarchYearLength(era, yoe);
    DayOfMarchYear(yoe + era * 400, doy);
    DayNumberInMarchYear(era, yoe, doy);
  }

  lemma LeapYearsByEra(era: int, yoe: int)
    requires 0 <= yoe < 400
    ensures LeapYearsThrough(yoe + era * 400) == 97 * era + yoe / 4 - yoe / 100
  {
    var q, h := yoe / 4, yoe / 100;
    Quotient(yoe + era * 400, 4, q + era * 100);
    Quotient(yoe + era * 400, 100, h + era * 4);
    Quotient(yoe + era * 400, 400, era);
  }

  /** 1 March of a year, counted from the epoch. */
  lemma MarchYearStart(era: int, yoe: int)
    requires 0 <= yoe < 400
    ensures var y := yoe + era * 400;
            && YearStart(y) + 59 + (if IsLeap(y) then 1 else 0)
               == era * DAYS_PER_ERA + EraYearStart(yoe) - DAYS_TO_MARCH_YEAR_ZERO
            && YearStart(y + 1) == era * DAYS_PER_ERA + EraYearStart(yoe) + 306 - DAYS_TO_MARCH_YEAR_ZERO
  {
    hide IsLeap, LeapYearsThrough;
    LeapYearsByEra(era, yoe);
    LeapYearsStep(yoe + era * 400);
  }

  /** A March-based year is long exactly when the February inside it, which
      belongs to the next calendar year, has 29 days. */
  lemma MarchYearLength(era: int, yoe: int)
    requires 0 <= yoe < 400
    ensures IsLeap(yoe + era * 400 + 1) <==> (yoe == 399 || EraYearStart(yoe + 1) == EraYearStart(yoe) + 366)
    ensures EraYearStart(yoe + 1) == EraYearStart(yoe) + 365 || EraYearStart(yoe + 1) == EraYearStart(yoe) + 366
    ensures EraYearStart(399) == 145_731
  {
    hide IsLeap, LeapYearsThrough;
    LeapYearsStep(yoe + era * 400 + 1);
    LeapYearsByEra(era, yoe);
    if yoe < 399 {
      LeapYearsByEra(era, yoe + 1);
    } else {
      LeapYearsByEra(era + 1, 0);
    }
  }

  lemma DaysFromCivilIsInjective(a: Date, b: Date)
    requires Valid(a) && Valid(b) && DaysFromCivil(a) == DaysFromCivil(b)
    ensures a == b
  {
    hide IsLeap, YearStart;
    DaysBeforeMonthTable(a.year);
    DaysBeforeMonthTable(b.year);
    YearLength(a.year);
    YearLength(b.year);
    if a.year < b.year {
      YearStartMonotone(a.year + 1, b.year);
    } else if b.year < a.year {
      YearStartMonotone(b.year + 1, a.year);
    }
  }

  lemma YearStartMonotone(a: int, b: int)
    requires a <= b
    ensures YearStart(a) <= YearStart(b)
    decreases b - a
  {
    if a < b {
      YearLength(a);
      YearStartMonotone(a + 1, b);
    }
  }

  /** The other half of the bijection: each real date is produced from its own
      day number, and from no other. */
  lemma EveryDateIsProduced(d: Date)
    requires Valid(d)
    ensures CivilFromDays(DaysFromCivil(d)) == d
  {
    CivilFromDaysIsExact(DaysFromCivil(d));
    DaysFromCivilIsInjective(CivilFromDays(DaysFromCivil(d)), d);
  }

  lemma NextDayCountsOne(d: Date)
    requires Valid(d)
    ensures Valid(NextDay(d)) && DaysFromCivil(NextDay(d)) == DaysFromCivil(d) + 1
  {
    DaysBeforeMonthTable(d.year);
    DaysBeforeMonthTable(d.year + 1);
    YearLength(d.year);
  }

  lemma EpochDay()
    ensures CivilFromDays(0) == Date(1970, 1, 1)
  {
  }

  /** Main result: from 1970-01-01 on and before it, one more day turns exactly
      one page of the calendar. */
  lemma DaysFollowTheCalendar(z: int)
    ensures CivilFromDays(z + 1) == NextDay(CivilFromDays(z))
  {
    hide CivilFromDays, DaysFromCivil, NextDay, Valid;
    var d := CivilFromDays(z);
    CivilFromDaysIsExact(z);
    NextDayCountsOne(d);
    EveryDateIsProduced(NextDay(d));
  }

  /** The date stamp is the date whose day number is the number of whole days passed, so
      two instants get the same one exactly when they lie in the same UTC day, it never
      runs backwards, and a day later it is the next. */
  lemma TodayIsTheUtcDay(a: int, b: int)
    ensures Valid(Today(a)) && DaysFromCivil(Today(a)) == a / 86_400
    ensures Today(a) == Today(b) <==> a / SECS_PER_DAY == b / SECS_PER_DAY
    ensures a <= b ==> DaysFromCivil(Today(a)) <= DaysFromCivil(Today(b))
    ensures Today(a + SECS_PER_DAY) == NextDay(Today(a))
  {
    hide CivilFromDays, DaysFromCivil, NextDay, Valid;
    DaysFollowTheCalendar(a / SECS_PER_DAY);
    CivilFromDaysIsExact(a / SECS_PER_DAY);
    CivilFromDaysIsExact(b / SECS_PER_DAY);
  }
}
