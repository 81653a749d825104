/**
 * Gregorian calendar date <-> day number, as computed by python/date_algo.py.
 *
 * The source is Python 2, where `/` on integers is floor division and `%` is
 * the floor remainder. Every divisor in the algorithm is a positive constant,
 * and for a positive divisor floor division coincides with Dafny's Euclidean
 * `/` and `%`, so the functions below are exact for every integer argument.
 *
 * Both functions work with a "March-based" year: months are shifted so that
 * March is month 0 and February month 11, which puts the leap day at the very
 * end of the year. Day number 0 is March 1 of March-based year 0.
 */
module DateAlgo {

  /** A calendar date: year, month 1..12, day of month. */
  datatype Date = Date(year: int, month: int, day: int)

  // ---------------------------------------------------------------------------
  // Reference definitions: the Gregorian calendar
  // ---------------------------------------------------------------------------

  /** The Gregorian leap rule: every 4th year, except centuries not divisible by 400. */
  predicate IsLeapYear(y: int) {
    y % 4 == 0 && (y % 100 != 0 || y % 400 == 0)
  }

  function DaysInMonth(y: int, m: int): (n: int)
    requires 1 <= m <= 12
    ensures 28 <= n <= 31
    ensures n == 29 <==> m == 2 && IsLeapYear(y)
  {
    if m == 2 then (if IsLeapYear(y) then 29 else 28)
    else if m == 4 || m == 6 || m == 9 || m == 11 then 30
    else 31
  }

  predicate ValidDate(dt: Date) {
    1 <= dt.month <= 12 && 1 <= dt.day <= DaysInMonth(dt.year, dt.month)
  }

  // ---------------------------------------------------------------------------
  // The algorithm
  // ---------------------------------------------------------------------------

  /** Day number of March 1 of March-based year `y`: 365 days a year plus the leap days before it. */
  function YearStart(y: int): int {
    365 * y + y / 4 - y / 100 + y / 400
  }

  /** Days from March 1 to the first day of March-based month `mi` (0 = March, ..., 11 = February). */
  function MonthOffset(mi: int): int {
    (mi * 306 + 5) / 10
  }

  /** `g(y, m, d)`: the day number of a date. */
  function DayNumber(dt: Date): int {
    var m := (dt.month + 9) % 12;
    var y := dt.year - m / 10;
    YearStart(y) + MonthOffset(m) + (dt.day - 1)
  }

  /** The year estimate on the first line of `d`. */
  function EstimatedYear(g: int): int {
    (10000 * g + 14780) / 3652425
  }

  /** The March-based year and day of year that `d` settles on after its single correction step. */
  function YearAndDayOfYear(g: int): (r: (int, int))
    ensures r.1 == g - YearStart(r.0)
  {
    var y := EstimatedYear(g);
    var ddd := g - YearStart(y);
    if ddd < 0 then (y - 1, g - YearStart(y - 1)) else (y, ddd)
  }

  /** `d(g)`: the date of a day number. */
  function FromDayNumber(g: int): (r: Date)
    ensures 1 <= r.month <= 12
  {
    var (y, ddd) := YearAndDayOfYear(g);
    var mi := (100 * ddd + 52) / 3060;
    var mm := (mi + 2) % 12 + 1;
    Date(y + (mi + 2) / 12, mm, ddd - MonthOffset(mi) + 1)
  }

  // ---------------------------------------------------------------------------
  // Properties of `g`
  // ---------------------------------------------------------------------------

  /** January and February are months 10 and 11 of the previous March-based year; March..December are 0..9. */
  lemma MarchBasedShift(dt: Date)
    requires 1 <= dt.month <= 12
    ensures dt.month >= 3 ==> DayNumber(dt) == YearStart(dt.year) + MonthOffset(dt.month - 3) + dt.day - 1
    ensures dt.month < 3 ==> DayNumber(dt) == YearStart(dt.year - 1) + MonthOffset(dt.month + 9) + dt.day - 1
  {
    if dt.month >= 3 {
      assert (dt.month + 9) % 12 == dt.month - 3 && (dt.month - 3) / 10 == 0;
    } else {
      assert (dt.month + 9) % 12 == dt.month + 9 && (dt.month + 9) / 10 == 1;
    }
  }

  /** March 1 of year `y` is day `365*y + y/4 - y/100 + y/400`. */
  lemma MarchFirst(y: int)
    ensures DayNumber(Date(y, 3, 1)) == 365 * y + y / 4 - y / 100 + y / 400
  {
  }

  /** Consecutive days of one month get consecutive day numbers. */
  lemma NextDayInMonth(y: int, m: int, d: int)
    ensures DayNumber(Date(y, m, d + 1)) == DayNumber(Date(y, m, d)) + 1
  {
  }

  /** The length of March-based year `y` is 366 exactly when the February it ends with (in year y+1) is a leap February. */
  lemma YearLength(y: int)
    ensures YearStart(y + 1) - YearStart(y) == if IsLeapYear(y + 1) then 366 else 365
  {
    var z := y + 1;
    assert (z / 4) - (y / 4) == if z % 4 == 0 then 1 else 0;
    assert (z / 100) - (y / 100) == if z % 100 == 0 then 1 else 0;
    assert (z / 400) - (y / 400) == if z % 400 == 0 then 1 else 0;
    if z % 400 == 0 {
      assert z == 100 * (4 * (z / 400));
      assert z == 4 * (100 * (z / 400));
    } else if z % 100 == 0 {
      assert z == 4 * (25 * (z / 100));
    }
  }

  /** The last day of February is followed by March 1 (the leap day included when there is one). */
  lemma EndOfFebruary(y: int)
    ensures DayNumber(Date(y, 3, 1)) == DayNumber(Date(y, 2, DaysInMonth(y, 2))) + 1
  {
    var n := DaysInMonth(y, 2);
    MarchBasedShift(Date(y, 3, 1));
    MarchBasedShift(Date(y, 2, n));
    assert MonthOffset(11) == 337;
    YearLength(y - 1);
  }

  /** December 31 is followed by January 1 of the next year. */
  lemma EndOfYear(y: int)
    ensures DayNumber(Date(y + 1, 1, 1)) == DayNumber(Date(y, 12, 31)) + 1
  {
  }

  // ---------------------------------------------------------------------------
  // Properties of `d`
  // ---------------------------------------------------------------------------

  /** The estimate is never more than one year too high, nor too low: after the one correction step
      the day of year is non-negative and smaller than the length of the year. */
  lemma DayOfYearInRange(g: int)
    ensures var (y, ddd) := YearAndDayOfYear(g);
            0 <= ddd < YearStart(y + 1) - YearStart(y)
  {
    var e := EstimatedYear(g);
    YearStartApprox(e - 1);
    YearStartApprox(e);
    YearStartApprox(e + 1);
  }

  /** `d` inverts `g` on every valid Gregorian date. */
  lemma RoundTrip(dt: Date)
    requires ValidDate(dt)
    ensures FromDayNumber(DayNumber(dt)) == dt
  {
    var g := DayNumber(dt);
    var mi := (dt.month + 9) % 12;
    var y := dt.year - mi / 10;
    var ddd := MonthOffset(mi) + dt.day - 1;
    DayOfYearOfDate(dt);
    YearOf(g, y);
    DateOf(g, y, ddd, mi);
    DateOfParts(dt, mi);
  }

  /** `d` reassembles a date from its March-based month, year and day of year. */
  lemma DateOfParts(dt: Date, mi: int)
    requires 1 <= dt.month <= 12 && mi == (dt.month + 9) % 12
    ensures var y, ddd := dt.year - mi / 10, MonthOffset(mi) + dt.day - 1;
            Date(y + (mi + 2) / 12, (mi + 2) % 12 + 1, ddd - MonthOffset(mi) + 1) == dt
  {
    MonthShiftInverse(dt.month);
  }

  /** A valid date is day `ddd` of its March-based year, within that year's length, and `d`'s month
      estimate finds its month from `ddd`. */
  lemma DayOfYearOfDate(dt: Date)
    requires ValidDate(dt)
    ensures var mi := (dt.month + 9) % 12;
            var y := dt.year - mi / 10;
            var ddd := MonthOffset(mi) + dt.day - 1;
            && DayNumber(dt) == YearStart(y) + ddd
            && 0 <= ddd < YearStart(y + 1) - YearStart(y)
            && (100 * ddd + 52) / 3060 == mi
  {
    var mi := (dt.month + 9) % 12;
    var y := dt.year - mi / 10;
    DayNumberIs(dt, mi, y);
    MonthShiftInverse(dt.month);
    MarchMonthOfDate(mi, y);
    assert y + (mi + 2) / 12 == dt.year && (mi + 2) % 12 + 1 == dt.month;
    assert dt.day <= MarchMonthLength(mi, IsLeapYear(y + 1));
    MonthOfDay(mi, dt.day, IsLeapYear(y + 1));
    YearLength(y);
  }

  lemma DayNumberIs(dt: Date, mi: int, y: int)
    requires mi == (dt.month + 9) % 12 && y == dt.year - mi / 10
    ensures DayNumber(dt) == YearStart(y) + MonthOffset(mi) + dt.day - 1
  {
  }

  /** Shifting a month to March-based and back gives the month and the year correction back. */
  lemma MonthShiftInverse(m: int)
    requires 1 <= m <= 12
    ensures var mi := (m + 9) % 12;
            0 <= mi < 12 && (mi + 2) % 12 + 1 == m && (mi + 2) / 12 == mi / 10
  {
  }

  /** The March-based year `d` settles on is the one whose days contain `g`. */
  lemma YearOf(g: int, y: int)
    requires YearStart(y) <= g < YearStart(y + 1)
    ensures YearAndDayOfYear(g) == (y, g - YearStart(y))
  {
    DayOfYearInRange(g);
    YearUnique(g, y, YearAndDayOfYear(g).0);
  }

  /** Once the year and the month index are known, `d` assembles the date from them. */
  lemma DateOf(g: int, y: int, ddd: int, mi: int)
    requires YearAndDayOfYear(g) == (y, ddd)
    requires (100 * ddd + 52) / 3060 == mi
    ensures FromDayNumber(g) == Date(y + (mi + 2) / 12, (mi + 2) % 12 + 1, ddd - MonthOffset(mi) + 1)
  {
  }

  /** Every day number names a valid date, and `g` maps that date back to the day number. */
  lemma InverseRoundTrip(g: int)
    ensures ValidDate(FromDayNumber(g))
    ensures DayNumber(FromDayNumber(g)) == g
  {
    DayOfYearInRange(g);
    var (y, ddd) := YearAndDayOfYear(g);
    YearLength(y);
    DayOfMonth(ddd, IsLeapYear(y + 1));
    var mi := (100 * ddd + 52) / 3060;
    DateOf(g, y, ddd, mi);
    FromDayNumberValid(g, y, ddd, mi);
    FromDayNumberBack(g, y, ddd, mi);
  }

  /** The date `d` assembles from year `y`, day of year `ddd` and month index `mi` is day `g` again. */
  lemma FromDayNumberBack(g: int, y: int, ddd: int, mi: int)
    requires 0 <= mi < 12 && ddd == g - YearStart(y)
    requires FromDayNumber(g) == Date(y + (mi + 2) / 12, (mi + 2) % 12 + 1, ddd - MonthOffset(mi) + 1)
    ensures DayNumber(FromDayNumber(g)) == g
  {
    DayNumberOfMarchMonth(y, mi, ddd - MonthOffset(mi) + 1);
  }

  /** The date `d` assembles from a month index and a day in range is a valid date. */
  lemma FromDayNumberValid(g: int, y: int, ddd: int, mi: int)
    requires 0 <= mi < 12 && 1 <= ddd - MonthOffset(mi) + 1 <= MarchMonthLength(mi, IsLeapYear(y + 1))
    requires FromDayNumber(g) == Date(y + (mi + 2) / 12, (mi + 2) % 12 + 1, ddd - MonthOffset(mi) + 1)
    ensures ValidDate(FromDayNumber(g))
  {
    MarchMonthOfDate(mi, y);
  }

  /** A day of March-based month `mi` of year `y`, written as the calendar date `d` assembles,
      has the day number `g` gives it. */
  lemma DayNumberOfMarchMonth(y: int, mi: int, day: int)
    requires 0 <= mi < 12
    ensures DayNumber(Date(y + (mi + 2) / 12, (mi + 2) % 12 + 1, day)) == YearStart(y) + MonthOffset(mi) + day - 1
  {
    MarchMonthOfDate(mi, y);
  }

  /** The calendar month and year that March-based month `mi` of year `y` falls in have the month length used by `d`. */
  lemma MarchMonthOfDate(mi: int, y: int)
    requires 0 <= mi < 12
    ensures var m := (mi + 2) % 12 + 1;
            var cy := y + (mi + 2) / 12;
            1 <= m <= 12 && (m + 9) % 12 == mi && cy - mi / 10 == y
            && DaysInMonth(cy, m) == MarchMonthLength(mi, IsLeapYear(y + 1))
  {
  }

  /** `g` is injective on valid dates: different dates have different day numbers. */
  lemma DayNumberInjective(a: Date, b: Date)
    requires ValidDate(a) && ValidDate(b)
    requires DayNumber(a) == DayNumber(b)
    ensures a == b
  {
    RoundTrip(a);
    RoundTrip(b);
  }

  // ---------------------------------------------------------------------------
  // Arithmetic helpers
  // ---------------------------------------------------------------------------

  /** 10000 * YearStart(y) stays within a narrow band around 3652425 * y (400 years are 146097 days). */
  lemma YearStartApprox(y: int)
    ensures 3652425 * y - 14775 <= 10000 * YearStart(y) <= 3652425 * y + 7200
  {
    var q := y / 400;
    var r := y % 400;
    var c := r / 100;
    var b := (r % 100) / 4;
    var a := (r % 100) % 4;
    assert y == 400 * q + 100 * c + 4 * b + a;
    assert y / 4 == 100 * q + 25 * c + b;
    assert y / 100 == 4 * q + c;
    assert YearStart(y) == 146097 * q + 36524 * c + 1461 * b + 365 * a;
  }

  /** Year starts strictly increase. */
  lemma YearStartMonotone(a: int, b: int)
    requires a < b
    ensures YearStart(a) < YearStart(b)
  {
    YearStartApprox(a);
    YearStartApprox(b);
  }

  /** At most one March-based year contains a given day number. */
  lemma YearUnique(g: int, y: int, y': int)
    requires YearStart(y) <= g < YearStart(y + 1)
    requires YearStart(y') <= g < YearStart(y' + 1)
    ensures y == y'
  {
    if y < y' {
      if y + 1 < y' { YearStartMonotone(y + 1, y'); }
    } else if y' < y {
      if y' + 1 < y { YearStartMonotone(y' + 1, y); }
    }
  }

  /** Length of March-based month `mi`; `leap` says whether the February at its end has 29 days. */
  function MarchMonthLength(mi: int, leap: bool): int
    requires 0 <= mi < 12
  {
    if mi == 11 then (if leap then 29 else 28)
    else if mi == 1 || mi == 3 || mi == 6 || mi == 8 then 30
    else 31
  }

  /** A day `d` of March-based month `mi` sits at day of year MonthOffset(mi) + d - 1, from which `d` recovers `mi` and `d`. */
  lemma MonthOfDay(mi: int, d: int, leap: bool)
    requires 0 <= mi < 12
    requires 1 <= d <= MarchMonthLength(mi, leap)
    ensures var ddd := MonthOffset(mi) + d - 1;
            (100 * ddd + 52) / 3060 == mi
            && 0 <= ddd < (if leap then 366 else 365)
  {
  }

  /** Every day of year of a year of the right length falls in some month at a valid day. */
  lemma DayOfMonth(ddd: int, leap: bool)
    requires 0 <= ddd < (if leap then 366 else 365)
    ensures var mi := (100 * ddd + 52) / 3060;
            0 <= mi < 12 && 1 <= ddd - MonthOffset(mi) + 1 <= MarchMonthLength(mi, leap)
  {
    var mi := (100 * ddd + 52) / 3060;
    assert 0 <= mi < 12;
    if mi == 0 { assert ddd <= 30; }
    else if mi == 1 { assert 31 <= ddd <= 60; }
    else if mi == 2 { assert 61 <= ddd <= 91; }
    else if mi == 3 { assert 92 <= ddd <= 121; }
    else if mi == 4 { assert 122 <= ddd <= 152; }
    else if mi == 5 { assert 153 <= ddd <= 183; }
    else if mi == 6 { assert 184 <= ddd <= 213; }
    else if mi == 7 { assert 214 <= ddd <= 244; }
    else if mi == 8 { assert 245 <= ddd <= 274; }
    else if mi == 9 { assert 275 <= ddd <= 305; }
    else if mi == 10 { assert 306 <= ddd <= 336; }
    else { assert 337 <= ddd; }
  }
}
