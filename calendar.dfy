/** The proleptic Gregorian calendar as Python's datetime module numbers it:
    a date is its ordinal, date(1, 1, 1) being day 1 and date(9999, 12, 31) the
    last day a date can hold. The ISO 8601 week-numbering year (section 2.2.10
    and 4.1.4 of ISO 8601:2004: weeks start on Monday, week 01 is the week that
    holds the year's first Thursday) is built on top. */
module Calendar {

  /** date(9999, 12, 31).toordinal() */
  const MaxOrdinal: int := 3652059

  predicate InDateRange(d: int) { 1 <= d <= MaxOrdinal }

  /** A value of Python's date type. */
  type Date = d: int | InDateRange(d) witness 1

  /** Days in the years 1 .. y-1 (CPython's _days_before_year). */
  function DaysBeforeYear(y: int): int
  {
    var n := y - 1;
    365 * n + n / 4 - n / 100 + n / 400
  }

  predicate IsLeap(y: int)
  {
    y % 4 == 0 && (y % 100 != 0 || y % 400 == 0)
  }

  function DaysInYear(y: int): int
  {
    if IsLeap(y) then 366 else 365
  }

  /** The ordinal of 1 January, or of another day of January, of year y. */
  function January(y: int, day: int): int
  {
    DaysBeforeYear(y) + day
  }

  /** date.weekday(): Monday is 0, Sunday is 6. */
  function Weekday(d: int): (w: int)
    ensures 0 <= w < 7
  {
    (d + 6) % 7
  }

  lemma DaysBeforeNextYear(y: int)
    ensures DaysBeforeYear(y + 1) == DaysBeforeYear(y) + DaysInYear(y)
  {
    DivStep4(y - 1);
    DivStep100(y - 1);
    DivStep400(y - 1);
  }

  lemma DivStep4(n: int) ensures (n + 1) / 4 == n / 4 + (if (n + 1) % 4 == 0 then 1 else 0) {}
  lemma DivStep100(n: int) ensures (n + 1) / 100 == n / 100 + (if (n + 1) % 100 == 0 then 1 else 0) {}
  lemma DivStep400(n: int) ensures (n + 1) / 400 == n / 400 + (if (n + 1) % 400 == 0 then 1 else 0) {}

  /** The calendar repeats every 400 years, which hold 146097 days. */
  lemma DaysBeforeYearCycle(q: int, y: int)
    ensures DaysBeforeYear(400 * q + y) == 146097 * q + DaysBeforeYear(y)
  {
    var n := y - 1;
    assert (400 * q + n) / 4 == 100 * q + n / 4;
    assert (400 * q + n) / 100 == 4 * q + n / 100;
    assert (400 * q + n) / 400 == q + n / 400;
  }

  /** The year within the 400-year cycle whose days cover day offset r. */
  function YearInCycle(r: int, y: int): (z: int)
    requires 0 <= r < 146097 && 1 <= y <= 400 && DaysBeforeYear(y) <= r
    ensures y <= z <= 400 && DaysBeforeYear(z) <= r < DaysBeforeYear(z + 1)
    decreases 400 - y
  {
    assert DaysBeforeYear(401) == 146097;
    if r < DaysBeforeYear(y + 1) then y
    else YearInCycle(r, y + 1)
  }

  /** The Gregorian year that holds day d (the year part of date.fromordinal). */
  function YearOf(d: int): (y: int)
    ensures January(y, 1) <= d < January(y + 1, 1)
  {
    var q := (d - 1) / 146097;
    var r := (d - 1) % 146097;
    var z := CycleYear(r);
    var y := 400 * q + z;
    YearOfCycle(d, q, r, z, y);
    y
  }

  /** The year (1 .. 400) of a 400-year cycle that holds day offset r. */
  function CycleYear(r: int): (z: int)
    requires 0 <= r < 146097
    ensures 1 <= z <= 400 && DaysBeforeYear(z) <= r < DaysBeforeYear(z + 1)
  {
    assert DaysBeforeYear(1) == 0;
    YearInCycle(r, 1)
  }

  /** Day d, d - 1 = 146097 q + r, lies in year z of the q-th 400-year cycle
      when offset r lies in year z of a cycle. */
  lemma YearOfCycle(d: int, q: int, r: int, z: int, y: int)
    requires q == (d - 1) / 146097 && r == (d - 1) % 146097 && y == 400 * q + z
    requires DaysBeforeYear(z) <= r < DaysBeforeYear(z + 1)
    ensures January(y, 1) <= d < January(y + 1, 1)
  {
    assert d - 1 == 146097 * q + r;
    DaysBeforeYearCycle(q, z);
    DaysBeforeYearCycle(q, z + 1);
    assert 400 * q + z + 1 == 400 * q + (z + 1);
  }

  // ---------------------------------------------------------------------------
  // The Monday of ISO week 1

  /** CPython's _isoweek1monday: the Monday of the week holding the year's first
      Thursday, found from 1 January. */
  function IsoWeek1Monday(y: int): int
  {
    Week1MondayFrom(January(y, 1))
  }

  /** The Monday of the week that holds the first Thursday on or after the day
      jan1. */
  function Week1MondayFrom(jan1: int): int
  {
    var firstWeekday := Weekday(jan1);
    var monday := jan1 - firstWeekday;
    if firstWeekday > 3 then monday + 7 else monday
  }

  /** The same Monday found from 4 January: the Monday on or before it. */
  function MondayOnOrBeforeJan4(y: int): (m: int)
    ensures Weekday(m) == 0
    ensures January(y, 4) - 6 <= m <= January(y, 4)
  {
    MondayOnOrBefore(January(y, 4))
  }

  function MondayOnOrBefore(d: int): (m: int)
    ensures Weekday(m) == 0
    ensures d - 6 <= m <= d
  {
    d - Weekday(d)
  }

  lemma Week1MondayFromJan4(jan1: int)
    ensures MondayOnOrBefore(jan1 + 3) == Week1MondayFrom(jan1)
  {
  }

  lemma Week1MondayFromNear(jan1: int)
    ensures Weekday(Week1MondayFrom(jan1)) == 0
    ensures jan1 - 3 <= Week1MondayFrom(jan1) <= jan1 + 3
  {
  }

  lemma Week1MondayFromStep(j1: int, j2: int)
    requires j2 - j1 == 365 || j2 - j1 == 366
    ensures Week1MondayFrom(j2) - Week1MondayFrom(j1) == 364
         || Week1MondayFrom(j2) - Week1MondayFrom(j1) == 371
  {
    Week1MondayFromNear(j1);
    Week1MondayFromNear(j2);
    var a, b := Week1MondayFrom(j1), Week1MondayFrom(j2);
    assert (b - a) % 7 == 0;
    var k := (b - a) / 7;
    assert b - a == 7 * k;
  }

  /** The two rules of ISO 8601 agree: week 01 holds 4 January exactly when it
      holds the first Thursday. */
  lemma FirstThursdayRule(y: int)
    ensures MondayOnOrBeforeJan4(y) == IsoWeek1Monday(y)
  {
    Week1MondayFromJan4(January(y, 1));
  }

  /** The Monday of week 1 is at most three days from 1 January, so the
      Thursday three days after it is the year's first Thursday. */
  lemma IsoWeek1MondayIsMondayNearJan1(y: int)
    ensures Weekday(IsoWeek1Monday(y)) == 0
    ensures January(y, 1) - 3 <= IsoWeek1Monday(y) <= January(y, 1) + 3
  {
    Week1MondayFromNear(January(y, 1));
  }

  /** Consecutive ISO years are 52 or 53 weeks apart. */
  lemma IsoYearLength(y: int)
    ensures IsoWeek1Monday(y + 1) - IsoWeek1Monday(y) == 364
         || IsoWeek1Monday(y + 1) - IsoWeek1Monday(y) == 371
  {
    DaysBeforeNextYear(y);
    Week1MondayFromStep(January(y, 1), January(y + 1, 1));
  }

  /** Number of ISO weeks of year y: 52 or 53. */
  function WeeksInIsoYear(y: int): (n: int)
    ensures n == 52 || n == 53
    ensures IsoWeek1Monday(y + 1) == IsoWeek1Monday(y) + 7 * n
  {
    IsoYearLength(y);
    (IsoWeek1Monday(y + 1) - IsoWeek1Monday(y)) / 7
  }

  lemma {:induction false} IsoWeek1MondayIncreasing(a: int, b: int)
    requires a < b
    ensures IsoWeek1Monday(a + 1) <= IsoWeek1Monday(b)
    decreases b - a
  {
    if a + 1 < b {
      IsoWeek1MondayIncreasing(a + 1, b);
      IsoYearLength(a + 1);
    }
  }

  /** Counting whole weeks and then days from a Monday lands on that weekday. */
  lemma WeekdayFromMonday(m: int, k: int, d: int)
    requires Weekday(m) == 0 && 0 <= d < 7
    ensures Weekday(m + 7 * k + d) == d
  {
    var q := (m + 6) / 7;
    assert m + 6 == 7 * q;
    assert m + 7 * k + d + 6 == 7 * (q + k) + d;
  }

  /** The ISO years 1 .. 9999 start on or after date.min and end on or before
      two days after date.max. */
  lemma IsoYearInDateRange(y: int)
    requires 1 <= y <= 9999
    ensures 1 <= IsoWeek1Monday(y)
    ensures IsoWeek1Monday(y + 1) <= MaxOrdinal + 3
  {
    IsoYearsOfDateRange();
    IsoWeek1MondayMonotone(1, y);
    IsoWeek1MondayMonotone(y + 1, 10000);
  }

  lemma IsoWeek1MondayMonotone(a: int, b: int)
    requires a <= b
    ensures IsoWeek1Monday(a) <= IsoWeek1Monday(b)
  {
    if a < b { IsoWeek1MondayIncreasing(a - 1, b); }
  }

  /** ISO year 9999 has 52 weeks and ends on a Sunday two days after date.max. */
  lemma LastIsoYear()
    ensures WeeksInIsoYear(9999) == 52
  {
    IsoYearsOfDateRange();
    assert DaysBeforeYear(9999) == 3651694;
    assert Weekday(3651695) == 4;
    assert IsoWeek1Monday(9999) == 3651698;
  }

  /** Day d lies in ISO year y. */
  predicate InIsoYear(d: int, y: int)
  {
    IsoWeek1Monday(y) <= d < IsoWeek1Monday(y + 1)
  }

  /** Every day lies in one ISO year at most. */
  lemma IsoYearUnique(d: int, y1: int, y2: int)
    requires InIsoYear(d, y1) && InIsoYear(d, y2)
    ensures y1 == y2
  {
    if y1 < y2 { IsoWeek1MondayIncreasing(y1, y2); }
    if y2 < y1 { IsoWeek1MondayIncreasing(y2, y1); }
  }

  /** date.isocalendar() as CPython computes it: the ISO year, the week
      (1-based) and the weekday (1 for Monday). */
  function IsoCalendar(d: Date): (r: (int, int, int))
    ensures InIsoYear(d, r.0)
    ensures r.1 == (d - IsoWeek1Monday(r.0)) / 7 + 1
    ensures 1 <= r.1 <= WeeksInIsoYear(r.0)
    ensures r.2 == Weekday(d) + 1
  {
    IsoCalendarFrom(d, YearOf(d))
  }

  /** isocalendar past the year part of date.fromordinal: year is the
      Gregorian year of d. */
  function IsoCalendarFrom(d: Date, year: int): (r: (int, int, int))
    requires January(year, 1) <= d < January(year + 1, 1)
    ensures InIsoYear(d, r.0)
    ensures r.1 == (d - IsoWeek1Monday(r.0)) / 7 + 1
    ensures 1 <= r.1 <= WeeksInIsoYear(r.0)
    ensures r.2 == Weekday(d) + 1
  {
    var week1Monday := IsoWeek1Monday(year);
    var week := (d - week1Monday) / 7;
    IsoCalendarCases(d, year);
    if week < 0 then
      var prevMonday := IsoWeek1Monday(year - 1);
      (year - 1, (d - prevMonday) / 7 + 1, Weekday(d) + 1)
    else if week >= 52 && d >= IsoWeek1Monday(year + 1) then
      (year + 1, 1, Weekday(d) + 1)
    else
      (year, week + 1, Weekday(d) + 1)
  }

  /** The three branches of isocalendar for a day d of Gregorian year y: the
      day before y's week 1 is in ISO year y - 1; from week 53 on and past the
      next year's week 1 it is week 1 of y + 1; otherwise it is in y. */
  lemma IsoCalendarCases(d: int, y: int)
    requires January(y, 1) <= d < January(y + 1, 1)
    ensures var w := (d - IsoWeek1Monday(y)) / 7;
      && (w < 0 ==> InIsoYear(d, y - 1) && 1 <= (d - IsoWeek1Monday(y - 1)) / 7 + 1 <= WeeksInIsoYear(y - 1))
      && (w >= 52 && d >= IsoWeek1Monday(y + 1) ==>
            InIsoYear(d, y + 1) && (d - IsoWeek1Monday(y + 1)) / 7 + 1 == 1)
      && (w >= 0 && !(w >= 52 && d >= IsoWeek1Monday(y + 1)) ==>
            InIsoYear(d, y) && 1 <= w + 1 <= WeeksInIsoYear(y))
  {
    IsoYearNearGregorianYear(d, y);
    var m := IsoWeek1Monday(y);
    var w := (d - m) / 7;
    if w < 0 {
      assert d < m;
      WeekWithinIsoYear(d, y - 1);
    } else if w >= 52 && d >= IsoWeek1Monday(y + 1) {
      var m1 := IsoWeek1Monday(y + 1);
      IsoWeek1MondayIsMondayNearJan1(y + 1);
      assert 0 <= d - m1 < 7;
    } else {
      assert m <= d;
      if w < 52 {
        assert d - m < 364;
      }
      assert d < IsoWeek1Monday(y + 1);
      WeekWithinIsoYear(d, y);
    }
  }

  /** A day of Gregorian year y lies in ISO year y - 1, y or y + 1: in y - 1
      only before the Monday of y's week 1, and in y + 1 only from the Monday
      of y + 1's week 1, which is at least 52 weeks after y's. */
  lemma IsoYearNearGregorianYear(d: int, y: int)
    requires January(y, 1) <= d < January(y + 1, 1)
    ensures IsoWeek1Monday(y - 1) <= d < IsoWeek1Monday(y + 2)
    ensures d < IsoWeek1Monday(y) ==> InIsoYear(d, y - 1)
    ensures IsoWeek1Monday(y) <= d < IsoWeek1Monday(y + 1) ==> InIsoYear(d, y)
    ensures d >= IsoWeek1Monday(y + 1) ==> InIsoYear(d, y + 1)
    ensures IsoWeek1Monday(y + 1) - IsoWeek1Monday(y) >= 364
  {
    IsoWeek1MondayIsMondayNearJan1(y - 1);
    IsoWeek1MondayIsMondayNearJan1(y);
    IsoWeek1MondayIsMondayNearJan1(y + 1);
    IsoWeek1MondayIsMondayNearJan1(y + 2);
    DaysBeforeNextYear(y - 1);
    DaysBeforeNextYear(y);
    DaysBeforeNextYear(y + 1);
    IsoYearLength(y);
  }

  /** A day of ISO year y is in one of its 52 or 53 weeks. */
  lemma WeekWithinIsoYear(d: int, y: int)
    requires InIsoYear(d, y)
    ensures 1 <= (d - IsoWeek1Monday(y)) / 7 + 1 <= WeeksInIsoYear(y)
  {
    var n := WeeksInIsoYear(y);
    var k := d - IsoWeek1Monday(y);
    assert 0 <= k < 7 * n;
  }

  /** The days of ISO years 1 .. 9999 are exactly the days a date can hold. */
  lemma IsoYearsOfDateRange()
    ensures IsoWeek1Monday(1) == 1
    ensures IsoWeek1Monday(10000) == MaxOrdinal + 3
  {
    assert DaysBeforeYear(1) == 0;
    assert Weekday(1) == 0;
    assert DaysBeforeYear(10000) == 3652059;
    assert Weekday(3652060) == 5;
  }
}
