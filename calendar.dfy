/** The proleptic Gregorian calendar as the JavaScript Date object computes
    it: month lengths, day numbers counted from 1970-01-01, weekdays, the
    month arithmetic of `new Date(y, m, d)` with an out-of-range month or
    day, and the ISO week (ISO 8601:2004 section 3.2.2) that the weekly
    grouping derives from the Thursday of the week. Months are numbered
    0..11, as `getMonth()` numbers them. */
module Calendar {
  import opened Numeric

  /** A calendar date as `getFullYear()`, `getMonth()` and `getDate()`
      report it. */
  datatype CalDate = CalDate(year: int, month: int, day: int)

  predicate IsLeap(y: int)
  {
    (y % 4 == 0 && y % 100 != 0) || y % 400 == 0
  }

  function YearLength(y: int): (n: int)
    ensures n == 365 || n == 366
  {
    if IsLeap(y) then 366 else 365
  }

  function DaysInMonth(y: int, m: int): (n: int)
    requires 0 <= m < 12
    ensures 28 <= n <= 31
    ensures m == 1 ==> (n == 29 <==> IsLeap(y))
    ensures m != 1 ==> (n == 30 <==> m == 3 || m == 5 || m == 8 || m == 10)
  {
    if m == 1 then (if IsLeap(y) then 29 else 28)
    else if m == 3 || m == 5 || m == 8 || m == 10 then 30
    else 31
  }

  /** The number of days of year y before month m. */
  function DaysBeforeMonth(y: int, m: int): (n: int)
    requires 0 <= m <= 12
    ensures 28 * m <= n <= 31 * m
  {
    if m == 0 then 0 else DaysBeforeMonth(y, m - 1) + DaysInMonth(y, m - 1)
  }

  /** The twelve months make up the year. */
  lemma MonthsMakeYear(y: int)
    ensures DaysBeforeMonth(y, 12) == YearLength(y)
  {
    assert DaysBeforeMonth(y, 1) == 31;
    assert DaysBeforeMonth(y, 2) == 31 + DaysInMonth(y, 1);
    assert DaysBeforeMonth(y, 3) == DaysBeforeMonth(y, 2) + 31;
    assert DaysBeforeMonth(y, 4) == DaysBeforeMonth(y, 2) + 61;
    assert DaysBeforeMonth(y, 5) == DaysBeforeMonth(y, 2) + 92;
    assert DaysBeforeMonth(y, 6) == DaysBeforeMonth(y, 2) + 122;
    assert DaysBeforeMonth(y, 7) == DaysBeforeMonth(y, 2) + 153;
    assert DaysBeforeMonth(y, 8) == DaysBeforeMonth(y, 2) + 184;
    assert DaysBeforeMonth(y, 9) == DaysBeforeMonth(y, 2) + 214;
    assert DaysBeforeMonth(y, 10) == DaysBeforeMonth(y, 2) + 245;
    assert DaysBeforeMonth(y, 11) == DaysBeforeMonth(y, 2) + 275;
    assert DaysBeforeMonth(y, 12) == DaysBeforeMonth(y, 2) + 306;
  }

  /** Days from 0001-01-01 to y-01-01 (floor division, so it holds for years
      before 1 as well). */
  function DaysBeforeYear(y: int): int
  {
    var p := y - 1;
    365 * p + p / 4 - p / 100 + p / 400
  }

  lemma YearStep(y: int)
    ensures DaysBeforeYear(y + 1) == DaysBeforeYear(y) + YearLength(y)
  {
    var p := y - 1;
    DivStep4(p);
    DivStep100(p);
    DivStep400(p);
    CenturyDivisors(y);
    assert DaysBeforeYear(y + 1) - DaysBeforeYear(y)
      == 365 + ((p + 1) / 4 - p / 4) - ((p + 1) / 100 - p / 100) + ((p + 1) / 400 - p / 400);
  }

  /** A multiple of 400 is one of 100, and a multiple of 100 one of 4. */
  lemma CenturyDivisors(y: int)
    ensures y % 400 == 0 ==> y % 100 == 0
    ensures y % 100 == 0 ==> y % 4 == 0
  {
    if y % 400 == 0 {
      assert y == 400 * (y / 400);
      assert y == 100 * (4 * (y / 400));
    }
    if y % 100 == 0 {
      assert y == 100 * (y / 100);
      assert y == 4 * (25 * (y / 100));
    }
  }

  lemma DivStep4(p: int)
    ensures (p + 1) / 4 == p / 4 + (if (p + 1) % 4 == 0 then 1 else 0)
  {
  }

  lemma DivStep100(p: int)
    ensures (p + 1) / 100 == p / 100 + (if (p + 1) % 100 == 0 then 1 else 0)
  {
  }

  lemma DivStep400(p: int)
    ensures (p + 1) / 400 == p / 400 + (if (p + 1) % 400 == 0 then 1 else 0)
  {
  }

  /** The day number (days after 1970-01-01) of a date in the proleptic
      Gregorian calendar. For a year outside 0..99 this is `Date.UTC(y, m, d)`
      divided by the milliseconds in a day; `Date.UTC` reads a year 0..99 as
      1900 + y, which this model does not do. */
  function DayNumber(y: int, m: int, d: int): int
    requires 0 <= m < 12
  {
    DaysBeforeYear(y) - DaysBeforeYear(1970) + DaysBeforeMonth(y, m) + d - 1
  }

  function DayOf(date: CalDate): int
    requires 0 <= date.month < 12
  {
    DayNumber(date.year, date.month, date.day)
  }

  predicate ValidDate(date: CalDate)
  {
    0 <= date.month < 12 && 1 <= date.day <= DaysInMonth(date.year, date.month)
  }

  /** The first day of year y. */
  function YearStart(y: int): int
  {
    DayNumber(y, 0, 1)
  }

  /** A valid date falls inside its own year. */
  lemma DateInYear(date: CalDate)
    requires ValidDate(date)
    ensures YearStart(date.year) <= DayOf(date) < YearStart(date.year + 1)
  {
    YearStep(date.year);
    MonthsMakeYear(date.year);
    MonthPrefixBound(date.year, date.month);
  }

  lemma MonthPrefixBound(y: int, m: int)
    requires 0 <= m < 12
    ensures DaysBeforeMonth(y, m) + DaysInMonth(y, m) <= DaysBeforeMonth(y, 12)
    decreases 12 - m
  {
    if m < 11 {
      MonthPrefixBound(y, m + 1);
    }
  }

  /** Years start in increasing order. */
  lemma {:induction false} YearStartIncreasing(a: int, b: int)
    requires a < b
    ensures YearStart(a) + 365 * (b - a) <= YearStart(b)
    decreases b - a
  {
    YearStep(a);
    if a + 1 < b {
      YearStartIncreasing(a + 1, b);
    }
  }

  /** At most one year contains a given day. */
  lemma YearUnique(t: int, a: int, b: int)
    requires YearStart(a) <= t < YearStart(a + 1)
    requires YearStart(b) <= t < YearStart(b + 1)
    ensures a == b
  {
    if a < b {
      YearStartIncreasing(a + 1, b + 1);
      if a + 1 < b { YearStartIncreasing(a + 1, b); }
    } else if b < a {
      YearStartIncreasing(b + 1, a + 1);
      if b + 1 < a { YearStartIncreasing(b + 1, a); }
    }
  }

  /** getUTCDay of a day number: 0 is Sunday; 1970-01-01 was a Thursday. */
  function Weekday(n: int): (w: int)
    ensures 0 <= w < 7
  {
    (n + 4) % 7
  }

  lemma WeekdayNext(n: int)
    ensures Weekday(n + 1) == (Weekday(n) + 1) % 7
    ensures Weekday(n + 7) == Weekday(n)
  {
  }

  /** `d.getUTCDay() || 7`: the ISO weekday, Monday 1 through Sunday 7. */
  function IsoWeekday(n: int): (w: int)
    ensures 1 <= w <= 7
    ensures w == 7 <==> Weekday(n) == 0
    ensures w < 7 ==> w == Weekday(n)
  {
    if Weekday(n) == 0 then 7 else Weekday(n)
  }

  /** `n + 4 - dayNum`: the Thursday of the Monday-to-Sunday week of day n. */
  function Thursday(n: int): (t: int)
    ensures n - 3 <= t <= n + 3
    ensures Weekday(t) == 4
  {
    n + 4 - IsoWeekday(n)
  }

  /** The year of a day lying within a year of year y. */
  function YearAround(t: int, y: int): (ty: int)
    requires YearStart(y) - 365 <= t < YearStart(y + 1) + 365
    ensures YearStart(ty) <= t < YearStart(ty + 1)
    ensures t - YearStart(ty) <= 365
    ensures y - 1 <= ty <= y + 1
  {
    YearStep(y - 1);
    YearStep(y);
    YearStep(y + 1);
    if t < YearStart(y) then y - 1
    else if t < YearStart(y + 1) then y
    else y + 1
  }

  /** An ISO week: the year it belongs to and its number. */
  datatype IsoWeek = IsoWeek(year: int, week: int)

  /** The week computation of the weekly grouping: move to the Thursday of
      the week, take that Thursday's year, and number the weeks of that year
      by `ceil((days since 1 January + 1) / 7)`. */
  function IsoWeekOf(date: CalDate): (w: IsoWeek)
    requires ValidDate(date)
    ensures 1 <= w.week <= 53
    ensures YearStart(w.year) <= Thursday(DayOf(date)) < YearStart(w.year + 1)
    ensures w.week == (Thursday(DayOf(date)) - YearStart(w.year)) / 7 + 1
  {
    DateInYear(date);
    YearStep(date.year - 1);
    YearStep(date.year);
    var t := Thursday(DayOf(date));
    var ty := YearAround(t, date.year);
    IsoWeek(ty, WeekNumber(t - YearStart(ty)))
  }

  /** `Math.ceil((o + 1) / 7)` for a day offset o inside a year. */
  function WeekNumber(o: int): (k: int)
    requires 0 <= o <= 365
    ensures 1 <= k <= 53
    ensures k == o / 7 + 1
  {
    var q := o / 7;
    assert q as real < (o as real + 1.0) / 7.0 <= q as real + 1.0;
    Ceil((o as real + 1.0) / 7.0)
  }

  /** The ISO week is a function of the day number alone. */
  lemma IsoWeekByDay(d1: CalDate, d2: CalDate)
    requires ValidDate(d1) && ValidDate(d2)
    requires Thursday(DayOf(d1)) == Thursday(DayOf(d2))
    ensures IsoWeekOf(d1) == IsoWeekOf(d2)
  {
    var t := Thursday(DayOf(d1));
    YearUnique(t, IsoWeekOf(d1).year, IsoWeekOf(d2).year);
  }

  /** Consecutive days share their ISO week unless the second is a Monday. */
  lemma SameIsoWeek(d1: CalDate, d2: CalDate)
    requires ValidDate(d1) && ValidDate(d2)
    requires DayOf(d2) == DayOf(d1) + 1 && Weekday(DayOf(d2)) != 1
    ensures IsoWeekOf(d1) == IsoWeekOf(d2)
  {
    WeekdayNext(DayOf(d1));
    IsoWeekByDay(d1, d2);
  }

  /** On a Monday the ISO week advances: the next number in the same year, or
      week 1 of the next year. */
  lemma NextIsoWeek(d1: CalDate, d2: CalDate)
    requires ValidDate(d1) && ValidDate(d2)
    requires DayOf(d2) == DayOf(d1) + 1 && Weekday(DayOf(d2)) == 1
    ensures var w1, w2 := IsoWeekOf(d1), IsoWeekOf(d2);
      (w2.year == w1.year && w2.week == w1.week + 1) ||
      (w2.year == w1.year + 1 && w2.week == 1)
  {
    var n := DayOf(d1);
    ThursdayAfterSunday(n);
    var w1, w2 := IsoWeekOf(d1), IsoWeekOf(d2);
    WeekAdvance(Thursday(n), w1.year, w1.week, w2.year, w2.week);
  }

  /** From a Sunday to the Monday after it the week's Thursday moves on by
      seven days. */
  lemma ThursdayAfterSunday(n: int)
    requires Weekday(n + 1) == 1
    ensures Thursday(n + 1) == Thursday(n) + 7
  {
    WeekdayNext(n);
  }

  /** Week numbering of Thursdays a week apart: the next number in the same
      year, or week 1 of the next. */
  lemma WeekAdvance(t: int, y1: int, k1: int, y2: int, k2: int)
    requires YearStart(y1) <= t < YearStart(y1 + 1) && k1 == (t - YearStart(y1)) / 7 + 1
    requires YearStart(y2) <= t + 7 < YearStart(y2 + 1) && k2 == (t + 7 - YearStart(y2)) / 7 + 1
    ensures (y2 == y1 && k2 == k1 + 1) || (y2 == y1 + 1 && k2 == 1)
  {
    YearStep(y1 + 1);
    if t + 7 < YearStart(y1 + 1) {
      YearUnique(t + 7, y2, y1);
      WeekStep(t - YearStart(y1));
    } else {
      YearUnique(t + 7, y2, y1 + 1);
    }
  }

  lemma WeekStep(o: int)
    ensures (o + 7) / 7 == o / 7 + 1
  {
  }

  /** Week 1 of a year is the week holding 4 January. */
  lemma Jan4InWeekOne(y: int)
    ensures ValidDate(CalDate(y, 0, 4))
    ensures IsoWeekOf(CalDate(y, 0, 4)) == IsoWeek(y, 1)
  {
    var d := CalDate(y, 0, 4);
    var t := Thursday(DayOf(d));
    YearStep(y);
    YearUnique(t, IsoWeekOf(d).year, y);
  }

  /** `new Date(y, m, 1)` for any integer m: the month rolls over into
      earlier or later years. */
  function MonthShift(y: int, m: int): (r: (int, int))
    ensures 0 <= r.1 < 12
    ensures 12 * r.0 + r.1 == 12 * y + m
  {
    (y + m / 12, m % 12)
  }

  /** The month before (y, m): January goes back to December of the
      previous year. */
  function PrevMonth(y: int, m: int): (r: (int, int))
    requires 0 <= m < 12
    ensures 0 <= r.1 < 12
    ensures 12 * r.0 + r.1 == 12 * y + m - 1
  {
    (if m == 0 then y - 1 else y, if m == 0 then 11 else m - 1)
  }

  /** `new Date(y, m + 1, 0).getDate()`: day 0 of the next month is the last
      day of month m, so this is the length of month m. */
  function LastDayOfMonth(y: int, m: int): (n: int)
    requires 0 <= m < 12
    ensures n == DaysInMonth(y, m)
  {
    var (ny, nm) := MonthShift(y, m + 1);
    var last := DayNumber(ny, nm, 1) - 1;
    DayOfMonthOfLastDay(y, m);
    last - DayNumber(y, m, 1) + 1
  }

  lemma DayOfMonthOfLastDay(y: int, m: int)
    requires 0 <= m < 12
    ensures var (ny, nm) := MonthShift(y, m + 1);
      DayNumber(ny, nm, 1) == DayNumber(y, m, 1) + DaysInMonth(y, m)
  {
    if m == 11 {
      assert MonthShift(y, 12) == (y + 1, 0);
      YearStep(y);
      MonthsMakeYear(y);
    }
  }

  /** Calendar order: earlier year, or the same year and an earlier month,
      or the same month and an earlier day. */
  predicate DateLess(d1: CalDate, d2: CalDate)
  {
    d1.year < d2.year
    || (d1.year == d2.year && (d1.month < d2.month || (d1.month == d2.month && d1.day < d2.day)))
  }

  /** Day numbers follow the calendar order, and distinct valid dates have
      distinct day numbers. */
  lemma DayOfOrder(d1: CalDate, d2: CalDate)
    requires ValidDate(d1) && ValidDate(d2)
    ensures DayOf(d1) < DayOf(d2) <==> DateLess(d1, d2)
    ensures DayOf(d1) == DayOf(d2) <==> d1 == d2
  {
    if DateLess(d1, d2) {
      DayOfIncreasing(d1, d2);
    } else if DateLess(d2, d1) {
      DayOfIncreasing(d2, d1);
    }
  }

  lemma DayOfIncreasing(d1: CalDate, d2: CalDate)
    requires ValidDate(d1) && ValidDate(d2) && DateLess(d1, d2)
    ensures DayOf(d1) < DayOf(d2)
  {
    if d1.year < d2.year {
      DateInYear(d1);
      DateInYear(d2);
      if d1.year + 1 < d2.year {
        YearStartIncreasing(d1.year + 1, d2.year);
      }
    } else if d1.month < d2.month {
      DaysBeforeMonthGrows(d1.year, d1.month, d2.month);
    }
  }

  /** A month and the months before it come before any later month. */
  lemma {:induction false} DaysBeforeMonthGrows(y: int, a: int, b: int)
    requires 0 <= a < b <= 12
    ensures DaysBeforeMonth(y, a) + DaysInMonth(y, a) <= DaysBeforeMonth(y, b)
    decreases b - a
  {
    if a + 1 < b {
      DaysBeforeMonthGrows(y, a, b - 1);
    }
  }
}
