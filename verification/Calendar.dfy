/** Calendar arithmetic of the billing periods, with the overflow rules that JavaScript's
    Date.prototype.setMonth and setFullYear follow (sections 21.4.1 and 21.4.4 of ECMA-262)
    on a server that runs in UTC. An instant is a count of milliseconds since the epoch. */
module Calendar {
  const MS_PER_DAY := 24 * 60 * 60 * 1000

  datatype Interval = Monthly | Annually

  predicate Leap(y: int) {
    y % 4 == 0 && (y % 100 != 0 || y % 400 == 0)
  }

  /** DayFromYear of ECMA-262: the day number of January 1st. */
  function DayFromYear(y: int): int {
    365 * (y - 1970) + (y - 1969) / 4 - (y - 1901) / 100 + (y - 1601) / 400
  }

  /** Months are counted on one axis: month `m` (0..11) of year `y` has index 12*y + m. */
  function DaysInMonth(mi: int): int {
    var m := mi % 12;
    if m == 1 then (if Leap(mi / 12) then 29 else 28)
    else if m == 3 || m == 5 || m == 8 || m == 10 then 30 else 31
  }

  /** Days between January 1st and the first of month `m` of year `y`. */
  function DaysBefore(y: int, m: int): int
    requires 0 <= m <= 12
  {
    if m == 0 then 0 else DaysBefore(y, m - 1) + DaysInMonth(12 * y + m - 1)
  }

  /** The day number of the first of the month. */
  function FirstDay(mi: int): int {
    DayFromYear(mi / 12) + DaysBefore(mi / 12, mi % 12)
  }

  /** MakeDay of ECMA-262, for any integers: months carry into years, days into months. */
  function MakeDay(y: int, m: int, d: int): int {
    FirstDay(12 * y + m) + d - 1
  }

  /** The days before month `m`, as a table. */
  function DayTable(m: int, leap: int): int {
    if m <= 1 then 31 * m
    else if m == 2 then 59 + leap
    else if m <= 7 then 59 + leap + 30 * (m - 2) + (m - 1) / 2
    else 212 + leap + 30 * (m - 7) + (m - 6) / 2
  }

  lemma {:induction false} DaysBeforeIsTable(y: int, m: int)
    requires 0 <= m <= 12
    ensures DaysBefore(y, m) == DayTable(m, if Leap(y) then 1 else 0)
  {
    hide Leap;
    if m > 0 {
      DaysBeforeIsTable(y, m - 1);
      assert (12 * y + m - 1) / 12 == y && (12 * y + m - 1) % 12 == m - 1;
    }
  }

  lemma FourYears(y: int)
    ensures (y + 1 - 1969) / 4 - (y - 1969) / 4 == if y % 4 == 0 then 1 else 0
  {
  }

  lemma Centuries(y: int)
    ensures (y + 1 - 1901) / 100 - (y - 1901) / 100 == if y % 100 == 0 then 1 else 0
  {
  }

  lemma FourCenturies(y: int)
    ensures (y + 1 - 1601) / 400 - (y - 1601) / 400 == if y % 400 == 0 then 1 else 0
  {
  }

  lemma Divisors(y: int)
    ensures y % 400 == 0 ==> y % 100 == 0
    ensures y % 100 == 0 ==> y % 4 == 0
  {
  }

  lemma YearLength(y: int)
    ensures DayFromYear(y + 1) - DayFromYear(y) == if Leap(y) then 366 else 365
  {
    FourYears(y);
    Centuries(y);
    FourCenturies(y);
    Divisors(y);
  }

  /** Consecutive months are exactly one month length apart, across year ends too. */
  lemma MonthLength(mi: int)
    ensures FirstDay(mi + 1) - FirstDay(mi) == DaysInMonth(mi)
    ensures 28 <= DaysInMonth(mi) <= 31
  {
    var y, m := mi / 12, mi % 12;
    if m == 11 {
      DaysBeforeIsTable(y, 12);
      YearLength(y);
      assert (mi + 1) / 12 == y + 1 && (mi + 1) % 12 == 0;
    } else {
      assert (mi + 1) / 12 == y && (mi + 1) % 12 == m + 1;
    }
  }

  lemma {:induction false} FirstDayIncreases(a: int, b: int)
    requires a < b
    ensures FirstDay(a) + 28 * (b - a) <= FirstDay(b)
    decreases b - a
  {
    hide FirstDay, DaysInMonth;
    MonthLength(b - 1);
    if a < b - 1 {
      FirstDayIncreases(a, b - 1);
    }
  }

  // ----- reading a day number back -----

  /** The last month that starts on or before day `n`, searched upwards from `mi`. */
  function SeekMonth(n: int, mi: int): (r: int)
    requires FirstDay(mi) <= n
    ensures FirstDay(r) <= n < FirstDay(r + 1)
    decreases n - FirstDay(mi)
  {
    hide FirstDay, DaysInMonth;
    MonthLength(mi);
    if FirstDay(mi + 1) <= n then SeekMonth(n, mi + 1) else mi
  }

  lemma EarlyMonth(n: int)
    ensures var y := if n < 0 then 1970 + n else 1970; FirstDay(12 * y) <= n
  {
    var y := if n < 0 then 1970 + n else 1970;
    assert (12 * y) / 12 == y && (12 * y) % 12 == 0;
  }

  function MonthOfDay(n: int): int {
    EarlyMonth(n);
    SeekMonth(n, 12 * (if n < 0 then 1970 + n else 1970))
  }

  function Day(t: int): int { t / MS_PER_DAY }

  function TimeWithinDay(t: int): int { t % MS_PER_DAY }

  /** getUTCFullYear and getUTCMonth on the month axis. */
  function MonthOf(t: int): int { MonthOfDay(Day(t)) }

  function FullYear(t: int): int { MonthOf(t) / 12 }

  function Month(t: int): int { MonthOf(t) % 12 }

  /** getDate: the day of the month, counted from 1. */
  function DateOf(t: int): int { Day(t) - FirstDay(MonthOf(t)) + 1 }

  function MakeDate(day: int, time: int): int { day * MS_PER_DAY + time }

  /** The calendar reads back what MakeDay wrote exactly for the dates that exist, and MakeDay
      rebuilds every instant from its own year, month and day. */
  lemma CalendarRoundTrip(t: int, mi: int, d: int)
    ensures MakeDay(FullYear(t), Month(t), DateOf(t)) == Day(t)
    ensures 1 <= DateOf(t) <= DaysInMonth(MonthOf(t))
    ensures MonthOfDay(FirstDay(mi) + d - 1) == mi <==> 1 <= d <= DaysInMonth(mi)
  {
    hide FirstDay, DaysInMonth;
    MonthLength(MonthOf(t));
    assert 12 * FullYear(t) + Month(t) == MonthOf(t);
    MonthLength(mi);
    var r := MonthOfDay(FirstDay(mi) + d - 1);
    if r < mi && r + 1 < mi {
      FirstDayIncreases(r + 1, mi);
    } else if mi + 1 < r {
      FirstDayIncreases(mi + 1, r);
    }
  }

  // ----- the period step -----

  function WithMonth(t: int, month: int): int {
    MakeDate(MakeDay(FullYear(t), month, DateOf(t)), TimeWithinDay(t))
  }

  function WithFullYear(t: int, year: int): int {
    MakeDate(MakeDay(year, Month(t), DateOf(t)), TimeWithinDay(t))
  }

  /** The end of the period that starts at `t`. */
  function NextEnd(t: int, interval: Interval): int {
    match interval
    case Annually => WithFullYear(t, FullYear(t) + 1)
    case Monthly => WithMonth(t, Month(t) + 1)
  }

  /** A JavaScript Date: a mutable box around an instant. */
  class Date {
    var time: int

    constructor (time: int)
      ensures this.time == time
    {
      this.time := time;
    }

    method SetMonth(month: int)
      modifies this
      ensures time == WithMonth(old(time), month)
    {
      var day := MakeDay(FullYear(time), month, DateOf(time));
      time := MakeDate(day, TimeWithinDay(time));
    }

    method SetFullYear(year: int)
      modifies this
      ensures time == WithFullYear(old(time), year)
    {
      var day := MakeDay(year, Month(time), DateOf(time));
      time := MakeDate(day, TimeWithinDay(time));
    }
  }

  /** Works on a copy: the caller's date keeps its value. */
  method CalculateNextPeriodEnd(currentEnd: Date, interval: Interval) returns (next: Date)
    ensures fresh(next) && next.time == NextEnd(currentEnd.time, interval)
  {
    hide FirstDay, MonthOfDay, DateOf, TimeWithinDay;
    next := new Date(currentEnd.time);
    if interval == Annually {
      next.SetFullYear(FullYear(next.time) + 1);
    } else {
      next.SetMonth(Month(next.time) + 1);
    }
  }

  function MonthsIn(interval: Interval): int {
    if interval == Annually then 12 else 1
  }

  /** The new day number is the old one, moved by whole months of first days. */
  lemma NextEndDay(t: int, interval: Interval)
    ensures NextEnd(t, interval)
            == t + (FirstDay(MonthOf(t) + MonthsIn(interval)) - FirstDay(MonthOf(t))) * MS_PER_DAY
    ensures Day(NextEnd(t, interval)) == FirstDay(MonthOf(t) + MonthsIn(interval)) + DateOf(t) - 1
    ensures TimeWithinDay(NextEnd(t, interval)) == TimeWithinDay(t)
  {
    hide FirstDay, DaysInMonth, MonthOfDay;
    var mi := MonthOf(t);
    assert 12 * (FullYear(t) + 1) + Month(t) == mi + 12;
    assert 12 * FullYear(t) + Month(t) + 1 == mi + 1;
    var day := FirstDay(mi + MonthsIn(interval)) + DateOf(t) - 1;
    assert NextEnd(t, interval) == day * MS_PER_DAY + TimeWithinDay(t);
    assert t == Day(t) * MS_PER_DAY + TimeWithinDay(t);
  }

  /** A monthly advance lasts exactly as long as the month it starts in, from any day. */
  lemma MonthlyAdvanceLength(t: int)
    ensures NextEnd(t, Monthly) == t + DaysInMonth(MonthOf(t)) * MS_PER_DAY
  {
    hide FirstDay, DaysInMonth, MonthOfDay, NextEnd;
    NextEndDay(t, Monthly);
    MonthLength(MonthOf(t));
  }

  lemma YearOfMonths(mi: int)
    ensures FirstDay(mi + 12) - FirstDay(mi)
            == if Leap(if mi % 12 <= 1 then mi / 12 else mi / 12 + 1) then 366 else 365
  {
    hide Leap, DayFromYear;
    var y, m := mi / 12, mi % 12;
    assert (mi + 12) / 12 == y + 1 && (mi + 12) % 12 == m;
    YearLength(y);
    DaysBeforeIsTable(y, m);
    DaysBeforeIsTable(y + 1, m);
  }

  /** An annual advance lasts 366 days exactly when a February 29th lies in its twelve months. */
  lemma AnnualAdvanceLength(t: int)
    ensures NextEnd(t, Annually) - t
            == (if Leap(if Month(t) <= 1 then FullYear(t) else FullYear(t) + 1) then 366 else 365) * MS_PER_DAY
  {
    hide FirstDay, DaysInMonth, MonthOfDay, NextEnd, Leap;
    NextEndDay(t, Annually);
    YearOfMonths(MonthOf(t));
  }

  lemma NextEndIsLater(t: int, interval: Interval)
    ensures t < NextEnd(t, interval)
  {
    hide FirstDay, DaysInMonth, MonthOf, NextEnd, Leap, DateOf;
    if interval == Monthly {
      MonthlyAdvanceLength(t);
      MonthLength(MonthOf(t));
    } else {
      AnnualAdvanceLength(t);
    }
  }

  /** "Same day next month" holds exactly when the next month has that day. Otherwise the date
      spills into the month after it, and lands on one of its first three days. */
  lemma SameDayNextMonth(t: int)
    ensures var next := NextEnd(t, Monthly);
      if DateOf(t) <= DaysInMonth(MonthOf(t) + 1)
      then MonthOf(next) == MonthOf(t) + 1 && DateOf(next) == DateOf(t)
      else MonthOf(next) == MonthOf(t) + 2 && DateOf(next) == DateOf(t) - DaysInMonth(MonthOf(t) + 1) <= 3
  {
    hide FirstDay, DaysInMonth, MonthOfDay, NextEnd, TimeWithinDay, Day;
    var mi, d := MonthOf(t), DateOf(t);
    NextEndDay(t, Monthly);
    CalendarRoundTrip(t, mi + 1, d);
    MonthLength(mi);
    MonthLength(mi + 1);
    if DaysInMonth(mi + 1) < d {
      CalendarRoundTrip(t, mi + 2, d - DaysInMonth(mi + 1));
      MonthLength(mi + 2);
    }
  }

  /** "Same day next year" fails for a February 29th only, which moves to March 1st. */
  lemma SameDayNextYear(t: int)
    ensures var next := NextEnd(t, Annually);
      if Month(t) == 1 && DateOf(t) == 29 then MonthOf(next) == MonthOf(t) + 13 && DateOf(next) == 1
      else MonthOf(next) == MonthOf(t) + 12 && DateOf(next) == DateOf(t)
  {
    hide FirstDay, MonthOfDay, NextEnd, TimeWithinDay, Day, Leap;
    var mi, d := MonthOf(t), DateOf(t);
    NextEndDay(t, Annually);
    CalendarRoundTrip(t, mi + 12, d);
    YearsShareMonths(mi);
    if DaysInMonth(mi + 12) < d {
      CalendarRoundTrip(t, mi + 13, d - DaysInMonth(mi + 12));
      MonthLength(mi + 12);
      MonthLength(mi + 13);
    }
  }

  lemma YearsShareMonths(mi: int)
    ensures mi % 12 != 1 ==> DaysInMonth(mi + 12) == DaysInMonth(mi)
    ensures mi % 12 == 1 ==> 28 <= DaysInMonth(mi + 12) <= 29 && 28 <= DaysInMonth(mi) <= 29
    ensures mi % 12 == 1 && DaysInMonth(mi) == 29 ==> DaysInMonth(mi + 12) == 28
  {
    assert (mi + 12) % 12 == mi % 12 && (mi + 12) / 12 == mi / 12 + 1;
  }

  /** billingAnchor is the creation day capped at 28. Whatever the interval, the period end falls on it exactly when the
      subscription was created on one of the first 28 days. */
  lemma AnchorIsHonoured(created: int, interval: Interval)
    ensures DateOf(NextEnd(created, interval)) == (if DateOf(created) < 28 then DateOf(created) else 28)
            <==> DateOf(created) <= 28
  {
    hide FirstDay, DaysInMonth, MonthOf, NextEnd, DateOf;
    SameDayNextMonth(created);
    SameDayNextYear(created);
    MonthLength(MonthOf(created) + 1);
    CalendarRoundTrip(created, MonthOf(created), DateOf(created));
  }

  // ----- runs of advances -----

  /** The k-th boundary of a chain of periods. */
  function Boundary(start: int, interval: Interval, k: nat): int {
    if k == 0 then start else NextEnd(Boundary(start, interval, k - 1), interval)
  }

  lemma {:induction false} BoundariesIncrease(start: int, interval: Interval, i: nat, j: nat)
    requires i < j
    ensures Boundary(start, interval, i) < Boundary(start, interval, j)
    decreases j
  {
    hide NextEnd;
    NextEndIsLater(Boundary(start, interval, j - 1), interval);
    if i < j - 1 {
      BoundariesIncrease(start, interval, i, j - 1);
    }
  }

  /** From a day up to 28 on, the day of the month never moves and each step is one month. */
  lemma {:induction false} ShortDaysStay(start: int, k: nat)
    requires DateOf(start) <= 28
    ensures DateOf(Boundary(start, Monthly, k)) == DateOf(start)
    ensures MonthOf(Boundary(start, Monthly, k)) == MonthOf(start) + k
    ensures TimeWithinDay(Boundary(start, Monthly, k)) == TimeWithinDay(start)
  {
    hide NextEnd, DateOf, MonthOf, TimeWithinDay, DaysInMonth, FirstDay;
    if k > 0 {
      ShortDaysStay(start, k - 1);
      var b := Boundary(start, Monthly, k - 1);
      SameDayNextMonth(b);
      MonthLength(MonthOf(b) + 1);
      NextEndDay(b, Monthly);
    }
  }

  lemma {:induction false} BoundaryFrom(start: int, interval: Interval, i: nat, k: nat)
    ensures Boundary(start, interval, i + k) == Boundary(Boundary(start, interval, i), interval, k)
  {
    hide NextEnd;
    if k > 0 {
      BoundaryFrom(start, interval, i, k - 1);
    }
  }

  /** Along any monthly run the day of the month changes at most once. */
  lemma {:induction false} DayOfMonthChangesAtMostOnce(start: int, i: nat, j: nat, k: nat)
    requires i <= j <= k
    ensures var D := (n: nat) => DateOf(Boundary(start, Monthly, n));
      D(i) == D(j) || D(j) == D(k)
    decreases j - i
  {
    hide NextEnd, DateOf, MonthOf, TimeWithinDay, DaysInMonth, FirstDay;
    if i < j {
      var b := Boundary(start, Monthly, i);
      SameDayNextMonth(b);
      if DateOf(NextEnd(b, Monthly)) != DateOf(b) {
        ShortDaysStay(Boundary(start, Monthly, i + 1), j - i - 1);
        ShortDaysStay(Boundary(start, Monthly, i + 1), k - i - 1);
        BoundaryFrom(start, Monthly, i + 1, j - i - 1);
        BoundaryFrom(start, Monthly, i + 1, k - i - 1);
      } else {
        DayOfMonthChangesAtMostOnce(start, i + 1, j, k);
      }
    }
  }

  /** For start days up to 28, twelve monthly advances are one annual advance. */
  lemma TwelveMonthsAreOneYear(start: int)
    requires DateOf(start) <= 28
    ensures Boundary(start, Monthly, 12) == NextEnd(start, Annually)
  {
    hide NextEnd, MonthOf, DaysInMonth, FirstDay;
    ShortDaysStay(start, 12);
    NextEndDay(start, Annually);
    var b := Boundary(start, Monthly, 12);
    CalendarRoundTrip(b, 0, 1);
    assert b == Day(b) * MS_PER_DAY + TimeWithinDay(b);
    var e := NextEnd(start, Annually);
    assert e == Day(e) * MS_PER_DAY + TimeWithinDay(e);
  }

  /** January 31st, 2026: the monthly period ends on March 3rd, not in February. */
  lemma January31Drifts()
    ensures var t := MakeDate(MakeDay(2026, 0, 31), 0);
      Day(NextEnd(t, Monthly)) == MakeDay(2026, 2, 3)
  {
    hide NextEnd, MonthOfDay, FirstDay;
    var t := MakeDate(MakeDay(2026, 0, 31), 0);
    CalendarRoundTrip(t, 12 * 2026, 31);
    NextEndDay(t, Monthly);
    MonthLength(12 * 2026 + 1);
  }
}
