/** The calendars of src/calendar.cpp and src/date/: the base calendar (and noleap), allleap, julian, gregorian
    and d360, all within what the arithmetic assumes. */
module Calendars {
  import opened CalendarMath
  import opened Calendar

  const NO_LEAP: seq<int> := [31, 28, 31, 30, 31, 30, 31, 31, 30, 31, 30, 31]

  /** getMonthLength, with 29 days in the second month of the years that isLeap names. */
  function MonthLength(isLeap: int -> bool, year: int, month: int): int {
    if month == 2 && isLeap(year) then 29 else if 1 <= month <= 12 then NO_LEAP[month - 1] else 1
  }

  function MonthsCal(isLeap: int -> bool, leap: bool): Cal {
    Cal(12, 24, 60, 60, (year: int, month: int) => MonthLength(isLeap, year, month),
        (year: int) => if isLeap(year) then 366 * 86400 else 365 * 86400, leap)
  }

  function BaseCal(): Cal {
    MonthsCal(year => false, false)
  }

  function AllLeapCal(): Cal {
    MonthsCal(year => true, false)
  }

  function JulianCal(): Cal {
    MonthsCal((year: int) => year % 4 == 0, true)
  }

  function GregorianCal(): Cal {
    MonthsCal((year: int) => year % 4 == 0 && (year % 100 != 0 || year % 400 == 0), true)
  }

  function D360Cal(): Cal {
    Cal(12, 24, 60, 60, (year: int, month: int) => 30, year => 360 * 86400, false)
  }

  lemma MonthStep(c: Cal, y: int, i: int)
    requires c.months == 12 && 0 <= i < 12
    ensures DaysTo(c, y * 12 + i + 1) == DaysTo(c, y * 12 + i) + c.monthLength(y, i + 1)
  {
    DaysStep(c, y * 12 + i);
    DivIs(y * 12 + i, 12, y, i);
  }

  /** A year is the sum of its twelve months. */
  lemma YearSum(c: Cal, y: int)
    requires c.months == 12
    ensures DaysTo(c, (y + 1) * 12) - DaysTo(c, y * 12)
         == c.monthLength(y, 1) + c.monthLength(y, 2) + c.monthLength(y, 3) + c.monthLength(y, 4)
          + c.monthLength(y, 5) + c.monthLength(y, 6) + c.monthLength(y, 7) + c.monthLength(y, 8)
          + c.monthLength(y, 9) + c.monthLength(y, 10) + c.monthLength(y, 11) + c.monthLength(y, 12)
  {
    hide DaysTo;
    MonthStep(c, y, 0); MonthStep(c, y, 1); MonthStep(c, y, 2); MonthStep(c, y, 3);
    MonthStep(c, y, 4); MonthStep(c, y, 5); MonthStep(c, y, 6); MonthStep(c, y, 7);
    MonthStep(c, y, 8); MonthStep(c, y, 9); MonthStep(c, y, 10); MonthStep(c, y, 11);
    assert y * 12 + 12 == (y + 1) * 12;
  }

  lemma MonthsYear(isLeap: int -> bool, leap: bool, y: int)
    ensures var c := MonthsCal(isLeap, leap);
      DaysTo(c, (y + 1) * 12) - DaysTo(c, y * 12) == if isLeap(y) then 366 else 365
  {
    YearSum(MonthsCal(isLeap, leap), y);
    hide DaysTo;
  }

  /** Month lengths and year lengths agree, in every year. */
  lemma MonthsOk(isLeap: int -> bool, leap: bool)
    requires !leap ==> forall y, z :: isLeap(y) == isLeap(z)
    ensures CalOk(MonthsCal(isLeap, leap))
  {
    var c := MonthsCal(isLeap, leap);
    hide DaysTo, Len, MonthLength;
    forall k ensures Len(c, k) >= 1 { MonthsPositive(isLeap, leap, k); }
    forall y ensures (DaysTo(c, Index(c, y + 1, 1)) - DaysTo(c, Index(c, y, 1))) * DayLength(c) == c.yearTotal(y) {
      MonthsYear(isLeap, leap, y);
      Product(DaysTo(c, Index(c, y + 1, 1)) - DaysTo(c, Index(c, y, 1)), isLeap(y));
    }
  }

  lemma MonthsPositive(isLeap: int -> bool, leap: bool, k: int)
    ensures Len(MonthsCal(isLeap, leap), k) >= 1
  {
    assert 1 <= k % 12 + 1 <= 12;
  }

  lemma Product(days: int, long: bool)
    requires days == if long then 366 else 365
    ensures days * (24 * 60 * 60) == if long then 366 * 86400 else 365 * 86400
  { }

  lemma BaseOk()
    ensures CalOk(BaseCal())
  {
    MonthsOk(year => false, false);
  }

  lemma AllLeapOk()
    ensures CalOk(AllLeapCal())
  {
    MonthsOk(year => true, false);
  }

  lemma JulianOk()
    ensures CalOk(JulianCal())
  {
    MonthsOk((year: int) => year % 4 == 0, true);
  }

  lemma GregorianOk()
    ensures CalOk(GregorianCal())
  {
    MonthsOk((year: int) => year % 4 == 0 && (year % 100 != 0 || year % 400 == 0), true);
  }

  lemma D360Ok()
    ensures CalOk(D360Cal())
  {
    var c := D360Cal();
    hide DaysTo;
    forall y ensures (DaysTo(c, Index(c, y + 1, 1)) - DaysTo(c, Index(c, y, 1))) * DayLength(c) == 360 * 86400 {
      YearSum(c, y);
    }
  }

  // ---------------------------------------------------------------- the day numbers in closed form

  /** The days of a year before month m. */
  function BeforeMonth(m: int, long: bool): int {
    (367 * m - 362) / 12 - if m <= 2 then 0 else if long then 1 else 2
  }

  lemma MonthsBefore(isLeap: int -> bool, leap: bool, y: int, m: int)
    requires 1 <= m <= 12
    ensures var c := MonthsCal(isLeap, leap); DaysTo(c, y * 12 + m - 1) == DaysTo(c, y * 12) + BeforeMonth(m, isLeap(y))
    decreases m
  {
    hide DaysTo;
    if m > 1 {
      MonthStep(MonthsCal(isLeap, leap), y, m - 2);
      MonthsBefore(isLeap, leap, y, m - 1);
    }
  }

  /** From year z to the next, `leaps` counts the leap years. */
  ghost predicate Counts(isLeap: int -> bool, leaps: int -> int, z: int) {
    leaps(z + 1) == leaps(z) + if isLeap(z) then 1 else 0
  }

  /** The days before year y, if `leaps` counts the leap years from year 0 on. */
  lemma {:induction false} YearsBefore(isLeap: int -> bool, leap: bool, leaps: int -> int, y: int)
    requires leaps(0) == 0 && forall z :: Counts(isLeap, leaps, z)
    ensures DaysTo(MonthsCal(isLeap, leap), y * 12) == 365 * y + leaps(y)
    decreases if y < 0 then -y else y
  {
    hide DaysTo;
    if y == 0 {
      NoDays(MonthsCal(isLeap, leap));
    } else if y > 0 {
      YearsBefore(isLeap, leap, leaps, y - 1);
      MonthsYear(isLeap, leap, y - 1);
      assert Counts(isLeap, leaps, y - 1);
    } else if y < 0 {
      YearsBefore(isLeap, leap, leaps, y + 1);
      MonthsYear(isLeap, leap, y);
      assert Counts(isLeap, leaps, y);
    }
  }

  lemma NoDays(c: Cal)
    requires c.months > 0
    ensures DaysTo(c, 0) == 0
  { }

  lemma DayNumber(isLeap: int -> bool, leap: bool, leaps: int -> int, d: Date)
    requires leaps(0) == 0 && forall z :: Counts(isLeap, leaps, z)
    requires 1 <= d.month <= 12
    ensures AbsDay(MonthsCal(isLeap, leap), d) == 365 * d.year + leaps(d.year) + BeforeMonth(d.month, isLeap(d.year)) + d.day - 1
  {
    hide DaysTo, BeforeMonth, Counts;
    YearsBefore(isLeap, leap, leaps, d.year);
    MonthsBefore(isLeap, leap, d.year, d.month);
  }

  /** The years from 0 on and before y that n divides. */
  function Divided(y: int, n: int): int
    requires n > 0
  {
    (y + n - 1) / n
  }

  lemma DividedStep(z: int, n: int)
    requires n > 0
    ensures Divided(z + 1, n) == Divided(z, n) + if z % n == 0 then 1 else 0
  {
    var q, r := z / n, z % n;
    if r == 0 {
      DivIs(z + n, n, q + 1, 0);
      DivIs(z + n - 1, n, q, n - 1);
    } else {
      DivIs(z + n, n, q + 1, r);
      DivIs(z + n - 1, n, q + 1, r - 1);
    }
  }

  /** The leap years of the gregorian calendar before y. */
  function GregorianLeaps(y: int): int {
    Divided(y, 4) - Divided(y, 100) + Divided(y, 400)
  }

  lemma GregorianStep(z: int)
    ensures GregorianLeaps(z + 1) == GregorianLeaps(z) + if z % 4 == 0 && (z % 100 != 0 || z % 400 == 0) then 1 else 0
  {
    DividedStep(z, 4);
    DividedStep(z, 100);
    DividedStep(z, 400);
    DividesToo(z, 4, 25);
    DividesToo(z, 100, 4);
    hide Divided;
    assert z % 400 == 0 ==> z % 100 == 0;
    assert z % 100 == 0 ==> z % 4 == 0;
  }

  /** A divisor of a divisor. */
  lemma DividesToo(z: int, n: int, k: int)
    requires n > 0 && k > 0
    ensures n * k > 0 && (z % (n * k) == 0 ==> z % n == 0)
  {
    Positive(n, k);
    if z % (n * k) == 0 {
      var q := z / (n * k);
      Turned(q, n, k);
      DivIs(z, n, q * k, 0);
    }
  }

  lemma Positive(n: int, k: int)
    requires n > 0 && k > 0
    ensures n * k > 0
  { }

  lemma Turned(q: int, n: int, k: int)
    ensures q * (n * k) == q * k * n
  { }

  lemma GregorianDay(d: Date)
    requires 1 <= d.month <= 12
    ensures var long := GregorianCal().monthLength(d.year, 2) == 29;
      AbsDay(GregorianCal(), d) == 365 * d.year + GregorianLeaps(d.year) + BeforeMonth(d.month, long) + d.day - 1
  {
    hide AbsDay, BeforeMonth, GregorianLeaps;
    var isLeap := (year: int) => year % 4 == 0 && (year % 100 != 0 || year % 400 == 0);
    var leaps := (y: int) => GregorianLeaps(y);
    assert leaps(0) == 0 by { NoLeaps(); }
    forall z ensures Counts(isLeap, leaps, z) { GregorianStep(z); }
    DayNumber(isLeap, true, leaps, d);
  }

  lemma NoLeaps()
    ensures GregorianLeaps(0) == 0
  { }

  lemma DividedLater(y: int, n: int, k: int)
    requires n > 0
    ensures Divided(y + k * n, n) == Divided(y, n) + k
  {
    var q, r := (y + n - 1) / n, (y + n - 1) % n;
    assert (q + k) * n == q * n + k * n;
    DivIs(y + k * n + n - 1, n, q + k, r);
  }

  /** The calendar repeats after 400 years of 146097 days. */
  lemma GregorianCycle(d: Date)
    requires 1 <= d.month <= 12
    ensures AbsDay(GregorianCal(), d.(year := d.year + 400)) == AbsDay(GregorianCal(), d) + 146097
  {
    GregorianDay(d);
    GregorianDay(d.(year := d.year + 400));
    GregorianLater(d.year);
    LongLater(d.year);
    hide AbsDay, BeforeMonth, GregorianLeaps;
  }

  /** Every year divisible by 4 is a leap year, except those divisible by 100 and not by 400. */
  lemma GregorianLong(y: int)
    ensures GregorianCal().monthLength(y, 2) == 29 <==> y % 4 == 0 && (y % 100 == 0 ==> y % 400 == 0)
  { }

  lemma LongLater(y: int)
    ensures GregorianCal().monthLength(y + 400, 2) == GregorianCal().monthLength(y, 2)
  {
    DivIs(y + 400, 4, y / 4 + 100, y % 4);
    DivIs(y + 400, 100, y / 100 + 4, y % 100);
    DivIs(y + 400, 400, y / 400 + 1, y % 400);
  }

  lemma GregorianLater(y: int)
    ensures GregorianLeaps(y + 400) == GregorianLeaps(y) + 97
  {
    DividedLater(y, 4, 100);
    DividedLater(y, 100, 4);
    DividedLater(y, 400, 1);
    hide Divided;
  }

  lemma JulianDay(d: Date)
    requires 1 <= d.month <= 12
    ensures var long := JulianCal().monthLength(d.year, 2) == 29;
      && AbsDay(JulianCal(), d) == 365 * d.year + Divided(d.year, 4) + BeforeMonth(d.month, long) + d.day - 1
      && (long <==> d.year % 4 == 0)
  {
    hide AbsDay, BeforeMonth;
    var isLeap, leaps := (year: int) => year % 4 == 0, (y: int) => Divided(y, 4);
    assert leaps(0) == 0;
    hide Divided;
    forall z ensures Counts(isLeap, leaps, z) { DividedStep(z, 4); }
    DayNumber(isLeap, true, leaps, d);
  }

  lemma BaseDay(d: Date)
    requires 1 <= d.month <= 12
    ensures AbsDay(BaseCal(), d) == 365 * d.year + BeforeMonth(d.month, false) + d.day - 1
  {
    hide AbsDay, BeforeMonth;
    DayNumber(year => false, false, y => 0, d);
  }

  lemma AllLeapDay(d: Date)
    requires 1 <= d.month <= 12
    ensures AbsDay(AllLeapCal(), d) == 366 * d.year + BeforeMonth(d.month, true) + d.day - 1
  {
    hide AbsDay, BeforeMonth;
    DayNumber(year => true, false, y => y, d);
  }

  lemma {:induction false} D360Days(k: int)
    ensures DaysTo(D360Cal(), k) == 30 * k
    decreases if k < 0 then -k else k
  {
    if k > 0 { D360Days(k - 1); } else if k < 0 { D360Days(k + 1); }
  }

  lemma D360Day(d: Date)
    ensures AbsDay(D360Cal(), d) == 360 * d.year + 30 * (d.month - 1) + d.day - 1
  {
    hide DaysTo;
    D360Days(d.year * 12 + d.month - 1);
  }

  /** With leap years, the first day of a year before the origin's first day is converted to 0. */
  lemma YearBefore(c: Cal, y: int)
    requires CalOk(c) && c.leap && Valid(c, Date(y, 1, 1, 0, 0, 0)) && Valid(c, Date(y + 1, 1, 1, 0, 0, 0))
    ensures var d, origin := Date(y, 1, 1, 0, 0, 0), Date(y + 1, 1, 1, 0, 0, 0);
      TimeOf(c, d, origin) == 0 && AbsSec(c, d) - AbsSec(c, origin) == -c.yearTotal(y)
  {
    FirstDay(c, y);
    FirstDay(c, y + 1);
    SecsApart(c, Date(y, 1, 1, 0, 0, 0), Date(y + 1, 1, 1, 0, 0, 0));
    YearsStep(c, y + 1, y);
    YearsStep(c, y + 1, y + 1);
    hide CalOk, Valid, SecOfYear, AbsSec, YearsSec;
  }

  lemma FirstDay(c: Cal, y: int)
    requires c.months > 0
    ensures SecOfYear(c, Date(y, 1, 1, 0, 0, 0)) == 0
  { }

  /** In the julian calendar with origin 1 January of year 1, 1 January of year 0 is converted to 0, though it
      lies 366 days earlier. */
  lemma TimeFails()
    ensures var c, d, origin := JulianCal(), Date(0, 1, 1, 0, 0, 0), Date(1, 1, 1, 0, 0, 0);
      && CalOk(c) && Valid(c, d) && Valid(c, origin)
      && TimeOf(c, d, origin) == 0 && AbsSec(c, d) - AbsSec(c, origin) == -366 * 86400
  {
    hide CalOk, SecOfYear, AbsSec, YearsSec, TimeOf;
    JulianOk();
    YearBefore(JulianCal(), 0);
  }
}
