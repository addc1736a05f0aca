/** Calendars, dates and durations (src/calendar.cpp, src/date.cpp, src/duration.cpp), and the number of
    days and seconds that a date stands for. */
module CalendarMath {

  /** C++ division and remainder of integers, which truncate towards zero. */
  function TDiv(a: int, b: int): int
    requires b > 0
  {
    if a >= 0 then a / b else -((-a) / b)
  }

  function TMod(a: int, b: int): int
    requires b > 0
  {
    a - b * TDiv(a, b)
  }

  /** A calendar: months in a year, hours in a day, minutes in an hour, seconds in a minute, the days of
      a month of a year, the seconds of a year, and whether years may differ. */
  datatype Cal = Cal(
    months: int, dayLen: int, hourLen: int, minLen: int,
    monthLength: (int, int) -> int, yearTotal: int -> int, leap: bool)

  datatype Date = Date(year: int, month: int, day: int, hour: int, minute: int, second: int)

  datatype Duration = Duration(year: int, month: int, day: int, hour: int, minute: int, second: int, timestep: int)

  const NONE := Duration(0, 0, 0, 0, 0, 0, 0)

  function DayLength(c: Cal): int {
    c.dayLen * c.hourLen * c.minLen
  }

  /** Months are counted through the years: month m of year y has index y * months + m - 1. */
  function Index(c: Cal, year: int, month: int): int {
    year * c.months + month - 1
  }

  /** The days of the month with index k. */
  function Len(c: Cal, k: int): int
    requires c.months > 0
  {
    c.monthLength(k / c.months, k % c.months + 1)
  }

  /** The days from month 0 to month k, negative for earlier months. */
  function DaysTo(c: Cal, k: int): int
    requires c.months > 0
    decreases if k < 0 then -k else k
  {
    if k == 0 then 0 else if k > 0 then DaysTo(c, k - 1) + Len(c, k - 1) else DaysTo(c, k + 1) - Len(c, k)
  }

  /** What the code assumes of a calendar (with months). */
  ghost predicate CalOk(c: Cal) {
    && c.months >= 1 && c.dayLen >= 1 && c.hourLen >= 1 && c.minLen >= 1
    && (forall k {:trigger Len(c, k)} :: Len(c, k) >= 1)
    && (forall y {:trigger c.yearTotal(y)} ::
          c.yearTotal(y) == (DaysTo(c, Index(c, y + 1, 1)) - DaysTo(c, Index(c, y, 1))) * DayLength(c))
    && (!c.leap ==> forall y, z {:trigger c.yearTotal(y), c.yearTotal(z)} :: c.yearTotal(y) == c.yearTotal(z))
  }

  predicate Valid(c: Cal, d: Date) {
    && 1 <= d.month <= c.months && 1 <= d.day <= c.monthLength(d.year, d.month)
    && 0 <= d.hour < c.dayLen && 0 <= d.minute < c.hourLen && 0 <= d.second < c.minLen
  }

  /** Seconds within the day. */
  function TimeOfDay(c: Cal, h: int, m: int, s: int): int {
    (h * c.hourLen + m) * c.minLen + s
  }

  function AbsDay(c: Cal, d: Date): int
    requires c.months > 0
  {
    DaysTo(c, Index(c, d.year, d.month)) + d.day - 1
  }

  /** The seconds since the beginning of year 0. */
  function AbsSec(c: Cal, d: Date): int
    requires c.months > 0
  {
    AbsDay(c, d) * DayLength(c) + TimeOfDay(c, d.hour, d.minute, d.second)
  }

  /** The seconds of the days, hours, minutes and seconds of a duration, and its months. */
  function Secs(c: Cal, dr: Duration): int {
    dr.day * DayLength(c) + TimeOfDay(c, dr.hour, dr.minute, dr.second)
  }

  function Months(c: Cal, dr: Duration): int {
    dr.year * c.months + dr.month
  }

  // ---------------------------------------------------------------- arithmetic

  lemma MulMono(x: int, y: int, z: int)
    requires x <= y && 0 <= z
    ensures x * z <= y * z
  {}

  lemma DivIs(a: int, b: int, q: int, r: int)
    requires b > 0 && a == q * b + r && 0 <= r < b
    ensures a / b == q && a % b == r
  {
    var x := a / b;
    assert a == x * b + a % b;
    assert (x + 1) * b == x * b + b && (q + 1) * b == q * b + b;
    if x < q { MulMono(x + 1, q, b); }
    if x > q { MulMono(q + 1, x, b); }
  }

  lemma IndexNext(c: Cal, year: int, month: int)
    ensures Index(c, year, month + 1) == Index(c, year, month) + 1
    ensures Index(c, year + 1, month) == Index(c, year, month) + c.months
  {
    assert (year + 1) * c.months == year * c.months + c.months;
  }

  lemma IndexIs(c: Cal, year: int, month: int)
    requires c.months >= 1 && 1 <= month <= c.months
    ensures Index(c, year, month) / c.months == year && Index(c, year, month) % c.months + 1 == month
    ensures Len(c, Index(c, year, month)) == c.monthLength(year, month)
  {
    DivIs(Index(c, year, month), c.months, year, month - 1);
  }

  lemma DayLengthPos(c: Cal)
    requires CalOk(c)
    ensures DayLength(c) >= 1 && DayLength(c) == c.dayLen * (c.hourLen * c.minLen) && c.hourLen * c.minLen >= 1
  {
    MulMono(1, c.hourLen, c.minLen);
    MulMono(1, c.dayLen, c.hourLen * c.minLen);
    assert c.dayLen * c.hourLen * c.minLen == c.dayLen * (c.hourLen * c.minLen);
  }

  /** Hours, minutes and seconds are the digits of the seconds within the day. */
  lemma Digits(c: Cal, t: int)
    requires CalOk(c) && 0 <= t < DayLength(c)
    ensures c.hourLen * c.minLen > 0
    ensures var n := c.hourLen * c.minLen;
      var h, m, s := t / n, t % n / c.minLen, t % n % c.minLen;
      0 <= h < c.dayLen && 0 <= m < c.hourLen && 0 <= s < c.minLen && TimeOfDay(c, h, m, s) == t
  {
    DayLengthPos(c);
    var n := c.hourLen * c.minLen;
    var h, u := t / n, t % n;
    Quotient(t, n, c.dayLen);
    Quotient(u, c.minLen, c.hourLen);
    Horner(h, c.hourLen, u / c.minLen, c.minLen, u % c.minLen);
  }

  lemma Quotient(t: int, n: int, k: int)
    requires n > 0 && 0 <= t < k * n
    ensures 0 <= t / n < k && 0 <= t % n < n && t == t / n * n + t % n
  {
    if t / n >= k { MulMono(k, t / n, n); }
    if t / n < 0 { MulMono(t / n, -1, n); }
  }

  lemma Horner(h: int, a: int, m: int, b: int, s: int)
    ensures (h * a + m) * b + s == h * (a * b) + (m * b + s)
  {
    assert (h * a + m) * b == h * a * b + m * b;
    assert h * a * b == h * (a * b);
  }

  lemma TimeBound(c: Cal, h: int, m: int, s: int)
    requires CalOk(c) && 0 <= h < c.dayLen && 0 <= m < c.hourLen && 0 <= s < c.minLen
    ensures 0 <= TimeOfDay(c, h, m, s) < DayLength(c)
  {
    DayLengthPos(c);
    MulMono(h + 1, c.dayLen, c.hourLen);
    assert (h + 1) * c.hourLen == h * c.hourLen + c.hourLen;
    MulMono(0, h, c.hourLen);
    MulMono(h * c.hourLen + m + 1, c.dayLen * c.hourLen, c.minLen);
    MulMono(0, h * c.hourLen + m, c.minLen);
    assert (h * c.hourLen + m + 1) * c.minLen == (h * c.hourLen + m) * c.minLen + c.minLen;
  }

  // ---------------------------------------------------------------- days and seconds are faithful

  lemma {:induction false} DaysStep(c: Cal, k: int)
    requires c.months > 0
    ensures DaysTo(c, k + 1) == DaysTo(c, k) + Len(c, k)
  {}

  lemma {:induction false} DaysMono(c: Cal, j: int, k: int)
    requires CalOk(c) && j <= k
    ensures DaysTo(c, j) + (k - j) <= DaysTo(c, k)
    decreases k - j
  {
    if j < k {
      DaysStep(c, k - 1);
      DaysMono(c, j, k - 1);
      assert Len(c, k - 1) >= 1;
    }
  }

  /** The order on dates of src/calendar_util.cpp. */
  predicate Less(a: Date, b: Date) {
    a.year < b.year || (a.year == b.year && (
    a.month < b.month || (a.month == b.month && (
    a.day < b.day || (a.day == b.day && (
    a.hour < b.hour || (a.hour == b.hour && (
    a.minute < b.minute || (a.minute == b.minute && a.second < b.second)))))))))
  }

  lemma IndexLess(c: Cal, y: int, m: int, y': int, m': int)
    requires CalOk(c) && y < y' && 1 <= m <= c.months && 1 <= m' <= c.months
    ensures y * c.months + m < y' * c.months + m'
  {
    MulMono(y + 1, y', c.months);
    assert (y + 1) * c.months == y * c.months + c.months;
  }

  lemma LessDay(c: Cal, a: Date, b: Date)
    requires CalOk(c) && Valid(c, a) && Valid(c, b)
    requires a.year < b.year || (a.year == b.year && (a.month < b.month || (a.month == b.month && a.day < b.day)))
    ensures AbsDay(c, a) < AbsDay(c, b)
  {
    var j, k := Index(c, a.year, a.month), Index(c, b.year, b.month);
    IndexIs(c, a.year, a.month);
    IndexIs(c, b.year, b.month);
    if a.year < b.year { IndexLess(c, a.year, a.month, b.year, b.month); }
    if j < k {
      DaysStep(c, j);
      DaysMono(c, j + 1, k);
    }
  }

  lemma LessTime(c: Cal, h: int, m: int, s: int, h': int, m': int, s': int)
    requires CalOk(c) && 0 <= m < c.hourLen && 0 <= s < c.minLen && 0 <= m' && 0 <= s'
    requires h < h' || (h == h' && (m < m' || (m == m' && s < s')))
    ensures TimeOfDay(c, h, m, s) < TimeOfDay(c, h', m', s')
  {
    var x, y := h * c.hourLen + m, h' * c.hourLen + m';
    if h < h' {
      MulMono(h + 1, h', c.hourLen);
      assert (h + 1) * c.hourLen == h * c.hourLen + c.hourLen;
      assert x < y;
    }
    if x < y {
      MulMono(x + 1, y, c.minLen);
      assert (x + 1) * c.minLen == x * c.minLen + c.minLen;
    }
  }

  lemma LessSec(c: Cal, a: Date, b: Date)
    requires CalOk(c) && Valid(c, a) && Valid(c, b) && Less(a, b)
    ensures AbsSec(c, a) < AbsSec(c, b)
  {
    TimeBound(c, a.hour, a.minute, a.second);
    TimeBound(c, b.hour, b.minute, b.second);
    if a.year == b.year && a.month == b.month && a.day == b.day {
      LessTime(c, a.hour, a.minute, a.second, b.hour, b.minute, b.second);
    } else {
      LessDay(c, a, b);
      hide AbsDay, DayLength, TimeOfDay, CalOk, Valid;
      LessBlock(AbsDay(c, a), AbsDay(c, b), DayLength(c), TimeOfDay(c, a.hour, a.minute, a.second));
    }
  }

  lemma LessBlock(x: int, y: int, n: int, u: int)
    requires x < y && 0 <= u < n
    ensures x * n + u < y * n
  {
    MulMono(x + 1, y, n);
    assert (x + 1) * n == x * n + n;
  }

  /** The seconds order valid dates as operator< does, and tell them apart. */
  lemma OrderFaithful(c: Cal, a: Date, b: Date)
    requires CalOk(c) && Valid(c, a) && Valid(c, b)
    ensures Less(a, b) <==> AbsSec(c, a) < AbsSec(c, b)
    ensures a == b <==> AbsSec(c, a) == AbsSec(c, b)
  {
    if Less(a, b) { LessSec(c, a, b); }
    if Less(b, a) { LessSec(c, b, a); }
    assert !Less(a, b) && !Less(b, a) ==> a == b;
  }

  // ---------------------------------------------------------------- the date of a second

  /** The month and the day in it, n days after the first day of month k. */
  function FindMonth(c: Cal, k: int, n: int): (r: (int, int))
    requires CalOk(c)
    ensures 0 <= r.1 < Len(c, r.0) && DaysTo(c, r.0) + r.1 == DaysTo(c, k) + n
    decreases if n < 0 then 1 - n else if n >= Len(c, k) then n else 0
  {
    if n < 0 then (DaysStep(c, k - 1); assert Len(c, k - 1) >= 1; FindMonth(c, k - 1, n + Len(c, k - 1)))
    else if n >= Len(c, k) then (DaysStep(c, k); assert Len(c, k) >= 1; FindMonth(c, k + 1, n - Len(c, k)))
    else (k, n)
  }

  /** The valid date that is a seconds after the beginning of year 0. */
  function FromSec(c: Cal, a: int): (d: Date)
    requires CalOk(c)
    ensures Valid(c, d) && AbsSec(c, d) == a
  {
    DayLengthPos(c);
    var q, t, n := a / DayLength(c), a % DayLength(c), c.hourLen * c.minLen;
    var (k, i) := FindMonth(c, 0, q);
    Digits(c, t);
    var d := Date(k / c.months, k % c.months + 1, i + 1, t / n, t % n / c.minLen, t % n % c.minLen);
    FromSecIs(c, a, k, i, d);
    d
  }

  lemma FromSecIs(c: Cal, a: int, k: int, i: int, d: Date)
    requires CalOk(c) && DayLength(c) > 0 && 0 <= i < Len(c, k) && DaysTo(c, k) + i == a / DayLength(c)
    requires d.year == k / c.months && d.month == k % c.months + 1 && d.day == i + 1
    requires TimeOfDay(c, d.hour, d.minute, d.second) == a % DayLength(c)
    ensures 1 <= d.month <= c.months && 1 <= d.day <= c.monthLength(d.year, d.month) && AbsSec(c, d) == a
  {
    hide DaysTo, TimeOfDay, DayLength;
    assert Index(c, d.year, d.month) == k;
    assert AbsDay(c, d) == a / DayLength(c);
    DivMod(a, DayLength(c));
  }

  lemma DivMod(a: int, b: int)
    requires b > 0
    ensures a == a / b * b + a % b
  {}

  /** Moving a date by months: the month index adds, the day is clamped to the length of the month. */
  function Shift(c: Cal, d: Date, months: int): Date
    requires c.months > 0
  {
    var k := Index(c, d.year, d.month) + months;
    d.(year := k / c.months, month := k % c.months + 1, day := if d.day <= Len(c, k) then d.day else Len(c, k))
  }

  /** What operator+ promises: first move by the seconds, then by the months. */
  function DatePlus(c: Cal, d: Date, dr: Duration): Date
    requires CalOk(c)
  {
    Shift(c, FromSec(c, AbsSec(c, d) + Secs(c, dr)), Months(c, dr))
  }

  lemma ShiftValid(c: Cal, d: Date, months: int)
    requires CalOk(c) && Valid(c, d)
    ensures Valid(c, Shift(c, d, months))
    ensures Index(c, Shift(c, d, months).year, Shift(c, d, months).month) == Index(c, d.year, d.month) + months
    ensures months == 0 ==> Shift(c, d, months) == d
  {
    var k := Index(c, d.year, d.month) + months;
    assert k == k / c.months * c.months + k % c.months;
    assert Len(c, k) >= 1;
    IndexIs(c, d.year, d.month);
  }

  predicate TimeOnly(dr: Duration) {
    dr.year == 0 && dr.month == 0 && dr.timestep == 0
  }

  function AddDur(a: Duration, b: Duration): Duration {
    Duration(a.year + b.year, a.month + b.month, a.day + b.day, a.hour + b.hour,
             a.minute + b.minute, a.second + b.second, a.timestep + b.timestep)
  }

  function NegDur(a: Duration): Duration {
    Duration(-a.year, -a.month, -a.day, -a.hour, -a.minute, -a.second, -a.timestep)
  }

  function MulDur(n: int, a: Duration): Duration {
    Duration(n * a.year, n * a.month, n * a.day, n * a.hour, n * a.minute, n * a.second, n * a.timestep)
  }

  /** Adding days, hours, minutes and seconds of either sign is exact. */
  lemma PlusExact(c: Cal, d: Date, dr: Duration)
    requires CalOk(c) && Valid(c, d) && TimeOnly(dr)
    ensures Valid(c, DatePlus(c, d, dr)) && AbsSec(c, DatePlus(c, d, dr)) == AbsSec(c, d) + Secs(c, dr)
  {
    ShiftValid(c, FromSec(c, AbsSec(c, d) + Secs(c, dr)), 0);
  }

  lemma SecsAdd(c: Cal, a: Duration, b: Duration)
    ensures Secs(c, AddDur(a, b)) == Secs(c, a) + Secs(c, b)
  {
    var n := DayLength(c);
    assert (a.day + b.day) * n == a.day * n + b.day * n;
    assert (a.hour + b.hour) * c.hourLen == a.hour * c.hourLen + b.hour * c.hourLen;
    var x, y := a.hour * c.hourLen + a.minute, b.hour * c.hourLen + b.minute;
    assert (x + y) * c.minLen == x * c.minLen + y * c.minLen;
  }

  lemma SecsNone(c: Cal)
    ensures Secs(c, NONE) == 0
  {}

  /** So it is associative, and subtraction undoes it. */
  lemma PlusAssociative(c: Cal, d: Date, a: Duration, b: Duration)
    requires CalOk(c) && Valid(c, d) && TimeOnly(a) && TimeOnly(b)
    ensures DatePlus(c, DatePlus(c, d, a), b) == DatePlus(c, d, AddDur(a, b))
  {
    PlusExact(c, d, a);
    PlusExact(c, DatePlus(c, d, a), b);
    PlusExact(c, d, AddDur(a, b));
    SecsAdd(c, a, b);
    OrderFaithful(c, DatePlus(c, DatePlus(c, d, a), b), DatePlus(c, d, AddDur(a, b)));
  }

  lemma PlusMinus(c: Cal, d: Date, a: Duration)
    requires CalOk(c) && Valid(c, d) && TimeOnly(a)
    ensures DatePlus(c, DatePlus(c, d, a), NegDur(a)) == d
  {
    PlusAssociative(c, d, a, NegDur(a));
    assert AddDur(a, NegDur(a)) == NONE;
    SecsNone(c);
    PlusExact(c, d, NONE);
    OrderFaithful(c, DatePlus(c, d, NONE), d);
  }

  lemma MulSucc(n: int, a: Duration)
    ensures MulDur(n + 1, a) == AddDur(MulDur(n, a), a)
  {}

  /** With a time step of days, hours, minutes and seconds, one step more is one time step later. */
  lemma StepLater(c: Cal, d: Date, n: int, step: Duration)
    requires CalOk(c) && Valid(c, d) && TimeOnly(step)
    ensures DatePlus(c, d, MulDur(n + 1, step)) == DatePlus(c, DatePlus(c, d, MulDur(n, step)), step)
  {
    MulSucc(n, step);
    PlusAssociative(c, d, MulDur(n, step), step);
  }

  /** A duration of years and months alone adds to the month index and clamps the day. */
  lemma PlusMonths(c: Cal, d: Date, y: int, m: int)
    requires CalOk(c) && Valid(c, d)
    ensures var r := DatePlus(c, d, Duration(y, m, 0, 0, 0, 0, 0));
      && Valid(c, r) && Index(c, r.year, r.month) == Index(c, d.year, d.month) + y * c.months + m
      && r.day == (if d.day <= c.monthLength(r.year, r.month) then d.day else c.monthLength(r.year, r.month))
      && (r.hour, r.minute, r.second) == (d.hour, d.minute, d.second)
  {
    var dr := Duration(y, m, 0, 0, 0, 0, 0);
    assert Secs(c, dr) == 0;
    OrderFaithful(c, FromSec(c, AbsSec(c, d)), d);
    ShiftValid(c, d, Months(c, dr));
    var r := Shift(c, d, Months(c, dr));
    IndexIs(c, r.year, r.month);
  }

  lemma SecsMul(c: Cal, n: int, a: Duration)
    ensures Secs(c, MulDur(n, a)) == n * Secs(c, a)
  {
    var x := a.hour * c.hourLen + a.minute;
    assert n * a.hour * c.hourLen + n * a.minute == n * x;
    assert n * x * c.minLen == n * (x * c.minLen);
    assert n * a.day * DayLength(c) == n * (a.day * DayLength(c));
  }

  /** r is the date that lies secs seconds after d, moved by a number of months: the month index adds, the day is
      clamped to the month, and the time of day stays. */
  ghost predicate Later(c: Cal, d: Date, r: Date, secs: int, months: int)
    requires CalOk(c)
  {
    Valid(c, r) && exists x: Date :: Valid(c, x) && AbsSec(c, x) == AbsSec(c, d) + secs && MovedMonths(c, x, r, months)
  }

  predicate MovedMonths(c: Cal, x: Date, r: Date, months: int) {
    && Index(c, r.year, r.month) == Index(c, x.year, x.month) + months
    && r.day == (if x.day <= c.monthLength(r.year, r.month) then x.day else c.monthLength(r.year, r.month))
    && (r.hour, r.minute, r.second) == (x.hour, x.minute, x.second)
  }

  lemma PlusLater(c: Cal, d: Date, dr: Duration)
    requires CalOk(c) && Valid(c, d)
    ensures Later(c, d, DatePlus(c, d, dr), Secs(c, dr), Months(c, dr))
  {
    var x := FromSec(c, AbsSec(c, d) + Secs(c, dr));
    ShiftValid(c, x, Months(c, dr));
    var r := Shift(c, x, Months(c, dr));
    IndexIs(c, r.year, r.month);
    hide CalOk, Valid, AbsSec, Secs, Months, FromSec;
    assert MovedMonths(c, x, r, Months(c, dr));
  }

  /** There is only one such date. */
  lemma LaterIsOne(c: Cal, d: Date, r: Date, r': Date, secs: int, months: int)
    requires CalOk(c) && Later(c, d, r, secs, months) && Later(c, d, r', secs, months)
    ensures r == r'
  {
    var x :| Valid(c, x) && AbsSec(c, x) == AbsSec(c, d) + secs && MovedMonths(c, x, r, months);
    var y :| Valid(c, y) && AbsSec(c, y) == AbsSec(c, d) + secs && MovedMonths(c, y, r', months);
    OrderFaithful(c, x, y);
    IndexIs(c, r.year, r.month);
    IndexIs(c, r'.year, r'.month);
  }

  /** Without months, it lies exactly so many seconds later. */
  lemma LaterExact(c: Cal, d: Date, r: Date, secs: int)
    requires CalOk(c) && Later(c, d, r, secs, 0)
    ensures AbsSec(c, r) == AbsSec(c, d) + secs
  {
    var x :| Valid(c, x) && AbsSec(c, x) == AbsSec(c, d) + secs && MovedMonths(c, x, r, 0);
    IndexIs(c, r.year, r.month);
    IndexIs(c, x.year, x.month);
    assert r == x;
  }

  lemma MonthsAdd(c: Cal, a: Duration, b: Duration)
    ensures Months(c, AddDur(a, b)) == Months(c, a) + Months(c, b)
  {
    assert (a.year + b.year) * c.months == a.year * c.months + b.year * c.months;
  }

  lemma MonthsMul(c: Cal, n: int, a: Duration)
    ensures Months(c, MulDur(n, a)) == n * Months(c, a)
  {
    assert n * a.year * c.months == n * (a.year * c.months);
  }
}
