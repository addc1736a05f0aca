/** The date and calendar operations, with the loops of src/calendar_util.cpp, src/calendar.cpp and
    src/date.cpp, proved against the specifications of CalendarMath. */
module Calendar {
  import opened Wrappers
  import opened CalendarMath

  // ---------------------------------------------------------------- resolve

  /** CCalendar::resolve for integer components.  The seconds and the months that a duration stands for
      stay; months end up strictly between minus a year and a year; with noNegativeTime the time of day
      ends up in range. */
  method Resolve(c: Cal, dur0: Duration, noNegativeTime: bool) returns (dur: Duration)
    requires CalOk(c)
    ensures Secs(c, dur) == Secs(c, dur0) && Months(c, dur) == Months(c, dur0)
    ensures -c.months < dur.month < c.months && dur.timestep == dur0.timestep
    ensures noNegativeTime || InRange(c, dur0) ==> InRange(c, dur)
    ensures InRange(c, dur0) ==>
      (dur.day, dur.hour, dur.minute, dur.second) == (dur0.day, dur0.hour, dur0.minute, dur0.second)
  {
    DayLengthPos(c);
    if InRange(c, dur0) { TimeBound(c, dur0.hour, dur0.minute, dur0.second); }
    hide TDiv, TMod, DayLength, DaysTo, Len;
    var hourLengthInSeconds := c.hourLen * c.minLen;
    var day, t := ResolveDays(c, dur0.day, TimeOfDay(c, dur0.hour, dur0.minute, dur0.second), noNegativeTime);
    var hour := TDiv(t, hourLengthInSeconds);
    var rest := TMod(t, hourLengthInSeconds);
    SplitTime(c, t, hour, rest);
    dur := dur0.(day := day, hour := hour, minute := TDiv(rest, c.minLen), second := TMod(rest, c.minLen));
    if InRange(c, dur0) {
      TimeUnique(c, dur0.hour, dur0.minute, dur0.second, dur.hour, dur.minute, dur.second);
    }
    MonthsKept(c, dur.year, dur.month);
    dur := dur.(year := dur.year + TDiv(dur.month, c.months), month := TMod(dur.month, c.months));
  }

  /** The part of resolve that turns a number of seconds into days. */
  method ResolveDays(c: Cal, day0: int, t0: int, noNegativeTime: bool) returns (day: int, t: int)
    requires CalOk(c)
    ensures day * DayLength(c) + t == day0 * DayLength(c) + t0
    ensures noNegativeTime || 0 <= t0 < DayLength(c) ==> 0 <= t < DayLength(c)
    ensures 0 <= t0 < DayLength(c) ==> day == day0
  {
    DayLengthPos(c);
    var n := DayLength(c);
    TDivMod(t0, n);
    if 0 <= t0 < n { TDivSmall(t0, n); }
    assert (day0 + TDiv(t0, n)) * n == day0 * n + TDiv(t0, n) * n;
    hide TDiv, TMod, DayLength;
    day := day0 + TDiv(t0, n);
    t := TMod(t0, n);
    if noNegativeTime {
      while t < 0
        invariant -n < t < n && day * n + t == day0 * n + t0
        invariant 0 <= t0 < n ==> t >= 0 && day == day0
        decreases -t
      {
        assert (day - 1) * n == day * n - n;
        t := t + n;
        day := day - 1;
      }
    }
  }

  lemma TimeUnique(c: Cal, h: int, m: int, s: int, h': int, m': int, s': int)
    requires CalOk(c) && TimeOfDay(c, h, m, s) == TimeOfDay(c, h', m', s')
    requires 0 <= m < c.hourLen && 0 <= s < c.minLen && 0 <= m' < c.hourLen && 0 <= s' < c.minLen
    ensures h == h' && m == m' && s == s'
  {
    if h < h' || (h == h' && (m < m' || (m == m' && s < s'))) { LessTime(c, h, m, s, h', m', s'); }
    if h' < h || (h' == h && (m' < m || (m' == m && s' < s))) { LessTime(c, h', m', s', h, m, s); }
  }

  lemma MonthsKept(c: Cal, year: int, month: int)
    requires c.months > 0
    ensures (year + TDiv(month, c.months)) * c.months + TMod(month, c.months) == year * c.months + month
    ensures -c.months < TMod(month, c.months) < c.months
  {
    TDivMod(month, c.months);
    assert (year + TDiv(month, c.months)) * c.months == year * c.months + TDiv(month, c.months) * c.months;
  }

  /** The time part is a time of day. */
  predicate InRange(c: Cal, dur: Duration) {
    0 <= dur.hour < c.dayLen && 0 <= dur.minute < c.hourLen && 0 <= dur.second < c.minLen
  }

  lemma TDivMod(a: int, b: int)
    requires b > 0
    ensures a == TDiv(a, b) * b + TMod(a, b) && -b < TMod(a, b) < b
    ensures a >= 0 ==> TDiv(a, b) == a / b && TMod(a, b) == a % b >= 0
  {
    DivMod(a, b);
    DivMod(-a, b);
    assert -((-a) / b) * b == -((-a) / b * b);
  }

  lemma TDivSmall(a: int, b: int)
    requires 0 <= a < b
    ensures TDiv(a, b) == 0 && TMod(a, b) == a
  {
    DivIs(a, b, 0, a);
  }

  /** Hours, minutes and seconds of t, whatever its sign. */
  lemma SplitTime(c: Cal, t: int, h: int, u: int)
    requires CalOk(c) && c.hourLen * c.minLen > 0
    requires h == TDiv(t, c.hourLen * c.minLen) && u == TMod(t, c.hourLen * c.minLen)
    ensures TimeOfDay(c, h, TDiv(u, c.minLen), TMod(u, c.minLen)) == t
    ensures 0 <= t < DayLength(c) ==>
      0 <= h < c.dayLen && 0 <= TDiv(u, c.minLen) < c.hourLen && 0 <= TMod(u, c.minLen) < c.minLen
  {
    hide TDiv, TMod, DayLength;
    var n := c.hourLen * c.minLen;
    TDivMod(t, n);
    TDivMod(u, c.minLen);
    var m := TDiv(u, c.minLen);
    assert (h * c.hourLen + m) * c.minLen == h * c.hourLen * c.minLen + m * c.minLen;
    assert h * c.hourLen * c.minLen == h * n;
    if 0 <= t < DayLength(c) { Digits(c, t); }
  }

  // ---------------------------------------------------------------- dates

  method AddMonth(c: Cal, d0: Date, value: int) returns (d: Date)
    requires CalOk(c) && (value == 1 || value == -1) && 1 <= d0.month <= c.months
    ensures d == d0.(year := d.year, month := d.month) && 1 <= d.month <= c.months
    ensures Index(c, d.year, d.month) == Index(c, d0.year, d0.month) + value
  {
    d := d0.(month := d0.month + value);
    if d.month == c.months + 1 { d := d.(year := d.year + 1, month := 1); }
    if d.month == 0 { d := d.(year := d.year - 1, month := c.months); }
    assert (d0.year + 1) * c.months == d0.year * c.months + c.months;
    assert (d0.year - 1) * c.months == d0.year * c.months - c.months;
  }

  /** Clamps each field into its range, the day to the length of the clamped month. */
  function Clamp(lo: int, x: int, hi: int): int {
    if x < lo then lo else if x > hi then hi else x
  }

  method CheckDate(c: Cal, d0: Date) returns (isValid: bool, d: Date)
    requires CalOk(c)
    ensures isValid <==> Valid(c, d0)
    ensures Valid(c, d) && (isValid ==> d == d0)
    ensures d.year == d0.year && d.month == Clamp(1, d0.month, c.months)
    ensures d.day == Clamp(1, d0.day, c.monthLength(d.year, d.month))
    ensures d.hour == Clamp(0, d0.hour, c.dayLen - 1) && d.minute == Clamp(0, d0.minute, c.hourLen - 1)
    ensures d.second == Clamp(0, d0.second, c.minLen - 1)
  {
    isValid, d := true, d0;
    if d.month < 1 { isValid := false; d := d.(month := 1); }
    else if d.month > c.months { isValid := false; d := d.(month := c.months); }
    IndexIs(c, d.year, d.month);
    assert Len(c, Index(c, d.year, d.month)) >= 1;
    if d.day < 1 { isValid := false; d := d.(day := 1); }
    else if d.day > c.monthLength(d.year, d.month) { isValid := false; d := d.(day := c.monthLength(d.year, d.month)); }
    if d.hour < 0 { isValid := false; d := d.(hour := 0); }
    else if d.hour >= c.dayLen { isValid := false; d := d.(hour := c.dayLen - 1); }
    if d.minute < 0 { isValid := false; d := d.(minute := 0); }
    else if d.minute >= c.hourLen { isValid := false; d := d.(minute := c.hourLen - 1); }
    if d.second < 0 { isValid := false; d := d.(second := 0); }
    else if d.second >= c.minLen { isValid := false; d := d.(second := c.minLen - 1); }
  }

  /** Date d, in the month `months` months after that of d0. */
  ghost predicate Moved(c: Cal, d0: Date, d: Date, months: int) {
    && d == d0.(year := d.year, month := d.month) && 1 <= d.month <= c.months
    && Index(c, d.year, d.month) == Index(c, d0.year, d0.month) + months
  }

  lemma MonthFacts(c: Cal, d: Date)
    requires CalOk(c) && 1 <= d.month <= c.months
    ensures var k := Index(c, d.year, d.month);
      c.monthLength(d.year, d.month) >= 1 && DaysTo(c, k + 1) == DaysTo(c, k) + c.monthLength(d.year, d.month)
  {
    var k := Index(c, d.year, d.month);
    IndexIs(c, d.year, d.month);
    DaysStep(c, k);
    assert Len(c, k) >= 1;
  }

  /** The month loops of operator+: n days after the first day of d's month, forward ... */
  method WalkForward(c: Cal, d0: Date, n: int) returns (d: Date, day: int, months: int)
    requires CalOk(c) && 1 <= d0.month <= c.months && n >= 0
    ensures Moved(c, d0, d, months) && 1 <= day <= c.monthLength(d.year, d.month)
    ensures DaysTo(c, Index(c, d.year, d.month)) + day - 1 == DaysTo(c, Index(c, d0.year, d0.month)) + n
  {
    hide DaysTo, Index;
    var rest := n;
    d, months := d0, 0;
    while c.monthLength(d.year, d.month) <= rest
      invariant Moved(c, d0, d, months) && rest >= 0
      invariant DaysTo(c, Index(c, d.year, d.month)) + rest == DaysTo(c, Index(c, d0.year, d0.month)) + n
      decreases rest
    {
      MonthFacts(c, d);
      rest := rest - c.monthLength(d.year, d.month);
      months := months + 1;
      d := AddMonth(c, d, 1);
    }
    day := rest + 1;
  }

  /** ... or backward. */
  method WalkBackward(c: Cal, d0: Date, n: int) returns (d: Date, day: int, months: int)
    requires CalOk(c) && 1 <= d0.month <= c.months && n < 0
    ensures Moved(c, d0, d, months) && 1 <= day <= c.monthLength(d.year, d.month)
    ensures DaysTo(c, Index(c, d.year, d.month)) + day - 1 == DaysTo(c, Index(c, d0.year, d0.month)) + n
  {
    hide DaysTo, Index;
    var rest := n;
    d := AddMonth(c, d0, -1);
    months := -1;
    MonthFacts(c, d);
    while c.monthLength(d.year, d.month) < -rest
      invariant Moved(c, d0, d, months) && rest < 0
      invariant DaysTo(c, Index(c, d.year, d.month) + 1) + rest == DaysTo(c, Index(c, d0.year, d0.month)) + n
      decreases -rest
    {
      MonthFacts(c, d);
      rest := rest + c.monthLength(d.year, d.month);
      months := months - 1;
      d := AddMonth(c, d, -1);
    }
    MonthFacts(c, d);
    day := c.monthLength(d.year, d.month) + rest + 1;
  }

  // ---------------------------------------------------------------- date + duration

  /** A duration whose time steps are expanded. */
  function Expand(dr: Duration, timestep: Duration): Duration {
    AddDur(dr.(timestep := 0), MulDur(dr.timestep, timestep))
  }

  /** The seconds and the months of a duration, with those of its time steps. */
  function AllSecs(c: Cal, dr: Duration, timestep: Duration): int {
    Secs(c, dr) + dr.timestep * Secs(c, timestep)
  }

  function AllMonths(c: Cal, dr: Duration, timestep: Duration): int {
    Months(c, dr) + dr.timestep * Months(c, timestep)
  }

  lemma ExpandIs(c: Cal, dr: Duration, timestep: Duration)
    ensures Secs(c, Expand(dr, timestep)) == AllSecs(c, dr, timestep)
    ensures Months(c, Expand(dr, timestep)) == AllMonths(c, dr, timestep)
  {
    SecsAdd(c, dr.(timestep := 0), MulDur(dr.timestep, timestep));
    SecsMul(c, dr.timestep, timestep);
    MonthsAdd(c, dr.(timestep := 0), MulDur(dr.timestep, timestep));
    MonthsMul(c, dr.timestep, timestep);
  }

  /** operator+(CDate, CDuration) for calendars with months.  It fails exactly when the duration has time steps and the
      calendar's is not set.  Else the date moves by all the seconds, those of the time steps too, and then by all the
      months. */
  method Plus(c: Cal, timestep: Duration, dt: Date, dr: Duration) returns (r: Result<Date>)
    requires CalOk(c) && Valid(c, dt) && timestep.timestep == 0
    ensures r.Ok? <==> dr.timestep == 0 || timestep != NONE
    ensures r.Ok? ==> Valid(c, r.value)
    ensures r.Ok? ==> Later(c, dt, r.value, Secs(c, dr) + dr.timestep * Secs(c, timestep), Months(c, dr) + dr.timestep * Months(c, timestep))
    ensures r.Ok? && Months(c, dr) + dr.timestep * Months(c, timestep) == 0 ==>
      AbsSec(c, r.value) == AbsSec(c, dt) + Secs(c, dr) + dr.timestep * Secs(c, timestep)
  {
    hide CalOk, Valid, AbsSec, Secs, Months, DatePlus, Later, Expand;
    var drr := dr.(timestep := 0);
    ExpandIs(c, dr, timestep);
    if dr.timestep != 0 {
      if timestep == NONE { return Error; }
      drr := AddDur(drr, MulDur(dr.timestep, timestep));
    }
    ExpandHere(c, dr, timestep, drr);
    var d := AddExpanded(c, dt, drr);
    PlusLater(c, dt, drr);
    if Months(c, drr) == 0 { LaterExact(c, dt, d, Secs(c, drr)); }
    return Ok(d);
  }

  lemma ExpandHere(c: Cal, dr: Duration, timestep: Duration, drr: Duration)
    requires drr == if dr.timestep == 0 then dr.(timestep := 0) else AddDur(dr.(timestep := 0), MulDur(dr.timestep, timestep))
    ensures Secs(c, drr) == Secs(c, dr) + dr.timestep * Secs(c, timestep)
    ensures Months(c, drr) == Months(c, dr) + dr.timestep * Months(c, timestep)
  {
    ExpandIs(c, dr, timestep);
  }

  /** A number of time steps. */
  function Steps(n: int): Duration {
    NONE.(timestep := n)
  }

  /** With a time step of days and time, one time step more is one time step later: dt + (n+1)ts is (dt + n ts) + 1ts. */
  lemma OneStepMore(c: Cal, ts: Duration, dt: Date, n: int, a: Date, b: Date, z: Date)
    requires CalOk(c) && Valid(c, dt) && TimeOnly(ts)
    requires Later(c, dt, a, AllSecs(c, Steps(n), ts), AllMonths(c, Steps(n), ts))
    requires Later(c, a, b, AllSecs(c, Steps(1), ts), AllMonths(c, Steps(1), ts))
    requires Later(c, dt, z, AllSecs(c, Steps(n + 1), ts), AllMonths(c, Steps(n + 1), ts))
    ensures b == z
  {
    NoneIs(c, n, ts);
    NoneIs(c, 1, ts);
    NoneIs(c, n + 1, ts);
    hide CalOk, Valid, AbsSec, Secs, Months, Later, AllSecs, AllMonths;
    LaterExact(c, dt, a, n * Secs(c, ts));
    LaterExact(c, a, b, Secs(c, ts));
    LaterExact(c, dt, z, (n + 1) * Secs(c, ts));
    assert (n + 1) * Secs(c, ts) == n * Secs(c, ts) + Secs(c, ts);
    LaterIsValid(c, a, b, Secs(c, ts), 0);
    LaterIsValid(c, dt, z, (n + 1) * Secs(c, ts), 0);
    OrderFaithful(c, b, z);
  }

  lemma LaterIsValid(c: Cal, d: Date, r: Date, secs: int, months: int)
    requires CalOk(c) && Later(c, d, r, secs, months)
    ensures Valid(c, r)
  { }

  lemma NoneIs(c: Cal, n: int, ts: Duration)
    requires TimeOnly(ts)
    ensures AllSecs(c, Steps(n), ts) == n * Secs(c, ts) && AllMonths(c, Steps(n), ts) == 0
  {
    assert Secs(c, Steps(n)) == 0 && Months(c, Steps(n)) == 0;
    assert Months(c, ts) == 0;
  }

  /** The rest of operator+, once the time steps are expanded. */
  method AddExpanded(c: Cal, dt: Date, dr: Duration) returns (r: Date)
    requires CalOk(c) && Valid(c, dt)
    ensures r == DatePlus(c, dt, dr) && Valid(c, r)
  {
    hide DaysTo, Len, Index, Shift, FromSec, DayLength, TimeOfDay, Secs, AbsSec, CalOk;
    var drr := dr.(second := dr.second + dt.second, minute := dr.minute + dt.minute, hour := dr.hour + dt.hour);
    WithTime(c, dt, dr, drr);
    drr := Resolve(c, drr, true);
    var dtt := dt.(day := 1);
    ghost var drr1 := drr;
    drr := drr.(day := drr.day + dt.day - 1);
    var d, day, months;
    if drr.day >= 0 {
      d, day, months := WalkForward(c, dtt, drr.day);
    } else {
      d, day, months := WalkBackward(c, dtt, drr.day);
    }
    ghost var x := Date(d.year, d.month, day, drr.hour, drr.minute, drr.second);
    DayReached(c, dt, dr, drr1, x);
    drr := drr.(month := drr.month + months);
    drr := Resolve(c, drr, false);
    var month, year := FixMonth(c, dt, drr.month, drr.year);
    var valid;
    valid, r := CheckDate(c, Date(year, month, day, drr.hour, drr.minute, drr.second));
    ShiftReached(c, x, Months(c, dr), r);
  }

  lemma WithTime(c: Cal, dt: Date, dr: Duration, drr: Duration)
    requires drr == dr.(second := dr.second + dt.second, minute := dr.minute + dt.minute, hour := dr.hour + dt.hour)
    ensures Secs(c, drr) == Secs(c, dr) + TimeOfDay(c, dt.hour, dt.minute, dt.second) && Months(c, drr) == Months(c, dr)
  {
    SecsAdd(c, dr, Duration(0, 0, 0, dt.hour, dt.minute, dt.second, 0));
  }

  /** The date before the months are added is the one that the seconds lead to. */
  lemma DayReached(c: Cal, dt: Date, dr: Duration, drr: Duration, x: Date)
    requires CalOk(c) && Valid(c, dt) && InRange(c, drr)
    requires Secs(c, drr) == Secs(c, dr) + TimeOfDay(c, dt.hour, dt.minute, dt.second)
    requires (x.hour, x.minute, x.second) == (drr.hour, drr.minute, drr.second)
    requires 1 <= x.month <= c.months && 1 <= x.day <= c.monthLength(x.year, x.month)
    requires AbsDay(c, x) == AbsDay(c, dt) + drr.day
    ensures Valid(c, x) && x == FromSec(c, AbsSec(c, dt) + Secs(c, dr))
  {
    hide AbsDay, TimeOfDay, DayLength;
    var n := DayLength(c);
    assert (AbsDay(c, dt) + drr.day) * n == AbsDay(c, dt) * n + drr.day * n;
    assert AbsSec(c, x) == AbsSec(c, dt) + Secs(c, dr);
    OrderFaithful(c, x, FromSec(c, AbsSec(c, dt) + Secs(c, dr)));
  }

  lemma ShiftReached(c: Cal, x: Date, months: int, r: Date)
    requires CalOk(c) && Valid(c, x) && Valid(c, r)
    requires Index(c, r.year, r.month) == Index(c, x.year, x.month) + months
    requires r.day == Clamp(1, x.day, c.monthLength(r.year, r.month))
    requires (r.hour, r.minute, r.second) == (x.hour, x.minute, x.second)
    ensures r == Shift(c, x, months)
  {
    IndexIs(c, r.year, r.month);
  }

  /** The month and year adjustment of operator+. */
  method FixMonth(c: Cal, dt: Date, months: int, years: int) returns (month: int, year: int)
    requires c.months >= 1 && 1 <= dt.month <= c.months && -c.months < months < c.months
    ensures 1 <= month <= c.months
    ensures Index(c, year, month) == Index(c, dt.year, dt.month) + years * c.months + months
  {
    var drYear := years;
    month := dt.month + months;
    if month < 0 { drYear := drYear - 1; month := month + c.months; }
    if month > c.months { drYear := drYear + 1; month := month - c.months; }
    if month == 0 { month := c.months; drYear := drYear - 1; }
    year := dt.year + drYear;
    assert (drYear == years - 1 ==> drYear * c.months == years * c.months - c.months)
        && (drYear == years + 1 ==> drYear * c.months == years * c.months + c.months);
    assert (dt.year + drYear) * c.months == dt.year * c.months + drYear * c.months;
  }

  // ---------------------------------------------------------------- seconds since the time origin

  /** The seconds since the beginning of the date's year. */
  function SecOfYear(c: Cal, d: Date): int
    requires c.months > 0
  {
    AbsSec(c, d) - DaysTo(c, Index(c, d.year, 1)) * DayLength(c)
  }

  method GetSecondOfYear(c: Cal, d: Date) returns (s: int)
    requires CalOk(c) && Valid(c, d)
    ensures s == SecOfYear(c, d)
  {
    hide DaysTo, Index, DayLength, CalOk;
    var nbDay := 0;
    var month := 1;
    while month < d.month
      invariant 1 <= month <= d.month
      invariant nbDay == DaysTo(c, Index(c, d.year, month)) - DaysTo(c, Index(c, d.year, 1))
    {
      MonthFacts(c, d.(month := month));
      IndexNext(c, d.year, month);
      nbDay := nbDay + c.monthLength(d.year, month);
      month := month + 1;
    }
    s := (nbDay + d.day - 1) * DayLength(c) + (d.hour * c.hourLen + d.minute) * c.minLen + d.second;
    ghost var y := DaysTo(c, Index(c, d.year, 1));
    assert (AbsDay(c, d) - y) * DayLength(c) == AbsDay(c, d) * DayLength(c) - y * DayLength(c);
  }

  /** The seconds from the beginning of year a to that of year b. */
  function YearsSec(c: Cal, a: int, b: int): int
    requires c.months > 0
  {
    (DaysTo(c, Index(c, b, 1)) - DaysTo(c, Index(c, a, 1))) * DayLength(c)
  }

  lemma YearsStep(c: Cal, a: int, b: int)
    requires CalOk(c)
    ensures YearsSec(c, a, b + 1) == YearsSec(c, a, b) + c.yearTotal(b)
    ensures c.yearTotal(b) >= 1 && YearsSec(c, a, a) == 0
  {
    DayLengthPos(c);
    hide DaysTo, Index, DayLength;
    var x, y, z := DaysTo(c, Index(c, a, 1)), DaysTo(c, Index(c, b, 1)), DaysTo(c, Index(c, b + 1, 1));
    assert (z - x) * DayLength(c) == (y - x) * DayLength(c) + (z - y) * DayLength(c);
    assert c.yearTotal(b) == (z - y) * DayLength(c);
    IndexNext(c, b, 1);
    DaysMono(c, Index(c, b, 1), Index(c, b + 1, 1));
    MulMono(1, z - y, DayLength(c));
  }

  lemma Distribute(n: int, x: int)
    ensures (n + 1) * x == n * x + x
  {}

  /** With years of one length, the seconds between two years are a product. */
  lemma {:induction false} YearsEqual(c: Cal, a: int, b: int)
    requires CalOk(c) && !c.leap
    ensures YearsSec(c, a, b) == (b - a) * c.yearTotal(b)
    decreases if a < b then b - a else a - b
  {
    hide YearsSec, DaysTo, DayLength;
    if a < b {
      YearsStep(c, a, b - 1);
      YearsEqual(c, a, b - 1);
      assert c.yearTotal(b) == c.yearTotal(b - 1);
      Distribute(b - 1 - a, c.yearTotal(b));
    } else if b < a {
      YearsStep(c, a, b);
      YearsEqual(c, a, b + 1);
      assert c.yearTotal(b) == c.yearTotal(b + 1);
      Distribute(b - a, c.yearTotal(b));
    } else {
      YearsStep(c, a, a);
    }
  }

  lemma {:induction false} YearsPositive(c: Cal, a: int, b: int)
    requires CalOk(c) && a < b
    ensures YearsSec(c, b, a) < 0
  {
    DayLengthPos(c);
    var x, y := DaysTo(c, Index(c, a, 1)), DaysTo(c, Index(c, b, 1));
    MulMono(a + 1, b, c.months);
    assert (a + 1) * c.months == a * c.months + c.months;
    DaysMono(c, Index(c, a, 1), Index(c, b, 1));
    MulMono(1, y - x, DayLength(c));
    assert (x - y) * DayLength(c) == -((y - x) * DayLength(c));
  }

  lemma SecsApart(c: Cal, d: Date, origin: Date)
    requires CalOk(c) && Valid(c, d) && Valid(c, origin)
    ensures AbsSec(c, d) - AbsSec(c, origin)
         == SecOfYear(c, d) - SecOfYear(c, origin) + YearsSec(c, origin.year, d.year)
  {
    var x, y := DaysTo(c, Index(c, origin.year, 1)), DaysTo(c, Index(c, d.year, 1));
    assert (y - x) * DayLength(c) == y * DayLength(c) - x * DayLength(c);
  }

  /** The sum of the year lengths from year a up to year b, and 0 if b is earlier. */
  function YearLoop(c: Cal, a: int, b: int): int
    decreases b - a
  {
    if a < b then YearLoop(c, a, b - 1) + c.yearTotal(b - 1) else 0
  }

  /** The conversion of a date to Time. */
  function TimeOf(c: Cal, d: Date, origin: Date): int
    requires c.months > 0
  {
    SecOfYear(c, d) - SecOfYear(c, origin)
    + if c.leap then YearLoop(c, origin.year, d.year) else (d.year - origin.year) * c.yearTotal(d.year)
  }

  method ToTime(c: Cal, d: Date, origin: Date) returns (t: int)
    requires CalOk(c) && Valid(c, d) && Valid(c, origin)
    ensures t == TimeOf(c, d, origin)
    ensures t == AbsSec(c, d) - AbsSec(c, origin) <==> !c.leap || origin.year <= d.year
  {
    TimeExact(c, d, origin);
    hide CalOk, AbsSec, SecOfYear, YearLoop;
    var s := GetSecondOfYear(c, d);
    var o := GetSecondOfYear(c, origin);
    t := s - o;
    if c.leap {
      t := AddYears(c, t, origin.year, d.year);
    } else {
      t := t + (d.year - origin.year) * c.yearTotal(d.year);
    }
  }

  /** The loop over the years. */
  method AddYears(c: Cal, t0: int, from: int, to: int) returns (t: int)
    ensures t == t0 + YearLoop(c, from, to)
  {
    t := t0;
    var year := from;
    while year < to
      invariant year <= to || year == from
      invariant from <= year && t == t0 + YearLoop(c, from, year)
    {
      t := t + c.yearTotal(year);
      year := year + 1;
    }
  }

  lemma {:induction false} LoopIsSec(c: Cal, a: int, b: int)
    requires CalOk(c) && a <= b
    ensures YearLoop(c, a, b) == YearsSec(c, a, b)
    decreases b - a
  {
    hide YearsSec, CalOk;
    YearsStep(c, a, if a < b then b - 1 else a);
    if a < b { LoopIsSec(c, a, b - 1); }
  }

  /** It is the distance in seconds from the origin whenever years all have one length or the date is not in a
      year before the origin; and only then. */
  lemma TimeExact(c: Cal, d: Date, origin: Date)
    requires CalOk(c) && Valid(c, d) && Valid(c, origin)
    ensures TimeOf(c, d, origin) == AbsSec(c, d) - AbsSec(c, origin) <==> !c.leap || origin.year <= d.year
  {
    SecsApart(c, d, origin);
    hide CalOk, AbsSec, SecOfYear, YearsSec;
    if !c.leap {
      YearsEqual(c, origin.year, d.year);
    } else if origin.year <= d.year {
      LoopIsSec(c, origin.year, d.year);
    } else {
      YearsPositive(c, d.year, origin.year);
    }
  }

  /** So converted dates are ordered as the dates. */
  lemma TimeOrder(c: Cal, a: Date, b: Date, origin: Date)
    requires CalOk(c) && Valid(c, a) && Valid(c, b) && Valid(c, origin)
    requires !c.leap || (origin.year <= a.year && origin.year <= b.year)
    ensures Less(a, b) <==> TimeOf(c, a, origin) < TimeOf(c, b, origin)
    ensures a == b <==> TimeOf(c, a, origin) == TimeOf(c, b, origin)
  {
    OrderFaithful(c, a, b);
    TimeExact(c, a, origin);
    TimeExact(c, b, origin);
    hide CalOk, Valid, TimeOf, AbsSec;
  }

  // ---------------------------------------------------------------- the calendar object

  class CCalendar {
    const cal: Cal
    var step: int
    var initDate: Date
    var timeOrigin: Date
    var currentDate: Date
    var timestep: Duration

    ghost predicate Good()
      reads this
    {
      CalOk(cal) && Valid(cal, initDate) && Valid(cal, timeOrigin) && Valid(cal, currentDate) && timestep.timestep == 0
    }

    /** initializeDate: all three dates are the start date, put in range. */
    constructor (cal: Cal, start: Date)
      requires CalOk(cal)
      ensures Good() && this.cal == cal && step == 0 && timestep == NONE
      ensures initDate == timeOrigin == currentDate && (Valid(cal, start) ==> initDate == start)
    {
      var valid, d := CheckDate(cal, start);
      this.cal, step, timestep := cal, 0, NONE;
      initDate, timeOrigin, currentDate := d, d, d;
    }

    /** A time step may not itself contain time steps. */
    method SetTimeStep(timestep: Duration) returns (ok: bool)
      requires Good()
      modifies `timestep
      ensures Good() && ok == (timestep.timestep == 0)
      ensures this.timestep == if ok then timestep else old(this.timestep)
    {
      if timestep.timestep != 0 { return false; }
      this.timestep := timestep;
      ok := true;
    }

    /** The date of step n is the initial date plus n time steps. */
    method Update(n: int)
      requires Good()
      modifies `step, `currentDate
      ensures Good() && step == n
      ensures Later(cal, initDate, currentDate, n * Secs(cal, timestep), n * Months(cal, timestep))
      ensures TimeOnly(timestep) ==> AbsSec(cal, currentDate) == AbsSec(cal, initDate) + n * Secs(cal, timestep)
    {
      hide CalOk, Valid, AbsSec, Secs, Months, Later;
      step := n;
      SecsMul(cal, n, timestep);
      MonthsMul(cal, n, timestep);
      NoMonths(cal, timestep);
      var r := Plus(cal, timestep, initDate, MulDur(n, timestep));
      LaterIsValid(cal, initDate, r.value, n * Secs(cal, timestep), n * Months(cal, timestep));
      currentDate := r.value;
    }

    lemma NoMonths(c: Cal, a: Duration)
      ensures TimeOnly(a) ==> Months(c, a) == 0
    { }
  }
}
