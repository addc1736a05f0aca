/** Durations and dates as text: src/duration.cpp (toString, operator>>), src/date.cpp (operator<<) and
    src/calendar.cpp (parseDateDefault).  Numbers are integers, in plain digits. */
module Text {
  import opened CalendarMath
  import opened Wrappers

  // ---------------------------------------------------------------- an input stream

  /** What is left of a stream, and its two state bits. */
  datatype In = In(rest: string, fail: bool, eof: bool)

  function Skip(s: string): (r: string)
    ensures |r| <= |s| && (r != "" ==> r[0] != ' ')
  {
    if s != "" && s[0] == ' ' then Skip(s[1..]) else s
  }

  predicate IsDigit(c: char) {
    '0' <= c <= '9'
  }

  predicate AllDigits(s: string) {
    forall i | 0 <= i < |s| :: IsDigit(s[i])
  }

  /** The number of digits at the front. */
  function DigitRun(s: string): (k: nat)
    ensures k <= |s| && (forall i | 0 <= i < k :: IsDigit(s[i])) && (k < |s| ==> !IsDigit(s[k]))
  {
    if s != "" && IsDigit(s[0]) then 1 + DigitRun(s[1..]) else 0
  }

  function DigitOf(c: char): nat
    requires IsDigit(c)
  {
    c as int - '0' as int
  }

  function Value(s: string): nat
    requires AllDigits(s)
  {
    if s == "" then 0 else 10 * Value(s[..|s| - 1]) + DigitOf(s[|s| - 1])
  }

  /** operator>> of a number: the variable keeps its value if there is nothing to read, and is 0 if what
      there is is no number. */
  function ReadInt(i: In, v: int): (r: (In, int))
    ensures |r.0.rest| <= |i.rest| && (!r.0.fail ==> |r.0.rest| < |i.rest|)
  {
    if i.fail || i.eof then (i.(fail := true), v)
    else
      var t := Skip(i.rest);
      if t == "" then (In("", true, true), v)
      else
        var u := if t[0] == '-' || t[0] == '+' then t[1..] else t;
        var k := DigitRun(u);
        if k == 0 then (In(u, true, u == ""), 0)
        else
          var n: int := Value(u[..k]);
          (In(u[k..], false, u[k..] == ""), if t[0] == '-' then -n else n)
  }

  /** operator>> of a character. */
  function ReadChar(i: In, c: char): (r: (In, char))
    ensures |r.0.rest| <= |i.rest|
  {
    if i.fail || i.eof then (i.(fail := true), c)
    else
      var t := Skip(i.rest);
      if t == "" then (In("", true, true), c) else (In(t[1..], false, false), t[0])
  }

  const EOF_CHAR: char := 255 as char

  /** get(): the next character, spaces included. */
  function Get(i: In): (In, char) {
    if i.fail || i.eof then (i.(fail := true), EOF_CHAR)
    else if i.rest == "" then (In("", true, true), EOF_CHAR)
    else (In(i.rest[1..], false, false), i.rest[0])
  }

  // ---------------------------------------------------------------- numbers

  function Digits(n: nat): (s: string)
    ensures |s| > 0 && AllDigits(s)
  {
    (if n < 10 then "" else Digits(n / 10)) + [(n % 10 + '0' as int) as char]
  }

  function ShowInt(v: int): string {
    if v < 0 then "-" + Digits(-v) else Digits(v)
  }

  /** At least w characters, filled with zeros. */
  function Pad(s: string, w: nat): string
    decreases w - |s|
  {
    if |s| < w then Pad(['0'] + s, w) else s
  }

  lemma {:induction false} DigitsRoundTrip(n: nat)
    ensures Value(Digits(n)) == n
  {
    var s := Digits(n);
    if n >= 10 {
      DigitsRoundTrip(n / 10);
      assert s[..|s| - 1] == Digits(n / 10);
    } else {
      assert s[..|s| - 1] == "";
    }
  }

  lemma {:induction false} ValueZero(s: string)
    requires AllDigits(s)
    ensures AllDigits(['0'] + s) && Value(['0'] + s) == Value(s)
  {
    var t := ['0'] + s;
    if s != "" {
      ValueZero(s[..|s| - 1]);
      assert t[..|t| - 1] == ['0'] + s[..|s| - 1];
    } else {
      assert t[..0] == "";
    }
  }

  lemma {:induction false} ValuePad(s: string, w: nat)
    requires AllDigits(s)
    ensures AllDigits(Pad(s, w)) && Value(Pad(s, w)) == Value(s) && |Pad(s, w)| >= |s|
    decreases w - |s|
  {
    if |s| < w {
      ValueZero(s);
      ValuePad(['0'] + s, w);
    }
  }

  lemma {:induction false} RunOf(s: string, rest: string)
    requires AllDigits(s)
    requires rest == "" || !IsDigit(rest[0])
    ensures DigitRun(s + rest) == |s|
  {
    if s != "" {
      RunOf(s[1..], rest);
      assert (s + rest)[1..] == s[1..] + rest;
    } else {
      assert s + rest == rest;
    }
  }

  /** Digits followed by something else are read as their value. */
  lemma ReadDigits(s: string, rest: string, v: int)
    requires s != "" && AllDigits(s) && (rest == "" || !IsDigit(rest[0]))
    ensures ReadInt(In(s + rest, false, false), v) == (In(rest, false, rest == ""), Value(s))
  {
    RunOf(s, rest);
    assert (s + rest)[..|s|] == s && (s + rest)[|s|..] == rest;
    assert IsDigit((s + rest)[0]);
  }

  lemma ReadNegative(t: string, s: string, rest: string, v: int)
    requires t != "" && t[0] == '-' && t[1..] == s + rest
    requires s != "" && AllDigits(s) && (rest == "" || !IsDigit(rest[0]))
    ensures ReadInt(In(t, false, false), v) == (In(rest, false, rest == ""), -(Value(s) as int))
  {
    RunOf(s, rest);
    hide DigitRun, Value, IsDigit, AllDigits;
    assert (s + rest)[..|s|] == s && (s + rest)[|s|..] == rest;
  }

  lemma AfterSign(s: string, rest: string)
    ensures var t := "-" + s + rest; t != "" && t[0] == '-' && t[1..] == s + rest
  { }

  lemma ReadShown(n: int, rest: string, v: int)
    requires rest == "" || !IsDigit(rest[0])
    ensures ReadInt(In(ShowInt(n) + rest, false, false), v) == (In(rest, false, rest == ""), n)
  {
    var s := Digits(if n < 0 then -n else n);
    DigitsRoundTrip(if n < 0 then -n else n);
    hide Digits, Value, ReadInt, IsDigit, AllDigits;
    if n < 0 {
      AfterSign(s, rest);
      ReadNegative(ShowInt(n) + rest, s, rest, v);
    } else {
      ReadDigits(s, rest, v);
    }
  }

  lemma PaddedValue(n: nat, w: nat)
    ensures var t := Pad(Digits(n), w); t != "" && AllDigits(t) && Value(t) == n
  {
    ValuePad(Digits(n), w);
    DigitsRoundTrip(n);
  }

  lemma ReadPadded(n: nat, w: nat, rest: string, v: int)
    requires rest == "" || !IsDigit(rest[0])
    ensures ReadInt(In(Pad(Digits(n), w) + rest, false, false), v) == (In(rest, false, rest == ""), n)
  {
    hide *;
    PaddedValue(n, w);
    ReadDigits(Pad(Digits(n), w), rest, v);
  }

  // ---------------------------------------------------------------- durations

  datatype Unit = Y | Mo | D | H | Mi | S | Ts

  datatype Item = Item(value: int, unit: Unit)

  function Name(u: Unit): string {
    match u
    case Y => "y" case Mo => "mo" case D => "d" case H => "h" case Mi => "mi" case S => "s" case Ts => "ts"
  }

  function Set(d: Duration, u: Unit, v: int): Duration {
    match u
    case Y => d.(year := v) case Mo => d.(month := v) case D => d.(day := v) case H => d.(hour := v)
    case Mi => d.(minute := v) case S => d.(second := v) case Ts => d.(timestep := v)
  }

  /** A unit of one or two letters. */
  function ReadUnit(i: In, c: char): (r: (In, Option<Unit>))
    ensures |r.0.rest| <= |i.rest|
  {
    if c == 'y' then (i, Some(Y))
    else if c == 'd' then (i, Some(D))
    else if c == 'h' then (i, Some(H))
    else if c == 's' then (i, Some(S))
    else if c == 'm' then
      var (j, c2) := ReadChar(i, c);
      (j, if c2 == 'i' then Some(Mi) else if c2 == 'o' then Some(Mo) else None)
    else if c == 't' then
      var (j, c2) := ReadChar(i, c);
      (j, if c2 == 's' then Some(Ts) else None)
    else (i, None)
  }

  /** The rest of a duration: a value and a unit that is not yet set, and more until the end of the stream. */
  function ParseFrom(i: In, d: Duration, seen: set<Unit>, v: int, c: char): Result<Duration>
    decreases |i.rest|
  {
    var (i1, v1) := ReadInt(i, v);
    var (i2, c1) := ReadChar(i1, c);
    if i2.fail then Error
    else
      var (i3, u) := ReadUnit(i2, c1);
      if u.None? || u.value in seen then Error
      else
        var d1 := Set(d, u.value, v1);
        if i3.fail || i3.eof || i3.rest == "" then Ok(d1) else ParseFrom(i3, d1, seen + {u.value}, v1, c1)
  }

  function ParseDuration(i: In): Result<Duration> {
    ParseFrom(i, NONE, {}, 1, '/')
  }

  /** operator>>(in, duration). */
  method ReadDuration(in0: In) returns (r: Result<Duration>)
    ensures r == ParseDuration(in0)
  {
    var i, d, seen, v, c := in0, NONE, {}, 1, '/';
    while true
      invariant ParseDuration(in0) == ParseFrom(i, d, seen, v, c)
      decreases |i.rest|
    {
      var (i1, v1) := ReadInt(i, v);
      var (i2, c1) := ReadChar(i1, c);
      if i2.fail { return Error; }
      var (i3, u) := ReadUnit(i2, c1);
      if u.None? { return Error; }
      if u.value in seen { return Error; }
      d := Set(d, u.value, v1);
      if i3.fail || i3.eof || i3.rest == "" { return Ok(d); }
      i, seen, v, c := i3, seen + {u.value}, v1, c1;
    }
  }

  /** The components that are printed, in their order. */
  function Component(v: int, u: Unit): seq<Item> {
    if v != 0 then [Item(v, u)] else []
  }

  function Components(d: Duration): seq<Item> {
    var items := Component(d.year, Y) + Component(d.month, Mo) + Component(d.day, D) + Component(d.hour, H)
      + Component(d.minute, Mi) + Component(d.second, S);
    if d.timestep != 0 || items == [] then items + [Item(d.timestep, Ts)] else items
  }

  function Piece(item: Item): string {
    ShowInt(item.value) + Name(item.unit)
  }

  function Spaced(item: Item): string {
    Piece(item) + " "
  }

  function Join(items: seq<Item>): string {
    if items == [] then "" else Spaced(items[0]) + Join(items[1..])
  }

  /** A number that a stream shows in plain digits. */
  predicate Plain(v: int) {
    -1000000 < v < 1000000
  }

  predicate PlainDuration(d: Duration) {
    Plain(d.year) && Plain(d.month) && Plain(d.day) && Plain(d.hour) && Plain(d.minute) && Plain(d.second) && Plain(d.timestep)
  }

  function Show(d: Duration): string {
    var s := Join(Components(d));
    if s == "" then "" else s[..|s| - 1]
  }

  lemma JoinFirst(a: seq<Item>)
    requires a != []
    ensures Join(a) == Spaced(a[0]) + Join(a[1..])
  { }

  lemma Associate(x: string, y: string, z: string)
    ensures x + (y + z) == (x + y) + z
  { }

  lemma FirstOf(a: seq<Item>, b: seq<Item>)
    requires a != []
    ensures a + b != [] && (a + b)[0] == a[0] && (a + b)[1..] == a[1..] + b
  { }

  lemma Glue(x: string, y: string, z: string, xy: string, yz: string, xyz: string)
    requires xy == x + y && yz == y + z && xyz == x + yz
    ensures xyz == xy + z
  { }

  lemma JoinStep(a: seq<Item>, b: seq<Item>)
    requires a != [] && Join(a[1..] + b) == Join(a[1..]) + Join(b)
    ensures Join(a + b) == Join(a) + Join(b)
  {
    hide *;
    JoinFirst(a);
    FirstOf(a, b);
    JoinFirst(a + b);
    Glue(Spaced(a[0]), Join(a[1..]), Join(b), Join(a), Join(a[1..] + b), Join(a + b));
  }

  lemma {:induction false} JoinConcat(a: seq<Item>, b: seq<Item>)
    ensures Join(a + b) == Join(a) + Join(b)
  {
    JoinNothing();
    hide Join;
    if a == [] {
      assert a + b == b;
    } else {
      JoinConcat(a[1..], b);
      JoinStep(a, b);
    }
  }

  /** A component goes to the output, if it is not 0 (or must). */
  method Put(out: string, forced: bool, v: int, u: Unit, must: bool, ghost items: seq<Item>)
      returns (sout: string, forceOutput: bool)
    requires out == Join(items)
    ensures sout == Join(items + if v != 0 || must then [Item(v, u)] else [])
    ensures forceOutput == (forced && v == 0 && !must)
  {
    sout, forceOutput := out, forced;
    if v != 0 || must {
      forceOutput := false;
      JoinConcat(items, [Item(v, u)]);
      assert [Item(v, u)][1..] == [];
      sout := sout + (ShowInt(v) + Name(u) + " ");
    } else {
      assert items + [] == items;
    }
  }

  /** toString. */
  method ToString(d: Duration) returns (strOut: string)
    requires PlainDuration(d)
    ensures strOut == Show(d)
  {
    var forceOutput, sout := true, "";
    hide Join, ShowInt;
    JoinNothing();
    sout, forceOutput := Put(sout, forceOutput, d.year, Y, false, []);
    ghost var c1: seq<Item> := [] + Component(d.year, Y);
    sout, forceOutput := Put(sout, forceOutput, d.month, Mo, false, c1);
    ghost var c2 := c1 + Component(d.month, Mo);
    sout, forceOutput := Put(sout, forceOutput, d.day, D, false, c2);
    ghost var c3 := c2 + Component(d.day, D);
    sout, forceOutput := Put(sout, forceOutput, d.hour, H, false, c3);
    ghost var c4 := c3 + Component(d.hour, H);
    sout, forceOutput := Put(sout, forceOutput, d.minute, Mi, false, c4);
    ghost var c5 := c4 + Component(d.minute, Mi);
    sout, forceOutput := Put(sout, forceOutput, d.second, S, false, c5);
    ghost var c6 := c5 + Component(d.second, S);
    assert c1 == Component(d.year, Y);
    assert forceOutput <==> c6 == [];
    sout, forceOutput := Put(sout, forceOutput, d.timestep, Ts, forceOutput, c6);
    assert c6 + [] == c6;
    JoinLonger(Components(d));
    strOut := sout[..|sout| - 1];
  }

  lemma JoinNothing()
    ensures Join([]) == ""
  { }

  lemma JoinLonger(items: seq<Item>)
    requires items != []
    ensures |Join(items)| > 0
  { }

  // ---------------------------------------------------------------- a printed duration is read back

  /** The text without its last space. */
  function Trim(items: seq<Item>): string
    requires items != []
  {
    Piece(items[0]) + if |items| == 1 then "" else " " + Trim(items[1..])
  }

  lemma {:induction false} TrimIs(items: seq<Item>)
    requires items != []
    ensures Join(items) == Trim(items) + " "
  {
    hide Piece;
    if |items| > 1 {
      TrimIs(items[1..]);
      assert Trim(items) + " " == Piece(items[0]) + " " + (Trim(items[1..]) + " ");
    } else {
      assert items[1..] == [];
    }
  }

  function SetAll(d: Duration, items: seq<Item>): Duration
    decreases |items|
  {
    if items == [] then d else SetAll(Set(d, items[0].unit, items[0].value), items[1..])
  }

  predicate Distinct(items: seq<Item>, seen: set<Unit>) {
    && (forall i | 0 <= i < |items| :: items[i].unit !in seen)
    && (forall i, j | 0 <= i < j < |items| :: items[i].unit != items[j].unit)
  }

  /** A unit's letters are read as the unit. */
  lemma ReadName(u: Unit, rest: string, c: char)
    ensures var (i, c1) := ReadChar(In(Name(u) + rest, false, false), c);
      !i.fail && ReadUnit(i, c1) == (In(rest, false, false), Some(u))
  {
    var t := Name(u) + rest;
    assert t[0] == Name(u)[0];
    if |Name(u)| == 2 {
      assert t[1..][0] == Name(u)[1] && t[1..][1..] == rest;
    } else {
      assert t[1..] == rest;
    }
  }

  lemma NameStarts(u: Unit)
    ensures Name(u) != "" && !IsDigit(Name(u)[0]) && Name(u)[0] != ' '
  { }

  lemma SkipSpace(s: string, v: int)
    ensures ReadInt(In(" " + s, false, false), v) == ReadInt(In(s, false, false), v)
  {
    assert (" " + s)[1..] == s;
  }

  lemma ParseOne(i: In, after: In, more: In, d: Duration, seen: set<Unit>, v: int, c: char, n: int, u: Unit)
    requires ReadInt(i, v) == (after, n) && !ReadChar(after, c).0.fail
    requires ReadUnit(ReadChar(after, c).0, ReadChar(after, c).1) == (more, Some(u)) && u !in seen
    ensures ParseFrom(i, d, seen, v, c)
         == if more.fail || more.eof || more.rest == "" then Ok(Set(d, u, n))
            else ParseFrom(more, Set(d, u, n), seen + {u}, n, ReadChar(after, c).1)
  {
    hide ReadInt, ReadChar, ReadUnit, Set;
  }

  lemma FirstItem(items: seq<Item>, d: Duration, seen: set<Unit>)
    requires items != [] && Distinct(items, seen)
    ensures var u := items[0].unit;
      u !in seen && Distinct(items[1..], seen + {u}) && SetAll(d, items) == SetAll(Set(d, u, items[0].value), items[1..])
    ensures SetAll(d, []) == d
  { }

  lemma {:induction false} ParseItems(items: seq<Item>, lead: string, d: Duration, seen: set<Unit>, v: int, c: char)
    requires items != [] && Distinct(items, seen) && lead in {"", " "}
    ensures ParseFrom(In(lead + Trim(items), false, false), d, seen, v, c) == Ok(SetAll(d, items))
    decreases |items|
  {
    var n, u := items[0].value, items[0].unit;
    var more := if |items| == 1 then "" else " " + Trim(items[1..]);
    var after := In(Name(u) + more, false, false);
    ReadLead(items, lead, more, v);
    ReadName(u, more, c);
    FirstItem(items, d, seen);
    FirstItem(items, Set(d, u, n), seen);
    ParseOne(In(lead + Trim(items), false, false), after, In(more, false, false), d, seen, v, c, n, u);
    hide *;
    if |items| > 1 {
      ParseItems(items[1..], " ", Set(d, u, n), seen + {u}, n, ReadChar(after, c).1);
      assert more != "";
    } else {
      assert items[1..] == [];
    }
  }

  /** The value of the first component. */
  lemma ReadLead(items: seq<Item>, lead: string, more: string, v: int)
    requires items != [] && lead in {"", " "} && more == if |items| == 1 then "" else " " + Trim(items[1..])
    ensures ReadInt(In(lead + Trim(items), false, false), v)
         == (In(Name(items[0].unit) + more, false, false), items[0].value)
  {
    var after := Name(items[0].unit) + more;
    NameStarts(items[0].unit);
    ReadShown(items[0].value, after, v);
    Associate(ShowInt(items[0].value), Name(items[0].unit), more);
    hide ReadInt, ShowInt, Name;
    assert Trim(items) == ShowInt(items[0].value) + after;
    if lead == " " { SkipSpace(Trim(items), v); } else { assert lead + Trim(items) == Trim(items); }
  }

  lemma {:induction false} SetConcat(d: Duration, a: seq<Item>, b: seq<Item>)
    ensures SetAll(d, a + b) == SetAll(SetAll(d, a), b)
    decreases |a|
  {
    if a == [] {
      assert a + b == b;
    } else {
      SetConcat(Set(d, a[0].unit, a[0].value), a[1..], b);
      assert (a + b)[1..] == a[1..] + b;
    }
  }

  /** Items with units in the set, each once, that make d of a zero duration. */
  predicate Makes(items: seq<Item>, d: Duration, units: set<Unit>) {
    Distinct(items, {}) && (forall i | 0 <= i < |items| :: items[i].unit in units) && SetAll(NONE, items) == d
  }

  lemma MakesMore(a: seq<Item>, d: Duration, units: set<Unit>, v: int, u: Unit, must: bool)
    requires Makes(a, d, units) && u !in units && Set(d, u, 0) == d
    ensures Makes(a + if v != 0 || must then [Item(v, u)] else [], Set(d, u, v), units + {u})
  {
    if v != 0 || must {
      SetConcat(NONE, a, [Item(v, u)]);
      assert [Item(v, u)][1..] == [];
    } else {
      assert a + [] == a;
    }
  }

  lemma MakesComponent(a: seq<Item>, d: Duration, units: set<Unit>, v: int, u: Unit)
    requires Makes(a, d, units) && u !in units && Set(d, u, 0) == d
    ensures Makes(a + Component(v, u), Set(d, u, v), units + {u})
  {
    MakesMore(a, d, units, v, u, false);
  }

  lemma ComponentsSet(d: Duration)
    ensures Makes(Components(d), d, {Y, Mo, D, H, Mi, S, Ts})
  {
    var c0: seq<Item> := [];
    var c1 := c0 + Component(d.year, Y);
    var c2 := c1 + Component(d.month, Mo);
    var c3 := c2 + Component(d.day, D);
    var c4 := c3 + Component(d.hour, H);
    var c5 := c4 + Component(d.minute, Mi);
    var c6 := c5 + Component(d.second, S);
    var d1 := Duration(d.year, 0, 0, 0, 0, 0, 0);
    var d2 := Duration(d.year, d.month, 0, 0, 0, 0, 0);
    var d3 := Duration(d.year, d.month, d.day, 0, 0, 0, 0);
    var d4 := Duration(d.year, d.month, d.day, d.hour, 0, 0, 0);
    var d5 := Duration(d.year, d.month, d.day, d.hour, d.minute, 0, 0);
    var d6 := Duration(d.year, d.month, d.day, d.hour, d.minute, d.second, 0);
    assert Makes(c0, NONE, {});
    hide Makes, Component;
    MakesComponent(c0, NONE, {}, d.year, Y);
    MakesComponent(c1, d1, {Y}, d.month, Mo);
    MakesComponent(c2, d2, {Y, Mo}, d.day, D);
    MakesComponent(c3, d3, {Y, Mo, D}, d.hour, H);
    MakesComponent(c4, d4, {Y, Mo, D, H}, d.minute, Mi);
    MakesComponent(c5, d5, {Y, Mo, D, H, Mi}, d.second, S);
    MakesMore(c6, d6, {Y, Mo, D, H, Mi, S}, d.timestep, Ts, c6 == []);
    assert c1 == Component(d.year, Y);
    assert c6 + [] == c6;
  }

  /** What toString prints, operator>> reads back. */
  lemma DurationRoundTrip(d: Duration)
    requires PlainDuration(d)
    ensures ParseDuration(In(Show(d), false, false)) == Ok(d)
  {
    ReadShow(d, "");
    assert "" + Show(d) == Show(d);
  }

  /** Also behind a space. */
  lemma ReadShow(d: Duration, lead: string)
    requires PlainDuration(d) && lead in {"", " "}
    ensures ParseDuration(In(lead + Show(d), false, false)) == Ok(d)
  {
    var items := Components(d);
    ComponentsSet(d);
    assert items != [];
    hide Components;
    TrimIs(items);
    assert Show(d) == Trim(items);
    ParseItems(items, lead, NONE, {}, 1, '/');
  }

  // ---------------------------------------------------------------- dates

  function Field(d: Date, i: nat): int
    requires 1 <= i <= 6
  {
    if i == 1 then d.year else if i == 2 then d.month else if i == 3 then d.day
    else if i == 4 then d.hour else if i == 5 then d.minute else d.second
  }

  /** What stands behind a field. */
  function Separator(i: nat): char {
    if i <= 2 then '-' else if i == 3 then ' ' else ':'
  }

  /** The text of the fields i to k of a date, and then `tail`. */
  function Fields(d: Date, i: nat, k: nat, tail: string): string
    requires DateFields(d) && 1 <= i <= k <= 6
    decreases k - i
  {
    Pad(Digits(Field(d, i)), if i == 1 then 4 else 2) + if i == k then tail else [Separator(i)] + Fields(d, i + 1, k, tail)
  }

  function ShowDate(d: Date): string
    requires DateFields(d)
  {
    Fields(d, 1, 6, "")
  }

  lemma ShowDateIs(d: Date)
    requires DateFields(d)
    ensures ShowDate(d) == Pad(Digits(d.year), 4) + ("-" + (Pad(Digits(d.month), 2) + ("-" + (Pad(Digits(d.day), 2)
      + (" " + (Pad(Digits(d.hour), 2) + (":" + (Pad(Digits(d.minute), 2) + (":" + (Pad(Digits(d.second), 2) + ""))))))))))
  {
    hide Pad, Digits;
    assert Fields(d, 5, 6, "") == Pad(Digits(d.minute), 2) + (":" + (Pad(Digits(d.second), 2) + ""));
    assert Fields(d, 3, 6, "") == Pad(Digits(d.day), 2) + (" " + (Pad(Digits(d.hour), 2) + (":" + Fields(d, 5, 6, ""))));
  }

  predicate DateFields(d: Date) {
    d.year >= 0 && d.month >= 0 && d.day >= 0 && d.hour >= 0 && d.minute >= 0 && d.second >= 0
  }

  function Pow10(n: nat): nat {
    if n == 0 then 1 else 10 * Pow10(n - 1)
  }

  /** A number has at most w digits exactly when it is below 10 to the w. */
  lemma {:induction false} DigitsLength(n: nat, w: nat)
    requires w >= 1
    ensures |Digits(n)| <= w <==> n < Pow10(w)
  {
    if w == 1 {
      assert Pow10(1) == 10;
    } else {
      if n >= 10 { DigitsLength(n / 10, w - 1); }
      Pow10Pos(w - 1);
      assert Pow10(w) == 10 * Pow10(w - 1);
    }
  }

  lemma {:induction false} Pow10Pos(n: nat)
    ensures Pow10(n) >= 1
  {
    if n > 0 { Pow10Pos(n - 1); }
  }

  /** operator<<.  The width of the year grows with it; the result is as if it were 4. */
  method PrintDate(date: Date) returns (out: string)
    requires DateFields(date)
    ensures out == ShowDate(date)
  {
    var width, maxSize := 4, 10000;
    assert Pow10(4) == 10 * Pow10(3) == 100 * Pow10(2) == 1000 * Pow10(1) == 10000;
    while date.year >= maxSize
      invariant width >= 4 && maxSize == Pow10(width) && maxSize >= 1
      invariant width > 4 ==> date.year >= Pow10(width - 1)
      decreases date.year - maxSize
    {
      maxSize := maxSize * 10;
      width := width + 1;
    }
    DigitsLength(date.year, width);
    if width > 4 { DigitsLength(date.year, width - 1); }
    ShowDateIs(date);
    hide Digits, Pow10, ShowDate;
    assert Pad(Digits(date.year), width) == Pad(Digits(date.year), 4);
    out := Pad(Digits(date.year), width) + ("-" + (Pad(Digits(date.month), 2) + ("-" + (Pad(Digits(date.day), 2)
      + (" " + (Pad(Digits(date.hour), 2) + (":" + (Pad(Digits(date.minute), 2) + (":" + (Pad(Digits(date.second), 2) + ""))))))))));
  }

  /** What parseDateDefault makes of the fields it has read: a date, and a duration to add to it. */
  function Finish(i: In, c: char, date: Date, cal: Option<Cal>): Result<(Date, Option<Duration>)> {
    if cal.Some? && !Valid(cal.value, date) then Error
    else if c == '+' then
      match ParseDuration(i)
      case Ok(dur) => Ok((date, Some(dur)))
      case Error => Error
    else if !i.eof then Error
    else Ok((date, None))
  }

  /** parseDateDefault; the source leaves c without a value at first.  With a calendar the date is checked. */
  function ParseDate(i0: In, c0: char, cal: Option<Cal>): Result<(Date, Option<Duration>)> {
    var (i1, year) := ReadInt(i0, 0);
    var (i2, c1) := ReadChar(i1, c0);
    if c1 != '-' then Finish(i2, c1, Date(year, 1, 1, 0, 0, 0), cal)
    else
      var (i3, month) := ReadInt(i2, 1);
      var (i4, c2) := ReadChar(i3, c1);
      if c2 != '-' then Finish(i4, c2, Date(year, month, 1, 0, 0, 0), cal)
      else
        var (i5, day) := ReadInt(i4, 1);
        var (i6, c3) := Get(i5);
        if c3 != ' ' then Finish(i6, c3, Date(year, month, day, 0, 0, 0), cal)
        else
          var (i7, hour) := ReadInt(i6, 0);
          var (i8, c4) := ReadChar(i7, c3);
          if c4 != ':' then Finish(i8, c4, Date(year, month, day, hour, 0, 0), cal)
          else
            var (i9, minute) := ReadInt(i8, 0);
            var (i10, c5) := ReadChar(i9, c4);
            if c5 != ':' then Finish(i10, c5, Date(year, month, day, hour, minute, 0), cal)
            else
              var (i11, second) := ReadInt(i10, 0);
              var (i12, c6) := ReadChar(i11, c5);
              Finish(i12, c6, Date(year, month, day, hour, minute, second), cal)
  }

  lemma ReadField(n: nat, w: nat, c: char, rest: string, v: int)
    requires !IsDigit(c)
    ensures ReadInt(In(Pad(Digits(n), w) + ([c] + rest), false, false), v) == (In([c] + rest, false, false), n)
  {
    assert ([c] + rest)[0] == c;
    ReadPadded(n, w, [c] + rest, v);
  }

  // ---------------------------------------------------------------- dates in part, and offsets

  /** The date whose fields behind the first k are those of the beginning of the year, month, day, hour or minute. */
  function FirstFields(d: Date, k: nat): Date {
    Date(d.year, if k >= 2 then d.month else 1, if k >= 3 then d.day else 1,
         if k >= 4 then d.hour else 0, if k >= 5 then d.minute else 0, if k >= 6 then d.second else 0)
  }

  function Checked(d: Date, cal: Option<Cal>, offset: Option<Duration>): Result<(Date, Option<Duration>)> {
    if cal.Some? && !Valid(cal.value, d) then Error else Ok((d, offset))
  }

  /** A field that another one follows. */
  lemma FieldThen(d: Date, i: nat, k: nat, tail: string, v: int, c: char)
    requires DateFields(d) && 1 <= i < k <= 6
    ensures var rest := Fields(d, i + 1, k, tail);
      && ReadInt(In(Fields(d, i, k, tail), false, false), v) == (In([Separator(i)] + rest, false, false), Field(d, i))
      && (i != 3 ==> ReadChar(In([Separator(i)] + rest, false, false), c) == (In(rest, false, false), Separator(i)))
      && (i == 3 ==> Get(In([Separator(i)] + rest, false, false)) == (In(rest, false, false), ' '))
  {
    hide Pad, Digits, ReadInt;
    var rest := Fields(d, i + 1, k, tail);
    ReadField(Field(d, i), if i == 1 then 4 else 2, Separator(i), rest, v);
    assert ([Separator(i)] + rest)[1..] == rest;
  }

  lemma FieldLast(d: Date, k: nat, tail: string, v: int)
    requires DateFields(d) && 1 <= k <= 6 && (tail == "" || !IsDigit(tail[0]))
    ensures ReadInt(In(Fields(d, k, k, tail), false, false), v) == (In(tail, false, tail == ""), Field(d, k))
  {
    hide Pad, Digits, ReadInt;
    ReadPadded(Field(d, k), if k == 1 then 4 else 2, tail, v);
  }

  /** At the end nothing more is read, and every variable keeps its value. */
  lemma AtTheEnd(v: int, c: char)
    ensures ReadChar(In("", false, true), c) == (In("", true, true), c) && Get(In("", false, true)) == (In("", true, true), EOF_CHAR)
    ensures ReadInt(In("", true, true), v) == (In("", true, true), v) && ReadChar(In("", true, true), c) == (In("", true, true), c)
    ensures Get(In("", true, true)) == (In("", true, true), EOF_CHAR)
  { }

  /** A date may end behind any field, and the rest is the first of its kind; but a year alone depends on the value that
      the source's c happens to have: a plus sign there is taken for the beginning of an offset. */
  lemma PartRead(d: Date, k: nat, c0: char, cal: Option<Cal>)
    requires DateFields(d) && 1 <= k <= 6
    ensures ParseDate(In(Fields(d, 1, k, ""), false, false), c0, cal)
         == if k == 1 && c0 == '+' then Error else Checked(FirstFields(d, k), cal, None)
  {
    if k == 1 { YearRead(d, c0, cal); }
    else if k <= 3 { DayRead(d, k, c0, cal); }
    else { TimeRead(d, k, c0, cal); }
  }

  /** What operator<< prints of a date of a year from 0 on, the parser reads back, whatever c is at first. */
  lemma DateRoundTrip(d: Date, c0: char, cal: Option<Cal>)
    requires DateFields(d)
    ensures ParseDate(In(ShowDate(d), false, false), c0, cal)
         == if cal.Some? && !Valid(cal.value, d) then Error else Ok((d, None))
  {
    hide ParseDate, Fields, Valid;
    PartRead(d, 6, c0, cal);
  }

  lemma YearRead(d: Date, c0: char, cal: Option<Cal>)
    requires DateFields(d)
    ensures ParseDate(In(Fields(d, 1, 1, ""), false, false), c0, cal)
         == if c0 == '+' then Error else Checked(FirstFields(d, 1), cal, None)
  {
    hide ReadInt, ReadChar, Get, Fields, Valid, ParseDuration;
    FieldLast(d, 1, "", 0);
    AtTheEnd(1, c0);
    NoDuration();
  }

  lemma DayRead(d: Date, k: nat, c0: char, cal: Option<Cal>)
    requires DateFields(d) && 2 <= k <= 3
    ensures ParseDate(In(Fields(d, 1, k, ""), false, false), c0, cal) == Checked(FirstFields(d, k), cal, None)
  {
    hide ReadInt, ReadChar, Get, Fields, Valid, ParseDuration;
    FieldThen(d, 1, k, "", 0, c0);
    AtTheEnd(1, '-');
    if k == 2 {
      FieldLast(d, 2, "", 1);
    } else {
      FieldThen(d, 2, k, "", 1, '-');
      FieldLast(d, 3, "", 1);
    }
  }

  lemma TimeRead(d: Date, k: nat, c0: char, cal: Option<Cal>)
    requires DateFields(d) && 4 <= k <= 6
    ensures ParseDate(In(Fields(d, 1, k, ""), false, false), c0, cal) == Checked(FirstFields(d, k), cal, None)
  {
    hide ReadInt, ReadChar, Get, Fields, Valid, ParseDuration;
    FieldThen(d, 1, k, "", 0, c0);
    FieldThen(d, 2, k, "", 1, '-');
    FieldThen(d, 3, k, "", 1, '-');
    AtTheEnd(0, ' ');
    AtTheEnd(0, ':');
    if k == 4 {
      FieldLast(d, 4, "", 0);
    } else {
      FieldThen(d, 4, k, "", 0, ' ');
      if k == 5 {
        FieldLast(d, 5, "", 0);
      } else {
        FieldThen(d, 5, k, "", 0, ':');
        FieldLast(d, 6, "", 0);
      }
    }
  }

  lemma NoDuration()
    ensures ParseDuration(In("", true, true)) == Error
  { }

  /** A plus sign and a duration, apart by `sp`. */
  function Offset(sp: string, dur: Duration): string {
    sp + ("+" + (sp + Show(dur)))
  }

  lemma OffsetRead(sp: string, dur: Duration, c: char)
    requires sp in {"", " "} && PlainDuration(dur)
    ensures var o := Offset(sp, dur);
      && o != "" && !IsDigit(o[0])
      && ReadChar(In(o, false, false), c) == (In(sp + Show(dur), false, false), '+')
      && ParseDuration(In(sp + Show(dur), false, false)) == Ok(dur)
  {
    hide ParseDuration, Show;
    var o, rest := Offset(sp, dur), sp + Show(dur);
    ReadShow(dur, sp);
    assert ("+" + rest)[1..] == rest && ("+" + rest)[0] == '+';
    assert sp == " " ==> o[0] == ' ' && o[1..] == "+" + rest;
    assert sp == "" ==> o == "+" + rest;
    assert Skip("+" + rest) == "+" + rest;
    assert Skip(o) == "+" + rest;
  }

  /** What get() finds behind the day. */
  lemma OffsetGet(sp: string, dur: Duration)
    requires sp in {"", " "}
    ensures Get(In(Offset(sp, dur), false, false)) ==
      if sp == "" then (In(sp + Show(dur), false, false), '+') else (In("+" + (sp + Show(dur)), false, false), ' ')
  {
    var rest := sp + Show(dur);
    assert ("+" + rest)[1..] == rest && (" " + ("+" + rest))[1..] == "+" + rest;
    assert "" + ("+" + rest) == "+" + rest;
    hide Show;
  }

  /** A sign with a space behind it is no number. */
  lemma NoHour(s: string, v: int, c: char)
    ensures ReadInt(In("+" + (" " + s), false, false), v) == (In(" " + s, true, false), 0)
    ensures ReadChar(In(" " + s, true, false), c) == (In(" " + s, true, false), c)
  {
    var t := "+" + (" " + s);
    assert t[0] == '+' && t[1..] == " " + s;
  }

  /** A date, or the first part of one, with an offset is read as both; but behind a day the space before the plus sign
      is taken for the one before the hour, and the text is refused. */
  lemma PartOffset(d: Date, k: nat, sp: string, dur: Duration, c0: char, cal: Option<Cal>)
    requires DateFields(d) && 1 <= k <= 6 && sp in {"", " "} && PlainDuration(dur)
    ensures ParseDate(In(Fields(d, 1, k, Offset(sp, dur)), false, false), c0, cal)
         == if k == 3 && sp == " " then Error else Checked(FirstFields(d, k), cal, Some(dur))
  {
    if k <= 2 { YearOffset(d, k, sp, dur, c0, cal); }
    else if k == 3 { DayOffset(d, sp, dur, c0, cal); }
    else { TimeOffset(d, k, sp, dur, c0, cal); }
  }

  lemma YearOffset(d: Date, k: nat, sp: string, dur: Duration, c0: char, cal: Option<Cal>)
    requires DateFields(d) && 1 <= k <= 2 && sp in {"", " "} && PlainDuration(dur)
    ensures ParseDate(In(Fields(d, 1, k, Offset(sp, dur)), false, false), c0, cal) == Checked(FirstFields(d, k), cal, Some(dur))
  {
    hide ReadInt, ReadChar, Get, Fields, Valid, ParseDuration, Offset, Show;
    var o := Offset(sp, dur);
    if k == 1 {
      OffsetRead(sp, dur, c0);
      FieldLast(d, 1, o, 0);
    } else {
      OffsetRead(sp, dur, '-');
      FieldThen(d, 1, k, o, 0, c0);
      FieldLast(d, 2, o, 1);
    }
  }

  lemma DayOffset(d: Date, sp: string, dur: Duration, c0: char, cal: Option<Cal>)
    requires DateFields(d) && sp in {"", " "} && PlainDuration(dur)
    ensures ParseDate(In(Fields(d, 1, 3, Offset(sp, dur)), false, false), c0, cal)
         == if sp == " " then Error else Checked(FirstFields(d, 3), cal, Some(dur))
  {
    hide ReadInt, ReadChar, Get, Fields, Valid, ParseDuration, Offset, Show;
    var o := Offset(sp, dur);
    OffsetRead(sp, dur, '-');
    OffsetGet(sp, dur);
    NoHour(Show(dur), 0, ' ');
    FieldThen(d, 1, 3, o, 0, c0);
    FieldThen(d, 2, 3, o, 1, '-');
    FieldLast(d, 3, o, 1);
  }

  lemma TimeOffset(d: Date, k: nat, sp: string, dur: Duration, c0: char, cal: Option<Cal>)
    requires DateFields(d) && 4 <= k <= 6 && sp in {"", " "} && PlainDuration(dur)
    ensures ParseDate(In(Fields(d, 1, k, Offset(sp, dur)), false, false), c0, cal) == Checked(FirstFields(d, k), cal, Some(dur))
  {
    hide ReadInt, ReadChar, Get, Fields, Valid, ParseDuration, Offset, Show;
    var o := Offset(sp, dur);
    OffsetRead(sp, dur, if k == 4 then ' ' else ':');
    FieldThen(d, 1, k, o, 0, c0);
    FieldThen(d, 2, k, o, 1, '-');
    FieldThen(d, 3, k, o, 1, '-');
    if k == 4 {
      FieldLast(d, 4, o, 0);
    } else {
      FieldThen(d, 4, k, o, 0, ' ');
      if k == 5 {
        FieldLast(d, 5, o, 0);
      } else {
        FieldThen(d, 5, k, o, 0, ':');
        FieldLast(d, 6, o, 0);
      }
    }
  }

  /** An offset without a date is refused, whatever c is at first: its plus sign is taken for the sign of the year. */
  lemma OmittedDate(dur: Duration, c0: char, cal: Option<Cal>)
    requires PlainDuration(dur)
    ensures ParseDate(In("+" + (" " + Show(dur)), false, false), c0, cal) == Error
  {
    var left := In(" " + Show(dur), true, false);
    NoHour(Show(dur), 0, c0);
    Refused(left, 1, c0);
    Refused(left, 1, '-');
    hide ReadInt, ReadChar, Get, Show, Valid;
  }

  /** After a failure nothing is read any more. */
  lemma Refused(i: In, v: int, c: char)
    requires i.fail && !i.eof
    ensures ReadInt(i, v) == (i, v) && ReadChar(i, c) == (i, c) && Get(i) == (i, EOF_CHAR)
    ensures ParseDuration(i) == Error
  { }
}
