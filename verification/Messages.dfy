/** The events of src/transport/legacy_context_client.cpp and legacy_context_server.cpp as bytes: a size
    (an int), a time line (a size_t) and a payload, one event after the other. */
module Messages {
  import opened Buffers

  datatype Event = Event(timeLine: nat, payload: seq<byte>)

  const INT_BYTES: nat := 4
  const HEAD: nat := INT_BYTES + WORD_BYTES

  /** The two time lines of src/timeline_events.hpp that are not events of the application. */
  const NOTIFY: nat := WORD - 1 - 100
  const CHANGE: nat := NOTIFY + 1

  predicate Fits(e: Event) {
    HEAD + |e.payload| < 0x8000_0000 && e.timeLine < WORD
  }

  predicate IsUser(e: Event) {
    Fits(e) && e.timeLine < NOTIFY
  }

  function Size(e: Event): nat {
    HEAD + |e.payload|
  }

  function Encode(e: Event): (r: seq<byte>)
    ensures |r| == Size(e)
  {
    Le(Size(e), INT_BYTES) + Word(e.timeLine) + e.payload
  }

  function Flat(es: seq<Event>): seq<byte> {
    if es == [] then [] else Encode(es[0]) + Flat(es[1..])
  }

  predicate AllFit(es: seq<Event>) {
    forall i | 0 <= i < |es| :: Fits(es[i])
  }

  predicate AllUser(es: seq<Event>) {
    forall i | 0 <= i < |es| :: IsUser(es[i])
  }

  /** The events of the application among es. */
  function Users(es: seq<Event>): seq<Event> {
    if es == [] then [] else (if IsUser(es[0]) then [es[0]] else []) + Users(es[1..])
  }

  lemma {:induction false} UsersAll(es: seq<Event>)
    requires AllUser(es)
    ensures Users(es) == es
  {
    if es != [] { UsersAll(es[1..]); }
  }

  lemma {:induction false} UsersConcat(a: seq<Event>, b: seq<Event>)
    ensures Users(a + b) == Users(a) + Users(b)
  {
    if a == [] {
      assert a + b == b;
    } else {
      UsersConcat(a[1..], b);
      assert (a + b)[1..] == a[1..] + b;
      hide IsUser;
    }
  }

  lemma FlatFirst(es: seq<Event>)
    requires es != []
    ensures Flat(es) == Encode(es[0]) + Flat(es[1..])
  { }

  lemma Glue(x: seq<byte>, y: seq<byte>, z: seq<byte>, xy: seq<byte>, yz: seq<byte>, xyz: seq<byte>)
    requires xy == x + y && yz == y + z && xyz == x + yz
    ensures xyz == xy + z
  { }

  lemma {:induction false} FlatConcat(a: seq<Event>, b: seq<Event>)
    ensures Flat(a + b) == Flat(a) + Flat(b)
  {
    if a == [] {
      assert a + b == b;
    } else {
      FlatConcat(a[1..], b);
      FlatFirst(a);
      FlatFirst(a + b);
      hide *;
      assert (a + b)[0] == a[0] && (a + b)[1..] == a[1..] + b;
      Glue(Encode(a[0]), Flat(a[1..]), Flat(b), Flat(a), Flat(a[1..] + b), Flat(a + b));
    }
  }

  lemma FlatOne(e: Event)
    ensures Flat([e]) == Encode(e)
  {
    assert [e][1..] == [];
    assert Encode(e) + [] == Encode(e);
  }

  lemma FlatLonger(es: seq<Event>)
    requires es != []
    ensures |Flat(es)| >= HEAD
  { }

  lemma SizeRoundTrip(x: nat)
    requires x < 0x8000_0000
    ensures FromLe(Le(x, INT_BYTES)) == x
  {
    assert Pow256(4) == 256 * Pow256(3) == 256 * 256 * Pow256(2) == 256 * 256 * 256 * Pow256(1);
    LeRoundTrip(x, 4);
  }

  /** Reading the front of a message gives back the first event, and what follows it. */
  lemma FrontRoundTrip(e: Event, rest: seq<byte>)
    requires Fits(e)
    ensures var s := Encode(e) + rest;
      && FromLe(s[..INT_BYTES]) == Size(e) && FromLe(s[INT_BYTES..HEAD]) == e.timeLine
      && s[HEAD..Size(e)] == e.payload && s[Size(e)..] == rest
  {
    var s := Encode(e) + rest;
    SizeRoundTrip(Size(e));
    WordRoundTrip(e.timeLine);
    assert s[..INT_BYTES] == Le(Size(e), INT_BYTES);
    assert s[INT_BYTES..HEAD] == Word(e.timeLine);
  }
}
