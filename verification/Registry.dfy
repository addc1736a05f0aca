/** The registry of src/registry.cpp: a key-value store that is written to and read from buffers, and
    gathered from all processes to the first one. */
module Registry {
  import opened Buffers

  type Key = seq<byte>
  type Store = map<Key, seq<byte>>

  // ---------------------------------------------------------------- specification

  /** One entry in a buffer: length and bytes of the key, length and bytes of the value. */
  function Entry(k: Key, v: seq<byte>): seq<byte> {
    Word(|k|) + k + (Word(|v|) + v)
  }

  lemma EntryIs(k: Key, v: seq<byte>)
    ensures |Word(|k|)| == |Word(|v|)| == WORD_BYTES && |Entry(k, v)| == 2 * WORD_BYTES + |k| + |v|
    ensures Entry(k, v) == Word(|k|) + k + (Word(|v|) + v)
  { }

  lemma Join<T>(w: seq<T>, a: seq<T>, b: seq<T>, c: seq<T>, d: seq<T>)
    ensures w + a + b + c + d == w + (a + b + (c + d))
  { }

  /** The entries of the keys ks, in this order. */
  function Entries(m: Store, ks: seq<Key>): seq<byte>
    requires forall k | k in ks :: k in m
  {
    if ks == [] then [] else Entry(ks[0], m[ks[0]]) + Entries(m, ks[1..])
  }

  /** ks are the keys of m, each once: an order in which a map is traversed. */
  ghost predicate Enumerates(ks: seq<Key>, m: Store) {
    && (forall k :: k in ks <==> k in m)
    && (forall i, j | 0 <= i < j < |ks| :: ks[i] != ks[j])
    && |ks| == |m|
  }

  function Encoding(m: Store, ks: seq<Key>): seq<byte>
    requires forall k | k in ks :: k in m
  {
    Word(|ks|) + Entries(m, ks)
  }

  function EntriesSize(m: Store, ks: seq<Key>): nat
    requires forall k | k in ks :: k in m
  {
    if ks == [] then 0 else 2 * WORD_BYTES + |ks[0]| + |m[ks[0]]| + EntriesSize(m, ks[1..])
  }

  lemma {:induction false} EntriesLength(m: Store, ks: seq<Key>)
    requires forall k | k in ks :: k in m
    ensures |Entries(m, ks)| == EntriesSize(m, ks)
  {
    if ks != [] { EntriesLength(m, ks[1..]); }
  }

  /** All lengths fit in a size_t. */
  predicate Small(m: Store) {
    |m| < WORD && forall k | k in m :: |k| < WORD && |m[k]| < WORD
  }

  function Without<T>(s: seq<T>, i: nat): seq<T>
    requires i < |s|
  {
    s[..i] + s[i + 1..]
  }

  lemma {:induction false} SizeWithout(m: Store, ks: seq<Key>, i: nat)
    requires i < |ks| && forall k | k in ks :: k in m
    ensures EntriesSize(m, ks) == EntriesSize(m, [ks[i]]) + EntriesSize(m, Without(ks, i))
  {
    if i > 0 {
      SizeWithout(m, ks[1..], i - 1);
      assert Without(ks, i)[1..] == Without(ks[1..], i - 1);
    } else {
      assert Without(ks, 0) == ks[1..];
    }
  }

  /** The size does not depend on the order of traversal. */
  lemma {:induction false} SizeSame(m: Store, ks: seq<Key>, js: seq<Key>)
    requires forall k | k in ks || k in js :: k in m
    requires multiset(ks) == multiset(js)
    ensures EntriesSize(m, ks) == EntriesSize(m, js)
  {
    if ks == [] {
      assert |multiset(js)| == 0;
    } else {
      assert ks[0] in multiset(js);
      var i :| 0 <= i < |js| && js[i] == ks[0];
      RemoveOne(js, i);
      RemoveOne(ks, 0);
      hide EntriesSize, Without;
      SizeSame(m, Without(ks, 0), Without(js, i));
      SizeWithout(m, js, i);
      SizeWithout(m, ks, 0);
    }
  }

  lemma RemoveOne(s: seq<Key>, i: nat)
    requires i < |s|
    ensures multiset(Without(s, i)) == multiset(s) - multiset{s[i]}
    ensures |Without(s, i)| == |s| - 1 && forall k | k in Without(s, i) :: k in s
  {
    assert s == s[..i] + [s[i]] + s[i + 1..];
  }

  lemma {:induction false} EnumerationsMatch(m: Store, ks: seq<Key>, js: seq<Key>)
    requires Enumerates(ks, m) && Enumerates(js, m)
    ensures multiset(ks) == multiset(js)
  {
    forall k: Key ensures multiset(ks)[k] == multiset(js)[k] {
      OnceIn(ks, k);
      OnceIn(js, k);
    }
  }

  lemma {:induction false} OnceIn(ks: seq<Key>, k: Key)
    requires forall i, j | 0 <= i < j < |ks| :: ks[i] != ks[j]
    ensures multiset(ks)[k] == if k in ks then 1 else 0
  {
    if ks != [] {
      OnceIn(ks[1..], k);
      assert ks == [ks[0]] + ks[1..];
    }
  }

  /** What is read back for the keys ks, over a store s. */
  function Override(s: Store, m: Store): Store {
    s + m
  }

  /** Keeps the keys of a, and adds those that only b has. */
  function Merge(a: Store, b: Store): Store {
    b + a
  }

  // ---------------------------------------------------------------- the class

  class CRegistry {
    var registry: Store

    constructor ()
      ensures registry == map[]
    {
      registry := map[];
    }

    /** The bytes that toBuffer writes, whatever the order of traversal. */
    method Size() returns (s: nat)
      ensures forall ks | Enumerates(ks, registry) :: s == |Encoding(registry, ks)|
    {
      s := WORD_BYTES;
      var rest := registry.Keys;
      ghost var done: seq<Key> := [];
      while rest != {}
        invariant rest <= registry.Keys
        invariant Partial(registry, done, rest)
        invariant s == WORD_BYTES + EntriesSize(registry, done)
        decreases rest
      {
        var k :| k in rest;
        NextKey(registry, done, rest, k);
        s := s + (WORD_BYTES + |k|) + WORD_BYTES + |registry[k]|;
        rest, done := rest - {k}, done + [k];
      }
      forall ks | Enumerates(ks, registry) ensures s == |Encoding(registry, ks)| {
        EnumerationsMatch(registry, done, ks);
        SizeSame(registry, done, ks);
        EntriesLength(registry, ks);
      }
    }

    /** Writes the registry, in some order ks.  It fails exactly when the buffer has less room than size(). */
    method ToBuffer(buffer: CBufferOut) returns (ok: bool, ghost ks: seq<Key>)
      requires buffer.Valid()
      modifies buffer, buffer.begin
      ensures buffer.Valid() && Enumerates(ks, registry)
      ensures ok <==> |Encoding(registry, ks)| <= old(buffer.Remain())
      ensures ok ==> buffer.Written() == old(buffer.Written()) + Encoding(registry, ks)
    {
      ghost var done: seq<Key>, before, room := [], buffer.Written(), buffer.Remain();
      ks := Complete(registry, done, registry.Keys);
      EntriesLength(registry, ks);
      ok := buffer.Put(Word(|registry|));
      if !ok { return; }
      assert buffer.Written() == SoFar(before, registry, done);
      var rest := registry.Keys;
      assert Partial(registry, done, rest);
      hide Le, Word, Entries, EntriesSize, Enumerates, Encoding, SoFar, Partial, Entry;
      while rest != {}
        invariant buffer.Valid() && Partial(registry, done, rest) && rest <= registry.Keys
        invariant buffer.Written() == SoFar(before, registry, done)
        decreases rest
      {
        var k :| k in rest;
        ghost var all := NoRoom(before, registry, done, rest, k);
        ok := PutEntry(buffer, k, registry[k]);
        if !ok { return ok, all; }
        rest, done := rest - {k}, done + [k];
      }
      AllWritten(before, registry, done);
      ks := done;
    }

    method PutEntry(buffer: CBufferOut, k: Key, v: seq<byte>) returns (ok: bool)
      requires buffer.Valid()
      modifies buffer, buffer.begin
      ensures buffer.Valid() && ok == (|Entry(k, v)| <= old(buffer.Remain()))
      ensures ok ==> buffer.Written() == old(buffer.Written()) + Entry(k, v)
    {
      hide Word, Entry;
      EntryIs(k, v);
      Join(buffer.Written(), Word(|k|), k, Word(|v|), v);
      // a string: all of its length and characters, or nothing
      if buffer.Remain() < WORD_BYTES + |k| { return false; }
      ok := buffer.Put(Word(|k|));
      ok := buffer.Put(k);
      ok := buffer.Put(Word(|v|));
      if !ok { return; }
      ok := buffer.Put(v);
    }

    /** Reads what toBuffer wrote for m (in the order ks): its keys take m's values, the others stay.
        The source does not check that the bytes are such a message; that is left to the caller. */
    method FromBuffer(buffer: CBufferIn, ghost m: Store, ghost ks: seq<Key>, ghost tail: seq<byte>)
      requires buffer.Valid() && Small(m) && Enumerates(ks, m) && buffer.Rest() == Encoding(m, ks) + tail
      modifies this, buffer
      ensures buffer.Valid() && buffer.Rest() == tail
      ensures registry == Override(old(registry), m)
    {
      ghost var before := registry;
      hide Encoding, Small, Enumerates, Unread, Part, Override, Word;
      ReadStart(before, m, ks, tail);
      assert buffer.Rest() == Word(|ks|) + Unread(m, ks, 0, tail);
      var nKeys := GetWord(buffer, |ks|, Unread(m, ks, 0, tail));
      ReadAll(buffer, nKeys, before, m, ks, tail);
      ReadEnd(m, ks, tail);
    }

    /** The first i entries have been read. */
    ghost predicate ReadTo(buffer: CBufferIn, before: Store, m: Store, ks: seq<Key>, i: nat, tail: seq<byte>)
      requires i <= |ks| && forall k | k in ks :: k in m
      reads this, buffer, buffer.begin
    {
      && buffer.Valid() && buffer.Rest() == Unread(m, ks, i, tail)
      && registry == Override(before, Part(m, ks[..i]))
    }

    /** The loop of fromBuffer. */
    method ReadAll(buffer: CBufferIn, nKeys: nat, ghost before: Store, ghost m: Store, ghost ks: seq<Key>, ghost tail: seq<byte>)
      requires nKeys == |ks| && Small(m) && (forall k | k in ks :: k in m) && ReadTo(buffer, before, m, ks, 0, tail)
      modifies this, buffer
      ensures ReadTo(buffer, before, m, ks, |ks|, tail)
    {
      hide Small, ReadTo;
      var i := 0;
      while i < nKeys
        invariant i <= nKeys && ReadTo(buffer, before, m, ks, i, tail)
      {
        ReadOne(buffer, before, m, ks, i, tail);
        i := i + 1;
      }
    }

    /** One turn of it. */
    method ReadOne(buffer: CBufferIn, ghost before: Store, ghost m: Store, ghost ks: seq<Key>, ghost i: nat, ghost tail: seq<byte>)
      requires i < |ks| && Small(m) && (forall k | k in ks :: k in m) && ReadTo(buffer, before, m, ks, i, tail)
      modifies this, buffer
      ensures ReadTo(buffer, before, m, ks, i + 1, tail)
    {
      hide Small, Unread, Part, Override, Entry;
      ReadStep(before, m, ks, i, tail);
      var key, value := GetEntry(buffer, ks[i], m[ks[i]], Unread(m, ks, i + 1, tail));
      registry := registry[key := value];
    }

    method GetWord(buffer: CBufferIn, ghost x: nat, ghost tail: seq<byte>) returns (r: nat)
      requires buffer.Valid() && x < WORD && buffer.Rest() == Word(x) + tail
      modifies buffer
      ensures buffer.Valid() && r == x && buffer.Rest() == tail
    {
      WordRoundTrip(x);
      var ok, word := buffer.Get(WORD_BYTES);
      r := FromLe(word);
    }

    method GetEntry(buffer: CBufferIn, ghost k: Key, ghost v: seq<byte>, ghost tail: seq<byte>) returns (key: Key, value: seq<byte>)
      requires buffer.Valid() && |k| < WORD && |v| < WORD && buffer.Rest() == Entry(k, v) + tail
      modifies buffer
      ensures buffer.Valid() && buffer.Rest() == tail && key == k && value == v
    {
      assert Entry(k, v) + tail == Word(|k|) + (k + (Word(|v|) + (v + tail)));
      hide Word, Le;
      var n := GetWord(buffer, |k|, k + (Word(|v|) + (v + tail)));
      var ok;
      ok, key := buffer.Get(n);
      assert buffer.Rest() == Word(|v|) + (v + tail);
      n := GetWord(buffer, |v|, v + tail);
      ok, value := buffer.Get(n);
    }

    /** Takes over the entries of another registry whose keys it does not have. */
    method MergeRegistry(inRegistry: CRegistry)
      requires inRegistry != this
      modifies this
      ensures registry == Merge(old(registry), inRegistry.registry)
    {
      var rest := inRegistry.registry.Keys;
      while rest != {}
        invariant rest <= inRegistry.registry.Keys
        invariant forall k :: k in registry <==> k in old(registry) || (k in inRegistry.registry && k !in rest)
        invariant forall k | k in registry :: registry[k] == if k in old(registry) then old(registry)[k] else inRegistry.registry[k]
        decreases rest
      {
        var key :| key in rest;
        if key !in registry { registry := registry[key := inRegistry.registry[key]]; }
        rest := rest - {key};
      }
    }
  }

  /** A buffer in which m has been written for the keys `done`. */
  function SoFar(before: seq<byte>, m: Store, done: seq<Key>): seq<byte>
    requires forall k | k in done :: k in m
  {
    before + Word(|m|) + Entries(m, done)
  }

  /** What the next entry adds, and an order that shows how much room all the rest needs. */
  lemma NoRoom(before: seq<byte>, m: Store, done: seq<Key>, rest: set<Key>, k: Key) returns (ks: seq<Key>)
    requires Partial(m, done, rest) && k in rest
    ensures k in m && Partial(m, done + [k], rest - {k}) && Enumerates(ks, m)
    ensures SoFar(before, m, done) + Entry(k, m[k]) == SoFar(before, m, done + [k])
    ensures |SoFar(before, m, done)| + |Entry(k, m[k])| <= |before| + |Encoding(m, ks)|
  {
    NextKey(m, done, rest, k);
    ks := Complete(m, done + [k], rest - {k});
    EntriesLength(m, done);
    EntriesLength(m, ks);
  }

  lemma AllWritten(before: seq<byte>, m: Store, done: seq<Key>)
    requires Partial(m, done, {})
    ensures Enumerates(done, m) && SoFar(before, m, done) == before + Encoding(m, done)
  {}

  /** What is left to read from entry i on. */
  function Unread(m: Store, ks: seq<Key>, i: nat, tail: seq<byte>): seq<byte>
    requires i <= |ks| && forall k | k in ks :: k in m
  {
    Entries(m, ks[i..]) + tail
  }

  lemma ReadStart(before: Store, m: Store, ks: seq<Key>, tail: seq<byte>)
    requires Small(m) && Enumerates(ks, m)
    ensures Encoding(m, ks) + tail == Word(|ks|) + Unread(m, ks, 0, tail) && |ks| < WORD
    ensures before == Override(before, Part(m, ks[..0]))
    ensures forall k | k in ks :: k in m
  {
    assert ks[0..] == ks;
  }

  lemma ReadStep(before: Store, m: Store, ks: seq<Key>, i: nat, tail: seq<byte>)
    requires i < |ks| && Small(m) && forall k | k in ks :: k in m
    ensures |ks[i]| < WORD && |m[ks[i]]| < WORD
    ensures Unread(m, ks, i, tail) == Entry(ks[i], m[ks[i]]) + Unread(m, ks, i + 1, tail)
    ensures Override(before, Part(m, ks[..i + 1])) == Override(before, Part(m, ks[..i]))[ks[i] := m[ks[i]]]
  {
    assert ks[i..][1..] == ks[i + 1..];
    assert ks[..i + 1] == ks[..i] + [ks[i]];
    assert Part(m, ks[..i + 1]) == Part(m, ks[..i])[ks[i] := m[ks[i]]];
  }

  lemma ReadEnd(m: Store, ks: seq<Key>, tail: seq<byte>)
    requires Enumerates(ks, m)
    ensures Unread(m, ks, |ks|, tail) == tail && Part(m, ks[..|ks|]) == m
  {
    assert ks[..|ks|] == ks;
  }

  /** m restricted to the keys ks. */
  function Part(m: Store, ks: seq<Key>): Store {
    map k | k in ks && k in m :: m[k]
  }

  lemma {:induction false} Complete(m: Store, done: seq<Key>, rest: set<Key>) returns (ks: seq<Key>)
    requires Partial(m, done, rest)
    ensures Enumerates(ks, m) && EntriesSize(m, ks) >= EntriesSize(m, done)
    decreases rest
  {
    if rest == {} {
      ks := done;
    } else {
      var k :| k in rest;
      NextKey(m, done, rest, k);
      ks := Complete(m, done + [k], rest - {k});
    }
  }

  /** done lists the keys of m that are not in rest. */
  ghost predicate Partial(m: Store, done: seq<Key>, rest: set<Key>) {
    && rest <= m.Keys
    && (forall k :: k in done <==> k in m && k !in rest)
    && (forall i, j | 0 <= i < j < |done| :: done[i] != done[j])
    && |done| + |rest| == |m|
  }

  lemma NextKey(m: Store, done: seq<Key>, rest: set<Key>, k: Key)
    requires Partial(m, done, rest) && k in rest
    ensures Partial(m, done + [k], rest - {k})
    ensures EntriesSize(m, done + [k]) == EntriesSize(m, done) + 2 * WORD_BYTES + |k| + |m[k]|
    ensures Entries(m, done + [k]) == Entries(m, done) + Entry(k, m[k])
  {
    assert (done + [k])[..|done|] == done;
    EntriesAppend(m, done, k);
  }

  lemma Regroup<T>(x: seq<T>, y: seq<T>, z: seq<T>)
    ensures x + (y + z) == (x + y) + z
  { }

  lemma {:induction false} EntriesAppend(m: Store, done: seq<Key>, k: Key)
    requires k in m && forall j | j in done :: j in m
    ensures EntriesSize(m, done + [k]) == EntriesSize(m, done) + 2 * WORD_BYTES + |k| + |m[k]|
    ensures Entries(m, done + [k]) == Entries(m, done) + Entry(k, m[k])
  {
    hide Entry;
    if done == [] {
      assert done + [k] == [k] && [k][1..] == [];
    } else {
      EntriesAppend(m, done[1..], k);
      assert (done + [k])[0] == done[0] && (done + [k])[1..] == done[1..] + [k];
      Regroup(Entry(done[0], m[done[0]]), Entries(m, done[1..]), Entry(k, m[k]));
    }
  }
}
