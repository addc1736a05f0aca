/** Attribute inheritance: filling an attribute map from another one (src/attribute_map.cpp,
    src/attribute_template_impl.hpp), along a chain of references (src/declare_ref_func.hpp) and from a
    group to its children (src/group_template_impl.hpp). */
module Inheritance {
  import opened Wrappers

  type Id = string
  type Name = string

  /** An attribute: its own value, the value inherited for reading only, and whether it may inherit (an
      attribute reset by the user may not). */
  datatype Attr = Attr(own: Option<string>, inherited: Option<string>, canInherit: bool) {

    /** getInheritedValue and hasInheritedValue. */
    function Value(): Option<string> {
      if own.Some? then own else inherited
    }

    /** What the two branches of setAttributes make of it. */
    function From(parent: Attr, apply: bool): Attr {
      if own.Some? || !canInherit then this
      else if apply then this.(own := parent.own)
      else if parent.Value().Some? then this.(inherited := parent.Value())
      else this
    }
  }

  type Attrs = map<Name, Attr>

  /** All objects of a kind, by id. */
  type Store = map<Id, Attrs>

  function Filled(child: Attrs, parent: Attrs, apply: bool): Attrs {
    map n | n in child :: if n in parent then child[n].From(parent[n], apply) else child[n]
  }

  /** setAttributes. */
  method SetAttributes(child0: Attrs, parent: Attrs, apply: bool) returns (child: Attrs)
    ensures child == Filled(child0, parent, apply)
  {
    child := child0;
    var rest := parent.Keys;
    while rest != {}
      invariant rest <= parent.Keys && child.Keys == child0.Keys
      invariant forall n | n in child :: child[n] == if n in parent && n !in rest then child0[n].From(parent[n], apply) else child0[n]
      decreases rest
    {
      var n :| n in rest;
      rest := rest - {n};
      if n in child {
        if apply {
          if child[n].own.None? && child[n].canInherit && parent[n].own.Some? {
            child := child[n := child[n].(own := parent[n].own)];
          }
        } else {
          if child[n].own.None? && child[n].canInherit && parent[n].Value().Some? {
            child := child[n := child[n].(inherited := parent[n].Value())];
          }
        }
      }
    }
  }

  // ---------------------------------------------------------------- chains of references

  /** The object that o refers to, if its reference is set and known. */
  function Next(a: Store, ref: Name, o: Id): Option<Id> {
    if o in a && ref in a[o] && a[o][ref].own.Some? && a[o][ref].own.value in a then a[o][ref].own else None
  }

  /** The chain that starts at o ends after at most k references. */
  predicate Ends(a: Store, ref: Name, o: Id, k: nat)
    decreases k
  {
    Next(a, ref, o) == None || (k > 0 && Ends(a, ref, Next(a, ref, o).value, k - 1))
  }

  ghost predicate Acyclic(a: Store, ref: Name, o: Id) {
    exists k: nat :: Ends(a, ref, o, k)
  }

  function Chain(a: Store, ref: Name, o: Id, k: nat): (c: seq<Id>)
    requires o in a && Ends(a, ref, o, k)
    ensures |c| > 0 && c[0] == o && forall i | 0 <= i < |c| :: c[i] in a
    decreases k
  {
    if Next(a, ref, o) == None then [o] else [o] + Chain(a, ref, Next(a, ref, o).value, k - 1)
  }

  /** The first value of attribute n along a list of objects. */
  function First(a: Store, c: seq<Id>, n: Name): Option<string>
    requires forall i | 0 <= i < |c| :: c[i] in a
  {
    if c == [] then None
    else if n in a[c[0]] && a[c[0]][n].own.Some? then a[c[0]][n].own
    else First(a, c[1..], n)
  }

  /** An object after its references are solved: an empty attribute that may inherit has the first value
      along the chain. */
  function Solved(a: Store, c: seq<Id>): Attrs
    requires c != [] && forall i | 0 <= i < |c| :: c[i] in a
  {
    map n | n in a[c[0]] ::
      if a[c[0]][n].own.None? && a[c[0]][n].canInherit then a[c[0]][n].(own := First(a, c[1..], n)) else a[c[0]][n]
  }

  /** Every object refers to the next one. */
  predicate Linked(a: Store, ref: Name, c: seq<Id>) {
    forall i | 0 <= i < |c| - 1 :: Next(a, ref, c[i]) == Some(c[i + 1])
  }

  lemma {:induction false} ChainIs(a: Store, ref: Name, c: seq<Id>)
    requires c != [] && c[0] in a && Linked(a, ref, c) && Next(a, ref, c[|c| - 1]) == None
    ensures Ends(a, ref, c[0], |c| - 1) && Chain(a, ref, c[0], |c| - 1) == c
  {
    if |c| > 1 {
      assert Next(a, ref, c[0]) == Some(c[1]);
      forall i | 0 <= i < |c| - 2 ensures Next(a, ref, c[1..][i]) == Some(c[1..][i + 1]) {
        assert Next(a, ref, c[i + 1]) == Some(c[i + 2]);
      }
      ChainIs(a, ref, c[1..]);
      assert c == [c[0]] + c[1..];
    }
  }

  /** Objects of which each has the id of the next one as its reference attribute, up to one whose reference is not
      set, or names no object, are a chain. */
  lemma ReferenceChain(a: Store, ref: Name, c: seq<Id>)
    requires c != [] && forall i | 0 <= i < |c| :: c[i] in a && ref in a[c[i]]
    requires forall i | 0 <= i < |c| - 1 :: a[c[i]][ref].own == Some(c[i + 1])
    requires var last := a[c[|c| - 1]][ref].own; last == None || last.value !in a
    ensures Ends(a, ref, c[0], |c| - 1) && Chain(a, ref, c[0], |c| - 1) == c
  {
    forall i | 0 <= i < |c| - 1 ensures Next(a, ref, c[i]) == Some(c[i + 1]) {
      assert a[c[i]][ref].own == Some(c[i + 1]);
    }
    ChainIs(a, ref, c);
  }

  lemma {:induction false} ChainUnique(a: Store, ref: Name, o: Id, k: nat, l: nat)
    requires o in a && Ends(a, ref, o, k) && Ends(a, ref, o, l)
    ensures Chain(a, ref, o, k) == Chain(a, ref, o, l)
    decreases k
  {
    if Next(a, ref, o).Some? { ChainUnique(a, ref, Next(a, ref, o).value, k - 1, l - 1); }
  }

  /** A chain that comes back to itself never ends. */
  lemma {:induction false} Loops(a: Store, ref: Name, c: seq<Id>, i: nat, k: nat)
    requires i < |c| && Linked(a, ref, c)
    requires Next(a, ref, c[|c| - 1]).Some? && Next(a, ref, c[|c| - 1]).value in c
    ensures !Ends(a, ref, c[i], k)
    decreases k
  {
    if i < |c| - 1 { assert Next(a, ref, c[i]) == Some(c[i + 1]); }
    if k > 0 {
      if i < |c| - 1 {
        Loops(a, ref, c, i + 1, k - 1);
      } else {
        var m :| 0 <= m < |c| && c[m] == Next(a, ref, c[|c| - 1]).value;
        Loops(a, ref, c, m, k - 1);
      }
    }
  }

  /** Objects whose reference attributes lead back to one of them have no chain that ends. */
  lemma ReferenceLoop(a: Store, ref: Name, c: seq<Id>, i: nat)
    requires i < |c| && forall j | 0 <= j < |c| :: c[j] in a && ref in a[c[j]]
    requires forall j | 0 <= j < |c| - 1 :: a[c[j]][ref].own == Some(c[j + 1])
    requires var last := a[c[|c| - 1]][ref].own; last.Some? && last.value in c
    ensures !Acyclic(a, ref, c[i])
  {
    forall j | 0 <= j < |c| - 1 ensures Next(a, ref, c[j]) == Some(c[j + 1]) {
      assert a[c[j]][ref].own == Some(c[j + 1]);
    }
    forall k: nat ensures !Ends(a, ref, c[i], k) { Loops(a, ref, c, i, k); }
  }

  lemma {:induction false} FirstConcat(a: Store, c: seq<Id>, d: seq<Id>, n: Name)
    requires forall i | 0 <= i < |c| :: c[i] in a
    requires forall i | 0 <= i < |d| :: d[i] in a
    ensures First(a, c + d, n) == if First(a, c, n).Some? then First(a, c, n) else First(a, d, n)
  {
    if c == [] {
      assert c + d == d;
    } else {
      FirstConcat(a, c[1..], d, n);
      assert (c + d)[1..] == c[1..] + d;
    }
  }

  /** One more link of the chain. */
  lemma FilledOnce(a: Store, c: seq<Id>, next: Id)
    requires c != [] && next in a && forall i | 0 <= i < |c| :: c[i] in a
    ensures Filled(Solved(a, c), a[next], true) == Solved(a, c + [next])
  {
    assert (c + [next])[1..] == c[1..] + [next];
    forall n | n in a[c[0]] ensures Filled(Solved(a, c), a[next], true)[n] == Solved(a, c + [next])[n] {
      FirstConcat(a, c[1..], [next], n);
      assert First(a, [next], n) == if n in a[next] && a[next][n].own.Some? then a[next][n].own else None;
    }
  }

  // ---------------------------------------------------------------- solving in any order

  ghost predicate SameRefs(a: Store, b: Store, ref: Name) {
    a.Keys == b.Keys && forall o :: Next(a, ref, o) == Next(b, ref, o)
  }

  lemma {:induction false} SameEnds(a: Store, b: Store, ref: Name, o: Id, k: nat)
    requires SameRefs(a, b, ref)
    ensures Ends(a, ref, o, k) <==> Ends(b, ref, o, k)
    ensures o in a && Ends(a, ref, o, k) ==> Chain(a, ref, o, k) == Chain(b, ref, o, k)
    decreases k
  {
    if k > 0 && Next(a, ref, o).Some? { SameEnds(a, b, ref, Next(a, ref, o).value, k - 1); }
  }

  lemma SolvedKeepsRefs(a: Store, ref: Name, p: Id, k: nat)
    requires p in a && Ends(a, ref, p, k)
    ensures SameRefs(a, a[p := Solved(a, Chain(a, ref, p, k))], ref)
  {
    var b := a[p := Solved(a, Chain(a, ref, p, k))];
    forall o ensures Next(a, ref, o) == Next(b, ref, o) {
      if o == p && ref in a[p] && a[p][ref].own.None? {
        assert First(a, [], ref) == None;
      }
    }
  }

  /** Solving one object changes no first value along a chain ... */
  lemma {:induction false} FirstStays(a: Store, ref: Name, p: Id, k: nat, o: Id, l: nat, n: Name)
    requires p in a && Ends(a, ref, p, k) && o in a && Ends(a, ref, o, l)
    ensures var b := a[p := Solved(a, Chain(a, ref, p, k))];
      First(b, Chain(a, ref, o, l), n) == First(a, Chain(a, ref, o, l), n)
    decreases l
  {
    var b := a[p := Solved(a, Chain(a, ref, p, k))];
    var c := Chain(a, ref, o, l);
    if Next(a, ref, o).Some? {
      FirstStays(a, ref, p, k, Next(a, ref, o).value, l - 1, n);
      assert c[1..] == Chain(a, ref, Next(a, ref, o).value, l - 1);
    } else {
      assert c[1..] == [];
    }
    if o == p { ChainUnique(a, ref, o, k, l); }
  }

  /** ... so the objects can be solved in any order, and more than once. */
  lemma SolvedStays(a: Store, ref: Name, p: Id, k: nat, o: Id, l: nat)
    requires p in a && Ends(a, ref, p, k) && o in a && Ends(a, ref, o, l)
    ensures var b := a[p := Solved(a, Chain(a, ref, p, k))];
      Ends(b, ref, o, l) && Solved(b, Chain(b, ref, o, l)) == Solved(a, Chain(a, ref, o, l))
  {
    var b := a[p := Solved(a, Chain(a, ref, p, k))];
    SolvedKeepsRefs(a, ref, p, k);
    SameEnds(a, b, ref, o, l);
    var c := Chain(a, ref, o, l);
    if o == p { ChainUnique(a, ref, o, k, l); }
    forall n | n in a[o] ensures Solved(b, c)[n] == Solved(a, c)[n] {
      FirstStays(a, ref, p, k, o, l, n);
      if Next(a, ref, o).Some? {
        FirstStays(a, ref, p, k, Next(a, ref, o).value, l - 1, n);
        assert c[1..] == Chain(a, ref, Next(a, ref, o).value, l - 1);
      } else {
        assert c[1..] == [];
      }
    }
  }

  /** The result for one object, named. */
  ghost predicate SolvedIn(a: Store, ref: Name, o: Id, r: Attrs)
    requires o in a
  {
    exists k: nat :: Ends(a, ref, o, k) && r == Solved(a, Chain(a, ref, o, k))
  }

  class CObjectFactory {
    /** The attributes of each object. */
    var objects: Store
    const ref: Name

    constructor (objects: Store, ref: Name)
      ensures this.objects == objects && this.ref == ref
    {
      this.objects, this.ref := objects, ref;
    }

    /** solveRefInheritance(true): it ends, and reports an error exactly when the chain does not. */
    method SolveRefInheritance(id: Id) returns (ok: bool, refObjects: seq<Id>)
      requires id in objects
      modifies this
      ensures ok <==> Acyclic(old(objects), ref, id)
      ensures ok ==> exists k: nat :: Ends(old(objects), ref, id, k) && refObjects == Chain(old(objects), ref, id, k)
                                   && objects == old(objects)[id := Solved(old(objects), refObjects)]
      ensures objects.Keys == old(objects).Keys && forall o | o in objects && o != id :: objects[o] == old(objects)[o]
    {
      ghost var a := objects;
      var tmpRefObjects: set<Id> := {};
      var referPtr := id;
      refObjects := [id];
      SolvedAlone(a, id);
      while Next(objects, ref, referPtr).Some?
        invariant refObjects != [] && refObjects[0] == id && refObjects[|refObjects| - 1] == referPtr
        invariant forall i | 0 <= i < |refObjects| :: refObjects[i] in a
        invariant forall o | o in tmpRefObjects :: o in refObjects
        invariant |refObjects| > 1 ==> id in tmpRefObjects
        invariant tmpRefObjects <= a.Keys && referPtr !in tmpRefObjects
        invariant Linked(a, ref, refObjects)
        invariant objects == a[id := Solved(a, refObjects)]
        invariant forall o :: Next(objects, ref, o) == Next(a, ref, o)
        decreases a.Keys - tmpRefObjects
      {
        tmpRefObjects := tmpRefObjects + {referPtr};
        assert Next(a, ref, referPtr) == Next(objects, ref, referPtr);
        referPtr := Next(objects, ref, referPtr).value;
        if referPtr in tmpRefObjects {
          assert referPtr in refObjects;
          forall k: nat ensures !Ends(a, ref, id, k) { Loops(a, ref, refObjects, 0, k); }
          return false, refObjects;
        }
        FilledOnce(a, refObjects, referPtr);
        assert objects[referPtr] == a[referPtr];
        refObjects := refObjects + [referPtr];
        var mine := SetAttributes(objects[id], objects[referPtr], true);
        objects := objects[id := mine];
        SolvedRefs(a, ref, refObjects);
      }
      ChainIs(a, ref, refObjects);
      ok := true;
    }

    /** Solving a list of objects, in whatever order it has them. */
    method SolveAll(ids: seq<Id>)
      requires forall o | o in ids :: o in objects && Acyclic(objects, ref, o)
      modifies this
      ensures objects.Keys == old(objects).Keys
      ensures forall o | o in objects ::
        if o in ids then SolvedIn(old(objects), ref, o, objects[o]) else objects[o] == old(objects)[o]
    {
      ghost var a := objects;
      for i := 0 to |ids|
        invariant objects.Keys == a.Keys && SameRefs(a, objects, ref) && SameResults(a, objects, ref)
        invariant forall o | o in objects ::
          if o in ids[..i] then SolvedIn(a, ref, o, objects[o]) else objects[o] == a[o]
      {
        assert ids[i] in ids;
        SolveOne(ids[i], a);
        assert ids[..i + 1] == ids[..i] + [ids[i]];
      }
      assert ids[..|ids|] == ids;
    }

    method SolveOne(id: Id, ghost a: Store)
      requires objects.Keys == a.Keys && SameRefs(a, objects, ref) && SameResults(a, objects, ref)
      requires id in a && Acyclic(a, ref, id)
      modifies this
      ensures objects.Keys == a.Keys && SameRefs(a, objects, ref) && SameResults(a, objects, ref)
      ensures SolvedIn(a, ref, id, objects[id]) && forall o | o in objects && o != id :: objects[o] == old(objects)[o]
    {
      ghost var b := objects;
      ghost var l: nat :| Ends(a, ref, id, l);
      SameEnds(a, b, ref, id, l);
      var ok, c := SolveRefInheritance(id);
      ghost var k: nat :| Ends(b, ref, id, k) && c == Chain(b, ref, id, k) && objects == b[id := Solved(b, c)];
      ChainUnique(b, ref, id, k, l);
      assert SameResult(a, b, ref, id, l);
      StepResults(a, b, ref, id, k);
    }
  }

  ghost predicate SameResult(a: Store, b: Store, ref: Name, o: Id, k: nat)
    requires o in a && Ends(a, ref, o, k)
  {
    o in b && Ends(b, ref, o, k) && Solved(b, Chain(b, ref, o, k)) == Solved(a, Chain(a, ref, o, k))
  }

  /** Solving would give the same from b as from a. */
  ghost predicate SameResults(a: Store, b: Store, ref: Name) {
    forall o, k: nat | o in a && Ends(a, ref, o, k) :: SameResult(a, b, ref, o, k)
  }

  lemma StepResults(a: Store, b: Store, ref: Name, id: Id, k: nat)
    requires SameRefs(a, b, ref) && SameResults(a, b, ref) && id in b && Ends(b, ref, id, k)
    ensures var c := b[id := Solved(b, Chain(b, ref, id, k))]; SameRefs(a, c, ref) && SameResults(a, c, ref)
  {
    var c := b[id := Solved(b, Chain(b, ref, id, k))];
    SolvedKeepsRefs(b, ref, id, k);
    forall o, m: nat | o in a && Ends(a, ref, o, m) ensures SameResult(a, c, ref, o, m) {
      assert SameResult(a, b, ref, o, m);
      SolvedStays(b, ref, id, k, o, m);
    }
  }

  lemma SolvedAlone(a: Store, o: Id)
    requires o in a
    ensures a[o := Solved(a, [o])] == a
  {
    assert [o][1..] == [];
    forall n | n in a[o] ensures Solved(a, [o])[n] == a[o][n] {
      assert First(a, [], n) == None;
    }
    assert Solved(a, [o]) == a[o];
  }

  /** Filling an object that has a known reference changes no reference. */
  lemma SolvedRefs(a: Store, ref: Name, c: seq<Id>)
    requires |c| > 1 && Linked(a, ref, c) && forall i | 0 <= i < |c| :: c[i] in a
    ensures forall o :: Next(a[c[0] := Solved(a, c)], ref, o) == Next(a, ref, o)
  {
    assert Next(a, ref, c[0]) == Some(c[1]);
  }
}
