/** Attributes pushed down a tree of groups (src/group_template_impl.hpp, solveDescInheritance), with
    apply (values are stored) and without (they are only inherited for reading). */
module GroupInheritance {
  import opened Inheritance
  import opened Wrappers

  /** A group, its children and its groups, by id. */
  datatype Tree = Group(id: Id, children: seq<Id>, groups: seq<Tree>)

  function Members(t: Tree): set<Id> {
    {t.id} + (set c | c in t.children) + (set i, x | 0 <= i < |t.groups| && x in Members(t.groups[i]) :: x)
  }

  /** A tree: no object is in two places. */
  predicate Separate(t: Tree) {
    && t.id !in t.children
    && (forall i, j | 0 <= i < j < |t.children| :: t.children[i] != t.children[j])
    && (forall i | 0 <= i < |t.groups| :: Separate(t.groups[i]) && t.id !in Members(t.groups[i]))
    && (forall i, c | 0 <= i < |t.groups| && c in t.children :: c !in Members(t.groups[i]))
    && (forall i, j | 0 <= i < j < |t.groups| :: Members(t.groups[i]) !! Members(t.groups[j]))
  }

  function FromParent(own: Attrs, parent: Option<Attrs>, apply: bool): Attrs {
    if parent.None? then own else Filled(own, parent.value, apply)
  }

  /** Every member of the tree has been filled from its parent, the parent being filled first. */
  ghost predicate Pushed(t: Tree, a: Store, b: Store, parent: Option<Attrs>, apply: bool)
    requires Members(t) <= a.Keys && Members(t) <= b.Keys
  {
    && b[t.id] == FromParent(a[t.id], parent, apply)
    && (forall c | c in t.children :: b[c] == Filled(a[c], b[t.id], apply))
    && (forall i | 0 <= i < |t.groups| :: MembersOf(t, i) && Pushed(t.groups[i], a, b, Some(b[t.id]), apply))
  }

  predicate MembersOf(t: Tree, i: nat)
    requires i < |t.groups|
    ensures MembersOf(t, i) && Members(t.groups[i]) <= Members(t)
  {
    assert forall x | x in Members(t.groups[i]) :: x in Members(t);
    true
  }

  /** It only depends on the members. */
  lemma {:induction false} PushedFrame(t: Tree, a: Store, a': Store, b: Store, b': Store, parent: Option<Attrs>, apply: bool)
    requires Members(t) <= a.Keys && Members(t) <= b.Keys && Members(t) <= a'.Keys && Members(t) <= b'.Keys
    requires forall x | x in Members(t) :: a[x] == a'[x] && b[x] == b'[x]
    requires Pushed(t, a, b, parent, apply)
    ensures Pushed(t, a', b', parent, apply)
  {
    forall i | 0 <= i < |t.groups| ensures MembersOf(t, i) && Pushed(t.groups[i], a', b', Some(b[t.id]), apply) {
      assert MembersOf(t, i);
      PushedFrame(t.groups[i], a, a', b, b', Some(b[t.id]), apply);
    }
  }

  /** The first k groups are done: from b, in which the group itself and its children are. */
  ghost predicate GroupsDone(t: Tree, k: nat, a: Store, b: Store, c: Store, apply: bool)
    requires k <= |t.groups| && Members(t) <= a.Keys == b.Keys == c.Keys
  {
    && (forall x | x in c && (forall j | 0 <= j < k :: x !in Members(t.groups[j])) :: c[x] == b[x])
    && (forall j | 0 <= j < k :: MembersOf(t, j) && Pushed(t.groups[j], a, c, Some(b[t.id]), apply))
  }

  /** The group and its children are filled, nothing else is changed. */
  ghost predicate OwnDone(t: Tree, a: Store, b: Store, parent: Option<Attrs>, apply: bool)
    requires Members(t) <= a.Keys == b.Keys
  {
    && b[t.id] == FromParent(a[t.id], parent, apply)
    && (forall c | c in t.children :: b[c] == Filled(a[c], b[t.id], apply))
    && (forall x | x in a && x != t.id && x !in t.children :: b[x] == a[x])
  }

  lemma Untouched(t: Tree, a: Store, b: Store, parent: Option<Attrs>, apply: bool)
    requires Members(t) <= a.Keys == b.Keys && OwnDone(t, a, b, parent, apply)
    ensures GroupsDone(t, 0, a, b, b, apply)
  { }

  lemma GroupReady(t: Tree, i: nat, a: Store, b: Store, c: Store, apply: bool)
    requires i < |t.groups| && Members(t) <= a.Keys == b.Keys == c.Keys && Separate(t) && GroupsDone(t, i, a, b, c, apply)
    ensures MembersOf(t, i) && Separate(t.groups[i]) && t.id in c && c[t.id] == b[t.id]
  {
    RootIn(t);
    assert MembersOf(t, i);
    forall j | 0 <= j < i ensures t.id !in Members(t.groups[j]) { assert Separate(t.groups[j]); }
  }

  lemma GroupStep(t: Tree, i: nat, a: Store, b: Store, c: Store, d: Store, apply: bool)
    requires i < |t.groups| && Members(t) <= a.Keys == b.Keys == c.Keys == d.Keys && Separate(t)
    requires GroupsDone(t, i, a, b, c, apply) && MembersOf(t, i)
    requires exists p :: OwnDone(t, a, b, p, apply)
    requires Pushed(t.groups[i], c, d, Some(b[t.id]), apply)
    requires forall x | x in d && x !in Members(t.groups[i]) :: d[x] == c[x]
    ensures GroupsDone(t, i + 1, a, b, d, apply)
  {
    RootIn(t);
    forall x | x in Members(t.groups[i]) ensures c[x] == a[x] {
      forall j | 0 <= j < i ensures x !in Members(t.groups[j]) { assert Members(t.groups[j]) !! Members(t.groups[i]); }
    }
    PushedFrame(t.groups[i], c, a, d, d, Some(b[t.id]), apply);
    forall j | 0 <= j < i ensures MembersOf(t, j) && Pushed(t.groups[j], a, d, Some(b[t.id]), apply) {
      assert MembersOf(t, j);
      assert Members(t.groups[j]) !! Members(t.groups[i]);
      PushedFrame(t.groups[j], a, a, c, d, Some(b[t.id]), apply);
    }
  }

  lemma RootIn(t: Tree)
    ensures t.id in Members(t)
  { }

  lemma AllDone(t: Tree, a: Store, b: Store, c: Store, parent: Option<Attrs>, apply: bool)
    requires Members(t) <= a.Keys == b.Keys == c.Keys && Separate(t)
    requires OwnDone(t, a, b, parent, apply) && GroupsDone(t, |t.groups|, a, b, c, apply)
    ensures Pushed(t, a, c, parent, apply)
    ensures forall x | x in c && x !in Members(t) :: c[x] == a[x]
  {
    forall j | 0 <= j < |t.groups| ensures t.id !in Members(t.groups[j]) { assert Separate(t.groups[j]); }
    forall y | y in t.children ensures c[y] == b[y] { }
    forall x | x in c && x !in Members(t) ensures c[x] == a[x] {
      forall j | 0 <= j < |t.groups| ensures x !in Members(t.groups[j]) { assert MembersOf(t, j); }
    }
  }

  class CGroups {
    var objects: Store

    constructor (objects: Store)
      ensures this.objects == objects
    {
      this.objects := objects;
    }

    method SolveDescInheritance(t: Tree, parent: Option<Attrs>, apply: bool)
      requires Separate(t) && Members(t) <= objects.Keys
      modifies this
      ensures objects.Keys == old(objects).Keys
      ensures Pushed(t, old(objects), objects, parent, apply)
      ensures forall x | x in objects && x !in Members(t) :: objects[x] == old(objects)[x]
      decreases t
    {
      ghost var a := objects;
      hide Pushed, Filled, Separate, Members, OwnDone, GroupsDone;
      FillOwn(t, parent, apply);
      ghost var b := objects;
      Untouched(t, a, b, parent, apply);
      for i := 0 to |t.groups|
        invariant objects.Keys == a.Keys && GroupsDone(t, i, a, b, objects, apply)
      {
        ghost var c := objects;
        GroupReady(t, i, a, b, c, apply);
        SolveDescInheritance(t.groups[i], Some(objects[t.id]), apply);
        GroupStep(t, i, a, b, c, objects, apply);
      }
      AllDone(t, a, b, objects, parent, apply);
    }

    /** The group itself, then its children. */
    method FillOwn(t: Tree, parent: Option<Attrs>, apply: bool)
      requires Separate(t) && Members(t) <= objects.Keys
      modifies this
      ensures objects.Keys == old(objects).Keys && OwnDone(t, old(objects), objects, parent, apply)
    {
      RootIn(t);
      if parent.Some? {
        var mine := SetAttributes(objects[t.id], parent.value, apply);
        objects := objects[t.id := mine];
      }
      FillChildren(t, apply);
    }

    method FillChildren(t: Tree, apply: bool)
      requires Separate(t) && Members(t) <= objects.Keys
      modifies this
      ensures objects.Keys == old(objects).Keys
      ensures forall x | x in objects ::
        objects[x] == if x in t.children then Filled(old(objects)[x], old(objects)[t.id], apply) else old(objects)[x]
    {
      ghost var a := objects;
      for i := 0 to |t.children|
        invariant objects.Keys == a.Keys
        invariant forall x | x in objects ::
          objects[x] == if x in t.children[..i] then Filled(a[x], a[t.id], apply) else a[x]
      {
        var c := t.children[i];
        assert c in t.children;
        var child := SetAttributes(objects[c], objects[t.id], apply);
        objects := objects[c := child];
        assert t.children[..i + 1] == t.children[..i] + [c];
      }
      assert t.children[..|t.children|] == t.children;
    }
  }

  // ---------------------------------------------------------------- the nearest ancestor

  /** A way down from the root of the tree. */
  predicate Path(t: Tree, path: seq<Id>) {
    && path != [] && path[0] == t.id
    && (|path| > 1 ==>
        || (|path| == 2 && path[1] in t.children)
        || exists i :: 0 <= i < |t.groups| && Path(t.groups[i], path[1..]))
  }

  /** What an object reads for attribute n: its own value; else nothing, if it was reset; else what its parent
      reads. */
  function Nearest(a: Store, path: seq<Id>, n: Name): Option<string>
    requires forall x | x in path :: x in a
  {
    if path == [] then None
    else
      var x := path[|path| - 1];
      assert x in path;
      if n !in a[x] then None
      else if a[x][n].own.Some? then a[x][n].own
      else if !a[x][n].canInherit then None
      else Nearest(a, path[..|path| - 1], n)
  }

  predicate NothingInherited(a: Store) {
    forall x, n | x in a && n in a[x] :: a[x][n].inherited.None?
  }

  lemma {:induction false} OnPath(t: Tree, path: seq<Id>)
    requires Path(t, path)
    ensures forall x | x in path :: x in Members(t)
    decreases t
  {
    if |path| > 1 {
      assert path == [path[0]] + path[1..];
      if !(|path| == 2 && path[1] in t.children) {
        var i :| 0 <= i < |t.groups| && Path(t.groups[i], path[1..]);
        OnPath(t.groups[i], path[1..]);
      }
    }
  }

  lemma {:induction false} PathUp(t: Tree, path: seq<Id>)
    requires Path(t, path) && |path| > 1
    ensures Path(t, path[..|path| - 1])
    decreases t
  {
    var up := path[..|path| - 1];
    if |path| > 2 {
      var i :| 0 <= i < |t.groups| && Path(t.groups[i], path[1..]);
      PathUp(t.groups[i], path[1..]);
      assert path[1..][..|path[1..]| - 1] == up[1..];
    }
  }

  /** The last object of a path is filled from the one before it. */
  lemma {:induction false} LastStep(t: Tree, a: Store, b: Store, parent: Option<Attrs>, apply: bool, path: seq<Id>)
    requires Members(t) <= a.Keys && Members(t) <= b.Keys && Pushed(t, a, b, parent, apply)
    requires Path(t, path) && |path| > 1
    ensures var x, y := path[|path| - 1], path[|path| - 2]; x in a && x in b && y in b && b[x] == Filled(a[x], b[y], apply)
    decreases t
  {
    hide Filled, Members;
    RootIn(t);
    if |path| == 2 && path[1] in t.children {
      OnPath(t, path);
      assert path[1] in path;
    } else {
      var i :| 0 <= i < |t.groups| && Path(t.groups[i], path[1..]);
      assert MembersOf(t, i) && Pushed(t.groups[i], a, b, Some(b[t.id]), apply);
      if |path| == 2 {
        RootIn(t.groups[i]);
      } else {
        hide Pushed;
        LastStep(t.groups[i], a, b, Some(b[t.id]), apply, path[1..]);
      }
    }
  }

  /** The last object of the path reads what Nearest says. */
  ghost predicate ReadsNearest(a: Store, b: Store, apply: bool, path: seq<Id>, n: Name)
    requires path != [] && forall x | x in path :: x in a
  {
    var x := path[|path| - 1];
    assert x in path;
    && x in b && (n in a[x] <==> n in b[x])
    && (n in a[x] ==> b[x][n].Value() == Nearest(a, path, n))
    && (n in a[x] ==> b[x][n].own == if apply then Nearest(a, path, n) else a[x][n].own)
    && (n !in a[x] ==> Nearest(a, path, n) == None)
  }

  lemma NearestFirst(a: Store, b: Store, apply: bool, x: Id, n: Name)
    requires x in a && x in b && b[x] == a[x] && NothingInherited(a)
    ensures ReadsNearest(a, b, apply, [x], n)
  {
    assert [x][..0] == [] && Nearest(a, [], n) == None;
  }

  lemma NearestStep(a: Store, b: Store, apply: bool, path: seq<Id>, n: Name)
    requires |path| > 1 && (forall x | x in path :: x in a) && NothingInherited(a)
    requires ReadsNearest(a, b, apply, path[..|path| - 1], n)
    requires var x, y := path[|path| - 1], path[|path| - 2]; x in a && x in b && y in b && b[x] == Filled(a[x], b[y], apply)
    ensures ReadsNearest(a, b, apply, path, n)
  {
    var up := path[..|path| - 1];
    assert up[|up| - 1] == path[|path| - 2];
    assert path[|path| - 1] in path && path[|path| - 2] in path;
  }

  lemma {:induction false} NearestOnPath(t: Tree, a: Store, b: Store, apply: bool, path: seq<Id>, n: Name)
    requires Members(t) <= a.Keys && Members(t) <= b.Keys && Pushed(t, a, b, None, apply) && NothingInherited(a)
    requires Path(t, path)
    ensures path != [] && (forall x | x in path :: x in a) && ReadsNearest(a, b, apply, path, n)
    decreases |path|
  {
    OnPath(t, path);
    if |path| == 1 {
      RootIn(t);
      assert path == [t.id];
      hide Members, Path, ReadsNearest;
      NearestFirst(a, b, apply, t.id, n);
    } else {
      LastStep(t, a, b, None, apply, path);
      PathUp(t, path);
      hide Pushed, Members, Path, ReadsNearest, NothingInherited, Filled;
      NearestOnPath(t, a, b, apply, path[..|path| - 1], n);
      NearestStep(a, b, apply, path, n);
    }
  }

  /** Every object reads the value of its nearest ancestor that has one, unless it or a nearer ancestor was
      reset; with apply the value is its own, without apply its own value is what it was. */
  lemma NearestAncestor(t: Tree, a: Store, b: Store, apply: bool, path: seq<Id>, n: Name)
    requires Members(t) <= a.Keys && Members(t) <= b.Keys && Pushed(t, a, b, None, apply) && NothingInherited(a)
    requires Path(t, path)
    ensures var x := path[|path| - 1]; x in a && x in b && (n in a[x] <==> n in b[x])
    ensures forall x | x in path :: x in a
    ensures var x := path[|path| - 1];
      && (n in a[x] ==> b[x][n].Value() == Nearest(a, path, n))
      && (n in a[x] ==> b[x][n].own == if apply then Nearest(a, path, n) else a[x][n].own)
      && (n !in a[x] ==> Nearest(a, path, n) == None)
  {
    hide Pushed, Members, Path, NothingInherited, Nearest;
    NearestOnPath(t, a, b, apply, path, n);
    assert path[|path| - 1] in path;
  }
}
