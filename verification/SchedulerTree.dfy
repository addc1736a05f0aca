/** The communication tree of src/event_scheduler.cpp (initialize) and the nested groups of
    src/policy.cpp: what one rank computes for itself, and why all ranks agree. */
module SchedulerTree {

  function Pow(b: nat, k: nat): nat {
    if k == 0 then 1 else b * Pow(b, k - 1)
  }

  /** The ranks begin, ..., begin + nb - 1. */
  datatype Group = Group(begin: nat, nb: nat)

  predicate In(g: Group, r: nat) {
    g.begin <= r < g.begin + g.nb
  }

  /** Number, sizes and first ranks of the children of a group. */
  function Count(g: Group, mc: nat): nat {
    if g.nb < mc then g.nb else mc
  }

  function Len(g: Group, mc: nat, i: nat): nat
    requires mc > 0
  {
    g.nb / mc + (if i < g.nb % mc then 1 else 0)
  }

  function Start(g: Group, mc: nat, i: nat): nat
    requires mc > 0
  {
    if i == 0 then g.begin else Start(g, mc, i - 1) + Len(g, mc, i - 1)
  }

  function Child(g: Group, mc: nat, i: nat): Group
    requires mc > 0
  {
    Group(Start(g, mc, i), Len(g, mc, i))
  }

  /** The child that rank r falls into, looking from child i on. */
  function SlotFrom(g: Group, mc: nat, r: nat, i: nat): nat
    requires mc > 0
    decreases Count(g, mc) - i
  {
    if i + 1 >= Count(g, mc) || r < Start(g, mc, i + 1) then i else SlotFrom(g, mc, r, i + 1)
  }

  function Next(g: Group, mc: nat, r: nat): Group
    requires mc > 0
  {
    Child(g, mc, SlotFrom(g, mc, r, 0))
  }

  /** The group of rank r after l divisions. */
  function At(g: Group, mc: nat, r: nat, l: nat): Group
    requires mc > 0
  {
    if l == 0 then g else Next(At(g, mc, r, l - 1), mc, r)
  }

  // ---------------------------------------------------------------- one division

  lemma DivStep(n: nat, m: nat)
    requires m > 0
    ensures m * (n / m) + n % m == n
    ensures n < m ==> n / m == 0 && n % m == n
    ensures m <= n ==> 1 <= n / m
    ensures m >= 2 && n >= 1 ==> n / m < n
  {
    if n < m { DivSmall(n, m); }
    assert n / m == 0 ==> m * (n / m) == 0;
    if m >= 2 && n / m >= 1 {
      MulUp(m, 2, n / m);
    }
  }

  lemma DivSmall(n: nat, m: nat)
    requires n < m
    ensures n / m == 0 && n % m == n
  {}

  lemma MulUp(x: nat, y: nat, z: nat)
    requires y <= x
    ensures y * z <= x * z
  {}

  lemma {:induction false} StartClosed(g: Group, mc: nat, i: nat)
    requires mc > 0
    ensures Start(g, mc, i) == g.begin + i * (g.nb / mc) + (if i < g.nb % mc then i else g.nb % mc)
  {
    if i > 0 {
      StartClosed(g, mc, i - 1);
      var q := g.nb / mc;
      assert i * q == (i - 1) * q + q;
    }
  }

  lemma StartStep(g: Group, mc: nat, i: nat)
    requires mc > 0
    ensures Start(g, mc, 0) == g.begin && Start(g, mc, i + 1) == Start(g, mc, i) + Len(g, mc, i)
  {}

  /** The children fill the group exactly; none is empty; their sizes differ by at most one. */
  lemma Partition(g: Group, mc: nat)
    requires mc > 0
    ensures Start(g, mc, Count(g, mc)) == g.begin + g.nb
    ensures forall i | 0 <= i < Count(g, mc) :: Len(g, mc, i) >= 1
    ensures forall i, j :: Len(g, mc, i) <= Len(g, mc, j) + 1
  {
    StartClosed(g, mc, Count(g, mc));
    DivStep(g.nb, mc);
    if g.nb < mc {
      var q := g.nb / mc;
      assert Count(g, mc) * q == 0;
    }
  }

  lemma {:induction false} StartMonotone(g: Group, mc: nat, i: nat, j: nat)
    requires mc > 0 && i < j <= Count(g, mc)
    ensures Start(g, mc, i) + Len(g, mc, i) <= Start(g, mc, j)
    ensures Start(g, mc, i) < Start(g, mc, j)
    decreases j
  {
    Partition(g, mc);
    if i < j - 1 { StartMonotone(g, mc, i, j - 1); }
  }

  /** A rank of the group falls into one child, and SlotFrom finds it. */
  lemma {:induction false} SlotFound(g: Group, mc: nat, r: nat, i: nat)
    requires mc > 0 && In(g, r) && i < Count(g, mc) && Start(g, mc, i) <= r
    ensures SlotFrom(g, mc, r, i) < Count(g, mc) && In(Child(g, mc, SlotFrom(g, mc, r, i)), r)
    decreases Count(g, mc) - i
  {
    Partition(g, mc);
    if i + 1 < Count(g, mc) && Start(g, mc, i + 1) <= r {
      SlotFound(g, mc, r, i + 1);
    }
  }

  lemma SlotUnique(g: Group, mc: nat, r: nat, i: nat, j: nat)
    requires mc > 0 && i < Count(g, mc) && j < Count(g, mc)
    requires In(Child(g, mc, i), r) && In(Child(g, mc, j), r)
    ensures i == j
  {
    if i < j { StartMonotone(g, mc, i, j); }
    if j < i { StartMonotone(g, mc, j, i); }
  }

  /** What one division does: r's next group is a child of g that holds r, strictly smaller than g
      unless g is a single rank. */
  lemma NextIn(g: Group, mc: nat, r: nat) returns (i: nat)
    requires mc >= 2 && In(g, r)
    ensures i < Count(g, mc) && Next(g, mc, r) == Child(g, mc, i) && In(Next(g, mc, r), r)
    ensures forall x | In(Next(g, mc, r), x) :: In(g, x)
    ensures if g.nb == 1 then Next(g, mc, r) == g else 1 <= Next(g, mc, r).nb < g.nb
  {
    SlotFound(g, mc, r, 0);
    i := SlotFrom(g, mc, r, 0);
    Partition(g, mc);
    if i + 1 < Count(g, mc) { StartMonotone(g, mc, i + 1, Count(g, mc)); }
    if 0 < i { StartMonotone(g, mc, 0, i); }
    DivStep(g.nb, mc);
    if g.nb == 1 {
      DivSmall(1, mc);
      assert i == 0;
    }
  }

  /** A rank of a child gets that child as its next group. */
  lemma NextIs(g: Group, mc: nat, r: nat, i: nat)
    requires mc >= 2 && In(g, r) && i < Count(g, mc) && In(Child(g, mc, i), r)
    ensures Next(g, mc, r) == Child(g, mc, i)
  {
    var j := NextIn(g, mc, r);
    SlotUnique(g, mc, r, i, j);
  }

  // ---------------------------------------------------------------- all divisions

  lemma {:induction false} AtIn(g: Group, mc: nat, r: nat, l: nat)
    requires mc >= 2 && In(g, r)
    ensures In(At(g, mc, r, l), r)
    ensures forall x | In(At(g, mc, r, l), x) :: In(g, x)
    ensures At(g, mc, r, l).nb >= 1
  {
    if l > 0 {
      AtIn(g, mc, r, l - 1);
      var i := NextIn(At(g, mc, r, l - 1), mc, r);
    }
  }

  /** All ranks of a group know the same group. */
  lemma {:induction false} Agree(g: Group, mc: nat, r: nat, x: nat, l: nat)
    requires mc >= 2 && In(g, r) && In(At(g, mc, r, l), x)
    ensures In(g, x) && At(g, mc, x, l) == At(g, mc, r, l)
  {
    AtIn(g, mc, r, l);
    if l > 0 {
      var h := At(g, mc, r, l - 1);
      AtIn(g, mc, r, l - 1);
      var i := NextIn(h, mc, r);
      Agree(g, mc, r, x, l - 1);
      NextIs(h, mc, x, i);
    }
  }

  /** The number of levels of rank r: the do-while loop of initialize divides at least once. */
  function Level(g: Group, mc: nat, r: nat): nat
    requires mc >= 2 && In(g, r)
    decreases g.nb
  {
    NextStep(g, mc, r);
    if Next(g, mc, r).nb <= 1 then 1 else 1 + Level(Next(g, mc, r), mc, r)
  }

  lemma NextStep(g: Group, mc: nat, r: nat)
    requires mc >= 2 && In(g, r)
    ensures In(Next(g, mc, r), r)
    ensures Next(g, mc, r).nb > 1 ==> Next(g, mc, r).nb < g.nb
  {
    var i := NextIn(g, mc, r);
  }

  lemma {:induction false} AtShift(g: Group, mc: nat, r: nat, l: nat)
    requires mc > 0
    ensures At(g, mc, r, l + 1) == At(Next(g, mc, r), mc, r, l)
  {
    if l > 0 { AtShift(g, mc, r, l - 1); }
  }

  /** Level is where the groups of r first become single ranks. */
  lemma {:induction false} LevelIs(g: Group, mc: nat, r: nat, l: nat)
    requires mc >= 2 && In(g, r)
    ensures l < Level(g, mc, r) <==> l == 0 || At(g, mc, r, l).nb > 1
    ensures Level(g, mc, r) >= 1
    decreases l
  {
    NextStep(g, mc, r);
    if l > 0 {
      AtShift(g, mc, r, l - 1);
      if Next(g, mc, r).nb > 1 {
        LevelIs(Next(g, mc, r), mc, r, l - 1);
      } else {
        AtIn(Next(g, mc, r), mc, r, l - 1);
        StaysSingle(Next(g, mc, r), mc, r, l - 1);
      }
    }
  }

  lemma {:induction false} StaysSingle(g: Group, mc: nat, r: nat, l: nat)
    requires mc >= 2 && In(g, r) && g.nb == 1
    ensures At(g, mc, r, l) == g
  {
    if l > 0 {
      StaysSingle(g, mc, r, l - 1);
      var i := NextIn(g, mc, r);
    }
  }

  /** At its last level a rank is alone. */
  lemma AloneAtLevel(g: Group, mc: nat, r: nat)
    requires mc >= 2 && In(g, r)
    ensures At(g, mc, r, Level(g, mc, r)) == Group(r, 1)
  {
    LevelIs(g, mc, r, Level(g, mc, r));
    AtIn(g, mc, r, Level(g, mc, r));
  }

  /** Before its last level, a group has all its ranks go one level further. */
  lemma SharedLevel(g: Group, mc: nat, r: nat, x: nat, l: nat)
    requires mc >= 2 && In(g, r) && l < Level(g, mc, r) && In(At(g, mc, r, l), x)
    ensures In(g, x) && l < Level(g, mc, x)
  {
    Agree(g, mc, r, x, l);
    LevelIs(g, mc, r, l);
    LevelIs(g, mc, x, l);
  }

  /** The leader of r's group at a level before its last knows the group, and has r's next group
      among its children. */
  lemma LeaderOf(g0: Group, mc: nat, r: nat, l: nat) returns (i: nat)
    requires mc >= 2 && In(g0, r) && l < Level(g0, mc, r)
    ensures var g := At(g0, mc, r, l);
      && In(g0, g.begin) && At(g0, mc, g.begin, l) == g && l < Level(g0, mc, g.begin)
      && i < Count(g, mc) && At(g0, mc, r, l + 1) == Child(g, mc, i)
  {
    var g := At(g0, mc, r, l);
    AtIn(g0, mc, r, l);
    Agree(g0, mc, r, g.begin, l);
    SharedLevel(g0, mc, r, g.begin, l);
    i := NextIn(g, mc, r);
  }

  /** The first rank of each child of r's group knows the group, and leads that child. */
  lemma ChildOfGroup(g0: Group, mc: nat, r: nat, l: nat, i: nat)
    requires mc >= 2 && In(g0, r) && l < Level(g0, mc, r) && i < Count(At(g0, mc, r, l), mc)
    ensures var g := At(g0, mc, r, l); var c := Start(g, mc, i);
      && In(g0, c) && At(g0, mc, c, l) == g && l < Level(g0, mc, c) && At(g0, mc, c, l + 1) == Child(g, mc, i)
  {
    var g := At(g0, mc, r, l);
    var c := Start(g, mc, i);
    AtIn(g0, mc, r, l);
    Partition(g, mc);
    StartMonotone(g, mc, i, Count(g, mc));
    if i > 0 { StartMonotone(g, mc, 0, i); }
    assert In(g, c) && In(Child(g, mc, i), c);
    Agree(g0, mc, r, c, l);
    SharedLevel(g0, mc, r, c, l);
    NextIs(g, mc, c, i);
  }

  // ---------------------------------------------------------------- depth

  lemma CeilDiv(n: nat, m: nat, x: nat)
    requires m > 0 && n <= m * x
    ensures n / m + (if n % m > 0 then 1 else 0) <= x
  {
    DivStep(n, m);
    assert m * (x + 1) == m * x + m;
  }

  /** The depth is at most any k (at least 1) with maxChild to the k not below the size. */
  lemma {:induction false} DepthBound(g: Group, mc: nat, r: nat, k: nat)
    requires mc >= 2 && In(g, r) && k >= 1 && g.nb <= Pow(mc, k)
    ensures Level(g, mc, r) <= k
    decreases k
  {
    NextStep(g, mc, r);
    var i := NextIn(g, mc, r);
    CeilDiv(g.nb, mc, Pow(mc, k - 1));
    if Next(g, mc, r).nb > 1 {
      DepthBound(Next(g, mc, r), mc, r, k - 1);
    }
  }

  /** Each division shrinks the bound on the group by a factor maxChild. */
  lemma {:induction false} Shrinks(g: Group, mc: nat, r: nat, l: nat, k: nat)
    requires mc >= 2 && In(g, r) && l <= k && g.nb <= Pow(mc, k)
    ensures At(g, mc, r, l).nb <= Pow(mc, k - l)
  {
    if l > 0 {
      Shrinks(g, mc, r, l - 1, k);
      AtIn(g, mc, r, l - 1);
      var h := At(g, mc, r, l - 1);
      var i := NextIn(h, mc, r);
      CeilDiv(h.nb, mc, Pow(mc, k - l));
    }
  }

  /** No rank is deeper in the tree than maxChild. */
  lemma DepthAtMostMaxChild(size: nat, r: nat)
    requires r < size
    ensures Level(Group(0, size), MaxChildOf(size), r) <= MaxChildOf(size)
  {
    DepthBound(Group(0, size), MaxChildOf(size), r, MaxChildOf(size));
  }

  lemma {:induction false} PowMonotone(b: nat, j: nat, k: nat)
    requires b >= 1 && j <= k
    ensures 1 <= Pow(b, j) <= Pow(b, k)
    decreases k
  {
    if j < k {
      PowMonotone(b, j, k - 1);
      MulUp(b, 1, Pow(b, k - 1));
    } else if k > 0 {
      PowMonotone(b, k - 1, k - 1);
      MulUp(b, 1, Pow(b, k - 1));
    }
  }

  lemma {:induction false} PowBig(b: nat, k: nat)
    requires b >= 2
    ensures Pow(b, k) > k
  {
    if k > 0 {
      PowBig(b, k - 1);
      MulUp(b, 2, Pow(b, k - 1));
    }
  }

  /** The least maxChild, from k on, whose maxChild-th power reaches the size. */
  function MaxChildFrom(size: nat, k: nat): (mc: nat)
    requires k >= 2
    ensures mc >= k && Pow(mc, mc) >= size && forall j | k <= j < mc :: Pow(j, j) < size
    decreases if k < size then size - k else 0
  {
    PowBig(k, k);
    if Pow(k, k) >= size then k else MaxChildFrom(size, k + 1)
  }

  function MaxChildOf(size: nat): (mc: nat)
    ensures mc >= 2
  {
    MaxChildFrom(size, 2)
  }

  /** The number of powers of maxChild up to the size. */
  ghost predicate IsMaxLevel(size: nat, mc: nat, n: nat)
    requires mc >= 2
  {
    n >= 1 && Pow(mc, n) > size && Pow(mc, n - 1) <= size
  }

  method MaxChild(size: nat) returns (maxChild: nat)
    requires size >= 1
    ensures maxChild == MaxChildOf(size)
  {
    maxChild := 1;
    var m := 0;
    while m < size
      invariant maxChild >= 1
      invariant maxChild == 1 ==> m == 0
      invariant maxChild >= 2 ==> m == Pow(maxChild, maxChild)
      invariant maxChild >= 2 ==> MaxChildOf(size) == MaxChildFrom(size, maxChild)
      decreases if maxChild < size then size - maxChild else 0, size - m
    {
      maxChild := maxChild + 1;
      m := PowOf(maxChild);
      PowBig(maxChild, maxChild);
    }
  }

  method PowOf(b: nat) returns (m: nat)
    ensures m == Pow(b, b)
  {
    m := 1;
    for i := 0 to b
      invariant m == Pow(b, i)
    {
      m := m * b;
    }
  }

  method MaxLevel(size: nat, maxChild: nat) returns (maxLevel: nat)
    requires size >= 1 && maxChild >= 2
    ensures IsMaxLevel(size, maxChild, maxLevel)
  {
    maxLevel := 0;
    var s := 1;
    while s <= size
      invariant s == Pow(maxChild, maxLevel)
      invariant maxLevel >= 1 ==> Pow(maxChild, maxLevel - 1) <= size
      decreases size + 1 - maxLevel
    {
      PowBig(maxChild, maxLevel);
      s := s * maxChild;
      maxLevel := maxLevel + 1;
    }
  }
}
