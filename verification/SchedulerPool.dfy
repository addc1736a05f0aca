/** The theorems for the schedulers of a pool, in terms of communicators and ranks. */
module SchedulerPool {
  import opened SchedulerProtocol
  import opened SchedulerProof
  import opened SchedulerTheorems
  import opened SchedulerSystem

  /** Where process r of scheduler s receives its events: its leaf, or, if it is the root of a child
      scheduler, that root. */
  function Here(sys: seq<Sched>, s: nat, r: nat): Node
    requires SysOk(sys) && s < |sys| && r < sys[s].size
  {
    LeafRaw(sys, s, r);
    Canon(sys, Node(s, r, Lv(sys, s, r)))
  }

  lemma {:induction false} UnderRoot(sys: seq<Sched>, a: Node)
    requires SysOk(sys) && Raw(sys, a)
    ensures WellFormed(Build(sys)) && Node(a.comm, 0, 0) in Build(sys).kids && Canon(sys, a) in Build(sys).kids
    ensures Under(Build(sys), Node(a.comm, 0, 0), Canon(sys, a))
    decreases a.lev
  {
    BuildOk(sys);
    RootRaw(sys, a.comm, a.rank);
    InNodes(sys, Node(a.comm, 0, 0));
    if a.lev >= 1 {
      CanonNode(sys, a);
      InNodes(sys, Canon(sys, a));
      RawParOk(sys, a);
      UnderRoot(sys, RawPar(sys, a));
      ParHere(sys, a);
    }
  }

  lemma ParHere(sys: seq<Sched>, a: Node)
    requires SysOk(sys) && Raw(sys, a) && a.lev >= 1
    ensures Raw(sys, RawPar(sys, a)) && Canon(sys, RawPar(sys, a)) == RawPar(sys, a)
    ensures Canon(sys, a) in Build(sys).par && Build(sys).par[Canon(sys, a)] == RawPar(sys, a)
  {
    RawParOk(sys, a);
    CanonNode(sys, a);
    ParInBuild(sys, Canon(sys, a));
  }

  lemma ParInBuild(sys: seq<Sched>, c: Node)
    requires SysOk(sys) && IsNode(sys, c) && c != Node(0, 0, 0)
    ensures c in Build(sys).par && Build(sys).par[c] == Par(sys, c)
  {
    InNodes(sys, c);
    hide Nodes, IsNode, Par;
  }

  lemma {:induction false} UnderTop(t: Topo, n: Node)
    requires WellFormed(t) && n in t.kids
    ensures Under(t, t.top, n)
    decreases t.depth[n]
  {
    if n != t.top {
      assert EdgeOk(t, n);
      UnderTop(t, t.par[n]);
    }
  }

  /** All processes of one scheduler see the events of this scheduler and of those above it in one
      order: the full interleaving, whatever the order in which the messages were treated. */
  lemma SameScheduler(sys: seq<Sched>, run: seq<Step>, s: nat, r1: nat, r2: nat)
    requires SysOk(sys) && s < |sys| && r1 < sys[s].size && r2 < sys[s].size
    requires Legal(Build(sys), Init(Build(sys)), run)
    ensures var done := Final(Build(sys), Init(Build(sys)), run).done;
      && Here(sys, s, r1) in done && Here(sys, s, r2) in done
      && SameOrder(sys[s].schedLevel, done[Here(sys, s, r1)], done[Here(sys, s, r2)])
  {
    LeafRaw(sys, s, r1);
    LeafRaw(sys, s, r2);
    UnderRoot(sys, Node(s, r1, Lv(sys, s, r1)));
    UnderRoot(sys, Node(s, r2, Lv(sys, s, r2)));
    hide Under, WellFormed, Legal, Final, Init, SameOrder, SysOk, Canon;
    TotalOrder(Build(sys), run, Node(s, 0, 0), Here(sys, s, r1), Here(sys, s, r2));
  }

  /** Events of the first scheduler come in one order at all processes of all schedulers. */
  lemma AllSchedulers(sys: seq<Sched>, run: seq<Step>, m: Node, n: Node)
    requires SysOk(sys) && IsNode(sys, m) && IsNode(sys, n)
    requires Legal(Build(sys), Init(Build(sys)), run)
    ensures var done := Final(Build(sys), Init(Build(sys)), run).done;
      m in done && n in done && SameOrder(sys[0].schedLevel, done[m], done[n])
  {
    BuildOk(sys);
    TopIn(sys);
    InNodes(sys, m);
    InNodes(sys, n);
    UnderTop(Build(sys), m);
    UnderTop(Build(sys), n);
    TotalOrder(Build(sys), run, Node(0, 0, 0), m, n);
  }

  /** Without split: one scheduler over `size` processes. */
  function Single(size: nat): (sys: seq<Sched>)
    requires size >= 1
    ensures SysOk(sys) && |sys| == 1 && sys[0].size == size && sys[0].schedLevel == 0
  {
    [Sched(size, 0, 0, 0)]
  }

  lemma SingleHere(size: nat, r: nat)
    requires r < size
    ensures var sys := Single(size); var n := Here(sys, 0, r);
      && WellFormed(Build(sys)) && n in Build(sys).kids && Leaf(Build(sys), n)
      && n == Node(0, r, Lv(sys, 0, r)) && Build(sys).tier[n] == 0 && Under(Build(sys), Node(0, 0, 0), n)
  {
    var sys := Single(size);
    LeafRaw(sys, 0, r);
    UnderRoot(sys, Node(0, r, Lv(sys, 0, r)));
  }

  /** With one scheduler, of any two logs one is a prefix of the other, and an event stands in a log only
      once and only if every process has registered it. */
  lemma OneScheduler(size: nat, run: seq<Step>, r1: nat, r2: nat)
    requires r1 < size && r2 < size
    requires Legal(Build(Single(size)), Init(Build(Single(size))), run)
    ensures var sys := Single(size); var done := Final(Build(sys), Init(Build(sys)), run).done;
      && Here(sys, 0, r1) in done && Here(sys, 0, r2) in done
      && (done[Here(sys, 0, r1)] <= done[Here(sys, 0, r2)] || done[Here(sys, 0, r2)] <= done[Here(sys, 0, r1)])
      && Distinct(done[Here(sys, 0, r1)])
      && forall e | e in done[Here(sys, 0, r1)] :: Register(Here(sys, 0, r2), e) in run
  {
    var sys := Single(size);
    var t, n1, n2 := Build(sys), Here(sys, 0, r1), Here(sys, 0, r2);
    SingleHere(size, r1);
    SingleHere(size, r2);
    InitInv(t);
    RunInv(t, Init(t), run);
    OneLog(t, run, n1, n2);
  }

  lemma OneLog(t: Topo, run: seq<Step>, n1: Node, n2: Node)
    requires WellFormed(t) && Legal(t, Init(t), run) && Inv(t, Final(t, Init(t), run))
    requires Leaf(t, n1) && Leaf(t, n2) && t.tier[n1] == 0 && t.tier[n2] == 0
    ensures var done := Final(t, Init(t), run).done;
      && (done[n1] <= done[n2] || done[n2] <= done[n1]) && Distinct(done[n1])
      && forall e | e in done[n1] :: Register(n2, e) in run
  {
    hide Final, Legal, Init, InvUp, InvSent, Under, Decider, Sel, SameOrder, EdgeOk, KidsOk, AddrOk, DownOk, QueuesOk;
    var s := Final(t, Init(t), run);
    UnderTop(t, n1);
    UnderTop(t, n2);
    UnderTier(t, t.top, n1);
    assert DoneOk(t, s.done, n1) && DoneOk(t, s.done, n2);
    hide InvDown;
    SelAll(0, s.done[n1]);
    SelAll(0, s.done[n2]);
    TotalOrder(t, run, t.top, n1, n2);
    forall e | e in s.done[n1] ensures Register(n2, e) in run {
      Barrier(t, run, n1, e);
      OnlyTop(t, n1, e);
    }
  }

  /** With all nodes on level 0, only the top node decides. */
  lemma {:induction false} OnlyTop(t: Topo, n: Node, e: Event)
    requires WellFormed(t) && n in t.kids && t.tier[n] == 0 && t.tier[t.top] <= e.schedLevel <= 0
    ensures Decider(t, n, e) == t.top
    decreases t.depth[n]
  {
    if n != t.top {
      assert EdgeOk(t, n);
      OnlyTop(t, t.par[n], e);
    }
  }

  // ---------------------------------------------------------------- splitScheduler

  /** A call of splitScheduler on all processes of scheduler `sched`: the split communicators have the sizes `parts`. */
  datatype Cut = Cut(sched: nat, parts: seq<nat>)

  function Sum(ns: seq<nat>): nat {
    if ns == [] then 0 else Sum(ns[..|ns| - 1]) + ns[|ns| - 1]
  }

  /** The processes of a scheduler without child schedulers are divided among the parts. */
  ghost predicate CanCut(sys: seq<Sched>, c: Cut) {
    && c.sched < |sys| && c.parts != [] && (forall i | 0 <= i < |c.parts| :: c.parts[i] >= 1)
    && Sum(c.parts) == sys[c.sched].size && forall s | 1 <= s < |sys| :: sys[s].upComm != c.sched
  }

  /** The roots of the parts make up a new scheduler in the place of the one that is split, under the same
      parent; each part is a child of the new one, one level below. */
  function DoCut(sys: seq<Sched>, c: Cut): seq<Sched>
    requires c.sched < |sys|
  {
    var s := sys[c.sched];
    sys[c.sched := s.(size := |c.parts|)]
    + seq(|c.parts|, i requires 0 <= i < |c.parts| => Sched(c.parts[i], s.schedLevel + 1, c.sched, i))
  }

  /** splitScheduler keeps the schedulers a forest, as BuildOk needs it. */
  lemma CutOk(sys: seq<Sched>, c: Cut)
    requires SysOk(sys) && CanCut(sys, c)
    ensures SysOk(DoCut(sys, c))
  {
    var sys' := DoCut(sys, c);
    forall s | 1 <= s < |sys'| ensures SchedulerSystem.UpOk(sys', s) {
      if s < |sys| { assert SchedulerSystem.UpOk(sys, s); }
    }
  }

  ghost predicate CanCuts(sys: seq<Sched>, cs: seq<Cut>)
    decreases |cs|
  {
    cs == [] || (CanCut(sys, cs[0]) && CanCuts(DoCut(sys, cs[0]), cs[1..]))
  }

  ghost function DoCuts(sys: seq<Sched>, cs: seq<Cut>): seq<Sched>
    requires CanCuts(sys, cs)
    decreases |cs|
  {
    if cs == [] then sys else DoCuts(DoCut(sys, cs[0]), cs[1..])
  }

  /** The ranks of all the schedulers. */
  function Ranks(sys: seq<Sched>): nat {
    if sys == [] then 0 else Ranks(sys[..|sys| - 1]) + sys[|sys| - 1].size
  }

  lemma {:induction false} RanksSet(sys: seq<Sched>, i: nat, x: Sched)
    requires i < |sys|
    ensures Ranks(sys[i := x]) == Ranks(sys) - sys[i].size + x.size
  {
    var n := |sys| - 1;
    if i < n {
      RanksSet(sys[..n], i, x);
      assert sys[i := x][..n] == sys[..n][i := x];
    } else {
      assert sys[i := x][..n] == sys[..n];
    }
  }

  lemma {:induction false} RanksAppend(sys: seq<Sched>, more: seq<Sched>, parts: seq<nat>)
    requires |more| == |parts| && forall i | 0 <= i < |parts| :: more[i].size == parts[i]
    ensures Ranks(sys + more) == Ranks(sys) + Sum(parts)
  {
    if more == [] {
      assert sys + more == sys;
    } else {
      var n := |more| - 1;
      RanksAppend(sys, more[..n], parts[..n]);
      assert (sys + more)[..|sys + more| - 1] == sys + more[..n];
    }
  }

  lemma CutRanks(sys: seq<Sched>, c: Cut)
    requires CanCut(sys, c)
    ensures Ranks(DoCut(sys, c)) == Ranks(sys) + |c.parts|
  {
    var s := sys[c.sched];
    RanksSet(sys, c.sched, s.(size := |c.parts|));
    var more := seq(|c.parts|, i requires 0 <= i < |c.parts| => Sched(c.parts[i], s.schedLevel + 1, c.sched, i));
    RanksAppend(sys[c.sched := s.(size := |c.parts|)], more, c.parts);
  }

  /** Whatever is split, and how often: the schedulers stay a forest, and a process of the start is in exactly
      one scheduler more for every child scheduler whose root it is. */
  lemma {:induction false} CutsOk(sys: seq<Sched>, cs: seq<Cut>)
    requires SysOk(sys) && CanCuts(sys, cs)
    ensures SysOk(DoCuts(sys, cs)) && WellFormed(Build(DoCuts(sys, cs)))
    ensures Ranks(DoCuts(sys, cs)) - |DoCuts(sys, cs)| == Ranks(sys) - |sys|
    decreases |cs|
  {
    hide SysOk, DoCut;
    if cs == [] {
      BuildOk(sys);
    } else {
      CutOk(sys, cs[0]);
      CutRanks(sys, cs[0]);
      CutSize(sys, cs[0]);
      CutsOk(DoCut(sys, cs[0]), cs[1..]);
    }
  }

  lemma CutSize(sys: seq<Sched>, c: Cut)
    requires CanCut(sys, c)
    ensures |DoCut(sys, c)| == |sys| + |c.parts|
  { }

  // ---------------------------------------------------------------- after one split

  /** What splitScheduler leaves: a parent scheduler, and child schedulers one level below, each hanging under
      the leaf of its root. */
  ghost predicate SplitOk(sys: seq<Sched>) {
    SysOk(sys) && sys[0].schedLevel == 0 && forall s | 1 <= s < |sys| :: sys[s].upComm == 0 && sys[s].schedLevel == 1
  }

  /** Child schedulers of any sizes can be had. */
  function Pool(sizes: seq<nat>): (sys: seq<Sched>)
    requires sizes != [] && forall i | 0 <= i < |sizes| :: sizes[i] >= 1
    ensures SplitOk(sys) && |sys| == |sizes| + 1
    ensures forall i | 0 <= i < |sizes| :: sys[i + 1].size == sizes[i]
  {
    [Sched(|sizes|, 0, 0, 0)] + seq(|sizes|, i requires 0 <= i < |sizes| => Sched(sizes[i], 1, 0, i))
  }

  lemma {:induction false} SumLeast(ns: seq<nat>)
    requires forall i | 0 <= i < |ns| :: ns[i] >= 1
    ensures Sum(ns) >= |ns|
  {
    if ns != [] { SumLeast(ns[..|ns| - 1]); }
  }

  /** These are the schedulers after splitting one. */
  lemma PoolIsCut(sizes: seq<nat>)
    requires sizes != [] && forall i | 0 <= i < |sizes| :: sizes[i] >= 1
    ensures Sum(sizes) >= 1 && CanCut(Single(Sum(sizes)), Cut(0, sizes))
    ensures DoCut(Single(Sum(sizes)), Cut(0, sizes)) == Pool(sizes)
  {
    SumLeast(sizes);
    FirstCut(Single(Sum(sizes)), Pool(sizes), sizes);
  }

  lemma FirstCut(one: seq<Sched>, pool: seq<Sched>, sizes: seq<nat>)
    requires |one| == 1 && one[0] == Sched(one[0].size, 0, 0, 0)
    requires pool == [Sched(|sizes|, 0, 0, 0)] + seq(|sizes|, i requires 0 <= i < |sizes| => Sched(sizes[i], 1, 0, i))
    ensures DoCut(one, Cut(0, sizes)) == pool
  {
    Replaced(one, Sched(|sizes|, 0, 0, 0));
  }

  lemma Replaced<T>(one: seq<T>, x: T)
    requires |one| == 1
    ensures one[0 := x] == [x]
  { }

  /** A process of a child scheduler receives at a leaf of its own. */
  lemma ChildHere(sys: seq<Sched>, s: nat, r: nat)
    requires SplitOk(sys) && 1 <= s < |sys| && r < sys[s].size
    ensures WellFormed(Build(sys)) && Leaf(Build(sys), Here(sys, s, r)) && IsNode(sys, Here(sys, s, r))
  {
    NoChildScheduler(sys, s, r, 1);
    LeafRaw(sys, s, r);
    UnderRoot(sys, Node(s, r, Lv(sys, s, r)));
  }

  lemma {:induction false} NoChildScheduler(sys: seq<Sched>, s: nat, r: nat, j: nat)
    requires SplitOk(sys) && 1 <= s < |sys| && j >= 1
    ensures ChildFrom(sys, s, r, j) == 0
    decreases |sys| - j
  {
    hide SysOk;
    if j < |sys| { NoChildScheduler(sys, s, r, j + 1); }
  }

  lemma RootIs(sys: seq<Sched>, a: Node)
    requires SysOk(sys) && a in Build(sys).roots && a in Build(sys).tier
    ensures IsNode(sys, a) && a.lev == 0 && Build(sys).tier[a] == sys[a.comm].schedLevel
  {
    hide SysOk, IsNode, ParMap, KidsMap, AddrMap, AtMap, DepthMap, Nodes;
    InNodes(sys, a);
  }

  lemma TopIs(sys: seq<Sched>, t: Topo)
    requires SysOk(sys) && t == Build(sys)
    ensures t.top == Node(0, 0, 0)
  { }

  lemma TierIn(t: Topo, n: Node)
    requires WellFormed(t) && n in t.kids
    ensures n in t.tier
  { }

  lemma UnIs(sys: seq<Sched>, a: Node)
    requires IsNode(sys, a)
    ensures Raw(sys, a) && a.comm < |sys| && a.rank < sys[a.comm].size
  { }

  /** Only the top node decides an event of level 0. */
  lemma TopDecides(sys: seq<Sched>, t: Topo, n: Node, e: Event)
    requires SplitOk(sys) && t == Build(sys) && WellFormed(t) && n in t.kids
    requires e.schedLevel == 0 && t.tier[t.top] <= 0 <= t.tier[n]
    ensures Decider(t, n, e) == t.top
  {
    hide WellFormed, Build, Nodes, Decider, SysOk, IsNode;
    var a := Decider(t, n, e);
    TierIn(t, a);
    RootIs(sys, a);
    UnIs(sys, a);
    assert a.comm == 0;
    hide Raw;
    RootRaw(sys, a.comm, a.rank);
    TopIs(sys, t);
  }

  /** Two processes of child schedulers, after a run. */
  ghost predicate AgreeAfterSplit(sys: seq<Sched>, run: seq<Step>, done: map<Node, seq<Event>>, s: nat, x: Node, u: nat, y: Node) {
    && x in done && y in done
    && SameOrder(0, done[x], done[y]) && (s == u ==> SameOrder(1, done[x], done[y]))
    && Distinct(done[x]) && forall e | e in done[x] && e.schedLevel == 0 :: Register(y, e) in run
  }

  /** Events registered at the parent level come in one order at all processes of all children, each once, and
      only after every process of every child has registered them; processes of one child agree on all events. */
  lemma SplitOnce(sys: seq<Sched>, t: Topo, run: seq<Step>, s: nat, r: nat, u: nat, q: nat)
    requires SplitOk(sys) && 1 <= s < |sys| && r < sys[s].size && 1 <= u < |sys| && q < sys[u].size
    requires t == Build(sys) && Legal(t, Init(t), run)
    ensures AgreeAfterSplit(sys, run, Final(t, Init(t), run).done, s, Here(sys, s, r), u, Here(sys, u, q))
  {
    ChildHere(sys, s, r);
    ChildHere(sys, u, q);
    var x, y := Here(sys, s, r), Here(sys, u, q);
    AllSchedulers(sys, run, x, y);
    if s == u { SameScheduler(sys, run, s, r, q); }
    SplitBarrier(sys, t, run, x, y);
    hide SysOk, WellFormed, Build, Legal, Final, Here, Distinct, SameOrder, Leaf, IsNode;
  }

  lemma SplitBarrier(sys: seq<Sched>, t: Topo, run: seq<Step>, x: Node, y: Node)
    requires SplitOk(sys) && t == Build(sys) && WellFormed(t) && Leaf(t, x) && Leaf(t, y) && Legal(t, Init(t), run)
    ensures var done := Final(t, Init(t), run).done;
      x in done && Distinct(done[x]) && forall e | e in done[x] && e.schedLevel == 0 :: Register(y, e) in run
  {
    InitInv(t);
    RunInv(t, Init(t), run);
    UnderTop(t, y);
    var done := Final(t, Init(t), run).done;
    assert DoneOk(t, done, x);
    hide SysOk, Build, Legal, Final, Under, Decider, DoneOk, WellFormed, Inv;
    forall e: Event | e in done[x] && e.schedLevel == 0 ensures Register(y, e) in run {
      Barrier(t, run, x, e);
      TopDecides(sys, t, x, e);
    }
  }
}
