/** The tree of the protocol, as built by the processes: every scheduler of a system divides its own
    communicator by initialize, and splitScheduler hangs each child scheduler under the leaf that its
    root process has in the parent scheduler. */
module SchedulerSystem {
  import opened SchedulerProtocol
  import opened SchedulerTree

  /** A scheduler: its size, its schedulerLevel_, and, except for the first one, the parent scheduler
      and the rank that the root process has there. */
  datatype Sched = Sched(size: nat, schedLevel: nat, upComm: nat, upRank: nat)

  ghost predicate SysOk(sys: seq<Sched>) {
    && |sys| >= 1
    && (forall s | 0 <= s < |sys| :: sys[s].size >= 1)
    && (forall s | 1 <= s < |sys| :: UpOk(sys, s))
    && (forall s, r | 1 <= s < r < |sys| ::
          sys[s].upComm != sys[r].upComm || sys[s].upRank != sys[r].upRank)
  }

  ghost predicate UpOk(sys: seq<Sched>, s: nat)
    requires 1 <= s < |sys|
  {
    && sys[s].upComm < s && sys[s].upRank < sys[sys[s].upComm].size
    && sys[s].schedLevel == sys[sys[s].upComm].schedLevel + 1
  }

  function Lv(sys: seq<Sched>, s: nat, r: nat): (l: nat)
    requires s < |sys| && r < sys[s].size
    ensures l >= 1
  {
    LevelIs(Group(0, sys[s].size), MaxChildOf(sys[s].size), r, 0);
    Level(Group(0, sys[s].size), MaxChildOf(sys[s].size), r)
  }

  function GAt(sys: seq<Sched>, s: nat, r: nat, l: nat): Group
    requires s < |sys|
  {
    At(Group(0, sys[s].size), MaxChildOf(sys[s].size), r, l)
  }

  /** The child scheduler whose root is process r of scheduler s, or 0. */
  function ChildFrom(sys: seq<Sched>, s: nat, r: nat, i: nat): nat
    decreases |sys| - i
  {
    if i >= |sys| then 0
    else if sys[i].upComm == s && sys[i].upRank == r then i
    else ChildFrom(sys, s, r, i + 1)
  }

  function ChildOf(sys: seq<Sched>, s: nat, r: nat): nat {
    ChildFrom(sys, s, r, 1)
  }

  predicate Raw(sys: seq<Sched>, n: Node) {
    && n.comm < |sys| && n.rank < sys[n.comm].size && n.lev <= Lv(sys, n.comm, n.rank)
    && GAt(sys, n.comm, n.rank, n.lev).begin == n.rank
  }

  /** A leaf that only relays to a child scheduler is identified with the root of that scheduler. */
  predicate Relay(sys: seq<Sched>, n: Node)
    requires Raw(sys, n)
  {
    n.lev == Lv(sys, n.comm, n.rank) && ChildOf(sys, n.comm, n.rank) != 0
  }

  predicate IsNode(sys: seq<Sched>, n: Node) {
    Raw(sys, n) && !Relay(sys, n)
  }

  function Canon(sys: seq<Sched>, n: Node): Node
    requires Raw(sys, n)
  {
    if Relay(sys, n) then Node(ChildOf(sys, n.comm, n.rank), 0, 0) else n
  }

  function RawPar(sys: seq<Sched>, n: Node): Node
    requires n.comm < |sys| && n.lev >= 1
  {
    Node(n.comm, GAt(sys, n.comm, n.rank, n.lev - 1).begin, n.lev - 1)
  }

  function Addr(sys: seq<Sched>, n: Node): Node
    requires SysOk(sys) && n.comm < |sys| && (n.comm == 0 ==> n.lev >= 1)
  {
    if n.lev >= 1 then n else
    assert UpOk(sys, n.comm);
    var s := sys[n.comm];
    Node(s.upComm, s.upRank, Lv(sys, s.upComm, s.upRank))
  }

  function RawKids(sys: seq<Sched>, n: Node): seq<Node>
    requires n.comm < |sys|
  {
    var g, mc := GAt(sys, n.comm, n.rank, n.lev), MaxChildOf(sys[n.comm].size);
    seq(Count(g, mc), i requires 0 <= i < Count(g, mc) => Node(n.comm, Start(g, mc, i), n.lev + 1))
  }

  function Base(sys: seq<Sched>, s: nat): nat
    requires SysOk(sys) && s < |sys|
    decreases s
  {
    if s == 0 then 0 else
    assert UpOk(sys, s);
    Base(sys, sys[s].upComm) + Lv(sys, sys[s].upComm, sys[s].upRank)
  }

  // ---------------------------------------------------------------- facts about raw nodes

  lemma {:induction false} ChildFromIs(sys: seq<Sched>, s: nat, r: nat, i: nat, j: nat)
    requires SysOk(sys) && 1 <= i <= j
    ensures var c := ChildFrom(sys, s, r, i);
      c != 0 ==> i <= c < |sys| && sys[c].upComm == s && sys[c].upRank == r
    ensures j < |sys| && sys[j].upComm == s && sys[j].upRank == r ==> ChildFrom(sys, s, r, i) == j
    decreases |sys| - i
  {
    if i < |sys| && !(sys[i].upComm == s && sys[i].upRank == r) {
      ChildFromIs(sys, s, r, i + 1, if i < j then j else j + 1);
    }
  }

  /** The parent of a raw node is a raw node one level up, which has further levels and has it as a child. */
  lemma RawParOk(sys: seq<Sched>, n: Node)
    requires SysOk(sys) && Raw(sys, n) && n.lev >= 1
    ensures var p := RawPar(sys, n); Raw(sys, p) && p.lev < Lv(sys, p.comm, p.rank) && n in RawKids(sys, p)
  {
    hide At, Level, Start, MaxChildOf, Count;
    var i := LeaderOf(Group(0, sys[n.comm].size), MaxChildOf(sys[n.comm].size), n.rank, n.lev - 1);
    assert RawKids(sys, RawPar(sys, n))[i] == n;
  }

  /** The children of a raw node with further levels are raw nodes, with that node as parent. */
  lemma RawKidsOk(sys: seq<Sched>, p: Node, i: nat)
    requires SysOk(sys) && Raw(sys, p) && p.lev < Lv(sys, p.comm, p.rank) && i < |RawKids(sys, p)|
    ensures Raw(sys, RawKids(sys, p)[i]) && RawPar(sys, RawKids(sys, p)[i]) == p
  {
    ChildOfGroup(Group(0, sys[p.comm].size), MaxChildOf(sys[p.comm].size), p.rank, p.lev, i);
  }

  lemma RawKidsDistinct(sys: seq<Sched>, p: Node)
    requires SysOk(sys) && p.comm < |sys|
    ensures Distinct(RawKids(sys, p))
  {
    var g, mc, ks := GAt(sys, p.comm, p.rank, p.lev), MaxChildOf(sys[p.comm].size), RawKids(sys, p);
    forall i, j | 0 <= i < j < |ks| ensures ks[i] != ks[j] { StartMonotone(g, mc, i, j); }
  }

  /** The first process of a communicator is its root, and its only node of level 0. */
  lemma RootRaw(sys: seq<Sched>, s: nat, r: nat)
    requires SysOk(sys) && s < |sys| && r < sys[s].size
    ensures Raw(sys, Node(s, r, 0)) <==> r == 0
    ensures Raw(sys, Node(s, 0, 0)) && !Relay(sys, Node(s, 0, 0))
  {}

  /** Every process has a leaf of its own. */
  lemma LeafRaw(sys: seq<Sched>, s: nat, r: nat)
    requires SysOk(sys) && s < |sys| && r < sys[s].size
    ensures Raw(sys, Node(s, r, Lv(sys, s, r)))
  {
    AloneAtLevel(Group(0, sys[s].size), MaxChildOf(sys[s].size), r);
  }

  // ---------------------------------------------------------------- canonical nodes

  lemma CanonNode(sys: seq<Sched>, n: Node)
    requires SysOk(sys) && Raw(sys, n) && n.lev >= 1
    ensures var c := Canon(sys, n);
      IsNode(sys, c) && c != Node(0, 0, 0) && (c.comm == 0 ==> c.lev >= 1) && Addr(sys, c) == n
  {
    ChildFromIs(sys, n.comm, n.rank, 1, 1);
    var c := Canon(sys, n);
    if Relay(sys, n) { RootRaw(sys, c.comm, 0); }
  }

  lemma AddrRaw(sys: seq<Sched>, c: Node)
    requires SysOk(sys) && IsNode(sys, c) && c != Node(0, 0, 0)
    ensures c.comm == 0 ==> c.lev >= 1
    ensures var a := Addr(sys, c); Raw(sys, a) && a.lev >= 1 && Canon(sys, a) == c
  {
    if c.lev == 0 {
      RootRaw(sys, c.comm, c.rank);
      assert c.comm >= 1 && UpOk(sys, c.comm);
      var s := sys[c.comm];
      LeafRaw(sys, s.upComm, s.upRank);
      ChildFromIs(sys, s.upComm, s.upRank, 1, c.comm);
    }
  }

  /** The parent of a node, and its children. */
  function Par(sys: seq<Sched>, c: Node): (p: Node)
    requires SysOk(sys) && IsNode(sys, c) && c != Node(0, 0, 0)
    ensures IsNode(sys, p) && p.lev < Lv(sys, p.comm, p.rank)
  {
    AddrRaw(sys, c);
    RawParOk(sys, Addr(sys, c));
    RawPar(sys, Addr(sys, c))
  }

  function Kids(sys: seq<Sched>, p: Node): seq<Node>
    requires SysOk(sys) && IsNode(sys, p)
  {
    if p.lev < Lv(sys, p.comm, p.rank) then
      var ks := RawKids(sys, p);
      seq(|ks|, i requires 0 <= i < |ks| => (RawKidsOk(sys, p, i); Canon(sys, ks[i])))
    else []
  }

  lemma KidsAre(sys: seq<Sched>, p: Node, i: nat)
    requires SysOk(sys) && IsNode(sys, p) && i < |Kids(sys, p)|
    ensures var c := Kids(sys, p)[i];
      && IsNode(sys, c) && c != Node(0, 0, 0) && Par(sys, c) == p
      && (c.comm == 0 ==> c.lev >= 1) && Addr(sys, c) == RawKids(sys, p)[i]
  {
    RawKidsOk(sys, p, i);
    CanonNode(sys, RawKids(sys, p)[i]);
  }

  lemma KidsDistinct(sys: seq<Sched>, p: Node)
    requires SysOk(sys) && IsNode(sys, p)
    ensures Distinct(Kids(sys, p))
  {
    RawKidsDistinct(sys, p);
    forall i, j | 0 <= i < j < |Kids(sys, p)| ensures Kids(sys, p)[i] != Kids(sys, p)[j] {
      KidsAre(sys, p, i);
      KidsAre(sys, p, j);
    }
  }

  lemma InKids(sys: seq<Sched>, c: Node)
    requires SysOk(sys) && IsNode(sys, c) && c != Node(0, 0, 0)
    ensures c in Kids(sys, Par(sys, c))
  {
    AddrRaw(sys, c);
    RawParOk(sys, Addr(sys, c));
    var p := Par(sys, c);
    var i :| 0 <= i < |RawKids(sys, p)| && RawKids(sys, p)[i] == Addr(sys, c);
    assert Kids(sys, p)[i] == c;
  }

  // ---------------------------------------------------------------- the tree

  function Nodes(sys: seq<Sched>): set<Node> {
    set s, r, l | 0 <= s < |sys| && 0 <= r < sys[s].size && 0 <= l <= Lv(sys, s, r) && IsNode(sys, Node(s, r, l)) :: Node(s, r, l)
  }

  lemma InNodes(sys: seq<Sched>, p: Node)
    ensures p in Nodes(sys) <==> IsNode(sys, p)
  {
    if IsNode(sys, p) { assert p == Node(p.comm, p.rank, p.lev); }
  }

  function Inner(sys: seq<Sched>): set<Node> {
    Nodes(sys) - {Node(0, 0, 0)}
  }

  function ParMap(sys: seq<Sched>): (m: map<Node, Node>)
    requires SysOk(sys)
    ensures m.Keys == Inner(sys) && forall c | c in m :: IsNode(sys, c) && m[c] == Par(sys, c)
  {
    map c | c in Inner(sys) :: Par(sys, c)
  }

  function KidsMap(sys: seq<Sched>): (m: map<Node, seq<Node>>)
    requires SysOk(sys)
    ensures m.Keys == Nodes(sys) && forall p | p in m :: IsNode(sys, p) && m[p] == Kids(sys, p)
  {
    map p | p in Nodes(sys) :: Kids(sys, p)
  }

  function AddrMap(sys: seq<Sched>): (m: map<Node, Node>)
    requires SysOk(sys)
    ensures m.Keys == Inner(sys) && forall c | c in m :: (c.comm == 0 ==> c.lev >= 1) && c.comm < |sys| && m[c] == Addr(sys, c)
  {
    map c | c in Inner(sys) :: (AddrRaw(sys, c); Addr(sys, c))
  }

  /** The addresses in use: every node but the top one, relays included. */
  function Addresses(sys: seq<Sched>): (ns: set<Node>)
    ensures forall a :: a in ns <==> Raw(sys, a) && a.lev >= 1
  {
    var ns := set s, r, l | 0 <= s < |sys| && 0 <= r < sys[s].size && 1 <= l <= Lv(sys, s, r) && Raw(sys, Node(s, r, l)) :: Node(s, r, l);
    assert forall a | Raw(sys, a) && a.lev >= 1 :: a == Node(a.comm, a.rank, a.lev) && a in ns;
    ns
  }

  function AtMap(sys: seq<Sched>): (m: map<Node, Node>)
    requires SysOk(sys)
    ensures m.Keys == Addresses(sys) && forall a | a in m :: m[a] == Canon(sys, a)
  {
    map a | a in Addresses(sys) :: Canon(sys, a)
  }

  function TierMap(sys: seq<Sched>): (m: map<Node, nat>)
    ensures m.Keys == Nodes(sys) && forall p | p in m :: p.comm < |sys| && m[p] == sys[p.comm].schedLevel
  {
    map p | p in Nodes(sys) :: sys[p.comm].schedLevel
  }

  function DepthMap(sys: seq<Sched>): (m: map<Node, nat>)
    requires SysOk(sys)
    ensures m.Keys == Nodes(sys)
  {
    map p | p in Nodes(sys) :: Base(sys, p.comm) + p.lev
  }

  function Build(sys: seq<Sched>): Topo
    requires SysOk(sys)
  {
    Topo(Node(0, 0, 0), ParMap(sys), KidsMap(sys), AddrMap(sys), AtMap(sys),
         (set p | p in Nodes(sys) && p.lev == 0), TierMap(sys), DepthMap(sys))
  }

  lemma BuildEdge(sys: seq<Sched>, c: Node)
    requires SysOk(sys) && Domains(Build(sys)) && c in Inner(sys)
    ensures EdgeOk(Build(sys), c)
  {
    hide SysOk, Nodes, IsNode, Inner, Build, Domains, EdgeOk, Par, Kids, Addr, Base;
    InInner(sys, c);
    EdgeFacts(sys, c);
    EdgeDepth(sys, c);
    MapsAt(sys, c);
    NodeAt(sys, c);
    NodeAt(sys, Par(sys, c));
    EdgeFrom(Build(sys), c);
  }

  /** What the maps say of an edge and of a node. */
  lemma MapsAt(sys: seq<Sched>, c: Node)
    requires SysOk(sys) && c in Inner(sys) && IsNode(sys, c) && c != Node(0, 0, 0)
    ensures c.comm == 0 ==> c.lev >= 1
    ensures var t := Build(sys); c in t.par && t.par[c] == Par(sys, c) && c in t.addr && t.addr[c] == Addr(sys, c)
    ensures var t := Build(sys); Addr(sys, c) in t.at && t.at[Addr(sys, c)] == c
  {
    hide SysOk, IsNode, Par, Addr, Nodes, Inner, Canon, Addresses;
    AddrIn(sys, c);
  }

  lemma NodeAt(sys: seq<Sched>, n: Node)
    requires SysOk(sys) && n in Nodes(sys) && IsNode(sys, n) && n.comm < |sys|
    ensures var t := Build(sys);
      && n in t.kids && t.kids[n] == Kids(sys, n) && n in t.tier && t.tier[n] == sys[n.comm].schedLevel
      && n in t.depth && t.depth[n] == Base(sys, n.comm) + n.lev && (n in t.roots <==> n.lev == 0)
  {
    hide SysOk, IsNode, Kids, Nodes, Base;
    DepthIs(sys, n);
  }

  lemma EdgeFrom(t: Topo, c: Node)
    requires Domains(t) && c in t.par && c in t.kids[t.par[c]] && t.depth[c] == t.depth[t.par[c]] + 1
    requires t.addr[c].comm == t.par[c].comm && t.addr[c] in t.at && t.at[t.addr[c]] == c
    requires t.tier[c] == t.tier[t.par[c]] + (if c in t.roots then 1 else 0)
    ensures EdgeOk(t, c)
  { }

  lemma InInner(sys: seq<Sched>, c: Node)
    requires SysOk(sys) && c in Inner(sys)
    ensures IsNode(sys, c) && c != Node(0, 0, 0) && c in Nodes(sys) && IsNode(sys, Par(sys, c)) && Par(sys, c) in Nodes(sys)
  {
    InNodes(sys, c);
    InNodes(sys, Par(sys, c));
  }

  lemma EdgeFacts(sys: seq<Sched>, c: Node)
    requires SysOk(sys) && IsNode(sys, c) && c != Node(0, 0, 0)
    ensures (c.comm == 0 ==> c.lev >= 1) && c.comm < |sys| && Par(sys, c).comm < |sys|
    ensures c in Kids(sys, Par(sys, c)) && Addr(sys, c).comm == Par(sys, c).comm
  {
    InKids(sys, c);
    AddrRaw(sys, c);
  }

  /** A node is one level below its parent, also where its parent is in the parent scheduler. */
  lemma EdgeDepth(sys: seq<Sched>, c: Node)
    requires SysOk(sys) && IsNode(sys, c) && c != Node(0, 0, 0)
    ensures c.comm < |sys| && Par(sys, c).comm < |sys|
    ensures Base(sys, c.comm) + c.lev == Base(sys, Par(sys, c).comm) + Par(sys, c).lev + 1
    ensures sys[c.comm].schedLevel == sys[Par(sys, c).comm].schedLevel + if c.lev == 0 then 1 else 0
  {
    if c.lev == 0 {
      RootRaw(sys, c.comm, c.rank);
      assert UpOk(sys, c.comm);
    }
  }

  lemma DepthIs(sys: seq<Sched>, n: Node)
    requires SysOk(sys) && n in Nodes(sys) && n.comm < |sys|
    ensures n in DepthMap(sys) && DepthMap(sys)[n] == Base(sys, n.comm) + n.lev
  { }

  lemma AddrIn(sys: seq<Sched>, c: Node)
    requires SysOk(sys) && IsNode(sys, c) && c != Node(0, 0, 0)
    ensures c.comm == 0 ==> c.lev >= 1
    ensures Addr(sys, c) in AtMap(sys) && AtMap(sys)[Addr(sys, c)] == c
  {
    AddrRaw(sys, c);
  }

  lemma KidIn(sys: seq<Sched>, p: Node, c: Node)
    requires SysOk(sys) && IsNode(sys, p) && c in Kids(sys, p)
    ensures c in Inner(sys) && c != Node(0, 0, 0) && IsNode(sys, c) && Par(sys, c) == p
  {
    var i :| 0 <= i < |Kids(sys, p)| && Kids(sys, p)[i] == c;
    KidsAre(sys, p, i);
    InNodes(sys, c);
  }

  lemma BuildKids(sys: seq<Sched>, p: Node)
    requires SysOk(sys) && p in Nodes(sys)
    ensures KidsOk(Build(sys), p)
  {
    hide SysOk, IsNode, Nodes, Inner, Distinct, Kids, Par, Build, Base, Addr;
    InNodes(sys, p);
    LevelOk(sys, p);
    KidsDistinct(sys, p);
    NodeAt(sys, p);
    forall c | c in Kids(sys, p) ensures var t := Build(sys); c in t.par && t.par[c] == p {
      KidIn(sys, p, c);
      MapsAt(sys, c);
    }
    if p.lev == 0 { RootHasKids(sys, p); }
  }

  lemma LevelOk(sys: seq<Sched>, n: Node)
    requires IsNode(sys, n)
    ensures n.comm < |sys|
  { }

  lemma RootHasKids(sys: seq<Sched>, p: Node)
    requires SysOk(sys) && IsNode(sys, p) && p.lev == 0
    ensures Kids(sys, p) != []
  {
    var g, mc := GAt(sys, p.comm, p.rank, 0), MaxChildOf(sys[p.comm].size);
    assert |RawKids(sys, p)| == Count(g, mc) >= 1;
  }

  lemma ParIn(sys: seq<Sched>, c: Node)
    requires SysOk(sys) && c in Inner(sys)
    ensures IsNode(sys, c) && Par(sys, c) in Nodes(sys)
  {
    InNodes(sys, c);
    InNodes(sys, Par(sys, c));
  }

  lemma TopIn(sys: seq<Sched>)
    requires SysOk(sys)
    ensures Node(0, 0, 0) in Nodes(sys)
  {
    RootRaw(sys, 0, 0);
    InNodes(sys, Node(0, 0, 0));
  }

  lemma BuildDomains(sys: seq<Sched>)
    requires SysOk(sys)
    ensures Domains(Build(sys))
  {
    var t := Build(sys);
    TopIn(sys);
    hide IsNode, Nodes, Par, Kids, Canon, Addr, ParMap, KidsMap, AddrMap, AtMap, TierMap, DepthMap;
    forall c | c in t.par ensures t.par[c] in t.kids { ParIn(sys, c); }
  }

  lemma BuildAddr(sys: seq<Sched>, a: Node)
    requires SysOk(sys) && Domains(Build(sys)) && a in Build(sys).at
    ensures AddrOk(Build(sys), a)
  {
    CanonNode(sys, a);
    InNodes(sys, Canon(sys, a));
  }

  lemma BuildKeys(sys: seq<Sched>)
    requires SysOk(sys)
    ensures var t := Build(sys); t.par.Keys == Inner(sys) && t.kids.Keys == Nodes(sys) && t.top in t.roots
  {
    TopIn(sys);
    hide SysOk, Inner, Nodes, ParMap, KidsMap, AddrMap, AtMap, TierMap, DepthMap;
  }

  /** The trees built locally by all processes fit together. */
  lemma BuildOk(sys: seq<Sched>)
    requires SysOk(sys)
    ensures WellFormed(Build(sys))
  {
    hide SysOk, Build, Domains, EdgeOk, KidsOk, AddrOk, Inner, Nodes;
    BuildDomains(sys);
    BuildKeys(sys);
    var t := Build(sys);
    forall c | c in t.par ensures EdgeOk(t, c) { BuildEdge(sys, c); }
    forall p | p in t.kids ensures KidsOk(t, p) { BuildKids(sys, p); }
    forall a | a in t.at ensures AddrOk(t, a) { BuildAddr(sys, a); }
  }
}
