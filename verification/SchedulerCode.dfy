/** The steps of the protocol, on the tree that the processes build, are what the methods of the
    class Scheduler do with the arrays that its constructor fills. */
module SchedulerCode {
  import opened SchedulerProtocol
  import opened SchedulerTree
  import opened SchedulerNode
  import opened SchedulerSystem

  /** v is what process r of scheduler s has computed. */
  ghost predicate ViewOf(sys: seq<Sched>, v: View, s: nat, r: nat)
  {
    s < |sys| && ViewOk(v, sys[s].size, r) && v.schedLevel == sys[s].schedLevel
  }

  /** The network after process p has made these sends. */
  function NetUp(up: multiset<(Node, Event)>, comm: nat, sends: seq<Act>): multiset<(Node, Event)> {
    if sends == [] then up else
    var a := sends[|sends| - 1];
    NetUp(up, comm, sends[..|sends| - 1])
    + (if a.SendUp? then multiset{(Node(comm, a.dst, a.m.lev), a.m.ev)} else multiset{})
  }

  function NetDown(down: map<Chan, seq<Msg>>, p: Proc, sends: seq<Act>): map<Chan, seq<Msg>> {
    if sends == [] then down else
    var a := sends[|sends| - 1];
    var d := NetDown(down, p, sends[..|sends| - 1]);
    if a.SendDown? then Push(d, Chan(p.comm, p.rank, a.dst), a.m) else d
  }

  /** What the view says of the node of process r at level l. */
  lemma ViewAt(sys: seq<Sched>, v: View, n: Node)
    requires SysOk(sys) && Raw(sys, n) && ViewOf(sys, v, n.comm, n.rank)
    ensures Fits(v) && v.level == Lv(sys, n.comm, n.rank)
    ensures n.lev < v.level ==>
      var ks := RawKids(sys, n);
      v.nbChild[n.lev] == |ks| && forall i | 0 <= i < |ks| :: v.child[n.lev][i] == ks[i].rank && ks[i] == Node(n.comm, ks[i].rank, n.lev + 1)
    ensures n.lev >= 1 ==> RawPar(sys, n) == Node(n.comm, v.parent[n.lev], n.lev - 1)
  {
    ViewFits(v, sys[n.comm].size, n.rank);
    var g, mc := Group(0, sys[n.comm].size), MaxChildOf(sys[n.comm].size);
    if n.lev < v.level { assert Filled(v.parent, v.child, v.nbChild, mc, At(g, mc, n.rank, n.lev), n.lev); }
    if n.lev >= 1 { assert Filled(v.parent, v.child, v.nbChild, mc, At(g, mc, n.rank, n.lev - 1), n.lev - 1); }
  }

  /** What t says of node n is what the arrays of the processes say. */
  ghost predicate NodeFacts(sys: seq<Sched>, t: Topo, n: Node) {
    && SysOk(sys) && IsNode(sys, n)
    && n in t.kids && t.kids[n] == Kids(sys, n) && n in t.tier && t.tier[n] == sys[n.comm].schedLevel
    && (n in t.roots <==> n.lev == 0)
    && (n in t.par <==> n != Node(0, 0, 0)) && (n in t.par ==> t.par[n] == Par(sys, n))
    && (forall i {:trigger t.kids[n][i]} | 0 <= i < |t.kids[n]| :: KidFacts(sys, t, n, i))
  }

  ghost predicate KidFacts(sys: seq<Sched>, t: Topo, n: Node, i: nat)
  {
    && n.comm < |sys| && n in t.kids && i < |t.kids[n]|
    && var k := t.kids[n][i];
    && k in t.par && k in t.addr && i < |RawKids(sys, n)|
    && Link(t, k) == Chan(n.comm, n.rank, RawKids(sys, n)[i].rank) && t.addr[k].lev == n.lev + 1
  }

  lemma KidLink(sys: seq<Sched>, n: Node, i: nat)
    requires SysOk(sys) && IsNode(sys, n) && i < |Kids(sys, n)| && n in Nodes(sys)
    ensures KidFacts(sys, Build(sys), n, i)
  {
    KidsAre(sys, n, i);
    KidIn(sys, n, Kids(sys, n)[i]);
  }

  lemma BuildKidFacts(sys: seq<Sched>, n: Node)
    requires SysOk(sys) && IsNode(sys, n) && n in Nodes(sys)
    ensures forall i | 0 <= i < |Kids(sys, n)| :: KidFacts(sys, Build(sys), n, i)
  {
    forall i | 0 <= i < |Kids(sys, n)| ensures KidFacts(sys, Build(sys), n, i) { KidLink(sys, n, i); }
  }

  lemma BuildFacts(sys: seq<Sched>, n: Node)
    requires SysOk(sys) && n in Nodes(sys)
    ensures NodeFacts(sys, Build(sys), n)
  {
    hide SysOk, IsNode, Nodes, Inner, KidFacts, Kids, Par, Base, Build;
    InNodes(sys, n);
    LevelOk(sys, n);
    BuildKidFacts(sys, n);
    NodeAt(sys, n);
    ParIs(sys, n);
  }

  lemma ParIs(sys: seq<Sched>, n: Node)
    requires SysOk(sys) && IsNode(sys, n) && n in Nodes(sys)
    ensures var t := Build(sys); (n in t.par <==> n != Node(0, 0, 0)) && (n in t.par ==> t.par[n] == Par(sys, n))
  {
    BuildPar(sys);
    hide Build;
    ParMapAt(sys, n);
  }

  lemma BuildPar(sys: seq<Sched>)
    requires SysOk(sys)
    ensures Build(sys).par == ParMap(sys)
  {
    hide SysOk, ParMap, KidsMap, AddrMap, AtMap, TierMap, DepthMap, Nodes, IsNode, Par, Kids, Addr, Canon, Raw, Inner;
  }

  lemma ParMapAt(sys: seq<Sched>, n: Node)
    requires SysOk(sys) && IsNode(sys, n) && n in Nodes(sys)
    ensures (n in ParMap(sys) <==> n != Node(0, 0, 0)) && (n in ParMap(sys) ==> ParMap(sys)[n] == Par(sys, n))
  {
    hide SysOk, IsNode, Nodes, Par;
  }

  lemma KidChild(sys: seq<Sched>, t: Topo, v: View, n: Node, i: nat)
    requires NodeFacts(sys, t, n) && ViewOf(sys, v, n.comm, n.rank) && n.lev < Lv(sys, n.comm, n.rank)
    requires i < |t.kids[n]|
    ensures var k := t.kids[n][i];
      && k in t.par && k in t.addr && n.lev < |v.child| && i < |v.child[n.lev]|
      && Link(t, k) == Chan(n.comm, n.rank, v.child[n.lev][i]) && t.addr[k].lev == n.lev + 1
  {
    assert t.kids[n][i] == t.kids[n][i] && KidFacts(sys, t, n, i);
    ViewAt(sys, v, n);
  }

  lemma NetDownStep(down: map<Chan, seq<Msg>>, p: Proc, sends: seq<Act>, c: Chan, m: Msg)
    requires c.comm == p.comm && c.src == p.rank
    ensures NetDown(down, p, sends + [SendDown(c.dst, m)]) == Push(NetDown(down, p, sends), c, m)
  {
    assert (sends + [SendDown(c.dst, m)])[..|sends|] == sends;
  }

  /** bcastEvent puts the broadcast of the protocol on the channels. */
  lemma {:induction false} BcastIsCode(t: Topo, v: View, down: map<Chan, seq<Msg>>, p: Proc, ks: seq<Node>, e: Event, lev: nat)
    requires lev < |v.child| && |ks| <= |v.child[lev]|
    requires forall i | 0 <= i < |ks| :: ks[i] in t.par && ks[i] in t.addr
    requires forall i | 0 <= i < |ks| :: Link(t, ks[i]) == Chan(p.comm, p.rank, v.child[lev][i]) && t.addr[ks[i]].lev == lev + 1
    ensures NetDown(down, p, BcastActs(v, e, lev, |ks|)) == PushAll(t, down, ks, e)
  {
    if ks != [] {
      var i := |ks| - 1;
      BcastIsCode(t, v, down, p, ks[..i], e, lev);
      NetDownStep(down, p, BcastActs(v, e, lev, i), Chan(p.comm, p.rank, v.child[lev][i]), Msg(e, lev + 1));
      assert Link(t, ks[i]) == Chan(p.comm, p.rank, v.child[lev][i]);
      hide Link, NetDown, Push;
    }
  }

  lemma {:induction false} BcastNoUp(v: View, up: multiset<(Node, Event)>, comm: nat, e: Event, lev: nat, i: nat)
    requires lev < |v.child| && i <= |v.child[lev]|
    ensures NetUp(up, comm, BcastActs(v, e, lev, i)) == up
  {
    if i > 0 {
      var a := BcastActs(v, e, lev, i);
      BcastNoUp(v, up, comm, e, lev, i - 1);
      assert a[..|a| - 1] == BcastActs(v, e, lev, i - 1);
    }
  }

  lemma RegisterNet(v: View, up: multiset<(Node, Event)>, down: map<Chan, seq<Msg>>, p: Proc, e: Event, lev: nat)
    requires 1 <= lev < |v.parent|
    ensures NetUp(up, p.comm, RegisterActs(v, e, lev)) == up + multiset{(Node(p.comm, v.parent[lev], lev - 1), e)}
    ensures NetDown(down, p, RegisterActs(v, e, lev)) == down
  {
    var a := RegisterActs(v, e, lev);
    assert a[..0] == [];
  }

  /** recvEvent_ of process p is r. */
  ghost predicate RecvIs(recv: map<(Node, Event), nat>, p: Proc, r: map<Key, nat>) {
    forall k: Key ::
      && (k in r <==> (Node(p.comm, p.rank, k.lev), k.ev) in recv)
      && (k in r ==> r[k] == recv[(Node(p.comm, p.rank, k.lev), k.ev)])
  }

  lemma InnerHere(sys: seq<Sched>, n: Node)
    requires SysOk(sys) && IsNode(sys, n)
    ensures Kids(sys, n) == [] <==> n.lev == Lv(sys, n.comm, n.rank)
    ensures n.lev < Lv(sys, n.comm, n.rank) ==> |Kids(sys, n)| == |RawKids(sys, n)|
  {
    if n.lev < Lv(sys, n.comm, n.rank) {
      AtIn(Group(0, sys[n.comm].size), MaxChildOf(sys[n.comm].size), n.rank, n.lev);
    }
  }

  /** A process registers an event: RegisterEvent at its leaf sends what the protocol's Register adds. */
  lemma RegisterIsCode(sys: seq<Sched>, t: Topo, up: multiset<(Node, Event)>, n: Node, e: Event, v: View)
    requires NodeFacts(sys, t, n) && t.kids[n] == [] && n in t.par && ViewOf(sys, v, n.comm, n.rank)
    ensures Fits(v) && v.level == n.lev
    ensures NetUp(up, n.comm, RegisterActs(v, e, v.level)) == up + multiset{(t.par[n], e)}
  {
    hide SysOk, ViewOk, KidFacts, NetUp, NetDown, Kids, Par, RegisterActs;
    InnerHere(sys, n);
    ViewAt(sys, v, n);
    ParAt(sys, n, v);
    RegisterNet(v, up, map[], Proc(n.comm, n.rank), e, v.level);
  }

  /** The last request at node n: CompleteActs at its process, and what these make the parent scheduler
      (with view w) do, is the protocol's broadcast, if n decides, or its report to n's parent. */
  lemma CompleteIsCode(sys: seq<Sched>, t: Topo, up: multiset<(Node, Event)>, down: map<Chan, seq<Msg>>,
                       n: Node, e: Event, v: View, w: View)
    requires NodeFacts(sys, t, n) && t.kids[n] != [] && ViewOf(sys, v, n.comm, n.rank)
    requires Turns(t, n, e) || n in t.par
    requires n.comm >= 1 && n.rank == 0 ==> ViewOf(sys, w, sys[n.comm].upComm, sys[n.comm].upRank)
    requires forall c | c in t.kids[n] :: c in t.par && c in t.addr
    ensures Fits(v) && n.lev < v.level
    ensures var acts := CompleteActs(v, e, n.lev);
      var up' := NetUp(NetUp(up, n.comm, Each(acts, Sent())), sys[n.comm].upComm, Each(acts, Escalated(w)));
      var down' := NetDown(down, Proc(n.comm, n.rank), Each(acts, Sent()));
      if Turns(t, n, e) then up' == up && down' == PushAll(t, down, t.kids[n], e)
      else up' == up + multiset{(t.par[n], e)} && down' == down
  {
    hide SysOk, ViewOk, KidFacts, Each, NetDown, NetUp, PushAll, BcastActs, Kids, Par;
    InnerHere(sys, n);
    ViewAt(sys, v, n);
    CompleteEach(v, w, e, n.lev);
    NoSends(up, n.comm, down, Proc(n.comm, n.rank));
    NoSends(up, sys[n.comm].upComm, down, Proc(n.comm, n.rank));
    if Turns(t, n, e) {
      TurnIsCode(sys, t, up, down, n, e, v);
    } else if n.lev > 0 {
      ParAt(sys, n, v);
      RegisterNet(v, up, down, Proc(n.comm, n.rank), e, n.lev);
      NoSends(up + multiset{(t.par[n], e)}, sys[n.comm].upComm, down, Proc(n.comm, n.rank));
    } else {
      EscalateIsCode(sys, up, n, e, w);
    }
  }

  lemma NoSends(up: multiset<(Node, Event)>, comm: nat, down: map<Chan, seq<Msg>>, p: Proc)
    ensures NetUp(up, comm, []) == up && NetDown(down, p, []) == down
  { }

  /** The parent of a node of level 1 or more, as its process has computed it. */
  lemma ParAt(sys: seq<Sched>, n: Node, v: View)
    requires SysOk(sys) && IsNode(sys, n) && n.lev >= 1 && ViewOf(sys, v, n.comm, n.rank)
    ensures Fits(v) && n.lev < |v.parent| && Par(sys, n) == Node(n.comm, v.parent[n.lev], n.lev - 1)
  {
    ViewAt(sys, v, n);
    AddrRaw(sys, n);
  }

  /** The children of an inner node are those of its process's arrays. */
  lemma RowIs(sys: seq<Sched>, t: Topo, n: Node, v: View)
    requires NodeFacts(sys, t, n) && n.lev < Lv(sys, n.comm, n.rank) && ViewOf(sys, v, n.comm, n.rank)
    ensures Fits(v) && n.lev < v.level && n in t.kids && |t.kids[n]| == v.nbChild[n.lev] <= |v.child[n.lev]|
  {
    InnerHere(sys, n);
    ViewAt(sys, v, n);
    hide SysOk, ViewOk, KidFacts, Kids;
  }

  lemma TurnIsCode(sys: seq<Sched>, t: Topo, up: multiset<(Node, Event)>, down: map<Chan, seq<Msg>>, n: Node, e: Event, v: View)
    requires NodeFacts(sys, t, n) && n.lev < Lv(sys, n.comm, n.rank) && ViewOf(sys, v, n.comm, n.rank)
    requires forall c | c in t.kids[n] :: c in t.par && c in t.addr
    ensures Fits(v) && n.lev < v.level
    ensures NetUp(up, n.comm, BcastActs(v, e, n.lev, v.nbChild[n.lev])) == up
    ensures NetDown(down, Proc(n.comm, n.rank), BcastActs(v, e, n.lev, v.nbChild[n.lev])) == PushAll(t, down, t.kids[n], e)
  {
    hide NodeFacts, ViewOf, NetUp, NetDown, PushAll, BcastActs, Link;
    RowIs(sys, t, n, v);
    BcastNoUp(v, up, n.comm, e, n.lev, v.nbChild[n.lev]);
    forall i | 0 <= i < |t.kids[n]|
      ensures && n.lev < |v.child| && i < |v.child[n.lev]|
              && Link(t, t.kids[n][i]) == Chan(n.comm, n.rank, v.child[n.lev][i]) && t.addr[t.kids[n][i]].lev == n.lev + 1
    {
      KidChild(sys, t, v, n, i);
    }
    BcastIsCode(t, v, down, Proc(n.comm, n.rank), t.kids[n], e, n.lev);
  }

  /** The root of a child scheduler registers in its parent scheduler, as the leaf it is there. */
  lemma EscalateIsCode(sys: seq<Sched>, up: multiset<(Node, Event)>, n: Node, e: Event, w: View)
    requires SysOk(sys) && IsNode(sys, n) && n.lev == 0 && n != Node(0, 0, 0)
    requires n.comm >= 1 && n.rank == 0 ==> ViewOf(sys, w, sys[n.comm].upComm, sys[n.comm].upRank)
    ensures n.comm >= 1 && Fits(w)
    ensures NetUp(up, sys[n.comm].upComm, RegisterActs(w, e, w.level)) == up + multiset{(Par(sys, n), e)}
  {
    RootRaw(sys, n.comm, n.rank);
    AddrRaw(sys, n);
    var a := Addr(sys, n);
    ViewAt(sys, w, a);
    RegisterNet(w, up, map[], Proc(a.comm, a.rank), e, w.level);
  }

  /** One counted request at node n: OnUp at its process counts as the protocol does. */
  lemma CountIsCode(sys: seq<Sched>, t: Topo, recv: map<(Node, Event), nat>, n: Node, e: Event, v: View, r: map<Key, nat>)
    requires NodeFacts(sys, t, n) && t.kids[n] != [] && ViewOf(sys, v, n.comm, n.rank)
    requires RecvIs(recv, Proc(n.comm, n.rank), r)
    ensures Fits(v) && n.lev < v.level
    ensures var cnt := Recv(recv, n, e) + 1; var (r', acts) := OnUp(v, r, Msg(e, n.lev));
      if cnt == |t.kids[n]| then
        RecvIs(recv - {(n, e)}, Proc(n.comm, n.rank), r') && acts == CompleteActs(v, e, n.lev)
      else
        RecvIs(recv[(n, e) := cnt], Proc(n.comm, n.rank), r') && acts == []
  {
    InnerHere(sys, n);
    ViewAt(sys, v, n);
    CountRecv(recv, Proc(n.comm, n.rank), r, n, e);
  }

  lemma CountRecv(recv: map<(Node, Event), nat>, p: Proc, r: map<Key, nat>, n: Node, e: Event)
    requires RecvIs(recv, p, r) && n == Node(p.comm, p.rank, n.lev)
    ensures var k := Key(e, n.lev); var cnt := Recv(recv, n, e) + 1;
      && cnt == (if k in r then r[k] + 1 else 1)
      && RecvIs(recv - {(n, e)}, p, r - {k}) && RecvIs(recv[(n, e) := cnt], p, r[k := cnt])
  {
    var k := Key(e, n.lev);
    assert k in r <==> (n, e) in recv;
    forall j: Key ensures (Node(p.comm, p.rank, j.lev), j.ev) == (n, e) <==> j == k {}
  }

  /** The acts of process p, and what they make its child scheduler (of communicator c, with view w) do,
      are the protocol's broadcast at a node with children ks; only a leaf pushes on its stack. */
  ghost predicate DownMatches(t: Topo, down: map<Chan, seq<Msg>>, p: Proc, acts: seq<Act>, c: nat, w: View, ks: seq<Node>, e: Event)
    requires forall k | k in ks :: k in t.par && k in t.addr
  {
    && NetDown(NetDown(down, p, Each(acts, Sent())), Proc(c, 0), Each(acts, Descended(w))) == PushAll(t, down, ks, e)
    && Each(acts, Stacked()) == if ks == [] then [(e.timeLine, e.hashId)] else []
  }

  /** One request from the parent, addressed to a: OnDown at its process does what the protocol does at
      the node that a stands for. */
  lemma TakeDownIsCode(sys: seq<Sched>, t: Topo, down: map<Chan, seq<Msg>>, a: Node, n: Node, e: Event, v: View, w: View)
    requires SysOk(sys) && Raw(sys, a) && a.lev >= 1 && n == Canon(sys, a) && NodeFacts(sys, t, n) && ViewOf(sys, v, a.comm, a.rank)
    requires ChildOf(sys, a.comm, a.rank) != 0 ==> ViewOf(sys, w, ChildOf(sys, a.comm, a.rank), 0)
    requires forall k | k in t.kids[n] :: k in t.par && k in t.addr
    ensures Fits(v) && a.lev <= v.level
    ensures var c := ChildOf(sys, a.comm, a.rank);
      DownMatches(t, down, Proc(a.comm, a.rank), OnDown(v, c != 0, Msg(e, a.lev)), c, w, t.kids[n], e)
  {
    ViewAt(sys, v, a);
    var c := ChildOf(sys, a.comm, a.rank);
    if a.lev < v.level {
      InnerHere(sys, a);
      DownInner(sys, t, down, a, e, v, w, c);
    } else if c != 0 {
      assert n == Node(c, 0, 0);
      DownRelay(sys, t, down, Proc(a.comm, a.rank), n, e, v, w);
    } else {
      InnerHere(sys, n);
      DownLeaf(t, down, Proc(a.comm, a.rank), e, v, w);
    }
  }

  lemma DownInner(sys: seq<Sched>, t: Topo, down: map<Chan, seq<Msg>>, n: Node, e: Event, v: View, w: View, c: nat)
    requires NodeFacts(sys, t, n) && n.lev < Lv(sys, n.comm, n.rank) && ViewOf(sys, v, n.comm, n.rank)
    requires Fits(v) && n.lev < v.level && t.kids[n] != []
    requires forall k | k in t.kids[n] :: k in t.par && k in t.addr
    ensures DownMatches(t, down, Proc(n.comm, n.rank), OnDown(v, c != 0, Msg(e, n.lev)), c, w, t.kids[n], e)
  {
    DownSends(v, Msg(e, n.lev), c != 0, w);
    TurnIsCode(sys, t, multiset{}, down, n, e, v);
  }

  lemma DownRelay(sys: seq<Sched>, t: Topo, down: map<Chan, seq<Msg>>, p: Proc, n: Node, e: Event, v: View, w: View)
    requires NodeFacts(sys, t, n) && n.lev == 0 && n.comm != 0 && ViewOf(sys, w, n.comm, 0)
    requires Fits(v)
    requires forall k | k in t.kids[n] :: k in t.par && k in t.addr
    ensures DownMatches(t, down, p, OnDown(v, true, Msg(e, v.level)), n.comm, w, t.kids[n], e)
  {
    DownSends(v, Msg(e, v.level), true, w);
    RelayIsCode(sys, t, down, n, e, w);
  }

  lemma DownLeaf(t: Topo, down: map<Chan, seq<Msg>>, p: Proc, e: Event, v: View, w: View)
    requires Fits(v)
    ensures DownMatches(t, down, p, OnDown(v, false, Msg(e, v.level)), 0, w, [], e)
  {
    DownSends(v, Msg(e, v.level), false, w);
  }

  lemma RelayIsCode(sys: seq<Sched>, t: Topo, down: map<Chan, seq<Msg>>, n: Node, e: Event, w: View)
    requires NodeFacts(sys, t, n) && n.lev == 0 && ViewOf(sys, w, n.comm, 0)
    requires forall c | c in t.kids[n] :: c in t.par && c in t.addr
    ensures Fits(w)
    ensures NetDown(down, Proc(n.comm, 0), BcastActs(w, e, 0, w.nbChild[0])) == PushAll(t, down, t.kids[n], e)
    ensures t.kids[n] != []
  {
    RootRaw(sys, n.comm, n.rank);
    InnerHere(sys, n);
    TurnIsCode(sys, t, multiset{}, down, n, e, w);
  }
}
