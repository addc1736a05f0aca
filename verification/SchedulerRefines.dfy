/** The class Scheduler refines the protocol: what one call of checkChildRequest, checkParentRequest or
    registerEvent does to a process and to the network is a run of the protocol, on the tree that the processes
    build; so the theorems about runs are theorems about the processes. */
module SchedulerRefines {
  import opened SchedulerProtocol
  import opened SchedulerProof
  import opened SchedulerTheorems
  import opened SchedulerNode
  import opened SchedulerSystem
  import opened SchedulerCode

  // ---------------------------------------------------------------- one request from a child

  /** The network after process p has sent `sends` and its parent scheduler `above`; x has been taken. */
  ghost predicate UpNet(sys: seq<Sched>, s: State, s': State, p: Proc, x: multiset<(Node, Event)>, sends: seq<Act>, above: seq<Act>)
  {
    && p.comm < |sys|
    && s'.up == NetUp(NetUp(s.up - x, p.comm, sends), sys[p.comm].upComm, above)
    && s'.down == NetDown(s.down, p, sends)
  }

  /** t is the tree that the processes of the schedulers sys build. */
  ghost predicate Tree(sys: seq<Sched>, t: Topo) {
    SysOk(sys) && t == Build(sys)
  }

  /** A node with children that TakeUp may be at. */
  ghost predicate Counting(sys: seq<Sched>, t: Topo, n: Node, e: Event) {
    && NodeFacts(sys, t, n) && t.kids[n] != [] && (forall c | c in t.kids[n] :: c in t.par && c in t.addr)
    && (Turns(t, n, e) || n in t.par)
  }

  lemma NodeOf(sys: seq<Sched>, t: Topo, s: State, n: Node, e: Event)
    requires Tree(sys, t) && Inv(t, s) && (n, e) in s.up
    ensures Counting(sys, t, n, e) && Enabled(t, s, TakeUp(n, e))
    ensures sys[0].schedLevel <= e.schedLevel <= sys[n.comm].schedLevel
  {
    InTree(sys, t, s, n, e);
    hide Tree, Inv, SysOk, Enabled, Build, NodeFacts, Turns;
    TakeUpEnabled(t, s, n, e);
    NotYet(t, s, n, e);
    IsCounting(sys, t, s, n, e);
  }

  lemma InTree(sys: seq<Sched>, t: Topo, s: State, n: Node, e: Event)
    requires Tree(sys, t) && Inv(t, s) && (n, e) in s.up
    ensures SysOk(sys) && NodeFacts(sys, t, n) && sys[0].schedLevel <= e.schedLevel <= sys[n.comm].schedLevel
  {
    hide SysOk, NodeFacts;
    TopIn(sys);
    BuildFacts(sys, n);
    FactsLevel(sys, t, n);
  }

  lemma FactsLevel(sys: seq<Sched>, t: Topo, n: Node)
    requires NodeFacts(sys, t, n)
    ensures n.comm < |sys| && n in t.tier && t.tier[n] == sys[n.comm].schedLevel
  { }

  lemma IsCounting(sys: seq<Sched>, t: Topo, s: State, n: Node, e: Event)
    requires NodeFacts(sys, t, n) && t.kids[n] != [] && Enabled(t, s, TakeUp(n, e))
    ensures Counting(sys, t, n, e)
  {
    hide NodeFacts;
  }

  lemma MakeUpNet(sys: seq<Sched>, s: State, s': State, p: Proc, x: multiset<(Node, Event)>, sends: seq<Act>, above: seq<Act>)
    requires p.comm < |sys|
    requires s'.up == NetUp(NetUp(s.up - x, p.comm, sends), sys[p.comm].upComm, above) && s'.down == NetDown(s.down, p, sends)
    ensures UpNet(sys, s, s', p, x, sends, above)
  { }

  lemma NoNet(up: multiset<(Node, Event)>, comm: nat, down: map<Chan, seq<Msg>>, p: Proc)
    ensures NetUp(up, comm, []) == up && NetDown(down, p, []) == down
  { }

  /** What TakeUp does, in parts. */
  ghost predicate TakenUp(t: Topo, s: State, s': State, n: Node, e: Event)
    requires n in t.kids && n in t.tier && n in s.done && (forall c | c in t.kids[n] :: c in t.par && c in t.addr)
  {
    var cnt, up := Recv(s.recv, n, e) + 1, s.up - multiset{(n, e)};
    && s'.pend == s.pend
    && s'.done == (if cnt == |t.kids[n]| && Turns(t, n, e) then s.done[n := s.done[n] + [e]] else s.done)
    && s'.recv == (if cnt == |t.kids[n]| then s.recv - {(n, e)} else s.recv[(n, e) := cnt])
    && (cnt != |t.kids[n]| ==> s'.up == up && s'.down == s.down)
    && (cnt == |t.kids[n]| && Turns(t, n, e) ==> s'.up == up && s'.down == PushAll(t, s.down, t.kids[n], e))
    && (cnt == |t.kids[n]| && !Turns(t, n, e) ==> n in t.par && s'.up == up + multiset{(t.par[n], e)} && s'.down == s.down)
  }

  lemma DoTakesUp(t: Topo, s: State, n: Node, e: Event)
    requires Enabled(t, s, TakeUp(n, e))
    ensures n in s.done && TakenUp(t, s, Do(t, s, TakeUp(n, e)), n, e)
  {
    var s' := Do(t, s, TakeUp(n, e));
    hide PushAll, Edges, Turns, Do, Recv;
    TakeUpParts(t, s, s', n, e);
  }

  lemma TakeUpParts(t: Topo, s: State, s': State, n: Node, e: Event)
    requires Enabled(t, s, TakeUp(n, e)) && s' == DoTakeUp(t, s, n, e)
    ensures TakenUp(t, s, s', n, e)
  {
    hide PushAll, Edges, Turns, Recv;
  }

  /** One counted request: OnUp, what it sends and what it makes the parent scheduler send, is TakeUp. */
  lemma TakeUpIsDo(sys: seq<Sched>, t: Topo, s: State, p: Proc, m: Msg, v: View, w: View, r: map<Key, nat>) returns (s': State)
    requires Tree(sys, t) && Inv(t, s) && (Target(p, m), m.ev) in s.up
    requires ViewOf(sys, v, p.comm, p.rank) && RecvIs(s.recv, p, r)
    requires p.comm >= 1 && p.rank == 0 ==> ViewOf(sys, w, sys[p.comm].upComm, sys[p.comm].upRank)
    ensures Enabled(t, s, TakeUp(Target(p, m), m.ev)) && s' == Do(t, s, TakeUp(Target(p, m), m.ev))
    ensures Fits(v) && m.lev < v.level && (m.ev.schedLevel != v.schedLevel ==> p.comm >= 1)
    ensures Counted(sys, s, s', p, multiset{(Target(p, m), m.ev)}, v, w, r, [m])
  {
    hide Tree, Inv, SysOk, Enabled, Do, UpNet, RecvIs, TakenUp, OnUps, Each, NodeFacts, Turns, Fits, ViewOk, KidFacts;
    NodeOf(sys, t, s, Target(p, m), m.ev);
    s' := Do(t, s, TakeUp(Target(p, m), m.ev));
    DoTakesUp(t, s, Target(p, m), m.ev);
    TakenIsNet(sys, t, s, s', p, m, v, w, r);
    OneUp(v, r, m);
    LevelOf(sys, v, p, m.ev);
  }

  lemma LevelOf(sys: seq<Sched>, v: View, p: Proc, e: Event)
    requires ViewOf(sys, v, p.comm, p.rank) && sys[0].schedLevel <= e.schedLevel <= sys[p.comm].schedLevel
    ensures e.schedLevel != v.schedLevel ==> p.comm >= 1
  { }

  /** Treating the requests ms, the multiset x of the network, has led process p and the network from s to s'. */
  ghost predicate Counted(sys: seq<Sched>, s: State, s': State, p: Proc, x: multiset<(Node, Event)>, v: View, w: View,
                          r: map<Key, nat>, ms: seq<Msg>)
    requires Fits(v)
  {
    && UpMsgs(v, ms) && s'.pend == s.pend
    && var (r', acts) := OnUps(v, r, ms);
      RecvIs(s'.recv, p, r') && UpNet(sys, s, s', p, x, Each(acts, Sent()), Each(acts, Escalated(w)))
  }

  lemma OneUp(v: View, r: map<Key, nat>, m: Msg)
    requires Fits(v) && m.lev < v.level
    ensures UpMsgs(v, [m]) && OnUps(v, r, [m]) == OnUp(v, r, m)
  {
    assert [m][..0] == [];
    assert OnUps(v, r, []) == (r, []);
    assert [] + OnUp(v, r, m).1 == OnUp(v, r, m).1;
  }

  lemma TakenIsNet(sys: seq<Sched>, t: Topo, s: State, s': State, p: Proc, m: Msg, v: View, w: View, r: map<Key, nat>)
    requires Counting(sys, t, Target(p, m), m.ev) && ViewOf(sys, v, p.comm, p.rank) && RecvIs(s.recv, p, r)
    requires p.comm >= 1 && p.rank == 0 ==> ViewOf(sys, w, sys[p.comm].upComm, sys[p.comm].upRank)
    requires Target(p, m) in s.done && TakenUp(t, s, s', Target(p, m), m.ev)
    ensures Fits(v) && m.lev < v.level && p.comm < |sys| && s'.pend == s.pend
    ensures var (r', acts) := OnUp(v, r, m);
      && RecvIs(s'.recv, p, r')
      && UpNet(sys, s, s', p, multiset{(Target(p, m), m.ev)}, Each(acts, Sent()), Each(acts, Escalated(w)))
  {
    hide NodeFacts, ViewOf, RecvIs, SysOk, Each, CompleteActs, Turns, Fits, NetUp, NetDown, PushAll, UpNet;
    var n, e := Target(p, m), m.ev;
    var x := multiset{(n, e)};
    CommIn(sys, v, p);
    CountIsCode(sys, t, s.recv, n, e, v, r);
    CompleteIsCode(sys, t, s.up - x, s.down, n, e, v, w);
    assert m == Msg(e, n.lev) && p == Proc(n.comm, n.rank);
    EachOne([], Sent());
    EachOne([], Escalated(w));
    NoNet(s.up - x, p.comm, s.down, p);
    NoNet(s.up - x, sys[p.comm].upComm, s.down, p);
    var acts := OnUp(v, r, m).1;
    hide OnUp;
    MakeUpNet(sys, s, s', p, x, Each(acts, Sent()), Each(acts, Escalated(w)));
  }

  // ---------------------------------------------------------------- runs

  lemma {:induction false} LegalMore(t: Topo, s: State, run: seq<Step>, step: Step)
    requires Legal(t, s, run) && Enabled(t, Final(t, s, run), step)
    ensures Legal(t, s, run + [step]) && Final(t, s, run + [step]) == Do(t, Final(t, s, run), step)
    decreases |run|
  {
    hide Enabled, Do;
    if run == [] {
      assert run + [step] == [step] && [step][1..] == [];
      LegalNone(t, Do(t, s, step));
    } else {
      LegalMore(t, Do(t, s, run[0]), run[1..], step);
      assert (run + [step])[0] == run[0] && (run + [step])[1..] == run[1..] + [step];
    }
  }

  lemma LegalNone(t: Topo, s: State)
    ensures Legal(t, s, []) && Final(t, s, []) == s
  { }

  // ---------------------------------------------------------------- a call of checkChildRequest

  /** The requests of a list, as the network has them. */
  function Requests(p: Proc, ms: seq<Msg>): multiset<(Node, Event)> {
    if ms == [] then multiset{} else
    Requests(p, ms[..|ms| - 1]) + multiset{(Target(p, ms[|ms| - 1]), ms[|ms| - 1].ev)}
  }

  function UpRun(p: Proc, ms: seq<Msg>): seq<Step> {
    if ms == [] then [] else UpRun(p, ms[..|ms| - 1]) + [TakeUp(Target(p, ms[|ms| - 1]), ms[|ms| - 1].ev)]
  }

  lemma {:induction false} NetUpIs(up: multiset<(Node, Event)>, comm: nat, sends: seq<Act>)
    ensures NetUp(up, comm, sends) == up + NetUp(multiset{}, comm, sends)
  {
    if sends != [] { NetUpIs(up, comm, sends[..|sends| - 1]); }
  }

  lemma {:induction false} NetUpAppend(up: multiset<(Node, Event)>, comm: nat, a: seq<Act>, b: seq<Act>)
    ensures NetUp(up, comm, a + b) == NetUp(NetUp(up, comm, a), comm, b)
  {
    if b == [] {
      assert a + b == a;
    } else {
      assert (a + b)[..|a + b| - 1] == a + b[..|b| - 1];
      NetUpAppend(up, comm, a, b[..|b| - 1]);
    }
  }

  lemma {:induction false} NetDownAppend(down: map<Chan, seq<Msg>>, p: Proc, a: seq<Act>, b: seq<Act>)
    ensures NetDown(down, p, a + b) == NetDown(NetDown(down, p, a), p, b)
  {
    if b == [] {
      assert a + b == a;
    } else {
      hide Push;
      assert (a + b)[..|a + b| - 1] == a + b[..|b| - 1];
      NetDownAppend(down, p, a, b[..|b| - 1]);
    }
  }

  /** Two changes of the network make one. */
  lemma UpNetMore(sys: seq<Sched>, s: State, s1: State, s2: State, p: Proc, x: multiset<(Node, Event)>, y: multiset<(Node, Event)>,
                  a1: seq<Act>, b1: seq<Act>, a2: seq<Act>, b2: seq<Act>)
    requires x + y <= s.up && UpNet(sys, s, s1, p, x, a1, b1) && UpNet(sys, s1, s2, p, y, a2, b2)
    ensures UpNet(sys, s, s2, p, x + y, a1 + a2, b1 + b2)
  {
    NetDownAppend(s.down, p, a1, a2);
    UpMore(s.up, s1.up, s2.up, p.comm, sys[p.comm].upComm, x, y, a1, b1, a2, b2);
    hide NetUp, NetDown;
  }

  lemma UpMore(up: multiset<(Node, Event)>, up1: multiset<(Node, Event)>, up2: multiset<(Node, Event)>, c: nat, d: nat,
               x: multiset<(Node, Event)>, y: multiset<(Node, Event)>, a1: seq<Act>, b1: seq<Act>, a2: seq<Act>, b2: seq<Act>)
    requires x + y <= up && up1 == NetUp(NetUp(up - x, c, a1), d, b1) && up2 == NetUp(NetUp(up1 - y, c, a2), d, b2)
    ensures up2 == NetUp(NetUp(up - (x + y), c, a1 + a2), d, b1 + b2)
  {
    var none: multiset<(Node, Event)> := multiset{};
    hide NetUp;
    Sums(up - x, c, d, a1, b1);
    Sums(up1 - y, c, d, a2, b2);
    Sums(up - (x + y), c, d, a1 + a2, b1 + b2);
    NetUpAppend(none, c, a1, a2);
    NetUpIs(NetUp(none, c, a1), c, a2);
    NetUpAppend(none, d, b1, b2);
    NetUpIs(NetUp(none, d, b1), d, b2);
    Arrange(up, x, y, NetUp(none, c, a1), NetUp(none, d, b1), NetUp(none, c, a2), NetUp(none, d, b2));
  }

  lemma Arrange<T>(up: multiset<T>, x: multiset<T>, y: multiset<T>, a1: multiset<T>, b1: multiset<T>, a2: multiset<T>, b2: multiset<T>)
    requires x + y <= up
    ensures (up - x + a1 + b1) - y + a2 + b2 == up - (x + y) + (a1 + a2) + (b1 + b2)
  { }

  lemma Sums(up: multiset<(Node, Event)>, c: nat, d: nat, a: seq<Act>, b: seq<Act>)
    ensures NetUp(NetUp(up, c, a), d, b) == up + NetUp(multiset{}, c, a) + NetUp(multiset{}, d, b)
  {
    NetUpIs(up, c, a);
    NetUpIs(NetUp(up, c, a), d, b);
  }

  /** Treating one more request. */
  lemma CountedMore(sys: seq<Sched>, s: State, s1: State, s2: State, p: Proc, x: multiset<(Node, Event)>, y: multiset<(Node, Event)>,
                    v: View, w: View, r: map<Key, nat>, ms: seq<Msg>, m: Msg, r1: map<Key, nat>)
    requires x + y <= s.up && Fits(v) && UpMsgs(v, ms) && r1 == OnUps(v, r, ms).0
    requires Counted(sys, s, s1, p, x, v, w, r, ms) && Counted(sys, s1, s2, p, y, v, w, r1, [m])
    ensures Counted(sys, s, s2, p, x + y, v, w, r, ms + [m])
  {
    hide UpNet, RecvIs, Each, Fits, OnUp;
    assert m in [m];
    var (r', acts) := OnUps(v, r, ms);
    OneUp(v, r1, m);
    var (r2, more) := OnUp(v, r1, m);
    OnUpsMore(v, r, ms, m);
    EachAppend(acts, more, Sent());
    EachAppend(acts, more, Escalated(w));
    hide OnUps;
    UpNetMore(sys, s, s1, s2, p, x, y, Each(acts, Sent()), Each(acts, Escalated(w)), Each(more, Sent()), Each(more, Escalated(w)));
  }

  lemma OnUpsMore(v: View, r: map<Key, nat>, ms: seq<Msg>, m: Msg)
    requires Fits(v) && UpMsgs(v, ms) && m.lev < v.level
    ensures UpMsgs(v, ms + [m])
    ensures var (r', acts) := OnUps(v, r, ms); var (r2, more) := OnUp(v, r', m); OnUps(v, r, ms + [m]) == (r2, acts + more)
  {
    assert (ms + [m])[..|ms + [m]| - 1] == ms;
  }

  /** After the requests ms, one more. */
  lemma UpsMore(sys: seq<Sched>, t: Topo, s: State, s1: State, p: Proc, ms: seq<Msg>, m: Msg, v: View, w: View, r: map<Key, nat>)
      returns (s': State)
    requires Tree(sys, t) && Inv(t, s1) && Requests(p, ms) + multiset{(Target(p, m), m.ev)} <= s.up
    requires ViewOf(sys, v, p.comm, p.rank) && Fits(v)
    requires p.comm >= 1 && p.rank == 0 ==> ViewOf(sys, w, sys[p.comm].upComm, sys[p.comm].upRank)
    requires Counted(sys, s, s1, p, Requests(p, ms), v, w, r, ms)
    ensures Enabled(t, s1, TakeUp(Target(p, m), m.ev)) && s' == Do(t, s1, TakeUp(Target(p, m), m.ev)) && Inv(t, s')
    ensures Counted(sys, s, s', p, Requests(p, ms) + multiset{(Target(p, m), m.ev)}, v, w, r, ms + [m])
  {
    hide Tree, Inv, Enabled, Do, RecvIs, Fits, ViewOf, UpNet, OnUps, Requests, Each;
    StillThere(sys, s, s1, p, Requests(p, ms), v, w, r, ms, (Target(p, m), m.ev));
    var r1 := OnUps(v, r, ms).0;
    s' := TakeUpIsDo(sys, t, s1, p, m, v, w, r1);
    StepInv(t, s1, TakeUp(Target(p, m), m.ev));
    CountedMore(sys, s, s1, s', p, Requests(p, ms), multiset{(Target(p, m), m.ev)}, v, w, r, ms, m, r1);
  }

  lemma Last(p: Proc, ms: seq<Msg>, m: Msg)
    ensures Requests(p, ms + [m]) == Requests(p, ms) + multiset{(Target(p, m), m.ev)}
    ensures UpRun(p, ms + [m]) == UpRun(p, ms) + [TakeUp(Target(p, m), m.ev)]
  {
    assert (ms + [m])[..|ms + [m]| - 1] == ms;
  }

  lemma CommIn(sys: seq<Sched>, v: View, p: Proc)
    requires ViewOf(sys, v, p.comm, p.rank)
    ensures p.comm < |sys|
  { }

  /** checkChildRequest, for the requests ms that it treats, is a run of the protocol. */
  lemma {:induction false} UpsAreRun(sys: seq<Sched>, t: Topo, s: State, p: Proc, ms: seq<Msg>, v: View, w: View, r: map<Key, nat>)
      returns (s': State)
    requires Tree(sys, t) && Inv(t, s) && Requests(p, ms) <= s.up
    requires ViewOf(sys, v, p.comm, p.rank) && Fits(v) && RecvIs(s.recv, p, r)
    requires p.comm >= 1 && p.rank == 0 ==> ViewOf(sys, w, sys[p.comm].upComm, sys[p.comm].upRank)
    ensures Legal(t, s, UpRun(p, ms)) && s' == Final(t, s, UpRun(p, ms)) && Inv(t, s')
    ensures Counted(sys, s, s', p, Requests(p, ms), v, w, r, ms)
    decreases |ms|
  {
    hide Tree, Inv, Enabled, Do, RecvIs, Fits, ViewOf, Counted;
    CommIn(sys, v, p);
    if ms == [] {
      LegalNone(t, s);
      s' := s;
      CountedNone(sys, s, p, v, w, r);
    } else {
      var some, m := ms[..|ms| - 1], ms[|ms| - 1];
      assert ms == some + [m];
      Last(p, some, m);
      hide Legal, Final, Requests, UpRun;
      var s1 := UpsAreRun(sys, t, s, p, some, v, w, r);
      s' := UpsMore(sys, t, s, s1, p, some, m, v, w, r);
      LegalMore(t, s, UpRun(p, some), TakeUp(Target(p, m), m.ev));
    }
  }

  lemma CountedNone(sys: seq<Sched>, s: State, p: Proc, v: View, w: View, r: map<Key, nat>)
    requires Fits(v) && RecvIs(s.recv, p, r) && p.comm < |sys|
    ensures Counted(sys, s, s, p, multiset{}, v, w, r, [])
  {
    NoUps(v, w, r);
    NoNet(s.up, p.comm, s.down, p);
    NoNet(s.up, sys[p.comm].upComm, s.down, p);
  }

  /** Requests that are not treated stay in the network. */
  lemma StillThere(sys: seq<Sched>, s: State, s1: State, p: Proc, x: multiset<(Node, Event)>, v: View, w: View, r: map<Key, nat>,
                   ms: seq<Msg>, y: (Node, Event))
    requires Fits(v) && Counted(sys, s, s1, p, x, v, w, r, ms) && x + multiset{y} <= s.up
    ensures y in s1.up && RecvIs(s1.recv, p, OnUps(v, r, ms).0)
  {
    var acts := OnUps(v, r, ms).1;
    Sums(s.up - x, p.comm, sys[p.comm].upComm, Each(acts, Sent()), Each(acts, Escalated(w)));
    hide NetUp, NetDown, RecvIs, OnUps, Each;
    assert y in s.up - x;
  }

  // ---------------------------------------------------------------- one request from the parent

  function StackOf(log: seq<Event>): seq<(nat, nat)> {
    if log == [] then [] else StackOf(log[..|log| - 1]) + [(log[|log| - 1].timeLine, log[|log| - 1].hashId)]
  }

  /** The leaf of a process. */
  function LeafOf(p: Proc, v: View): Node {
    Node(p.comm, p.rank, v.level)
  }

  /** The network after process p has sent `sends` and the root of its child scheduler c, if any, `below`. */
  ghost predicate DownNet(s: State, s': State, p: Proc, c: nat, sends: seq<Act>, below: seq<Act>)
  {
    && s'.up == s.up && s'.recv == s.recv
    && s'.down == if c == 0 then NetDown(s.down, p, sends) else NetDown(NetDown(s.down, p, sends), Proc(c, 0), below)
  }

  /** Without a child scheduler the pushes on eventStack_ are the events that its leaf has received. */
  ghost predicate LogNet(s: State, s': State, n: Node, pushed: seq<(nat, nat)>) {
    n in s.done && n in s'.done && StackOf(s'.done[n]) == StackOf(s.done[n]) + pushed
  }

  /** Treating the requests ms of the parent has led process p and the network from s to s'. */
  ghost predicate Passed(s: State, s': State, p: Proc, c: nat, v: View, w: View, ms: seq<Msg>)
    requires Fits(v)
  {
    && DownMsgs(v, ms) && Pend(s.pend, p) == ms + Pend(s'.pend, p)
    && (forall q {:trigger Pend(s'.pend, q)} | q != p :: Pend(s'.pend, q) == Pend(s.pend, q))
    && var acts := OnDowns(v, c != 0, ms);
    && DownNet(s, s', p, c, Each(acts, Sent()), Each(acts, Descended(w)))
    && (c == 0 ==> LogNet(s, s', LeafOf(p, v), Each(acts, Stacked())))
  }

  /** What TakeDown does, in parts. */
  ghost predicate TakenDown(t: Topo, s: State, s': State, p: Proc, n: Node, e: Event)
    requires n in t.kids && n in s.done && (forall c | c in t.kids[n] :: c in t.par && c in t.addr)
  {
    && Pend(s.pend, p) != [] && s'.pend == s.pend[p := Pend(s.pend, p)[1..]]
    && s'.recv == s.recv && s'.up == s.up
    && s'.down == PushAll(t, s.down, t.kids[n], e) && s'.done == s.done[n := s.done[n] + [e]]
  }

  lemma DoTakesDown(t: Topo, s: State, p: Proc)
    requires Enabled(t, s, TakeDown(p))
    ensures TakenDown(t, s, Do(t, s, TakeDown(p)), p, t.at[Target(p, Pend(s.pend, p)[0])], Pend(s.pend, p)[0].ev)
  {
    hide PushAll, Edges;
  }

  /** Where the next request of a process leads. */
  ghost predicate Passing(sys: seq<Sched>, t: Topo, s: State, p: Proc, m: Msg, n: Node) {
    && SysOk(sys) && Raw(sys, Target(p, m)) && m.lev >= 1 && n == Canon(sys, Target(p, m)) && NodeFacts(sys, t, n)
    && (forall k | k in t.kids[n] :: k in t.par && k in t.addr) && n in s.done
  }

  /** The request at the front of p's queue is for node n. */
  ghost predicate Leads(t: Topo, s: State, p: Proc, n: Node) {
    Pend(s.pend, p) != [] && Target(p, Pend(s.pend, p)[0]) in t.at && n == t.at[Target(p, Pend(s.pend, p)[0])]
  }

  lemma NextDown(sys: seq<Sched>, t: Topo, s: State, p: Proc) returns (n: Node)
    requires Pend(s.pend, p) != [] && Tree(sys, t) && Inv(t, s)
    ensures Enabled(t, s, TakeDown(p)) && Leads(t, s, p, n)
    ensures Passing(sys, t, s, p, Pend(s.pend, p)[0], n)
  {
    hide Tree, Inv, SysOk, NodeFacts, Enabled, Passing;
    var m := Pend(s.pend, p)[0];
    DownEnabled(t, s, p);
    n := t.at[Target(p, m)];
    AtIs(sys, t, Target(p, m));
    DownDone(t, s, p);
    MakePassing(sys, t, s, p, m, n);
  }

  lemma MakePassing(sys: seq<Sched>, t: Topo, s: State, p: Proc, m: Msg, n: Node)
    requires SysOk(sys) && Raw(sys, Target(p, m)) && m.lev >= 1 && n == Canon(sys, Target(p, m)) && NodeFacts(sys, t, n)
    requires (forall k | k in t.kids[n] :: k in t.par && k in t.addr) && n in s.done
    ensures Passing(sys, t, s, p, m, n)
  { }

  lemma DownEnabled(t: Topo, s: State, p: Proc)
    requires Inv(t, s) && Pend(s.pend, p) != []
    ensures Enabled(t, s, TakeDown(p)) && Target(p, Pend(s.pend, p)[0]) in t.at && t.at[Target(p, Pend(s.pend, p)[0])] in t.kids
  {
    var a := Target(p, Pend(s.pend, p)[0]);
    assert Pend(s.pend, p)[0] in Pend(s.pend, p);
    assert AddrOk(t, a) && KidsOk(t, t.at[a]);
  }

  lemma DownDone(t: Topo, s: State, p: Proc)
    requires Enabled(t, s, TakeDown(p))
    ensures var n := t.at[Target(p, Pend(s.pend, p)[0])]; n in t.kids && n in s.done
    ensures var n := t.at[Target(p, Pend(s.pend, p)[0])]; forall k | k in t.kids[n] :: k in t.par && k in t.addr
  { }

  lemma AtIs(sys: seq<Sched>, t: Topo, a: Node)
    requires Tree(sys, t) && a in t.at && t.at[a] in t.kids
    ensures SysOk(sys) && Raw(sys, a) && a.lev >= 1 && t.at[a] == Canon(sys, a) && NodeFacts(sys, t, t.at[a])
  {
    hide NodeFacts, SysOk, Canon, Raw;
    BuildFacts(sys, t.at[a]);
  }

  lemma OneDown(v: View, has: bool, m: Msg)
    requires Fits(v) && m.lev <= v.level
    ensures DownMsgs(v, [m]) && OnDowns(v, has, [m]) == OnDown(v, has, m)
  {
    assert [m][..0] == [];
    assert OnDowns(v, has, []) == [];
    assert [] + OnDown(v, has, m) == OnDown(v, has, m);
  }

  /** Without a child scheduler, the leaf of process p gets the events that are pushed on eventStack_. */
  lemma LeafLog(sys: seq<Sched>, t: Topo, s: State, s': State, p: Proc, m: Msg, n: Node, v: View)
    requires Passing(sys, t, s, p, m, n) && ViewOf(sys, v, p.comm, p.rank) && ChildOf(sys, p.comm, p.rank) == 0
    requires LeafOf(p, v) in s.done && s'.done == s.done[n := s.done[n] + [m.ev]]
    ensures LogNet(s, s', LeafOf(p, v), if t.kids[n] == [] then [(m.ev.timeLine, m.ev.hashId)] else [])
  {
    var leaf := LeafOf(p, v);
    NodeHere(sys, t, s, p, m, n, v);
    var log := s.done[leaf];
    assert (log + [m.ev])[..|log + [m.ev]| - 1] == log;
    hide Passing, ViewOf;
  }

  lemma NodeHere(sys: seq<Sched>, t: Topo, s: State, p: Proc, m: Msg, n: Node, v: View)
    requires Passing(sys, t, s, p, m, n) && ViewOf(sys, v, p.comm, p.rank) && ChildOf(sys, p.comm, p.rank) == 0
    ensures n == Target(p, m) && n in t.kids && (t.kids[n] == [] <==> n == LeafOf(p, v))
  {
    ViewAt(sys, v, Target(p, m));
    InnerHere(sys, n);
    hide SysOk, ViewOk;
  }

  lemma LeafIn(sys: seq<Sched>, t: Topo, s: State, p: Proc, v: View)
    requires Tree(sys, t) && Inv(t, s) && ViewOf(sys, v, p.comm, p.rank) && ChildOf(sys, p.comm, p.rank) == 0
    ensures Fits(v) && LeafOf(p, v) in s.done && LeafOf(p, v) in t.kids && t.kids[LeafOf(p, v)] == []
  {
    LeafRaw(sys, p.comm, p.rank);
    ViewAt(sys, v, Node(p.comm, p.rank, Lv(sys, p.comm, p.rank)));
    InNodes(sys, LeafOf(p, v));
    InnerHere(sys, LeafOf(p, v));
    BuildFacts(sys, LeafOf(p, v));
    hide SysOk, ViewOk, Build, InvUp, InvDown, InvSent;
  }

  /** One treated request of the parent: OnDown, what it sends and what it makes the child scheduler send, is TakeDown. */
  lemma TakeDownIsDo(sys: seq<Sched>, t: Topo, s: State, p: Proc, v: View, w: View) returns (s': State)
    requires Tree(sys, t) && Inv(t, s) && Pend(s.pend, p) != [] && ViewOf(sys, v, p.comm, p.rank)
    requires ChildOf(sys, p.comm, p.rank) != 0 ==> ViewOf(sys, w, ChildOf(sys, p.comm, p.rank), 0)
    ensures Enabled(t, s, TakeDown(p)) && s' == Do(t, s, TakeDown(p)) && Fits(v)
    ensures Passed(s, s', p, ChildOf(sys, p.comm, p.rank), v, w, [Pend(s.pend, p)[0]])
  {
    hide Tree, Inv, SysOk, Enabled, Do, Passing, Fits, ViewOf, ChildOf, TakenDown, LogNet, DownNet, Passed;
    var n := NextDown(sys, t, s, p);
    s' := Do(t, s, TakeDown(p));
    var c := ChildOf(sys, p.comm, p.rank);
    if c == 0 { LeafIn(sys, t, s, p, v); }
    PassedOne(sys, t, s, s', p, Pend(s.pend, p)[0], n, v, w);
  }

  lemma PassingIsCode(sys: seq<Sched>, t: Topo, s: State, p: Proc, m: Msg, n: Node, v: View, w: View)
    requires Passing(sys, t, s, p, m, n) && ViewOf(sys, v, p.comm, p.rank)
    requires ChildOf(sys, p.comm, p.rank) != 0 ==> ViewOf(sys, w, ChildOf(sys, p.comm, p.rank), 0)
    ensures Fits(v) && m.lev <= v.level && n in t.kids && (forall k | k in t.kids[n] :: k in t.par && k in t.addr)
    ensures var c := ChildOf(sys, p.comm, p.rank); var acts := OnDown(v, c != 0, m);
      && PushAll(t, s.down, t.kids[n], m.ev) ==
         (if c == 0 then NetDown(s.down, p, Each(acts, Sent()))
          else NetDown(NetDown(s.down, p, Each(acts, Sent())), Proc(c, 0), Each(acts, Descended(w))))
      && Each(acts, Stacked()) == if t.kids[n] == [] then [(m.ev.timeLine, m.ev.hashId)] else []
  {
    hide SysOk, ViewOf, ChildOf, Each, PushAll, OnDown, Canon, Raw, NetDown, Fits, KidFacts;
    TakeDownIsCode(sys, t, s.down, Target(p, m), n, m.ev, v, w);
    assert m == Msg(m.ev, m.lev) && p == Proc(p.comm, p.rank);
    var c := ChildOf(sys, p.comm, p.rank);
    var acts := OnDown(v, c != 0, m);
    assert DownMatches(t, s.down, p, acts, c, w, t.kids[n], m.ev);
    if c == 0 {
      DownSends(v, m, false, w);
      assert Each(acts, Descended(w)) == [];
      NoNet(multiset{}, 0, NetDown(s.down, p, Each(acts, Sent())), Proc(c, 0));
    }
  }

  lemma PassedOne(sys: seq<Sched>, t: Topo, s: State, s': State, p: Proc, m: Msg, n: Node, v: View, w: View)
    requires Passing(sys, t, s, p, m, n) && Enabled(t, s, TakeDown(p)) && s' == Do(t, s, TakeDown(p))
    requires m == Pend(s.pend, p)[0] && n == t.at[Target(p, m)] && ViewOf(sys, v, p.comm, p.rank)
    requires ChildOf(sys, p.comm, p.rank) != 0 ==> ViewOf(sys, w, ChildOf(sys, p.comm, p.rank), 0)
    requires ChildOf(sys, p.comm, p.rank) == 0 ==> LeafOf(p, v) in s.done
    ensures Fits(v) && Passed(s, s', p, ChildOf(sys, p.comm, p.rank), v, w, [m])
  {
    hide Passing, Enabled, Do, Each, OnDown, OnDowns, ChildOf, ViewOf, Fits, NetDown, PushAll, LogNet;
    DoTakesDown(t, s, p);
    PassingIsCode(sys, t, s, p, m, n, v, w);
    var c := ChildOf(sys, p.comm, p.rank);
    if c == 0 { LeafLog(sys, t, s, s', p, m, n, v); }
    OneDown(v, c != 0, m);
    PendTail(s.pend, p);
  }

  lemma PendTail(q: map<Proc, seq<Msg>>, p: Proc)
    requires Pend(q, p) != []
    ensures var q' := q[p := Pend(q, p)[1..]];
      Pend(q, p) == [Pend(q, p)[0]] + Pend(q', p) && forall x {:trigger Pend(q', x)} | x != p :: Pend(q', x) == Pend(q, x)
  { }

  // ---------------------------------------------------------------- a call of checkParentRequest

  /** What one process sends goes over other channels than what another one sends. */
  lemma {:induction false} PushCommutes(down: map<Chan, seq<Msg>>, ch: Chan, m: Msg, p: Proc, sends: seq<Act>)
    requires Proc(ch.comm, ch.src) != p
    ensures NetDown(Push(down, ch, m), p, sends) == Push(NetDown(down, p, sends), ch, m)
  {
    if sends != [] { PushCommutes(down, ch, m, p, sends[..|sends| - 1]); }
  }

  lemma {:induction false} Commutes(down: map<Chan, seq<Msg>>, p: Proc, a: seq<Act>, q: Proc, b: seq<Act>)
    requires p != q
    ensures NetDown(NetDown(down, q, b), p, a) == NetDown(NetDown(down, p, a), q, b)
  {
    if b != [] {
      Commutes(down, p, a, q, b[..|b| - 1]);
      var x := b[|b| - 1];
      if x.SendDown? {
        PushCommutes(NetDown(down, q, b[..|b| - 1]), Chan(q.comm, q.rank, x.dst), x.m, p, a);
      }
      hide Push;
    }
  }

  lemma DownNetMore(s: State, s1: State, s2: State, p: Proc, c: nat, a1: seq<Act>, b1: seq<Act>, a2: seq<Act>, b2: seq<Act>)
    requires c != 0 ==> c != p.comm
    requires DownNet(s, s1, p, c, a1, b1) && DownNet(s1, s2, p, c, a2, b2)
    ensures DownNet(s, s2, p, c, a1 + a2, b1 + b2)
  {
    hide NetDown;
    var q := Proc(c, 0);
    NetDownAppend(s.down, p, a1, a2);
    if c != 0 {
      Commutes(NetDown(s.down, p, a1), p, a2, q, b1);
      NetDownAppend(NetDown(s.down, p, a1 + a2), q, b1, b2);
    }
  }

  lemma LogMore(s: State, s1: State, s2: State, n: Node, a: seq<(nat, nat)>, b: seq<(nat, nat)>)
    requires LogNet(s, s1, n, a) && LogNet(s1, s2, n, b)
    ensures LogNet(s, s2, n, a + b)
  {
    hide StackOf;
  }

  lemma PendMore(q: map<Proc, seq<Msg>>, q1: map<Proc, seq<Msg>>, q2: map<Proc, seq<Msg>>, p: Proc, a: seq<Msg>, b: seq<Msg>)
    requires Pend(q, p) == a + Pend(q1, p) && Pend(q1, p) == b + Pend(q2, p)
    ensures Pend(q, p) == (a + b) + Pend(q2, p)
  {
    hide Pend;
  }

  /** Treating one more request. */
  lemma PassedMore(s: State, s1: State, s2: State, p: Proc, c: nat, v: View, w: View, ms: seq<Msg>, m: Msg)
    requires Fits(v) && (c != 0 ==> c != p.comm)
    requires Passed(s, s1, p, c, v, w, ms) && Passed(s1, s2, p, c, v, w, [m])
    ensures Passed(s, s2, p, c, v, w, ms + [m])
  {
    hide Each, OnDowns, OnDown, Fits, DownNet, LogNet, Pend;
    PendMore(s.pend, s1.pend, s2.pend, p, ms, [m]);
    assert m in [m] && m.lev <= v.level;
    OneDown(v, c != 0, m);
    OnDownsStep(v, c != 0, ms, m);
    var a, b := OnDowns(v, c != 0, ms), OnDown(v, c != 0, m);
    EachAppend(a, b, Sent());
    EachAppend(a, b, Descended(w));
    EachAppend(a, b, Stacked());
    DownNetMore(s, s1, s2, p, c, Each(a, Sent()), Each(a, Descended(w)), Each(b, Sent()), Each(b, Descended(w)));
    if c == 0 { LogMore(s, s1, s2, LeafOf(p, v), Each(a, Stacked()), Each(b, Stacked())); }
  }

  function DownRun(p: Proc, k: nat): seq<Step> {
    if k == 0 then [] else DownRun(p, k - 1) + [TakeDown(p)]
  }

  lemma PassedNone(sys: seq<Sched>, t: Topo, s: State, p: Proc, v: View, w: View)
    requires Tree(sys, t) && Inv(t, s) && ViewOf(sys, v, p.comm, p.rank)
    ensures Fits(v) && Passed(s, s, p, ChildOf(sys, p.comm, p.rank), v, w, [])
  {
    hide Tree, Inv, ViewOf, ChildOf, OnDown, Fits;
    FitsOf(sys, v, p);
    var c := ChildOf(sys, p.comm, p.rank);
    NoDowns(v, w, c != 0);
    NoNet(s.up, 0, s.down, p);
    NoNet(s.up, 0, s.down, Proc(c, 0));
    if c == 0 { LeafIn(sys, t, s, p, v); }
  }

  lemma FitsOf(sys: seq<Sched>, v: View, p: Proc)
    requires ViewOf(sys, v, p.comm, p.rank)
    ensures Fits(v) && p.comm < |sys|
  {
    ViewFits(v, sys[p.comm].size, p.rank);
  }

  /** A child scheduler is not the scheduler itself. */
  lemma ChildOther(sys: seq<Sched>, t: Topo, p: Proc)
    requires Tree(sys, t)
    ensures ChildOf(sys, p.comm, p.rank) != 0 ==> ChildOf(sys, p.comm, p.rank) != p.comm
  {
    ChildFromIs(sys, p.comm, p.rank, 1, 1);
    var c := ChildOf(sys, p.comm, p.rank);
    assert c != 0 ==> SchedulerSystem.UpOk(sys, c);
  }

  lemma FrontOf(q: seq<Msg>, q1: seq<Msg>, ms: seq<Msg>, m: Msg)
    requires ms + [m] <= q && q == ms + q1
    ensures q1 != [] && q1[0] == m
  {
    assert q[|ms|] == (ms + [m])[|ms|] == m;
  }

  /** checkParentRequest, for the requests ms that it treats, is a run of the protocol. */
  lemma {:induction false} DownsAreRun(sys: seq<Sched>, t: Topo, s: State, p: Proc, ms: seq<Msg>, v: View, w: View) returns (s': State)
    requires Tree(sys, t) && Inv(t, s) && ms <= Pend(s.pend, p) && ViewOf(sys, v, p.comm, p.rank)
    requires ChildOf(sys, p.comm, p.rank) != 0 ==> ViewOf(sys, w, ChildOf(sys, p.comm, p.rank), 0)
    ensures Legal(t, s, DownRun(p, |ms|)) && s' == Final(t, s, DownRun(p, |ms|)) && Inv(t, s')
    ensures Fits(v) && Passed(s, s', p, ChildOf(sys, p.comm, p.rank), v, w, ms)
    decreases |ms|
  {
    hide Tree, Inv, Enabled, Do, ViewOf, ChildOf, Fits;
    if ms == [] {
      LegalNone(t, s);
      s' := s;
      PassedNone(sys, t, s, p, v, w);
    } else {
      hide Legal, Final, DownNet, LogNet, Each, OnDowns;
      var some, m := ms[..|ms| - 1], ms[|ms| - 1];
      assert ms == some + [m];
      var s1 := DownsAreRun(sys, t, s, p, some, v, w);
      FrontOf(Pend(s.pend, p), Pend(s1.pend, p), some, m);
      s' := OneMoreDown(sys, t, s, s1, p, some, m, v, w);
      LegalMore(t, s, DownRun(p, |some|), TakeDown(p));
    }
  }

  lemma OneMoreDown(sys: seq<Sched>, t: Topo, s: State, s1: State, p: Proc, ms: seq<Msg>, m: Msg, v: View, w: View) returns (s': State)
    requires Tree(sys, t) && Inv(t, s1) && Pend(s1.pend, p) != [] && Pend(s1.pend, p)[0] == m
    requires ViewOf(sys, v, p.comm, p.rank) && Fits(v) && Passed(s, s1, p, ChildOf(sys, p.comm, p.rank), v, w, ms)
    requires ChildOf(sys, p.comm, p.rank) != 0 ==> ViewOf(sys, w, ChildOf(sys, p.comm, p.rank), 0)
    ensures Enabled(t, s1, TakeDown(p)) && s' == Do(t, s1, TakeDown(p)) && Inv(t, s')
    ensures Passed(s, s', p, ChildOf(sys, p.comm, p.rank), v, w, ms + [m])
  {
    hide Tree, Inv, Enabled, Do, ViewOf, ChildOf, Fits, Passed;
    s' := TakeDownIsDo(sys, t, s1, p, v, w);
    StepInv(t, s1, TakeDown(p));
    ChildOther(sys, t, p);
    PassedMore(s, s1, s', p, ChildOf(sys, p.comm, p.rank), v, w, ms, m);
  }
}
