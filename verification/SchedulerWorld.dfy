/** All processes of all schedulers together: from the objects that the constructor leaves, every call of
    registerEvent, checkChildRequest or checkParentRequest on any of them is a run of the protocol, and
    leaves objects that stand for the state in which the run ends. */
module SchedulerWorld {
  import opened SchedulerProtocol
  import opened SchedulerProof
  import opened SchedulerTheorems
  import opened SchedulerNode
  import opened SchedulerSystem
  import opened SchedulerCode
  import opened SchedulerRefines
  import SchedulerPool

  /** What one process holds: its arrays, recvEvent_, the requests received from its children and from its
      parent, and the events that its eventStack_ has ever held. */
  datatype Local = Local(v: View, recv: map<Key, nat>, up: seq<Msg>, down: seq<Msg>, log: seq<(nat, nat)>)

  ghost predicate Linked(sys: seq<Sched>, s: State, p: Proc, x: Local) {
    && ViewOf(sys, x.v, p.comm, p.rank)
    && RecvIs(s.recv, p, x.recv) && Requests(p, x.up) <= s.up && Pend(s.pend, p) == x.down
    && (ChildOf(sys, p.comm, p.rank) == 0 ==> LogIs(s, LeafOf(p, x.v), x.log))
  }

  ghost predicate LogIs(s: State, n: Node, log: seq<(nat, nat)>) {
    n in s.done && log == StackOf(s.done[n])
  }

  /** Every process of the system is linked to s. */
  ghost predicate AllLinked(sys: seq<Sched>, s: State, all: map<Proc, Local>) {
    && (forall p :: p in all <==> p.comm < |sys| && p.rank < sys[p.comm].size)
    && forall p | p in all :: Linked(sys, s, p, all[p])
  }

  // ---------------------------------------------------------------- what one process leaves alone

  predicate At(n: Node, p: Proc) {
    n.comm == p.comm && n.rank == p.rank
  }

  /** From s to s' nothing has happened to process q, except that requests may have been sent to it. */
  ghost predicate Frame(sys: seq<Sched>, s: State, s': State, q: Proc) {
    && Pend(s'.pend, q) == Pend(s.pend, q)
    && (forall k: Key :: SameRecv(s, s', Node(q.comm, q.rank, k.lev), k.ev))
    && (forall n, e | At(n, q) :: s.up[(n, e)] <= s'.up[(n, e)])
    && (forall n | n in s.done && At(n, q) && n.lev >= 1 :: n in s'.done && s'.done[n] == s.done[n])
  }

  predicate SameRecv(s: State, s': State, n: Node, e: Event) {
    ((n, e) in s.recv <==> (n, e) in s'.recv) && ((n, e) in s.recv ==> s.recv[(n, e)] == s'.recv[(n, e)])
  }

  lemma FrameTwice(sys: seq<Sched>, s: State, s1: State, s2: State, q: Proc)
    requires Frame(sys, s, s1, q) && Frame(sys, s1, s2, q)
    ensures Frame(sys, s, s2, q)
  {
    forall k: Key ensures SameRecv(s, s2, Node(q.comm, q.rank, k.lev), k.ev) {
      assert SameRecv(s, s1, Node(q.comm, q.rank, k.lev), k.ev);
      assert SameRecv(s1, s2, Node(q.comm, q.rank, k.lev), k.ev);
    }
  }

  lemma FrameNone(sys: seq<Sched>, s: State, q: Proc)
    ensures Frame(sys, s, s, q)
  { }

  lemma {:induction false} RequestsAt(p: Proc, ms: seq<Msg>, n: Node, e: Event)
    ensures Requests(p, ms)[(n, e)] == if At(n, p) then multiset(ms)[Msg(e, n.lev)] else 0
  {
    if ms != [] {
      var i := |ms| - 1;
      RequestsAt(p, ms[..i], n, e);
      assert ms == ms[..i] + [ms[i]];
    }
  }

  /** A process that is left alone stays linked. */
  lemma FrameLinked(sys: seq<Sched>, s: State, s': State, q: Proc, x: Local)
    requires Frame(sys, s, s', q) && Linked(sys, s, q, x) && Fits(x.v)
    ensures Linked(sys, s', q, x)
  {
    forall k: Key
      ensures k in x.recv <==> (Node(q.comm, q.rank, k.lev), k.ev) in s'.recv
      ensures k in x.recv ==> x.recv[k] == s'.recv[(Node(q.comm, q.rank, k.lev), k.ev)]
    {
      assert SameRecv(s, s', Node(q.comm, q.rank, k.lev), k.ev);
    }
    StaySent(s, s', q, x.up);
    hide ViewOf, ChildOf, Pend, StackOf;
  }

  lemma StaySent(s: State, s': State, q: Proc, ms: seq<Msg>)
    requires Requests(q, ms) <= s.up && forall n, e | At(n, q) :: s.up[(n, e)] <= s'.up[(n, e)]
    ensures Requests(q, ms) <= s'.up
  {
    forall x: (Node, Event) ensures Requests(q, ms)[x] <= s'.up[x] {
      RequestsAt(q, ms, x.0, x.1);
      assert x == (x.0, x.1) && Requests(q, ms)[x] <= s.up[x];
    }
  }

  /** The process that makes a step. */
  predicate By(step: Step, p: Proc) {
    match step
    case Register(n, e) => At(n, p)
    case TakeUp(n, e) => At(n, p)
    case Deliver(ch) => p == Proc(ch.comm, ch.dst)
    case TakeDown(q) => p == q
  }

  /** What a step at node n changes. */
  ghost predicate Touches(s: State, s': State, n: Node, e: Event) {
    && (s'.recv == s.recv || s'.recv == s.recv - {(n, e)} || s'.recv == s.recv[(n, e) := Recv(s.recv, n, e) + 1])
    && s.up - multiset{(n, e)} <= s'.up
    && (s'.done == s.done || (n in s.done && s'.done == s.done[n := s.done[n] + [e]]))
  }

  lemma TakeUpTouches(t: Topo, s: State, n: Node, e: Event)
    requires Enabled(t, s, TakeUp(n, e))
    ensures var s' := DoTakeUp(t, s, n, e); Touches(s, s', n, e) && s'.pend == s.pend
  {
    hide DoTakeUp, PushAll, Turns, Recv;
    TakeUpParts(t, s, DoTakeUp(t, s, n, e), n, e);
  }

  lemma TakeDownTouches(t: Topo, s: State, p: Proc, n: Node, e: Event)
    requires Enabled(t, s, TakeDown(p)) && n == t.at[Target(p, Pend(s.pend, p)[0])] && e == Pend(s.pend, p)[0].ev
    ensures var s' := DoTakeDown(t, s, p);
      s'.recv == s.recv && s'.up == s.up && s'.done == s.done[n := s.done[n] + [e]] && s'.pend == s.pend[p := Pend(s.pend, p)[1..]]
  {
    hide PushAll, Edges;
  }

  lemma TouchFrame(sys: seq<Sched>, s: State, s': State, n: Node, e: Event, q: Proc)
    requires Touches(s, s', n, e) && !At(n, q) && Pend(s'.pend, q) == Pend(s.pend, q)
    ensures Frame(sys, s, s', q)
  {
    forall m, x | At(m, q) ensures s.up[(m, x)] <= s'.up[(m, x)] {
      assert s.up[(m, x)] == (s.up - multiset{(n, e)})[(m, x)];
    }
  }

  lemma TakeUpFrame(sys: seq<Sched>, t: Topo, s: State, n: Node, e: Event, q: Proc)
    requires Enabled(t, s, TakeUp(n, e)) && !At(n, q)
    ensures Frame(sys, s, DoTakeUp(t, s, n, e), q)
  {
    hide Enabled, Touches, DoTakeUp, Frame;
    TakeUpTouches(t, s, n, e);
    TouchFrame(sys, s, DoTakeUp(t, s, n, e), n, e, q);
  }

  lemma DownFrame(sys: seq<Sched>, s: State, s': State, n: Node, e: Event, p: Proc, q: Proc)
    requires n in s.done && s'.recv == s.recv && s'.up == s.up && s'.done == s.done[n := s.done[n] + [e]]
    requires At(n, p) || n.lev == 0
    requires q != p && Pend(s'.pend, q) == Pend(s.pend, q)
    ensures Frame(sys, s, s', q)
  { }

  lemma TakeDownFrame(sys: seq<Sched>, t: Topo, s: State, p: Proc, q: Proc)
    requires Tree(sys, t) && Inv(t, s) && Enabled(t, s, TakeDown(p)) && q != p
    ensures Frame(sys, s, DoTakeDown(t, s, p), q)
  {
    hide Tree, Inv, DoTakeDown, Frame, Canon, Raw, SysOk, NodeFacts;
    var m := Pend(s.pend, p)[0];
    var n := t.at[Target(p, m)];
    AtIs(sys, t, Target(p, m));
    CanonAt(sys, Target(p, m));
    TakeDownTouches(t, s, p, n, m.ev);
    DownFrame(sys, s, DoTakeDown(t, s, p), n, m.ev, p, q);
  }

  lemma CanonAt(sys: seq<Sched>, a: Node)
    requires Raw(sys, a)
    ensures Canon(sys, a) == a || Canon(sys, a).lev == 0
  { }

  lemma StepFrame(sys: seq<Sched>, t: Topo, s: State, step: Step, p: Proc, q: Proc)
    requires Tree(sys, t) && Inv(t, s) && Enabled(t, s, step) && By(step, p) && q != p
    ensures Frame(sys, s, Do(t, s, step), q)
  {
    hide Tree, Inv, Enabled, DoTakeUp, DoTakeDown;
    match step
    case TakeUp(n, e) => TakeUpFrame(sys, t, s, n, e, q);
    case TakeDown(x) => TakeDownFrame(sys, t, s, x, q);
    case Register(n, e) =>
    case Deliver(ch) =>
  }

  /** A run of steps of process p leaves the other processes alone. */
  lemma {:induction false} RunFrame(sys: seq<Sched>, t: Topo, s: State, run: seq<Step>, p: Proc, q: Proc)
    requires Tree(sys, t) && Inv(t, s) && Legal(t, s, run) && q != p && forall i | 0 <= i < |run| :: By(run[i], p)
    ensures Frame(sys, s, Final(t, s, run), q)
    decreases |run|
  {
    hide Tree, Inv, Enabled, Do, Frame, By;
    if run == [] {
      FrameNone(sys, s, q);
    } else {
      var s1 := Do(t, s, run[0]);
      assert By(run[0], p);
      StepInv(t, s, run[0]);
      StepFrame(sys, t, s, run[0], p, q);
      RunFrame(sys, t, s1, run[1..], p, q);
      FrameTwice(sys, s, s1, Final(t, s, run), q);
    }
  }

  /** After a run of process p, the others are linked as before. */
  lemma OthersLinked(sys: seq<Sched>, t: Topo, s: State, run: seq<Step>, s': State, p: Proc, all: map<Proc, Local>, x: Local)
    requires Tree(sys, t) && Inv(t, s) && Legal(t, s, run) && s' == Final(t, s, run)
    requires (forall i | 0 <= i < |run| :: By(run[i], p)) && AllLinked(sys, s, all) && p in all && Linked(sys, s', p, x)
    ensures AllLinked(sys, s', all[p := x])
  {
    hide Tree, Inv, Legal, Final, By, Linked;
    forall q | q in all && q != p ensures Linked(sys, s', q, all[q]) {
      assert Linked(sys, s, q, all[q]);
      RunFrame(sys, t, s, run, p, q);
      LinkedFits(sys, s, q, all[q]);
      FrameLinked(sys, s, s', q, all[q]);
    }
  }

  lemma LinkedFits(sys: seq<Sched>, s: State, q: Proc, x: Local)
    requires Linked(sys, s, q, x)
    ensures ViewOf(sys, x.v, q.comm, q.rank) && Fits(x.v)
  {
    FitsOf(sys, x.v, q);
  }

  /** A legal run of steps of process p, from s to s'. */
  ghost predicate RunOf(t: Topo, s: State, run: seq<Step>, s': State, p: Proc) {
    Legal(t, s, run) && s' == Final(t, s, run) && Inv(t, s') && forall i | 0 <= i < |run| :: By(run[i], p)
  }

  lemma RunInvOf(t: Topo, s: State, run: seq<Step>, s': State, p: Proc)
    requires RunOf(t, s, run, s', p)
    ensures Inv(t, s')
  { }

  // ---------------------------------------------------------------- requests of children

  lemma {:induction false} UpRunBy(p: Proc, ms: seq<Msg>)
    ensures |UpRun(p, ms)| == |ms| && forall i | 0 <= i < |UpRun(p, ms)| :: UpRun(p, ms)[i].TakeUp? && By(UpRun(p, ms)[i], p)
  {
    if ms != [] { UpRunBy(p, ms[..|ms| - 1]); }
  }

  lemma LeafStays1(t: Topo, s: State, n: Node, e: Event, leaf: Node)
    requires Enabled(t, s, TakeUp(n, e)) && leaf in s.done && leaf in t.kids && t.kids[leaf] == []
    ensures var s' := DoTakeUp(t, s, n, e); leaf in s'.done && s'.done[leaf] == s.done[leaf]
  {
    hide PushAll, Edges, Turns;
  }

  /** Counting requests changes no log of a leaf. */
  lemma {:induction false} LeafStays(t: Topo, s: State, run: seq<Step>, leaf: Node)
    requires Legal(t, s, run) && forall i | 0 <= i < |run| :: run[i].TakeUp?
    requires leaf in s.done && leaf in t.kids && t.kids[leaf] == []
    ensures leaf in Final(t, s, run).done && Final(t, s, run).done[leaf] == s.done[leaf]
    decreases |run|
  {
    hide Enabled, DoTakeUp;
    if run != [] {
      assert run[0].TakeUp?;
      LeafStays1(t, s, run[0].n, run[0].e, leaf);
      LeafStays(t, Do(t, s, run[0]), run[1..], leaf);
    }
  }

  lemma RequestsSplit(p: Proc, all: seq<Msg>, left: seq<Msg>, taken: seq<Msg>)
    requires Splits(all, left, taken)
    ensures Requests(p, left) + Requests(p, taken) == Requests(p, all)
  {
    forall x: (Node, Event) ensures (Requests(p, left) + Requests(p, taken))[x] == Requests(p, all)[x] {
      RequestsAt(p, all, x.0, x.1);
      RequestsAt(p, left, x.0, x.1);
      RequestsAt(p, taken, x.0, x.1);
      assert x == (x.0, x.1);
      assert multiset(all)[Msg(x.1, x.0.lev)] == multiset(left)[Msg(x.1, x.0.lev)] + multiset(taken)[Msg(x.1, x.0.lev)];
    }
  }

  /** What the contract of CheckChildRequest says of one call: the requests `all` have been received, those of
      `taken` are treated in this order, and those of `left` stay. */
  ghost predicate ChildCall(x: Local, incoming: seq<Msg>, taken: seq<Msg>, y: Local, acts: seq<Act>)
    requires Fits(x.v)
  {
    && y.v == x.v && y.down == x.down && y.log == x.log
    && Splits(x.up + incoming, y.up, taken) && Outcome(x.v, x.recv, taken, y.recv, acts)
  }

  /** The process has counted: it holds y, and is linked to s'. */
  lemma UpLinked(sys: seq<Sched>, t: Topo, s: State, s': State, p: Proc, x: Local, incoming: seq<Msg>, taken: seq<Msg>, y: Local, acts: seq<Act>, w: View)
    requires Linked(sys, s, p, x) && Fits(x.v) && ChildCall(x, incoming, taken, y, acts)
    requires Requests(p, x.up + incoming) <= s.up
    requires Counted(sys, s, s', p, Requests(p, taken), x.v, w, x.recv, taken)
    requires ChildOf(sys, p.comm, p.rank) == 0 ==> LogIs(s', LeafOf(p, x.v), x.log)
    ensures Linked(sys, s', p, y)
    ensures p.comm < |sys| && UpNet(sys, s, s', p, Requests(p, taken), Each(acts, Sent()), Each(acts, Escalated(w)))
  {
    hide ViewOf, RecvIs, LogIs, OnUp, OnUps, Each, Splits, Fits, ChildOf;
    RequestsSplit(p, x.up + incoming, y.up, taken);
    hide Requests;
    UpLeft(sys, s, s', p, Requests(p, y.up), Requests(p, taken), Each(acts, Sent()), Each(acts, Escalated(w)));
  }

  lemma UpLeft(sys: seq<Sched>, s: State, s': State, p: Proc, left: multiset<(Node, Event)>, taken: multiset<(Node, Event)>, sends: seq<Act>, above: seq<Act>)
    requires left + taken <= s.up && UpNet(sys, s, s', p, taken, sends, above)
    ensures left <= s'.up
  {
    Sums(s.up - taken, p.comm, sys[p.comm].upComm, sends, above);
    hide NetUp, NetDown;
    assert left <= s.up - taken;
  }

  /** The parent scheduler's view, where it is used. */
  ghost predicate UpView(sys: seq<Sched>, p: Proc, w: View) {
    p.comm >= 1 && p.rank == 0 ==> p.comm < |sys| && ViewOf(sys, w, sys[p.comm].upComm, sys[p.comm].upRank)
  }

  /** A call of checkChildRequest at process p is a run of the protocol. */
  lemma ChildCallIsRun(sys: seq<Sched>, t: Topo, s: State, p: Proc, all: map<Proc, Local>, incoming: seq<Msg>, taken: seq<Msg>, y: Local,
                       acts: seq<Act>, w: View)
      returns (run: seq<Step>, s': State)
    requires p in all && Fits(all[p].v) && ChildCall(all[p], incoming, taken, y, acts)
    requires Requests(p, all[p].up + incoming) <= s.up && UpView(sys, p, w)
    requires Tree(sys, t) && Inv(t, s) && AllLinked(sys, s, all)
    ensures RunOf(t, s, run, s', p) && |run| == |taken| && (forall i | 0 <= i < |run| :: run[i].TakeUp?)
    ensures AllLinked(sys, s', all[p := y])
    ensures p.comm < |sys| && UpNet(sys, s, s', p, Requests(p, taken), Each(acts, Sent()), Each(acts, Escalated(w)))
  {
    hide Tree, Inv, Legal, Final, Fits, Counted, LogIs, By, UpNet, Each, ChildCall, UpView, ChildOf;
    var x := all[p];
    assert Linked(sys, s, p, x);
    run := UpRun(p, taken);
    s' := TakenAreRun(sys, t, s, p, x, incoming, taken, y, acts, w);
    UpRunBy(p, taken);
    LeafKept(sys, t, s, p, x, run, s');
    UpLinked(sys, t, s, s', p, x, incoming, taken, y, acts, w);
    hide Linked, UpRun, AllLinked;
    OthersLinked(sys, t, s, run, s', p, all, y);
    assert RunOf(t, s, run, s', p);
  }

  lemma TakenAreRun(sys: seq<Sched>, t: Topo, s: State, p: Proc, x: Local, incoming: seq<Msg>, taken: seq<Msg>, y: Local, acts: seq<Act>, w: View)
      returns (s': State)
    requires Tree(sys, t) && Inv(t, s) && Linked(sys, s, p, x) && Fits(x.v) && UpView(sys, p, w)
    requires Requests(p, x.up + incoming) <= s.up && ChildCall(x, incoming, taken, y, acts)
    ensures Legal(t, s, UpRun(p, taken)) && s' == Final(t, s, UpRun(p, taken)) && Inv(t, s')
    ensures Counted(sys, s, s', p, Requests(p, taken), x.v, w, x.recv, taken)
  {
    hide Tree, Inv, Legal, Final, Fits, Counted, RecvIs, LogIs, Splits, Outcome, ViewOf, ChildOf;
    RequestsSplit(p, x.up + incoming, y.up, taken);
    hide Requests;
    s' := UpsAreRun(sys, t, s, p, taken, x.v, w, x.recv);
  }

  lemma LeafKept(sys: seq<Sched>, t: Topo, s: State, p: Proc, x: Local, run: seq<Step>, s': State)
    requires Tree(sys, t) && Inv(t, s) && Linked(sys, s, p, x) && Legal(t, s, run) && s' == Final(t, s, run)
    requires forall i | 0 <= i < |run| :: run[i].TakeUp?
    ensures ChildOf(sys, p.comm, p.rank) == 0 ==> LogIs(s', LeafOf(p, x.v), x.log)
  {
    hide Tree, Inv, Legal, Final, ViewOf, RecvIs, ChildOf, StackOf, Requests;
    if ChildOf(sys, p.comm, p.rank) == 0 {
      LeafIn(sys, t, s, p, x.v);
      LeafStays(t, s, run, LeafOf(p, x.v));
    }
  }

  // ---------------------------------------------------------------- requests of the parent

  /** The next messages of the channels `from`, in this order: first-in first-out for each channel, any order among channels. */
  ghost predicate Waiting(down: map<Chan, seq<Msg>>, from: seq<Chan>)
    decreases |from|
  {
    from == [] || (Down(down, from[0]) != [] && Waiting(down[from[0] := Down(down, from[0])[1..]], from[1..]))
  }

  ghost function Fronts(down: map<Chan, seq<Msg>>, from: seq<Chan>): seq<Msg>
    requires Waiting(down, from)
    decreases |from|
  {
    if from == [] then [] else
    [Down(down, from[0])[0]] + Fronts(down[from[0] := Down(down, from[0])[1..]], from[1..])
  }

  /** The network once they have been received. */
  ghost function Without(down: map<Chan, seq<Msg>>, from: seq<Chan>): map<Chan, seq<Msg>>
    requires Waiting(down, from)
    decreases |from|
  {
    if from == [] then down else Without(down[from[0] := Down(down, from[0])[1..]], from[1..])
  }

  /** Process p receives `incoming`, the next messages of the channels `from`. */
  ghost predicate Arrives(down: map<Chan, seq<Msg>>, p: Proc, from: seq<Chan>, incoming: seq<Msg>) {
    && Waiting(down, from) && incoming == Fronts(down, from)
    && forall i | 0 <= i < |from| :: from[i].comm == p.comm && from[i].dst == p.rank
  }

  function Delivers(from: seq<Chan>): seq<Step> {
    seq(|from|, i requires 0 <= i < |from| => Deliver(from[i]))
  }

  ghost predicate Delivered(s: State, s': State, p: Proc, from: seq<Chan>)
    requires Waiting(s.down, from)
  {
    && s'.up == s.up && s'.recv == s.recv && s'.done == s.done && s'.down == Without(s.down, from)
    && Pend(s'.pend, p) == Pend(s.pend, p) + Fronts(s.down, from)
  }

  lemma DeliveredMore(s: State, s1: State, s2: State, p: Proc, from: seq<Chan>)
    requires from != [] && Waiting(s.down, from) && from[0].comm == p.comm && from[0].dst == p.rank
    requires s1 == DoDeliver(s, from[0]) && Delivered(s1, s2, p, from[1..])
    ensures Delivered(s, s2, p, from)
  {
    var a := [Down(s.down, from[0])[0]];
    assert Pend(s1.pend, p) == Pend(s.pend, p) + a;
    assert (Pend(s.pend, p) + a) + Fronts(s1.down, from[1..]) == Pend(s.pend, p) + (a + Fronts(s1.down, from[1..]));
  }

  /** Receiving messages is a run of deliveries. */
  lemma {:induction false} DeliversAreRun(t: Topo, s: State, p: Proc, from: seq<Chan>) returns (s': State)
    requires Inv(t, s) && Waiting(s.down, from) && forall i | 0 <= i < |from| :: from[i].comm == p.comm && from[i].dst == p.rank
    ensures Legal(t, s, Delivers(from)) && s' == Final(t, s, Delivers(from)) && Inv(t, s') && Delivered(s, s', p, from)
    decreases |from|
  {
    hide Inv, DoDeliver, Delivered;
    if from == [] {
      s' := s;
      DeliveredNone(s, p);
    } else {
      var s1 := DoDeliver(s, from[0]);
      StepInv(t, s, Deliver(from[0]));
      DownAfter(s, from[0]);
      assert Delivers(from)[0] == Deliver(from[0]) && Delivers(from)[1..] == Delivers(from[1..]);
      s' := DeliversAreRun(t, s1, p, from[1..]);
      DeliveredMore(s, s1, s', p, from);
    }
  }

  lemma DeliveredNone(s: State, p: Proc)
    ensures Delivered(s, s, p, [])
  { }

  lemma DownAfter(s: State, ch: Chan)
    requires Down(s.down, ch) != []
    ensures DoDeliver(s, ch).down == s.down[ch := Down(s.down, ch)[1..]]
  { }

  lemma {:induction false} LegalThen(t: Topo, s: State, a: seq<Step>, b: seq<Step>)
    requires Legal(t, s, a) && Legal(t, Final(t, s, a), b)
    ensures Legal(t, s, a + b) && Final(t, s, a + b) == Final(t, Final(t, s, a), b)
    decreases |a|
  {
    hide Enabled, Do;
    if a == [] {
      assert a + b == b;
    } else {
      LegalThen(t, Do(t, s, a[0]), a[1..], b);
      assert (a + b)[0] == a[0] && (a + b)[1..] == a[1..] + b;
    }
  }

  lemma {:induction false} DownRunBy(p: Proc, k: nat)
    ensures |DownRun(p, k)| == k && forall i | 0 <= i < |DownRun(p, k)| :: By(DownRun(p, k)[i], p) && DownRun(p, k)[i].TakeDown?
  {
    if k > 0 { DownRunBy(p, k - 1); }
  }

  /** What the contract of CheckParentRequest says of one call: `incoming` has been received, and the requests
      `taken` at the front of the queue are treated. */
  ghost predicate ParentCall(x: Local, has: bool, incoming: seq<Msg>, taken: seq<Msg>, y: Local, acts: seq<Act>)
    requires Fits(x.v)
  {
    && y.v == x.v && y.recv == x.recv && y.up == x.up
    && x.down + incoming == taken + y.down && DownMsgs(x.v, taken) && acts == OnDowns(x.v, has, taken)
    && y.log == x.log + Each(acts, Stacked())
  }

  /** The process has received `incoming` and treated `taken`: it holds y, and is linked to s'. */
  lemma DownLinked(sys: seq<Sched>, s: State, s1: State, s': State, p: Proc, x: Local, from: seq<Chan>, taken: seq<Msg>, y: Local,
                   acts: seq<Act>, w: View)
    requires Linked(sys, s, p, x) && Fits(x.v) && Waiting(s.down, from) && Delivered(s, s1, p, from)
    requires ParentCall(x, ChildOf(sys, p.comm, p.rank) != 0, Fronts(s.down, from), taken, y, acts)
    requires Passed(s1, s', p, ChildOf(sys, p.comm, p.rank), x.v, w, taken)
    ensures Linked(sys, s', p, y)
    ensures DownNet(s1, s', p, ChildOf(sys, p.comm, p.rank), Each(acts, Sent()), Each(acts, Descended(w)))
  {
    hide ViewOf, RecvIs, Requests, Each, OnDowns, Fits, ChildOf, StackOf, Pend, Fronts, Waiting, Without, NetDown;
    SameFront(x.down + Fronts(s.down, from), taken, y.down, Pend(s'.pend, p));
  }

  lemma SameFront<T>(q: seq<T>, a: seq<T>, b: seq<T>, c: seq<T>)
    requires q == a + b && q == a + c
    ensures b == c
  {
    assert b == q[|a|..] && c == q[|a|..];
  }

  /** The child scheduler's view, where it is used. */
  ghost predicate DownView(sys: seq<Sched>, p: Proc, w: View) {
    ChildOf(sys, p.comm, p.rank) != 0 ==> ViewOf(sys, w, ChildOf(sys, p.comm, p.rank), 0)
  }

  /** The network after a call of checkParentRequest. */
  ghost predicate ParentNet(s: State, s': State, p: Proc, c: nat, from: seq<Chan>, sends: seq<Act>, below: seq<Act>) {
    && Waiting(s.down, from) && s'.up == s.up
    && var d := NetDown(Without(s.down, from), p, sends);
      s'.down == if c == 0 then d else NetDown(d, Proc(c, 0), below)
  }

  /** A call of checkParentRequest at process p is a run of the protocol. */
  lemma ParentCallIsRun(sys: seq<Sched>, t: Topo, s: State, p: Proc, all: map<Proc, Local>, from: seq<Chan>, taken: seq<Msg>, y: Local,
                        acts: seq<Act>, w: View)
      returns (run: seq<Step>, s': State)
    requires Waiting(s.down, from) && forall i | 0 <= i < |from| :: from[i].comm == p.comm && from[i].dst == p.rank
    requires p in all && Fits(all[p].v) && DownView(sys, p, w)
    requires ParentCall(all[p], ChildOf(sys, p.comm, p.rank) != 0, Fronts(s.down, from), taken, y, acts)
    requires Tree(sys, t) && Inv(t, s) && AllLinked(sys, s, all)
    ensures RunOf(t, s, run, s', p) && |run| == |from| + |taken| && (forall i | 0 <= i < |run| :: !run[i].Register?)
    ensures AllLinked(sys, s', all[p := y])
    ensures ParentNet(s, s', p, ChildOf(sys, p.comm, p.rank), from, Each(acts, Sent()), Each(acts, Descended(w)))
  {
    hide Tree, Inv, Legal, Final, Fits, Passed, LogIs, By, DownNet, Each, ParentCall, DownView, ChildOf, Fronts, Waiting, Without, Delivered, NetDown;
    var x := all[p];
    assert Linked(sys, s, p, x);
    var s1 := DeliversAreRun(t, s, p, from);
    s' := TreatedAreRun(sys, t, s, s1, p, x, from, taken, y, acts, w);
    LegalThen(t, s, Delivers(from), DownRun(p, |taken|));
    run := Delivers(from) + DownRun(p, |taken|);
    RunBy(p, from, |taken|);
    DownLinked(sys, s, s1, s', p, x, from, taken, y, acts, w);
    MakeParentNet(s, s1, s', p, ChildOf(sys, p.comm, p.rank), from, Each(acts, Sent()), Each(acts, Descended(w)));
    hide Linked, DownRun, AllLinked;
    OthersLinked(sys, t, s, run, s', p, all, y);
  }

  lemma RunBy(p: Proc, from: seq<Chan>, k: nat)
    requires forall i | 0 <= i < |from| :: from[i].comm == p.comm && from[i].dst == p.rank
    ensures |Delivers(from) + DownRun(p, k)| == |from| + k
    ensures forall i | 0 <= i < |Delivers(from) + DownRun(p, k)| ::
      !(Delivers(from) + DownRun(p, k))[i].Register? && By((Delivers(from) + DownRun(p, k))[i], p)
  {
    DownRunBy(p, k);
  }

  lemma MakeParentNet(s: State, s1: State, s': State, p: Proc, c: nat, from: seq<Chan>, sends: seq<Act>, below: seq<Act>)
    requires Waiting(s.down, from) && Delivered(s, s1, p, from) && DownNet(s1, s', p, c, sends, below)
    ensures ParentNet(s, s', p, c, from, sends, below)
  {
    hide NetDown, Waiting, Without, Fronts;
  }

  lemma TreatedAreRun(sys: seq<Sched>, t: Topo, s: State, s1: State, p: Proc, x: Local, from: seq<Chan>, taken: seq<Msg>, y: Local,
                      acts: seq<Act>, w: View) returns (s': State)
    requires Tree(sys, t) && Inv(t, s1) && Linked(sys, s, p, x) && Fits(x.v) && DownView(sys, p, w)
    requires Waiting(s.down, from) && Delivered(s, s1, p, from)
    requires ParentCall(x, ChildOf(sys, p.comm, p.rank) != 0, Fronts(s.down, from), taken, y, acts)
    ensures Legal(t, s1, DownRun(p, |taken|)) && s' == Final(t, s1, DownRun(p, |taken|)) && Inv(t, s')
    ensures Passed(s1, s', p, ChildOf(sys, p.comm, p.rank), x.v, w, taken)
  {
    hide Tree, Inv, Legal, Final, Fits, Passed, RecvIs, LogIs, ViewOf, ChildOf, Requests, OnDowns, Each, Waiting, Fronts, Without;
    assert taken <= taken + y.down;
    s' := DownsAreRun(sys, t, s1, p, taken, x.v, w);
  }

  // ---------------------------------------------------------------- registrations

  lemma LeafNode(sys: seq<Sched>, t: Topo, s: State, p: Proc, v: View)
    requires Tree(sys, t) && Inv(t, s) && ViewOf(sys, v, p.comm, p.rank) && ChildOf(sys, p.comm, p.rank) == 0
    ensures Fits(v) && v.level >= 1 && NodeFacts(sys, t, LeafOf(p, v)) && LeafOf(p, v) in t.kids && t.kids[LeafOf(p, v)] == [] && LeafOf(p, v) in t.par
    ensures t.top in t.tier && t.tier[t.top] == sys[0].schedLevel
  {
    LeafIn(sys, t, s, p, v);
    var n := LeafOf(p, v);
    BuildFacts(sys, n);
    TopIn(sys);
    hide SysOk, ViewOk, InvUp, InvDown, InvSent, WellFormed, KidFacts;
  }

  lemma RegisterEnabled(sys: seq<Sched>, t: Topo, s: State, p: Proc, v: View, e: Event)
    requires Tree(sys, t) && Inv(t, s) && ViewOf(sys, v, p.comm, p.rank) && ChildOf(sys, p.comm, p.rank) == 0
    requires sys[0].schedLevel <= e.schedLevel <= sys[p.comm].schedLevel && (LeafOf(p, v), e) !in s.told
    ensures Fits(v) && NodeFacts(sys, t, LeafOf(p, v)) && Enabled(t, s, Register(LeafOf(p, v), e))
  {
    hide Tree, Inv, SysOk, ViewOf, ChildOf, NodeFacts;
    LeafNode(sys, t, s, p, v);
    FactsLevel(sys, t, LeafOf(p, v));
  }

  ghost predicate Registered(s: State, s': State, p: Proc, v: View, e: Event)
    requires Fits(v)
  {
    && s'.up == NetUp(s.up, p.comm, RegisterActs(v, e, v.level)) && s'.down == s.down
    && s'.recv == s.recv && s'.pend == s.pend && s'.done == s.done && s.up <= s'.up
    && s'.told == s.told + {(LeafOf(p, v), e)}
  }

  lemma RegisterIsDo(sys: seq<Sched>, t: Topo, s: State, p: Proc, v: View, e: Event)
    requires Fits(v) && NodeFacts(sys, t, LeafOf(p, v)) && ViewOf(sys, v, p.comm, p.rank)
    requires Enabled(t, s, Register(LeafOf(p, v), e))
    ensures Registered(s, Do(t, s, Register(LeafOf(p, v), e)), p, v, e)
  {
    RegisterIsCode(sys, t, s.up, LeafOf(p, v), e, v);
    hide NodeFacts, ViewOf, RegisterActs, NetUp;
  }

  lemma RegisteredLinked(sys: seq<Sched>, s: State, s': State, p: Proc, v: View, e: Event, q: Proc, x: Local)
    requires Fits(v) && Registered(s, s', p, v, e) && Linked(sys, s, q, x)
    ensures Linked(sys, s', q, x)
  {
    hide ViewOf, RecvIs, Requests, ChildOf, StackOf, Pend, NetUp;
  }

  /** registerEvent at process p, for an event that it has not registered before, is a run of the protocol. */
  lemma RegisterIsRun(sys: seq<Sched>, t: Topo, s: State, p: Proc, all: map<Proc, Local>, e: Event) returns (run: seq<Step>, s': State)
    requires p in all && p.comm < |sys| && sys != [] && sys[0].schedLevel <= e.schedLevel <= sys[p.comm].schedLevel
    requires ChildOf(sys, p.comm, p.rank) == 0 && (LeafOf(p, all[p].v), e) !in s.told
    requires Tree(sys, t) && Inv(t, s) && AllLinked(sys, s, all)
    ensures run == [Register(LeafOf(p, all[p].v), e)] && RunOf(t, s, run, s', p)
    ensures AllLinked(sys, s', all) && Fits(all[p].v) && Registered(s, s', p, all[p].v, e)
  {
    hide Tree, Inv, ChildOf, NodeFacts, Enabled, Do, Registered;
    var v, n := all[p].v, LeafOf(p, all[p].v);
    assert Linked(sys, s, p, all[p]);
    hide Linked;
    LinkedFits(sys, s, p, all[p]);
    RegisterEnabled(sys, t, s, p, v, e);
    s' := Do(t, s, Register(n, e));
    StepInv(t, s, Register(n, e));
    RegisterIsDo(sys, t, s, p, v, e);
    run := [Register(n, e)];
    OneStep(t, s, Register(n, e), s');
    hide Legal, Final;
    forall q | q in all ensures Linked(sys, s', q, all[q]) { RegisteredLinked(sys, s, s', p, v, e, q, all[q]); }
  }

  lemma OneStep(t: Topo, s: State, step: Step, s': State)
    requires Enabled(t, s, step) && s' == Do(t, s, step)
    ensures Legal(t, s, [step]) && Final(t, s, [step]) == s'
  {
    hide Enabled, Do;
    assert [step][1..] == [];
    LegalNone(t, s');
  }

  // ---------------------------------------------------------------- the start

  /** Processes as the constructor leaves them are linked to the initial state. */
  lemma StartLinked(sys: seq<Sched>, t: Topo, all: map<Proc, Local>)
    requires Tree(sys, t)
    requires forall p :: p in all <==> p.comm < |sys| && p.rank < sys[p.comm].size
    requires forall p | p in all :: all[p] == Local(all[p].v, map[], [], [], []) && ViewOf(sys, all[p].v, p.comm, p.rank)
    ensures Inv(t, Init(t)) && AllLinked(sys, Init(t), all)
  {
    hide Tree, Inv, Linked, ViewOf, Init, WellFormed;
    TreeOk(sys, t);
    InitInv(t);
    forall p | p in all ensures Linked(sys, Init(t), p, all[p]) { StartOne(sys, t, p, all[p].v); }
  }

  lemma StartOne(sys: seq<Sched>, t: Topo, p: Proc, v: View)
    requires Tree(sys, t) && Inv(t, Init(t)) && ViewOf(sys, v, p.comm, p.rank)
    ensures Linked(sys, Init(t), p, Local(v, map[], [], [], []))
  {
    hide Tree, Inv, ViewOf, ChildOf;
    if ChildOf(sys, p.comm, p.rank) == 0 { LeafIn(sys, t, Init(t), p, v); }
  }

  lemma TreeOk(sys: seq<Sched>, t: Topo)
    requires Tree(sys, t)
    ensures WellFormed(t)
  {
    BuildOk(sys);
  }

  // ---------------------------------------------------------------- the objects

  /** The schedulers sys, their tree, and the object that each of their processes has.  A process of a child
      scheduler that is not its root has a parent scheduler of its own, which is part of no tree: one of `others`. */
  datatype Pool = Pool(sys: seq<Sched>, t: Topo, nodes: map<Proc, Scheduler>, others: set<Scheduler>)

  ghost function Holds(n: Scheduler): Local
    reads n`level, n`parent, n`child, n`nbChild, n`recvEvent, n`pendingRecvChild, n`pendingRecvParent, n`eventStack, n`popped
  {
    Local(n.TheView(), n.recvEvent, n.pendingRecvChild, n.pendingRecvParent, n.popped + n.eventStack)
  }

  ghost function Locals(nodes: map<Proc, Scheduler>): (all: map<Proc, Local>)
    reads nodes.Values
    ensures all.Keys == nodes.Keys && forall p | p in nodes :: all[p] == Holds(nodes[p])
  {
    map p | p in nodes :: Holds(nodes[p])
  }

  /** parentScheduler_ and childScheduler_ of process p are what splitScheduler has set. */
  ghost predicate Wired(g: Pool, p: Proc, n: Scheduler)
    reads n`childScheduler, n`parentScheduler
  {
    var c := ChildOf(g.sys, p.comm, p.rank);
    && p.comm < |g.sys|
    && (if c == 0 then n.childScheduler == null else Proc(c, 0) in g.nodes && n.childScheduler == g.nodes[Proc(c, 0)])
    && (if p.comm == 0 then n.parentScheduler == null
        else if p.rank == 0 then var up := Proc(g.sys[p.comm].upComm, g.sys[p.comm].upRank); up in g.nodes && n.parentScheduler == g.nodes[up]
        else n.parentScheduler in g.others)
  }

  ghost predicate OthersFit(others: set<Scheduler>)
    reads others`level, others`parent, others`child, others`nbChild
  {
    forall n | n in others :: Fits(n.TheView())
  }

  ghost predicate Separate(g: Pool) {
    (forall p, q | p in g.nodes && q in g.nodes && p != q :: g.nodes[p] != g.nodes[q]) && g.nodes.Values !! g.others
  }

  /** The object of process p stands for its part of s. */
  ghost predicate Stands(g: Pool, s: State, p: Proc)
    requires p in g.nodes
    reads g.nodes[p]
  {
    Linked(g.sys, s, p, Holds(g.nodes[p]))
  }

  /** The objects stand for the state s. */
  ghost predicate World(g: Pool, s: State)
    reads g.nodes.Values, g.others
  {
    && Tree(g.sys, g.t) && Inv(g.t, s) && Separate(g) && OthersFit(g.others)
    && (forall p :: p in g.nodes <==> p.comm < |g.sys| && p.rank < g.sys[p.comm].size)
    && (forall p | p in g.nodes :: Wired(g, p, g.nodes[p])) && (forall p | p in g.nodes :: Stands(g, s, p))
  }

  /** Requests that have been sent are for levels where the process has children, and need a parent scheduler only where there is one. */
  lemma RequestFits(sys: seq<Sched>, t: Topo, s: State, p: Proc, v: View, ms: seq<Msg>, m: Msg)
    requires Tree(sys, t) && Inv(t, s) && ViewOf(sys, v, p.comm, p.rank) && Requests(p, ms) <= s.up && m in ms
    ensures m.lev < v.level && (m.ev.schedLevel != v.schedLevel ==> p.comm >= 1)
  {
    hide Tree, Inv, Requests, Counting, Enabled;
    var n := Target(p, m);
    RequestsAt(p, ms, n, m.ev);
    assert m == Msg(m.ev, n.lev) && m in multiset(ms);
    NodeOf(sys, t, s, n, m.ev);
    InnerAt(sys, t, v, n, m.ev);
    LevelOf(sys, v, p, m.ev);
  }

  lemma InnerAt(sys: seq<Sched>, t: Topo, v: View, n: Node, e: Event)
    requires Counting(sys, t, n, e) && ViewOf(sys, v, n.comm, n.rank)
    ensures n.lev < v.level
  {
    InnerHere(sys, n);
    ViewAt(sys, v, n);
    hide SysOk;
  }

  lemma RequestsFit(sys: seq<Sched>, t: Topo, s: State, p: Proc, v: View, ms: seq<Msg>, has: bool)
    requires Tree(sys, t) && Inv(t, s) && ViewOf(sys, v, p.comm, p.rank) && Requests(p, ms) <= s.up && (p.comm >= 1 ==> has)
    ensures UpMsgs(v, ms) && MayEscalate(v, has, ms)
  {
    hide Tree, Inv, ViewOf, Requests;
    forall m | m in ms ensures m.lev < v.level && (m.ev.schedLevel != v.schedLevel ==> has) { RequestFits(sys, t, s, p, v, ms, m); }
  }

  lemma WorldAt(g: Pool, s: State, p: Proc)
    requires World(g, s) && p in g.nodes
    ensures Wired(g, p, g.nodes[p]) && Linked(g.sys, s, p, Holds(g.nodes[p])) && Separate(g) && OthersFit(g.others) && Tree(g.sys, g.t) && Inv(g.t, s)
    ensures ViewOf(g.sys, g.nodes[p].TheView(), p.comm, p.rank) && Fits(g.nodes[p].TheView())
  {
    hide Tree, Inv, Linked, Wired, Separate, OthersFit;
    assert Wired(g, p, g.nodes[p]) && Stands(g, s, p);
    LinkedFits(g.sys, s, p, Holds(g.nodes[p]));
  }

  lemma WorldLinked(g: Pool, s: State)
    requires World(g, s)
    ensures AllLinked(g.sys, s, Locals(g.nodes))
  {
    hide Tree, Inv, Linked, Wired, Separate, Holds;
    var all := Locals(g.nodes);
    forall p | p in all ensures Linked(g.sys, s, p, all[p]) { assert Stands(g, s, p); }
  }

  lemma ChildReady(g: Pool, s: State, p: Proc)
    requires World(g, s) && p in g.nodes
    ensures var n := g.nodes[p];
      && (n.childScheduler != null <==> ChildOf(g.sys, p.comm, p.rank) != 0)
      && (n.childScheduler != null ==>
            n.childScheduler != n && Fits(n.childScheduler.TheView()) && DownView(g.sys, p, n.childScheduler.TheView()))
  {
    hide World, Tree, Inv, Linked, ChildOf, ViewOf, Fits;
    WorldAt(g, s, p);
    ChildOther(g.sys, g.t, p);
    var c := ChildOf(g.sys, p.comm, p.rank);
    if c != 0 { WorldAt(g, s, Proc(c, 0)); }
  }

  lemma ParentReady(g: Pool, s: State, p: Proc)
    requires World(g, s) && p in g.nodes
    ensures var n := g.nodes[p];
      && (n.parentScheduler != null <==> p.comm >= 1)
      && (n.parentScheduler != null ==>
            n.parentScheduler != n && Fits(n.parentScheduler.TheView()) && UpView(g.sys, p, n.parentScheduler.TheView()))
  {
    hide World, Tree, Inv, Linked, ChildOf, ViewOf, Fits;
    WorldAt(g, s, p);
    if p.comm >= 1 && p.rank == 0 {
      UpOther(g.sys, g.t, p);
      WorldAt(g, s, Proc(g.sys[p.comm].upComm, g.sys[p.comm].upRank));
    }
  }

  /** Every object of the world is ready for its methods. */
  lemma WorldReady(g: Pool, s: State, p: Proc)
    requires World(g, s) && p in g.nodes
    ensures g.nodes[p].Ready()
  {
    hide World, UpView, DownView, Fits, ChildOf, ViewOf, Tree, Inv, Linked, Wired, Separate;
    WorldAt(g, s, p);
    ChildReady(g, s, p);
    ParentReady(g, s, p);
  }

  lemma MakeWorld(g: Pool, s: State, all: map<Proc, Local>)
    requires Tree(g.sys, g.t) && Inv(g.t, s) && Separate(g) && OthersFit(g.others) && AllLinked(g.sys, s, all) && all.Keys == g.nodes.Keys
    requires forall q | q in g.nodes :: Wired(g, q, g.nodes[q])
    requires forall q | q in g.nodes :: all[q] == Holds(g.nodes[q])
    ensures World(g, s)
  {
    hide Inv, Tree, Wired, Holds, Separate, Linked;
    forall q | q in g.nodes ensures Stands(g, s, q) { assert Linked(g.sys, s, q, all[q]); }
  }

  lemma WorldParts(g: Pool, s: State)
    requires World(g, s)
    ensures Tree(g.sys, g.t) && Inv(g.t, s) && Separate(g) && OthersFit(g.others) && forall q | q in g.nodes :: Wired(g, q, g.nodes[q])
  {
    hide Inv, Tree, Wired, Separate, Stands;
  }

  lemma UpOther(sys: seq<Sched>, t: Topo, p: Proc)
    requires Tree(sys, t) && 1 <= p.comm < |sys|
    ensures sys[p.comm].upComm < p.comm
  {
    assert SchedulerSystem.UpOk(sys, p.comm);
  }

  /** The view of the parent scheduler, if there is one. */
  ghost function Above(node: Scheduler): View
    reads node, node.parentScheduler
  {
    if node.parentScheduler != null then node.parentScheduler.TheView() else View(0, [], [], [], 0)
  }

  /** Without a parent scheduler nothing is registered further up. */
  lemma {:induction false} NothingAbove(acts: seq<Act>, w: View)
    requires !Fits(w)
    ensures Each(acts, Escalated(w)) == []
  {
    if acts != [] { NothingAbove(acts[..|acts| - 1], w); }
  }

  lemma AboveNull(node: Scheduler)
    ensures node.parentScheduler == null ==> forall acts :: Each(acts, Escalated(Above(node))) == []
  {
    hide Each, Escalated;
    if node.parentScheduler == null {
      forall acts ensures Each(acts, Escalated(Above(node))) == [] { NothingAbove(acts, Above(node)); }
    }
  }

  lemma AboveOk(g: Pool, s: State, p: Proc)
    requires World(g, s) && p in g.nodes
    ensures UpView(g.sys, p, Above(g.nodes[p]))
  {
    hide World, Fits, ViewOf;
    ParentReady(g, s, p);
  }

  lemma MayCheckChild(g: Pool, s: State, p: Proc, incoming: seq<Msg>)
    requires World(g, s) && p in g.nodes && Requests(p, g.nodes[p].pendingRecvChild + incoming) <= s.up
    ensures var n := g.nodes[p]; var ms := n.pendingRecvChild + incoming;
      n.Ready() && UpMsgs(n.TheView(), ms) && MayEscalate(n.TheView(), n.parentScheduler != null, ms)
  {
    hide World, Inv, Tree, Requests, ViewOf, Fits, Linked, UpView, UpMsgs, MayEscalate;
    var n := g.nodes[p];
    WorldAt(g, s, p);
    ParentReady(g, s, p);
    WorldReady(g, s, p);
    RequestsFit(g.sys, g.t, s, p, n.TheView(), n.pendingRecvChild + incoming, n.parentScheduler != null);
  }

  lemma HoldsQueues(node: Scheduler)
    ensures Holds(node).up == node.pendingRecvChild && Holds(node).down == node.pendingRecvParent
  { }

  /** The call, in terms of what the process holds. */
  method CallCheckChild(ghost g: Pool, ghost s: State, ghost p: Proc, node: Scheduler, incoming: seq<Msg>, ready: seq<bool>)
      returns (ghost taken: seq<Msg>, ghost acts: seq<Act>)
    requires World(g, s) && p in g.nodes && node == g.nodes[p]
    requires Requests(p, node.pendingRecvChild + incoming) <= s.up && |ready| == |node.pendingRecvChild + incoming|
    modifies node`outbox, node`recvEvent, node`pendingRecvChild, node.Parents()`outbox
    ensures Fits(old(Holds(node)).v) && ChildCall(old(Holds(node)), incoming, taken, Holds(node), acts)
    ensures taken == Those(old(node.pendingRecvChild) + incoming, ready, true)
    ensures node.pendingRecvChild == Those(old(node.pendingRecvChild) + incoming, ready, false)
    ensures node.outbox == old(node.outbox) + Each(acts, Sent())
    ensures node.parentScheduler != null ==>
      node.parentScheduler.outbox == old(node.parentScheduler.outbox) + Each(acts, Escalated(old(Above(node))))
  {
    hide World, Requests, Fits, Each, Outcome, Splits, UpMsgs, MayEscalate, OnUps, Those;
    MayCheckChild(g, s, p, incoming);
    taken, acts := node.CheckChildRequest(incoming, ready);
  }

  /** checkChildRequest, called at any process of the pool, with any outcomes of the tests of its receptions. */
  method CheckChildRequest(ghost g: Pool, ghost s: State, ghost p: Proc, node: Scheduler, incoming: seq<Msg>, ready: seq<bool>)
      returns (ghost run: seq<Step>, ghost s': State, ghost taken: seq<Msg>, ghost sends: seq<Act>, ghost above: seq<Act>)
    requires World(g, s) && p in g.nodes && node == g.nodes[p]
    requires Requests(p, node.pendingRecvChild + incoming) <= s.up && |ready| == |node.pendingRecvChild + incoming|
    modifies node`outbox, node`recvEvent, node`pendingRecvChild, node.Parents()`outbox
    ensures RunOf(g.t, s, run, s', p) && World(g, s')
    ensures |run| == |taken| && forall i | 0 <= i < |run| :: !run[i].Register?
    ensures taken == Those(old(node.pendingRecvChild) + incoming, ready, true)
    ensures node.pendingRecvChild == Those(old(node.pendingRecvChild) + incoming, ready, false)
    ensures UpNet(g.sys, s, s', p, Requests(p, taken), sends, above)
    ensures node.outbox == old(node.outbox) + sends
    ensures if node.parentScheduler == null then above == [] else node.parentScheduler.outbox == old(node.parentScheduler.outbox) + above
  {
    hide World, Those, Linked, Inv, Tree, Requests, ViewOf, Fits, Each, UpNet, AllLinked, Outcome, Splits, RunOf, UpView, Above, Wired, Holds, OthersFit, ChildCall;
    WorldParts(g, s);
    WorldLinked(g, s);
    AboveOk(g, s, p);
    AboveNull(node);
    HoldsQueues(node);
    ghost var w, all := Above(node), Locals(g.nodes);
    ghost var acts;
    taken, acts := CallCheckChild(g, s, p, node, incoming, ready);
    run, s' := ChildCallIsRun(g.sys, g.t, s, p, all, incoming, taken, Holds(node), acts, w);
    sends, above := Each(acts, Sent()), Each(acts, Escalated(w));
    RunInvOf(g.t, s, run, s', p);
    MakeWorld(g, s', all[p := Holds(node)]);
  }

  /** The view of the child scheduler, if there is one. */
  ghost function Below(node: Scheduler): View
    reads node, node.childScheduler
  {
    if node.childScheduler != null then node.childScheduler.TheView() else node.TheView()
  }

  lemma BelowOk(g: Pool, s: State, p: Proc)
    requires World(g, s) && p in g.nodes
    ensures DownView(g.sys, p, Below(g.nodes[p]))
    ensures g.nodes[p].childScheduler != null <==> ChildOf(g.sys, p.comm, p.rank) != 0
  {
    hide World, Fits, ViewOf, ChildOf;
    ChildReady(g, s, p);
  }

  /** Broadcasts that have been sent are for levels that the process has. */
  lemma BroadcastsFit(sys: seq<Sched>, t: Topo, s: State, p: Proc, v: View)
    requires Tree(sys, t) && Inv(t, s) && ViewOf(sys, v, p.comm, p.rank)
    ensures DownMsgs(v, Pend(s.pend, p))
  {
    hide Tree, ViewOf, InvUp, InvSent, WellFormed, Raw;
    forall m | m in Pend(s.pend, p) ensures m.lev <= v.level {
      assert Target(p, m) in t.at;
      AddressFits(sys, t, p, m, v);
    }
  }

  lemma AddressFits(sys: seq<Sched>, t: Topo, p: Proc, m: Msg, v: View)
    requires Tree(sys, t) && Target(p, m) in t.at && ViewOf(sys, v, p.comm, p.rank)
    ensures m.lev <= v.level
  {
    ViewAt(sys, v, Target(p, m));
    hide SysOk, ViewOk;
  }

  lemma MayCheckParent(g: Pool, s: State, p: Proc, from: seq<Chan>, incoming: seq<Msg>)
    requires World(g, s) && p in g.nodes && Arrives(s.down, p, from, incoming)
    ensures var n := g.nodes[p]; n.Ready() && DownMsgs(n.TheView(), n.pendingRecvParent + incoming)
  {
    hide World, Inv, Tree, Requests, ViewOf, Fits, DownMsgs, Waiting, Fronts, RecvIs, LogIs, ChildOf;
    var n := g.nodes[p];
    WorldAt(g, s, p);
    WorldReady(g, s, p);
    var s1 := DeliversAreRun(g.t, s, p, from);
    BroadcastsFit(g.sys, g.t, s1, p, n.TheView());
    HoldsQueues(n);
  }

  method CallCheckParent(ghost g: Pool, ghost s: State, ghost p: Proc, node: Scheduler, ghost from: seq<Chan>, incoming: seq<Msg>,
                         ready: seq<bool>)
      returns (ghost taken: seq<Msg>, ghost acts: seq<Act>)
    requires World(g, s) && p in g.nodes && node == g.nodes[p]
    requires Arrives(s.down, p, from, incoming) && |ready| == |node.pendingRecvParent + incoming|
    modifies node`outbox, node`eventStack, node`pendingRecvParent, node.Children()`outbox
    ensures Fits(old(Holds(node)).v)
    ensures ParentCall(old(Holds(node)), node.childScheduler != null, incoming, taken, Holds(node), acts)
    ensures old(node.pendingRecvParent) + incoming == taken + node.pendingRecvParent
    ensures |taken| <= |ready| && (forall i | 0 <= i < |taken| :: ready[i]) && (|taken| < |ready| ==> !ready[|taken|])
    ensures node.outbox == old(node.outbox) + Each(acts, Sent())
    ensures node.childScheduler != null ==>
      node.childScheduler.outbox == old(node.childScheduler.outbox) + Each(acts, Descended(old(Below(node))))
  {
    hide World, Fits, Each, DownMsgs, OnDowns, Arrives;
    MayCheckParent(g, s, p, from, incoming);
    taken, acts := node.CheckParentRequest(incoming, ready);
    assert node.popped + (old(node.eventStack) + Each(acts, Stacked())) == (node.popped + old(node.eventStack)) + Each(acts, Stacked());
  }

  /** checkParentRequest, called at any process of the pool, with the next messages of the channels `from`. */
  method CheckParentRequest(ghost g: Pool, ghost s: State, ghost p: Proc, node: Scheduler, ghost from: seq<Chan>, incoming: seq<Msg>,
                            ready: seq<bool>)
      returns (ghost run: seq<Step>, ghost s': State, ghost taken: seq<Msg>, ghost sends: seq<Act>, ghost below: seq<Act>)
    requires World(g, s) && p in g.nodes && node == g.nodes[p]
    requires Arrives(s.down, p, from, incoming) && |ready| == |node.pendingRecvParent + incoming|
    modifies node`outbox, node`eventStack, node`pendingRecvParent, node.Children()`outbox
    ensures RunOf(g.t, s, run, s', p) && World(g, s')
    ensures |run| == |from| + |taken| && forall i | 0 <= i < |run| :: !run[i].Register?
    ensures old(node.pendingRecvParent) + incoming == taken + node.pendingRecvParent
    ensures |taken| <= |ready| && (forall i | 0 <= i < |taken| :: ready[i]) && (|taken| < |ready| ==> !ready[|taken|])
    ensures ParentNet(s, s', p, ChildOf(g.sys, p.comm, p.rank), from, sends, below)
    ensures node.outbox == old(node.outbox) + sends
    ensures node.childScheduler != null ==> node.childScheduler.outbox == old(node.childScheduler.outbox) + below
  {
    hide World, Linked, Inv, Tree, ViewOf, ChildOf, Fits, Each, ParentNet, AllLinked, RunOf, DownView, Below, Wired, Holds, OthersFit, ParentCall, Fronts, Waiting;
    WorldParts(g, s);
    WorldLinked(g, s);
    BelowOk(g, s, p);
    ghost var w, all := Below(node), Locals(g.nodes);
    ghost var acts;
    taken, acts := CallCheckParent(g, s, p, node, from, incoming, ready);
    run, s' := ParentCallIsRun(g.sys, g.t, s, p, all, from, taken, Holds(node), acts, w);
    sends, below := Each(acts, Sent()), Each(acts, Descended(w));
    RunInvOf(g.t, s, run, s', p);
    MakeWorld(g, s', all[p := Holds(node)]);
  }

  /** registerEvent, called at any process that is not the root of a child scheduler, for an event that it
      has not registered before. */
  method RegisterEvent(ghost g: Pool, ghost s: State, ghost p: Proc, node: Scheduler, e: Event)
      returns (ghost run: seq<Step>, ghost s': State, ghost sends: seq<Act>)
    requires World(g, s) && p in g.nodes && node == g.nodes[p] && node.childScheduler == null
    requires p.comm < |g.sys| && g.sys[0].schedLevel <= e.schedLevel <= g.sys[p.comm].schedLevel
    requires (Node(p.comm, p.rank, node.level), e) !in s.told
    modifies node`outbox
    ensures RunOf(g.t, s, run, s', p) && World(g, s')
    ensures run == [Register(Node(p.comm, p.rank, node.level), e)] && s'.told == s.told + {(Node(p.comm, p.rank, node.level), e)}
    ensures s'.up == NetUp(s.up, p.comm, sends) && s'.down == s.down && node.outbox == old(node.outbox) + sends
  {
    hide World, Linked, Inv, Tree, ViewOf, ChildOf, AllLinked, RunOf, Wired, OthersFit, NetUp;
    WorldParts(g, s);
    WorldAt(g, s, p);
    WorldLinked(g, s);
    BelowOk(g, s, p);
    ghost var all := Locals(g.nodes);
    sends := RegisterActs(node.TheView(), e, node.level);
    node.RegisterEvent(e);
    run, s' := RegisterIsRun(g.sys, g.t, s, p, all, e);
    RunInvOf(g.t, s, run, s', p);
    MakeWorld(g, s', all);
  }

  /** popEvent: the process goes on to its next event. */
  method PopEvent(ghost g: Pool, ghost s: State, ghost p: Proc, node: Scheduler)
    requires World(g, s) && p in g.nodes && node == g.nodes[p] && node.eventStack != []
    modifies node`eventStack, node`popped
    ensures World(g, s) && Holds(node) == old(Holds(node))
  {
    hide World, Linked, Inv, Tree, AllLinked, Wired, OthersFit;
    WorldParts(g, s);
    WorldLinked(g, s);
    ghost var all := Locals(g.nodes);
    node.PopEvent();
    MakeWorld(g, s, all);
  }

  /** As the constructor leaves the objects, they stand for the initial state. */
  lemma StartWorld(g: Pool)
    requires Tree(g.sys, g.t) && Separate(g) && OthersFit(g.others)
    requires forall p :: p in g.nodes <==> p.comm < |g.sys| && p.rank < g.sys[p.comm].size
    requires forall p | p in g.nodes :: Wired(g, p, g.nodes[p])
    requires forall p | p in g.nodes :: var n := g.nodes[p];
      && ViewOf(g.sys, n.TheView(), p.comm, p.rank)
      && Holds(n) == Local(n.TheView(), map[], [], [], [])
    ensures World(g, Init(g.t))
  {
    hide Tree, World, Separate, OthersFit, Wired, ViewOf, Holds, Inv, AllLinked, Init;
    StartLinked(g.sys, g.t, Locals(g.nodes));
    MakeWorld(g, Init(g.t), Locals(g.nodes));
  }

  // ---------------------------------------------------------------- what the processes see

  lemma {:induction false} StackPrefix(a: seq<Event>, b: seq<Event>)
    requires a <= b
    ensures StackOf(a) <= StackOf(b)
    decreases |b|
  {
    if a != b { StackPrefix(a, b[..|b| - 1]); }
  }

  /** What the leaf of a process has seen is all of its scheduler's level or above. */
  lemma LeafSees(sys: seq<Sched>, t: Topo, s: State, p: Proc, v: View)
    requires Tree(sys, t) && Inv(t, s) && ViewOf(sys, v, p.comm, p.rank) && ChildOf(sys, p.comm, p.rank) == 0
    ensures var top, leaf := Node(p.comm, 0, 0), LeafOf(p, v);
      && WellFormed(t) && top in t.kids && top in t.tier && leaf in t.kids && leaf in s.done
      && Under(t, top, leaf) && Sel(t.tier[top], s.done[leaf]) == s.done[leaf]
  {
    hide InvUp, InvDown, InvSent, ViewOf, Sel, Under, SysOk, NodeFacts;
    var top, leaf := Node(p.comm, 0, 0), LeafOf(p, v);
    LeafIn(sys, t, s, p, v);
    LeafUnder(sys, t, p, v);
    LeafLevels(t, s, leaf);
    SelAll(t.tier[top], s.done[leaf]);
  }

  lemma LeafLevels(t: Topo, s: State, leaf: Node)
    requires Inv(t, s) && leaf in t.kids
    ensures forall e | e in s.done[leaf] :: e.schedLevel <= t.tier[leaf]
  {
    hide InvUp, InvSent;
    assert DoneOk(t, s.done, leaf);
  }

  lemma LeafUnder(sys: seq<Sched>, t: Topo, p: Proc, v: View)
    requires Tree(sys, t) && ViewOf(sys, v, p.comm, p.rank) && ChildOf(sys, p.comm, p.rank) == 0
    ensures var top, leaf := Node(p.comm, 0, 0), LeafOf(p, v);
      WellFormed(t) && top in t.kids && leaf in t.kids && Under(t, top, leaf) && t.tier[top] == t.tier[leaf]
  {
    LeafRaw(sys, p.comm, p.rank);
    var leaf := Node(p.comm, p.rank, Lv(sys, p.comm, p.rank));
    ViewAt(sys, v, leaf);
    SchedulerPool.UnderRoot(sys, leaf);
    hide SysOk, ViewOk, Under, WellFormed, ChildOf, ParMap, KidsMap, AddrMap, AtMap, DepthMap;
  }

  /** The end of it all: of what two processes of one scheduler have ever found on their eventStack_, one is a
      prefix of the other, after any calls of any processes in any order. */
  lemma StacksAgree(g: Pool, s: State, p: Proc, q: Proc)
    requires World(g, s) && p in g.nodes && q in g.nodes && p.comm == q.comm
    requires g.nodes[p].childScheduler == null && g.nodes[q].childScheduler == null
    ensures var x, y := g.nodes[p], g.nodes[q];
      x.popped + x.eventStack <= y.popped + y.eventStack || y.popped + y.eventStack <= x.popped + x.eventStack
  {
    hide World, Tree, Inv, Wired, Separate, OthersFit, ViewOf, ChildOf, Sel, Under, StackOf, WellFormed, RecvIs, Requests;
    BelowOk(g, s, p);
    BelowOk(g, s, q);
    WorldAt(g, s, p);
    WorldAt(g, s, q);
    LeafSees(g.sys, g.t, s, p, g.nodes[p].TheView());
    LeafSees(g.sys, g.t, s, q, g.nodes[q].TheView());
    var m, n := LeafOf(p, g.nodes[p].TheView()), LeafOf(q, g.nodes[q].TheView());
    Agreement(g.t, s, Node(p.comm, 0, 0), m, n);
    if s.done[m] <= s.done[n] { StackPrefix(s.done[m], s.done[n]); } else { StackPrefix(s.done[n], s.done[m]); }
  }
}
