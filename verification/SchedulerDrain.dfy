/** Polling, with a network: every process calls checkEvent_ again and again, and receives what has been sent to
    it.  With all receptions complete this ends, nothing is left under way, and every event that all processes of
    its scheduler have registered stands on every eventStack_. */
module SchedulerDrain {
  import opened SchedulerProtocol
  import opened SchedulerProof
  import opened SchedulerTheorems
  import opened SchedulerNode
  import opened SchedulerSystem
  import opened SchedulerCode
  import opened SchedulerRefines
  import opened SchedulerWorld

  // ---------------------------------------------------------------- runs without registrations

  /** A legal run from s to s' in which nothing is registered. */
  ghost predicate Ran(t: Topo, s: State, run: seq<Step>, s': State) {
    && Inv(t, s) && Legal(t, s, run) && s' == Final(t, s, run)
    && forall i | 0 <= i < |run| :: !run[i].Register?
  }

  lemma RanOf(t: Topo, s: State, run: seq<Step>, s': State, p: Proc)
    requires Inv(t, s) && RunOf(t, s, run, s', p) && forall i | 0 <= i < |run| :: !run[i].Register?
    ensures Ran(t, s, run, s') && (run == [] ==> s' == s)
  {
    hide Inv, Enabled, Do;
  }

  lemma RanNone(t: Topo, s: State)
    requires Inv(t, s)
    ensures Ran(t, s, [], s)
  {
    hide Inv;
  }

  lemma RanThen(t: Topo, s: State, a: seq<Step>, s1: State, b: seq<Step>, s2: State)
    requires Ran(t, s, a, s1) && Ran(t, s1, b, s2)
    ensures Ran(t, s, a + b, s2)
  {
    hide Inv, Legal, Final;
    LegalThen(t, s, a, b);
  }

  lemma SmallerTwice(t: Topo, s: State, s1: State, s2: State)
    requires Smaller(t, s1, s) && Smaller(t, s2, s1)
    ensures Smaller(t, s2, s)
  {
    hide Unreported, Unseen, OnWire;
  }

  /** Such a run uses up some of the work that is left. */
  lemma {:induction false} RanSmaller(t: Topo, s: State, run: seq<Step>, s': State)
    requires Ran(t, s, run, s') && run != []
    ensures Smaller(t, s', s)
    decreases |run|
  {
    hide Inv, Enabled, Do, Smaller;
    var s1 := Do(t, s, run[0]);
    StepInv(t, s, run[0]);
    StepSmaller(t, s, run[0]);
    if |run| > 1 {
      RanSmaller(t, s1, run[1..], s');
      SmallerTwice(t, s, s1, s');
    }
  }

  /** What has been registered stays registered. */
  lemma {:induction false} RanTold(t: Topo, s: State, run: seq<Step>, s': State)
    requires Ran(t, s, run, s')
    ensures s.told <= s'.told
    decreases |run|
  {
    hide Inv, Enabled, Do;
    if run != [] {
      var s1 := Do(t, s, run[0]);
      StepInv(t, s, run[0]);
      ToldGrows(t, s, run[0]);
      RanTold(t, s1, run[1..], s');
    }
  }

  lemma ToldGrows(t: Topo, s: State, step: Step)
    requires Enabled(t, s, step)
    ensures s.told <= Do(t, s, step).told
  {
    hide PushAll, Edges;
  }

  // ---------------------------------------------------------------- what arrives at a process

  /** The requests from children that are under way to process p, in an order that they may arrive in; those of
      `pending` have arrived already. */
  method Fetch(p: Proc, up: multiset<(Node, Event)>, pending: seq<Msg>) returns (incoming: seq<Msg>)
    requires Requests(p, pending) <= up
    ensures Requests(p, pending + incoming) <= up
    ensures forall n, e | At(n, p) :: up[(n, e)] == Requests(p, pending + incoming)[(n, e)]
  {
    hide Requests;
    var rest := up - Requests(p, pending);
    ghost var wire := rest;
    incoming := [];
    FetchNone(p, wire);
    while rest != multiset{}
      invariant Fetched(p, wire, rest, incoming)
      decreases rest
    {
      var x :| x in rest;
      var more := if At(x.0, p) then [Msg(x.1, x.0.lev)] else [];
      FetchOne(p, wire, rest, incoming, x);
      rest, incoming := rest - multiset{x}, incoming + more;
    }
    FetchAll(p, up, pending, incoming);
  }

  /** Of `wire`, the part `rest` has not been looked at. */
  ghost predicate Fetched(p: Proc, wire: multiset<(Node, Event)>, rest: multiset<(Node, Event)>, incoming: seq<Msg>) {
    rest <= wire && forall x: (Node, Event) :: Requests(p, incoming)[x] == if At(x.0, p) then wire[x] - rest[x] else 0
  }

  lemma FetchNone(p: Proc, wire: multiset<(Node, Event)>)
    ensures Fetched(p, wire, wire, [])
  { }

  lemma FetchOne(p: Proc, wire: multiset<(Node, Event)>, rest: multiset<(Node, Event)>, incoming: seq<Msg>, x: (Node, Event))
    requires Fetched(p, wire, rest, incoming) && x in rest
    ensures Fetched(p, wire, rest - multiset{x}, incoming + if At(x.0, p) then [Msg(x.1, x.0.lev)] else [])
  {
    hide Requests;
    var more := if At(x.0, p) then [Msg(x.1, x.0.lev)] else [];
    RequestsMore(p, incoming, more);
    forall y: (Node, Event)
      ensures Requests(p, incoming + more)[y] == if At(y.0, p) then wire[y] - (rest - multiset{x})[y] else 0
    {
      RequestsAt(p, more, y.0, y.1);
      assert y == (y.0, y.1) && Requests(p, incoming)[y] == if At(y.0, p) then wire[y] - rest[y] else 0;
      assert At(y.0, p) && At(x.0, p) && Msg(y.1, y.0.lev) == Msg(x.1, x.0.lev) ==> y == x;
    }
  }

  lemma RequestsMore(p: Proc, a: seq<Msg>, b: seq<Msg>)
    ensures Requests(p, a + b) == Requests(p, a) + Requests(p, b)
  {
    RequestsSplit(p, a + b, a, b);
  }

  lemma FetchAll(p: Proc, up: multiset<(Node, Event)>, pending: seq<Msg>, incoming: seq<Msg>)
    requires Requests(p, pending) <= up && Fetched(p, up - Requests(p, pending), multiset{}, incoming)
    ensures Requests(p, pending + incoming) <= up
    ensures forall n, e | At(n, p) :: up[(n, e)] == Requests(p, pending + incoming)[(n, e)]
  {
    hide Requests;
    RequestsMore(p, pending, incoming);
  }

  predicate To(ch: Chan, p: Proc) {
    ch.comm == p.comm && ch.dst == p.rank
  }

  /** One message more. */
  lemma {:induction false} WaitingMore(down: map<Chan, seq<Msg>>, from: seq<Chan>, ch: Chan)
    requires Waiting(down, from) && Down(Without(down, from), ch) != []
    ensures var d := Without(down, from);
      && Waiting(down, from + [ch]) && Fronts(down, from + [ch]) == Fronts(down, from) + [Down(d, ch)[0]]
      && Without(down, from + [ch]) == d[ch := Down(d, ch)[1..]]
    decreases |from|
  {
    if from == [] {
      assert from + [ch] == [ch] && [ch][1..] == [];
    } else {
      var rest := down[from[0] := Down(down, from[0])[1..]];
      WaitingMore(rest, from[1..], ch);
      assert (from + [ch])[0] == from[0] && (from + [ch])[1..] == from[1..] + [ch];
    }
  }

  /** Where FetchDown stands. */
  ghost predicate Taken(down: map<Chan, seq<Msg>>, p: Proc, from: seq<Chan>, incoming: seq<Msg>, left: map<Chan, seq<Msg>>) {
    Arrives(down, p, from, incoming) && |incoming| == |from| && left == Without(down, from) && left.Keys == down.Keys
  }

  lemma TakenMore(down: map<Chan, seq<Msg>>, p: Proc, from: seq<Chan>, incoming: seq<Msg>, left: map<Chan, seq<Msg>>, ch: Chan)
    requires Taken(down, p, from, incoming, left) && ch in left && left[ch] != [] && To(ch, p)
    ensures Taken(down, p, from + [ch], incoming + [left[ch][0]], left[ch := left[ch][1..]])
  {
    hide Waiting, Fronts, Without;
    WaitingMore(down, from, ch);
  }

  lemma TakenNone(down: map<Chan, seq<Msg>>, p: Proc)
    ensures Taken(down, p, [], [], down)
  { }

  lemma TakenArrives(down: map<Chan, seq<Msg>>, p: Proc, from: seq<Chan>, incoming: seq<Msg>, left: map<Chan, seq<Msg>>)
    requires Taken(down, p, from, incoming, left)
    ensures Arrives(down, p, from, incoming) && |incoming| == |from| && left == Without(down, from)
    ensures incoming == [] ==> left == down
  { }

  /** All the messages from parents that are under way to process p, each channel in its order. */
  method FetchDown(p: Proc, down: map<Chan, seq<Msg>>) returns (ghost from: seq<Chan>, incoming: seq<Msg>, left: map<Chan, seq<Msg>>)
    ensures Arrives(down, p, from, incoming) && |incoming| == |from| && left == Without(down, from)
    ensures incoming == [] ==> forall ch | To(ch, p) :: Down(down, ch) == []
  {
    hide Arrives, Without, Waiting, Taken;
    from, incoming, left := [], [], down;
    TakenNone(down, p);
    var chans := down.Keys;
    while chans != {}
      invariant Taken(down, p, from, incoming, left) && left.Keys == down.Keys
      invariant forall ch | To(ch, p) && ch in left && ch !in chans :: left[ch] == []
      decreases |chans|
    {
      var ch :| ch in chans;
      while To(ch, p) && ch in left && left[ch] != []
        invariant Taken(down, p, from, incoming, left) && left.Keys == down.Keys
        invariant forall c | To(c, p) && c in left && c !in chans :: left[c] == []
        decreases if ch in left then |left[ch]| else 0
      {
        TakenMore(down, p, from, incoming, left, ch);
        from, incoming, left := from + [ch], incoming + [left[ch][0]], left[ch := left[ch][1..]];
      }
      chans := chans - {ch};
    }
    TakenArrives(down, p, from, incoming, left);
  }

  // ---------------------------------------------------------------- one call of checkEvent_

  /** No registration for process p waits to be counted. */
  ghost predicate NoneUp(s: State, p: Proc) {
    forall n, e | At(n, p) :: (n, e) !in s.up
  }

  /** No message from a parent is under way to process p, or waits there. */
  ghost predicate NoneDown(s: State, p: Proc) {
    Pend(s.pend, p) == [] && forall ch | To(ch, p) :: Down(s.down, ch) == []
  }

  /** What p had received, and what was under way to it. */
  lemma NothingUp(s: State, p: Proc, up: multiset<(Node, Event)>)
    requires up == s.up && forall n, e | At(n, p) :: up[(n, e)] == Requests(p, [])[(n, e)]
    ensures NoneUp(s, p)
  { }

  lemma NothingDown(s: State, p: Proc, down: map<Chan, seq<Msg>>)
    requires down == s.down && Pend(s.pend, p) == [] && forall ch | To(ch, p) :: Down(down, ch) == []
    ensures NoneDown(s, p)
  { }

  lemma PendIs(g: Pool, s: State, p: Proc)
    requires World(g, s) && p in g.nodes
    ensures Pend(s.pend, p) == g.nodes[p].pendingRecvParent && Requests(p, g.nodes[p].pendingRecvChild) <= s.up
  {
    hide World, Tree, Inv, ViewOf, RecvIs, LogIs, Requests, Fits, Wired, Separate, OthersFit, Pend;
    WorldAt(g, s, p);
    HoldsQueues(g.nodes[p]);
  }

  /** The parent scheduler of an object is another object, of this pool or not. */
  lemma ParentIs(g: Pool, s: State, p: Proc)
    requires World(g, s) && p in g.nodes
    ensures var n := g.nodes[p]; n.parentScheduler != n
    ensures var n := g.nodes[p]; n.parentScheduler != null ==> n.parentScheduler in g.nodes.Values + g.others
    ensures p.comm < |g.sys|
  {
    hide World, Tree, Inv, Linked, Fits, ViewOf, Separate, OthersFit, ChildOf, UpView;
    WorldAt(g, s, p);
    ParentReady(g, s, p);
  }

  lemma ChildIs(g: Pool, s: State, p: Proc)
    requires World(g, s) && p in g.nodes
    ensures var n := g.nodes[p]; n.childScheduler != n && (n.childScheduler != null <==> ChildOf(g.sys, p.comm, p.rank) != 0)
    ensures var n := g.nodes[p]; n.childScheduler != null ==> n.childScheduler in g.nodes.Values
  {
    hide World, Tree, Inv, Linked, Fits, ViewOf, Separate, OthersFit, ChildOf, DownView;
    WorldAt(g, s, p);
    ChildReady(g, s, p);
  }

  lemma WorldInv(g: Pool, s: State)
    requires World(g, s)
    ensures Inv(g.t, s)
  {
    hide Inv, Tree, Wired, Separate, OthersFit, Stands;
  }

  lemma NewPart<T>(q: seq<T>, old0: seq<T>, more: seq<T>)
    requires q == old0 + more
    ensures |old0| <= |q| && q[|old0|..] == more
  { }

  function AllTrue(n: nat): (r: seq<bool>)
    ensures |r| == n && forall i | 0 <= i < n :: r[i]
  {
    seq(n, _ => true)
  }

  /** checkChildRequest with complete receptions: what the process and its parent scheduler send. */
  method CallChild(g: Pool, p: Proc, node: Scheduler, incoming: seq<Msg>, ghost s: State)
      returns (more: seq<Act>, moreAbove: seq<Act>, ghost run: seq<Step>, ghost s': State)
    requires World(g, s) && p in g.nodes && node == g.nodes[p] && Requests(p, node.pendingRecvChild + incoming) <= s.up
    modifies node`outbox, node`recvEvent, node`pendingRecvChild, node.Parents()`outbox
    ensures World(g, s') && RunOf(g.t, s, run, s', p) && forall i | 0 <= i < |run| :: !run[i].Register?
    ensures |run| == |old(node.pendingRecvChild) + incoming| && node.pendingRecvChild == []
    ensures UpNet(g.sys, s, s', p, Requests(p, old(node.pendingRecvChild) + incoming), more, moreAbove)
  {
    hide World, Requests, Those, RunOf, UpNet;
    ParentIs(g, s, p);
    var all := node.pendingRecvChild + incoming;
    var ready := AllTrue(|all|);
    ThoseAll(all, ready, true);
    var upper := node.parentScheduler;
    var out, outAbove := node.outbox, if upper != null then upper.outbox else [];
    ghost var taken, sends, above;
    run, s', taken, sends, above := CheckChildRequest(g, s, p, node, incoming, ready);
    NewPart(node.outbox, out, sends);
    if upper != null { NewPart(upper.outbox, outAbove, above); }
    more, moreAbove := node.outbox[|out|..], if upper != null then upper.outbox[|outAbove|..] else [];
  }

  /** checkParentRequest with complete receptions: what the process and its child scheduler send. */
  method CallParent(g: Pool, p: Proc, node: Scheduler, ghost from: seq<Chan>, incoming: seq<Msg>, ghost s: State)
      returns (more: seq<Act>, moreBelow: seq<Act>, ghost run: seq<Step>, ghost s': State)
    requires World(g, s) && p in g.nodes && node == g.nodes[p] && Arrives(s.down, p, from, incoming)
    modifies node`outbox, node`eventStack, node`pendingRecvParent, node.Children()`outbox
    ensures World(g, s') && RunOf(g.t, s, run, s', p) && forall i | 0 <= i < |run| :: !run[i].Register?
    ensures |run| == |from| + |old(node.pendingRecvParent) + incoming| && node.pendingRecvParent == []
    ensures ParentNet(s, s', p, ChildOf(g.sys, p.comm, p.rank), from, more, moreBelow)
  {
    hide World, RunOf, Arrives, ChildOf;
    hide ParentNet;
    ChildIs(g, s, p);
    var ready := AllTrue(|node.pendingRecvParent + incoming|);
    var lower := node.childScheduler;
    var out, outBelow := node.outbox, if lower != null then lower.outbox else [];
    ghost var taken, sends, below;
    run, s', taken, sends, below := CheckParentRequest(g, s, p, node, from, incoming, ready);
    NewPart(node.outbox, out, sends);
    if lower != null { NewPart(lower.outbox, outBelow, below); }
    more, moreBelow := node.outbox[|out|..], if lower != null then lower.outbox[|outBelow|..] else [];
    NoneBelow(s, s', p, ChildOf(g.sys, p.comm, p.rank), from, more, below, moreBelow);
  }

  lemma NoneBelow(s: State, s': State, p: Proc, c: nat, from: seq<Chan>, sends: seq<Act>, below: seq<Act>, more: seq<Act>)
    requires ParentNet(s, s', p, c, from, sends, below) && (c != 0 ==> more == below)
    ensures ParentNet(s, s', p, c, from, sends, more)
  {
    hide Waiting, Without, NetDown;
  }

  /** checkChildRequest at process p, which receives all that has been sent to it, with complete receptions; `up` and
      `down` are the network. */
  method PollChild(g: Pool, p: Proc, up: multiset<(Node, Event)>, down: map<Chan, seq<Msg>>, ghost s: State)
      returns (up': multiset<(Node, Event)>, down': map<Chan, seq<Msg>>, busy: bool, ghost run: seq<Step>, ghost s': State)
    requires World(g, s) && p in g.nodes && up == s.up && down == s.down
    modifies g.nodes.Values, g.others
    ensures World(g, s') && Ran(g.t, s, run, s') && up' == s'.up && down' == s'.down
    ensures (busy <==> run != []) && (!busy ==> s' == s && NoneUp(s, p))
    ensures g.nodes[p].pendingRecvChild == []
  {
    hide World, Requests, Ran, RunOf, NetUp, NetDown, NoneUp, Inv;
    var node := g.nodes[p];
    PendIs(g, s, p);
    ParentIs(g, s, p);
    WorldInv(g, s);
    var pending := node.pendingRecvChild;
    var incoming := Fetch(p, up, pending);
    busy := pending + incoming != [];
    if !busy { NothingUp(s, p, up); }
    var more, moreAbove;
    more, moreAbove, run, s' := CallChild(g, p, node, incoming, s);
    RanOf(g.t, s, run, s', p);
    up' := NetUp(NetUp(up - Requests(p, pending + incoming), p.comm, more), g.sys[p.comm].upComm, moreAbove);
    down' := NetDown(down, p, more);
  }

  /** checkParentRequest at process p, likewise. */
  method PollParent(g: Pool, p: Proc, up: multiset<(Node, Event)>, down: map<Chan, seq<Msg>>, ghost s: State)
      returns (up': multiset<(Node, Event)>, down': map<Chan, seq<Msg>>, busy: bool, ghost run: seq<Step>, ghost s': State)
    requires World(g, s) && p in g.nodes && up == s.up && down == s.down
    modifies g.nodes.Values
    ensures World(g, s') && Ran(g.t, s, run, s') && up' == s'.up && down' == s'.down
    ensures (busy <==> run != []) && (!busy ==> s' == s && NoneDown(s, p))
    ensures g.nodes[p].pendingRecvParent == []
  {
    hide World, Arrives, Waiting, Without, Ran, RunOf, NetDown, ChildOf, Inv, NoneDown;
    var node := g.nodes[p];
    PendIs(g, s, p);
    ChildIs(g, s, p);
    WorldInv(g, s);
    var pending := node.pendingRecvParent;
    ghost var from;
    var incoming, left;
    from, incoming, left := FetchDown(p, down);
    busy := pending + incoming != [];
    if !busy { NothingDown(s, p, down); }
    var more, moreBelow;
    more, moreBelow, run, s' := CallParent(g, p, node, from, incoming, s);
    RanOf(g.t, s, run, s', p);
    up', down' := up, NetDown(left, p, more);
    var c := ChildOf(g.sys, p.comm, p.rank);
    if c != 0 { down' := NetDown(down', Proc(c, 0), moreBelow); }
  }

  /** Where a series of calls has led: to the state s1, by a run that is not empty exactly if something was treated. */
  ghost predicate Polled(g: Pool, s: State, run: seq<Step>, s1: State, up: multiset<(Node, Event)>, down: map<Chan, seq<Msg>>, busy: bool)
    reads g.nodes.Values, g.others
  {
    && World(g, s1) && Ran(g.t, s, run, s1) && up == s1.up && down == s1.down
    && (busy <==> run != []) && (!busy ==> s1 == s)
  }

  lemma PolledNone(g: Pool, s: State)
    requires World(g, s)
    ensures Polled(g, s, [], s, s.up, s.down, false)
  {
    hide World;
    WorldInv(g, s);
    RanNone(g.t, s);
  }

  lemma PolledThen(g: Pool, s: State, a: seq<Step>, s1: State, b: seq<Step>, s2: State,
                   up: multiset<(Node, Event)>, down: map<Chan, seq<Msg>>, busy1: bool, busy2: bool)
    requires Ran(g.t, s, a, s1) && (busy1 <==> a != []) && (!busy1 ==> s1 == s)
    requires Polled(g, s1, b, s2, up, down, busy2)
    ensures Polled(g, s, a + b, s2, up, down, busy1 || busy2)
  {
    hide World, Ran;
    RanThen(g.t, s, a, s1, b, s2);
  }

  lemma PolledParts(g: Pool, s: State, run: seq<Step>, s1: State, up: multiset<(Node, Event)>, down: map<Chan, seq<Msg>>, busy: bool)
    requires Polled(g, s, run, s1, up, down, busy)
    ensures World(g, s1) && Ran(g.t, s, run, s1) && up == s1.up && down == s1.down
    ensures (busy <==> run != []) && (!busy ==> s1 == s)
  {
    hide World, Ran;
  }

  lemma MakePolled(g: Pool, s: State, run: seq<Step>, s1: State, up: multiset<(Node, Event)>, down: map<Chan, seq<Msg>>, busy: bool)
    requires World(g, s1) && Ran(g.t, s, run, s1) && up == s1.up && down == s1.down
    requires (busy <==> run != []) && (!busy ==> s1 == s)
    ensures Polled(g, s, run, s1, up, down, busy)
  {
    hide World, Ran;
  }

  /** Nothing is under way to process p. */
  ghost predicate Idle(s: State, p: Proc) {
    NoneUp(s, p) && NoneDown(s, p)
  }

  /** The process of the parent scheduler that process p hangs from, if it is a root. */
  lemma UpProc(g: Pool, s: State, p: Proc)
    requires World(g, s) && p in g.nodes && p.comm >= 1 && p.rank == 0
    ensures p.comm < |g.sys| && g.sys[p.comm].upComm < p.comm && Proc(g.sys[p.comm].upComm, g.sys[p.comm].upRank) in g.nodes
  {
    hide World, Tree, Inv, Linked, Fits, ViewOf, Separate, OthersFit, ChildOf;
    WorldAt(g, s, p);
    UpOther(g.sys, g.t, p);
  }

  /** checkEvent_ at process p: first in its parent scheduler, then the requests of its children, then those of its
      parent.  (A parent scheduler that is in no tree is sent nothing.) */
  method CheckEvent(g: Pool, p: Proc, up: multiset<(Node, Event)>, down: map<Chan, seq<Msg>>, ghost s: State)
      returns (up': multiset<(Node, Event)>, down': map<Chan, seq<Msg>>, busy: bool, ghost run: seq<Step>, ghost s': State)
    requires World(g, s) && p in g.nodes && up == s.up && down == s.down
    modifies g.nodes.Values, g.others
    ensures Polled(g, s, run, s', up', down', busy) && (!busy ==> Idle(s, p))
    decreases p.comm
  {
    hide World, Ran, Polled, NoneUp, NoneDown;
    PolledNone(g, s);
    up', down', busy, run, s' := up, down, false, [], s;
    if p.comm >= 1 && p.rank == 0 {
      UpProc(g, s, p);
      up', down', busy, run, s' := CheckEvent(g, Proc(g.sys[p.comm].upComm, g.sys[p.comm].upRank), up, down, s);
    }
    PolledParts(g, s, run, s', up', down', busy);
    var busy1, busy2;
    ghost var run1, run2, s1, s2;
    up', down', busy1, run1, s1 := PollChild(g, p, up', down', s');
    MakePolled(g, s', run1, s1, up', down', busy1);
    PolledThen(g, s, run, s', run1, s1, up', down', busy, busy1);
    PolledParts(g, s, run + run1, s1, up', down', busy || busy1);
    up', down', busy2, run2, s2 := PollParent(g, p, up', down', s1);
    MakePolled(g, s1, run2, s2, up', down', busy2);
    PolledThen(g, s, run + run1, s1, run2, s2, up', down', busy || busy1, busy2);
    busy, run, s' := busy || busy1 || busy2, run + run1 + run2, s2;
  }

  // ---------------------------------------------------------------- until nothing is left

  lemma UpHere(sys: seq<Sched>, t: Topo, s: State, n: Node, e: Event)
    requires Tree(sys, t) && Inv(t, s) && (n, e) in s.up
    ensures n.comm < |sys| && n.rank < sys[n.comm].size
  {
    hide Tree, Inv, SysOk, KidFacts;
    InTree(sys, t, s, n, e);
  }

  lemma AddressRaw(sys: seq<Sched>, t: Topo, a: Node)
    requires Tree(sys, t) && a in t.at
    ensures SysOk(sys) && Raw(sys, a)
  {
    hide SysOk, Raw, Canon, Addresses, ParMap, KidsMap, AddrMap, TierMap, DepthMap, Nodes;
  }

  lemma AddressHere(sys: seq<Sched>, t: Topo, a: Node)
    requires Tree(sys, t) && a in t.at
    ensures a.comm < |sys| && a.rank < sys[a.comm].size
  {
    hide SysOk, Tree, Lv, GAt;
    AddressRaw(sys, t, a);
  }

  lemma BusyUp(s: State, n: Node, e: Event)
    requires (n, e) in s.up
    ensures !Idle(s, Proc(n.comm, n.rank))
  {
    assert At(n, Proc(n.comm, n.rank));
  }

  lemma BusyPend(s: State, p: Proc)
    requires Pend(s.pend, p) != []
    ensures !Idle(s, p)
  { }

  lemma BusyDown(s: State, ch: Chan)
    requires Down(s.down, ch) != []
    ensures !Idle(s, Proc(ch.comm, ch.dst))
  {
    assert To(ch, Proc(ch.comm, ch.dst));
  }

  lemma DownHere(sys: seq<Sched>, t: Topo, s: State, ch: Chan)
    requires Tree(sys, t) && Inv(t, s) && Down(s.down, ch) != []
    ensures ch.comm < |sys| && ch.dst < sys[ch.comm].size
  {
    hide Tree, InvUp, InvSent;
    assert Down(s.down, ch)[0] in Down(s.down, ch);
    var a := Target(Proc(ch.comm, ch.dst), Down(s.down, ch)[0]);
    assert MsgOk(t, ch, Down(s.down, ch)[0]);
    AddressHere(sys, t, a);
  }

  lemma PendHere(sys: seq<Sched>, t: Topo, s: State, p: Proc)
    requires Tree(sys, t) && Inv(t, s) && Pend(s.pend, p) != []
    ensures p.comm < |sys| && p.rank < sys[p.comm].size
  {
    hide Tree, InvUp, InvSent;
    assert Pend(s.pend, p)[0] in Pend(s.pend, p);
    AddressHere(sys, t, Target(p, Pend(s.pend, p)[0]));
  }

  /** With nothing under way to any process of the system, nothing is under way. */
  lemma IdleIsQuiet(sys: seq<Sched>, t: Topo, s: State)
    requires Tree(sys, t) && Inv(t, s) && forall p: Proc | p.comm < |sys| && p.rank < sys[p.comm].size :: Idle(s, p)
    ensures Quiet(s)
  {
    hide Tree, Inv, Idle;
    if s.up != multiset{} {
      var x :| x in s.up;
      UpHere(sys, t, s, x.0, x.1);
      BusyUp(s, x.0, x.1);
      assert false;
    }
    forall ch ensures Down(s.down, ch) == [] {
      if Down(s.down, ch) != [] {
        DownHere(sys, t, s, ch);
        BusyDown(s, ch);
        assert false;
      }
    }
    forall p ensures Pend(s.pend, p) == [] {
      if Pend(s.pend, p) != [] {
        PendHere(sys, t, s, p);
        BusyPend(s, p);
        assert false;
      }
    }
  }

  /** All processes are in the list. */
  ghost predicate Covers(g: Pool, order: seq<Proc>) {
    forall p :: p in order <==> p in g.nodes
  }

  lemma RoundIsQuiet(g: Pool, s: State, order: seq<Proc>)
    requires World(g, s) && Covers(g, order) && forall j | 0 <= j < |order| :: Idle(s, order[j])
    ensures Quiet(s)
  {
    hide Tree, Inv, Wired, Separate, OthersFit, Stands, Idle, Quiet;
    IdleIsQuiet(g.sys, g.t, s);
  }

  /** Every process polls once, in the given order. */
  method Round(g: Pool, order: seq<Proc>, up: multiset<(Node, Event)>, down: map<Chan, seq<Msg>>, ghost s: State)
      returns (up': multiset<(Node, Event)>, down': map<Chan, seq<Msg>>, busy: bool, ghost run: seq<Step>, ghost s': State)
    requires World(g, s) && Covers(g, order) && up == s.up && down == s.down
    modifies g.nodes.Values, g.others
    ensures Polled(g, s, run, s', up', down', busy) && (!busy ==> Quiet(s))
  {
    hide World, Ran, Polled, Idle, Quiet;
    PolledNone(g, s);
    up', down', busy, run, s' := up, down, false, [], s;
    for i := 0 to |order|
      invariant Polled(g, s, run, s', up', down', busy)
      invariant !busy ==> forall j | 0 <= j < i :: Idle(s, order[j])
    {
      PolledParts(g, s, run, s', up', down', busy);
      var busy1;
      ghost var run1, s1;
      up', down', busy1, run1, s1 := CheckEvent(g, order[i], up', down', s');
      PolledThen(g, s, run, s', run1, s1, up', down', busy, busy1);
      busy, run, s' := busy || busy1, run + run1, s1;
    }
    PolledParts(g, s, run, s', up', down', busy);
    if !busy { RoundIsQuiet(g, s, order); }
  }

  // ---------------------------------------------------------------- what then stands on the stacks

  /** Process p, which has no child scheduler, is below a: events that a decides are for its eventStack_. */
  ghost predicate Hears(g: Pool, a: Node, p: Proc)
    requires WellFormed(g.t) && p in g.nodes
    reads g.nodes[p]
  {
    var m := Node(p.comm, p.rank, g.nodes[p].level);
    g.nodes[p].childScheduler == null && m in g.t.kids && Under(g.t, a, m)
  }

  /** All processes below a have found e on their eventStack_, or will find it there. */
  ghost predicate OnStacks(g: Pool, a: Node, e: Event)
    requires WellFormed(g.t)
    reads g.nodes.Values
  {
    forall p | p in g.nodes && Hears(g, a, p) :: (e.timeLine, e.hashId) in g.nodes[p].popped + g.nodes[p].eventStack
  }

  /** Every event that in s all processes have registered which it is for stands on the eventStack_ of each of them. */
  ghost predicate AllHeard(g: Pool, s: State)
    reads g.nodes.Values
  {
    WellFormed(g.t) && forall a, e | a in g.t.kids && a in g.t.tier && Turns(g.t, a, e) && AllRegistered(g.t, s, a, e) :: OnStacks(g, a, e)
  }

  lemma {:induction false} OnStack(log: seq<Event>, e: Event)
    requires e in log
    ensures (e.timeLine, e.hashId) in StackOf(log)
  {
    var k := |log| - 1;
    if e != log[k] {
      assert log == log[..k] + [log[k]];
      OnStack(log[..k], e);
    }
  }

  lemma HeardBy(t: Topo, s: State, a: Node, m: Node, e: Event)
    requires Inv(t, s) && Quiet(s) && a in t.kids && m in t.kids && Under(t, a, m) && Turns(t, a, e) && AllRegistered(t, s, a, e)
    ensures m in s.done && e in s.done[m]
  {
    hide InvUp, InvDown, InvSent, Quiet;
    assert s.up == multiset{} by { QuietUp(s); }
    Collected(t, s, a, a, e);
    Spread(t, s, a, m, e);
  }

  lemma QuietUp(s: State)
    requires Quiet(s)
    ensures s.up == multiset{}
  { }

  lemma LogOf(g: Pool, s: State, p: Proc)
    requires World(g, s) && p in g.nodes && g.nodes[p].childScheduler == null
    ensures var n := g.nodes[p]; LogIs(s, Node(p.comm, p.rank, n.level), n.popped + n.eventStack)
  {
    hide World, Tree, Inv, ViewOf, RecvIs, Requests, Fits, Wired, Separate, OthersFit, Pend, ChildOf, LogIs;
    WorldAt(g, s, p);
    BelowOk(g, s, p);
  }

  /** With nothing under way, nothing that all have registered is missing on a stack. */
  lemma DrainedStacks(g: Pool, s: State, a: Node, e: Event)
    requires World(g, s) && Quiet(s) && WellFormed(g.t) && a in g.t.kids && a in g.t.tier && Turns(g.t, a, e) && AllRegistered(g.t, s, a, e)
    ensures OnStacks(g, a, e)
  {
    hide World, Quiet, Inv, WellFormed, AllRegistered, Under, StackOf, Turns;
    WorldInv(g, s);
    forall p | p in g.nodes && Hears(g, a, p)
      ensures (e.timeLine, e.hashId) in g.nodes[p].popped + g.nodes[p].eventStack
    {
      var m := Node(p.comm, p.rank, g.nodes[p].level);
      HeardBy(g.t, s, a, m, e);
      LogOf(g, s, p);
      OnStack(s.done[m], e);
    }
  }

  lemma StillRegistered(t: Topo, s: State, s': State, a: Node, e: Event)
    requires WellFormed(t) && s.told <= s'.told && AllRegistered(t, s, a, e)
    ensures AllRegistered(t, s', a, e)
  {
    hide WellFormed, Leaf, Under;
  }

  lemma MakeAllHeard(g: Pool, s: State, run: seq<Step>, s': State)
    requires World(g, s') && Quiet(s') && Ran(g.t, s, run, s')
    ensures AllHeard(g, s)
  {
    hide World, Quiet, Inv, Ran, AllRegistered, OnStacks, Turns;
    WorldInv(g, s');
    InvTree(g.t, s');
    hide WellFormed;
    RanTold(g.t, s, run, s');
    forall a, e | a in g.t.kids && a in g.t.tier && Turns(g.t, a, e) && AllRegistered(g.t, s, a, e) ensures OnStacks(g, a, e) {
      StillRegistered(g.t, s, s', a, e);
      DrainedStacks(g, s', a, e);
    }
  }

  lemma InvTree(t: Topo, s: State)
    requires Inv(t, s)
    ensures WellFormed(t)
  {
    hide InvUp, InvDown, InvSent, WellFormed;
  }

  /** All processes poll, round after round, in whatever order in each round, as long as something is treated. */
  method Drain(g: Pool, orders: nat -> seq<Proc>, up: multiset<(Node, Event)>, down: map<Chan, seq<Msg>>, ghost s: State)
      returns (up': multiset<(Node, Event)>, down': map<Chan, seq<Msg>>, ghost run: seq<Step>, ghost s': State)
    requires World(g, s) && (forall k :: Covers(g, orders(k))) && up == s.up && down == s.down
    modifies g.nodes.Values, g.others
    ensures World(g, s') && Ran(g.t, s, run, s') && up' == s'.up && down' == s'.down && Quiet(s')
    ensures AllHeard(g, s)
  {
    hide World, Ran, Polled, Quiet, Unreported, Unseen, OnWire, Covers, AllHeard;
    PolledNone(g, s);
    up', down', run, s' := up, down, [], s;
    ghost var busy := false;
    var k, again := 0, true;
    while again
      invariant Polled(g, s, run, s', up', down', busy)
      invariant !again ==> Quiet(s')
      decreases Unreported(g.t, s'), Unseen(g.t, s'), s'.up, OnWire(s'), again
    {
      PolledParts(g, s, run, s', up', down', busy);
      ghost var run1, s1;
      up', down', again, run1, s1 := Round(g, orders(k), up', down', s');
      PolledThen(g, s, run, s', run1, s1, up', down', busy, again);
      PolledParts(g, s', run1, s1, up', down', again);
      if again { RanSmaller(g.t, s', run1, s1); }
      busy, run, s' := busy || again, run + run1, s1;
      k := k + 1;
    }
    PolledParts(g, s, run, s', up', down', busy);
    MakeAllHeard(g, s, run, s');
  }

  // ---------------------------------------------------------------- an event, from its registrations to every stack

  /** The process of a leaf. */
  lemma LeafProc(g: Pool, s: State, m: Node)
    requires World(g, s) && WellFormed(g.t) && Leaf(g.t, m)
    ensures var p := Proc(m.comm, m.rank); p in g.nodes && g.nodes[p].childScheduler == null && g.nodes[p].level == m.lev
  {
    hide World, Inv, Linked, Wired, Separate, OthersFit, ChildOf, WellFormed;
    assert Tree(g.sys, g.t) by { WorldParts(g, s); }
    LeafHere(g.sys, g.t, m);
    var p := Proc(m.comm, m.rank);
    Placed(g, s, p);
    WorldAt(g, s, p);
    BelowOk(g, s, p);
    LevelHere(g.sys, g.nodes[p].TheView(), m);
  }

  lemma Placed(g: Pool, s: State, p: Proc)
    requires World(g, s) && p.comm < |g.sys| && p.rank < g.sys[p.comm].size
    ensures p in g.nodes
  {
    hide Tree, Inv, Wired, Separate, OthersFit, Stands;
  }

  lemma LeafHere(sys: seq<Sched>, t: Topo, m: Node)
    requires Tree(sys, t) && Leaf(t, m)
    ensures SysOk(sys) && Raw(sys, m) && m.comm < |sys| && m.rank < sys[m.comm].size
    ensures m.lev == Lv(sys, m.comm, m.rank) && ChildOf(sys, m.comm, m.rank) == 0
  {
    BuildFacts(sys, m);
    InnerHere(sys, m);
    hide SysOk, Kids, Build, KidFacts, ChildOf, Par;
  }

  lemma LevelHere(sys: seq<Sched>, v: View, m: Node)
    requires SysOk(sys) && Raw(sys, m) && ViewOf(sys, v, m.comm, m.rank)
    ensures v.level == Lv(sys, m.comm, m.rank)
  {
    ViewAt(sys, v, m);
  }

  /** If all processes below a have registered e, so have all leaves. */
  lemma LeavesRegistered(g: Pool, s: State, a: Node, e: Event)
    requires World(g, s) && WellFormed(g.t)
    requires forall p | p in g.nodes && Hears(g, a, p) :: (Node(p.comm, p.rank, g.nodes[p].level), e) in s.told
    ensures AllRegistered(g.t, s, a, e)
  {
    hide World, WellFormed, Under;
    forall m | Leaf(g.t, m) && Under(g.t, a, m) ensures (m, e) in s.told {
      LeafProc(g, s, m);
      assert Hears(g, a, Proc(m.comm, m.rank));
    }
  }

  /** Process p can register e, and has not yet done so. */
  ghost predicate MayRegister(g: Pool, told: set<(Node, Event)>, p: Proc, e: Event)
    reads g.nodes.Values
  {
    && p in g.nodes && g.nodes[p].childScheduler == null && p.comm < |g.sys|
    && g.sys[0].schedLevel <= e.schedLevel <= g.sys[p.comm].schedLevel
    && (Node(p.comm, p.rank, g.nodes[p].level), e) !in told
  }

  /** registerEvent at process p, and the network after it. */
  method RegisterOne(g: Pool, p: Proc, node: Scheduler, e: Event, up: multiset<(Node, Event)>, ghost s: State)
      returns (up': multiset<(Node, Event)>, ghost run: seq<Step>, ghost s': State)
    requires World(g, s) && up == s.up && MayRegister(g, s.told, p, e) && node == g.nodes[p]
    modifies node`outbox
    ensures World(g, s') && Legal(g.t, s, run) && s' == Final(g.t, s, run)
    ensures up' == s'.up && s'.down == s.down && s'.told == s.told + {(Node(p.comm, p.rank, node.level), e)}
  {
    hide World, RunOf, NetUp, Inv, Legal, Final;
    var out := node.outbox;
    ghost var sends;
    run, s', sends := RegisterEvent(g, s, p, node, e);
    NewPart(node.outbox, out, sends);
    up' := NetUp(up, p.comm, node.outbox[|out|..]);
    RunLegal(g.t, s, run, s', p);
  }

  lemma RunLegal(t: Topo, s: State, run: seq<Step>, s': State, p: Proc)
    requires RunOf(t, s, run, s', p)
    ensures Legal(t, s, run) && s' == Final(t, s, run)
  {
    hide Inv, Legal, Final;
  }

  /** The processes of the list register e. */
  method RegisterAll(g: Pool, order: seq<Proc>, e: Event, up: multiset<(Node, Event)>, ghost s: State)
      returns (up': multiset<(Node, Event)>, ghost run: seq<Step>, ghost s': State)
    requires World(g, s) && up == s.up && Distinct(order) && forall p | p in order :: MayRegister(g, s.told, p, e)
    modifies g.nodes.Values`outbox
    ensures World(g, s') && Legal(g.t, s, run) && s' == Final(g.t, s, run) && up' == s'.up && s'.down == s.down
    ensures forall p | p in order :: p in g.nodes && (Node(p.comm, p.rank, g.nodes[p].level), e) in s'.told
    ensures s.told <= s'.told
  {
    hide World, Legal, Final;
    up', run, s' := up, [], s;
    NoRun(g.t, s);
    for i := 0 to |order|
      invariant World(g, s') && Legal(g.t, s, run) && s' == Final(g.t, s, run) && up' == s'.up && s'.down == s.down
      invariant forall j | i <= j < |order| :: MayRegister(g, s'.told, order[j], e)
      invariant forall j | 0 <= j < i :: var p := order[j]; p in g.nodes && (Node(p.comm, p.rank, g.nodes[p].level), e) in s'.told
      invariant s.told <= s'.told
    {
      ghost var run1, s1;
      up', run1, s1 := RegisterOne(g, order[i], g.nodes[order[i]], e, up', s');
      LegalThen(g.t, s, run, run1);
      run, s' := run + run1, s1;
    }
  }

  lemma NoRun(t: Topo, s: State)
    ensures Legal(t, s, []) && Final(t, s, []) == s
  { }

  /** From the registrations of an event to every eventStack_: the processes of the list register e, which a decides,
      and all poll until nothing is left. */
  method Announce(g: Pool, ghost a: Node, e: Event, order: seq<Proc>, orders: nat -> seq<Proc>,
                  up: multiset<(Node, Event)>, down: map<Chan, seq<Msg>>, ghost s: State)
      returns (up': multiset<(Node, Event)>, down': map<Chan, seq<Msg>>, ghost run: seq<Step>, ghost s': State)
    requires WellFormed(g.t) && a in g.t.kids && a in g.t.tier && Turns(g.t, a, e) && (forall k :: Covers(g, orders(k)))
    requires Distinct(order) && forall p | p in order :: MayRegister(g, s.told, p, e)
    requires forall p | p in g.nodes && Hears(g, a, p) :: p in order || (Node(p.comm, p.rank, g.nodes[p].level), e) in s.told
    requires up == s.up && down == s.down && World(g, s)
    modifies g.nodes.Values, g.others
    ensures OnStacks(g, a, e)
    ensures Legal(g.t, s, run) && s' == Final(g.t, s, run) && Quiet(s') && up' == multiset{} && down' == s'.down
    ensures World(g, s')
  {
    hide World, Legal, Final, Ran, Quiet, Covers, WellFormed, Under, OnStacks, AllRegistered;
    ghost var run1, s1, run2;
    up', run1, s1 := RegisterAll(g, order, e, up, s);
    LeavesRegistered(g, s1, a, e);
    up', down', run2, s' := Drain(g, orders, up', down, s1);
    QuietUp(s');
    RanLegal(g.t, s1, run2, s');
    LegalThen(g.t, s, run1, run2);
    run := run1 + run2;
  }

  lemma RanLegal(t: Topo, s: State, run: seq<Step>, s': State)
    requires Ran(t, s, run, s')
    ensures Legal(t, s, run) && s' == Final(t, s, run)
  {
    hide Inv, Legal, Final;
  }
}
