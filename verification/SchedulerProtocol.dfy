/** The event-ordering protocol of src/event_scheduler.cpp, as a state machine over a tree.

    A node of the tree is one hierarchical level of one process of one scheduler (communicator).
    Registrations travel up the tree and are counted at every inner node; the root of the scheduler
    that an event belongs to fixes its position; the event then travels down, over channels that are
    first-in first-out for each (communicator, source, destination) and that carry the messages of
    several levels mixed together.  A split scheduler grafts the tree of a child scheduler onto a
    leaf of its parent scheduler, so one tree covers any nesting of schedulers. */
module SchedulerProtocol {

  /** SEvent without its level: what identifies an event to the callers. */
  datatype Event = Event(timeLine: nat, hashId: nat, schedLevel: nat)

  datatype Node = Node(comm: nat, rank: nat, lev: nat)
  datatype Proc = Proc(comm: nat, rank: nat)
  datatype Chan = Chan(comm: nat, src: nat, dst: nat)

  /** The content of a message to a child: the event, and the level it is meant for. */
  datatype Msg = Msg(ev: Event, lev: nat)

  /** The tree.  `addr[c]` is the (communicator, rank, level) that the parent of c puts on messages
      to c, and `at` is its inverse.  It differs from c only for the root of a child scheduler, which
      is reached through a leaf of the parent scheduler.  `tier` is the schedulerLevel_ of a node,
      `roots` the nodes where a scheduler of that level decides. */
  datatype Topo = Topo(
    top: Node,
    par: map<Node, Node>,
    kids: map<Node, seq<Node>>,
    addr: map<Node, Node>,
    at: map<Node, Node>,
    roots: set<Node>,
    tier: map<Node, nat>,
    depth: map<Node, nat>)

  predicate Distinct<T(==)>(s: seq<T>) {
    forall i, j | 0 <= i < j < |s| :: s[i] != s[j]
  }

  /** The maps cover the same nodes. */
  ghost predicate Domains(t: Topo) {
    && t.top in t.kids && t.par.Keys == t.kids.Keys - {t.top}
    && t.addr.Keys == t.par.Keys && t.tier.Keys == t.kids.Keys && t.depth.Keys == t.kids.Keys
    && (forall c | c in t.par :: t.par[c] in t.kids)
  }

  ghost predicate EdgeOk(t: Topo, c: Node)
    requires Domains(t) && c in t.par
  {
    var p := t.par[c];
    && c in t.kids[p]
    && t.depth[c] == t.depth[p] + 1
    && t.addr[c].comm == p.comm && t.addr[c] in t.at && t.at[t.addr[c]] == c
    && t.tier[c] == t.tier[p] + (if c in t.roots then 1 else 0)
  }

  ghost predicate KidsOk(t: Topo, p: Node)
    requires p in t.kids
  {
    && (forall c | c in t.kids[p] :: c in t.par && t.par[c] == p)
    && Distinct(t.kids[p])
    && (p in t.roots ==> t.kids[p] != [])
  }

  ghost predicate AddrOk(t: Topo, a: Node)
    requires Domains(t) && a in t.at
  {
    t.at[a] in t.par && t.addr[t.at[a]] == a
  }

  ghost predicate WellFormed(t: Topo) {
    && Domains(t)
    && t.top in t.roots
    && (forall c {:trigger EdgeOk(t, c)} | c in t.par :: EdgeOk(t, c))
    && (forall p {:trigger KidsOk(t, p)} | p in t.kids :: KidsOk(t, p))
    && (forall a {:trigger AddrOk(t, a)} | a in t.at :: AddrOk(t, a))
  }

  /** Node n decides the position of event e instead of passing it on. */
  predicate Turns(t: Topo, n: Node, e: Event)
    requires n in t.tier
  {
    n in t.roots && e.schedLevel == t.tier[n]
  }

  /** The whole system.  `up` holds the registrations sent but not yet counted, `recv` is recvEvent_
      of every process, `down` the messages under way to children and `pend` the queues
      pendingRecvParentRequest_.  The last four are history: `told` the (node, event) pairs already
      reported to the parent, `done[n]` the events n has broadcast (for a leaf: everything ever
      pushed on its eventStack_), `sentUp` and `sentDown` every message sent over the edge above a node. */
  datatype State = State(
    up: multiset<(Node, Event)>,
    recv: map<(Node, Event), nat>,
    down: map<Chan, seq<Msg>>,
    pend: map<Proc, seq<Msg>>,
    told: set<(Node, Event)>,
    done: map<Node, seq<Event>>,
    sentUp: multiset<(Node, Event)>,
    sentDown: multiset<(Node, Event)>)

  function Recv(r: map<(Node, Event), nat>, n: Node, e: Event): nat {
    if (n, e) in r then r[(n, e)] else 0
  }

  function Down(d: map<Chan, seq<Msg>>, ch: Chan): seq<Msg> {
    if ch in d then d[ch] else []
  }

  function Pend(q: map<Proc, seq<Msg>>, p: Proc): seq<Msg> {
    if p in q then q[p] else []
  }

  /** The channel that leads to node c from its parent. */
  function Link(t: Topo, c: Node): Chan
    requires c in t.par && c in t.addr
  {
    Chan(t.addr[c].comm, t.par[c].rank, t.addr[c].rank)
  }

  /** The events that a queue holds for level lev. */
  function Pick(q: seq<Msg>, lev: nat): seq<Event> {
    if q == [] then [] else
    (if q[0].lev == lev then [q[0].ev] else []) + Pick(q[1..], lev)
  }

  /** The events of schedulers of level at most k. */
  function Sel(k: int, s: seq<Event>): seq<Event> {
    if s == [] then [] else
    (if s[0].schedLevel <= k then [s[0]] else []) + Sel(k, s[1..])
  }

  /** How many of the given nodes have reported e. */
  function Cnt(ns: seq<Node>, told: set<(Node, Event)>, e: Event): nat {
    if ns == [] then 0 else
    (if (ns[0], e) in told then 1 else 0) + Cnt(ns[1..], told, e)
  }

  // ---------------------------------------------------------------- steps

  function Push(d: map<Chan, seq<Msg>>, ch: Chan, m: Msg): map<Chan, seq<Msg>> {
    d[ch := Down(d, ch) + [m]]
  }

  /** The sends of bcastEvent, in order, to the nodes `ks`. */
  function PushAll(t: Topo, d: map<Chan, seq<Msg>>, ks: seq<Node>, e: Event): map<Chan, seq<Msg>>
    requires forall c | c in ks :: c in t.par && c in t.addr
  {
    if ks == [] then d else
    var i := |ks| - 1;
    Push(PushAll(t, d, ks[..i], e), Link(t, ks[i]), Msg(e, t.addr[ks[i]].lev))
  }

  function Edges(ks: seq<Node>, e: Event): multiset<(Node, Event)> {
    if ks == [] then multiset{} else Edges(ks[..|ks| - 1], e) + multiset{(ks[|ks| - 1], e)}
  }

  function Bcast(t: Topo, s: State, n: Node, e: Event): State
    requires n in t.kids && n in s.done
    requires forall c | c in t.kids[n] :: c in t.par && c in t.addr
  {
    s.(done := s.done[n := s.done[n] + [e]],
       down := PushAll(t, s.down, t.kids[n], e),
       sentDown := s.sentDown + Edges(t.kids[n], e))
  }

  function Report(t: Topo, s: State, n: Node, e: Event): State
    requires n in t.par
  {
    s.(told := s.told + {(n, e)},
       up := s.up + multiset{(t.par[n], e)},
       sentUp := s.sentUp + multiset{(n, e)})
  }

  datatype Step =
    | Register(n: Node, e: Event)   // a process registers e: registerEvent
    | TakeUp(n: Node, e: Event)     // one received request of checkChildRequest, in any order
    | Deliver(ch: Chan)             // the oldest message of a channel is received
    | TakeDown(p: Proc)             // the front of pendingRecvParentRequest_ in checkParentRequest

  function Target(p: Proc, m: Msg): Node {
    Node(p.comm, p.rank, m.lev)
  }

  predicate Enabled(t: Topo, s: State, step: Step) {
    match step
    case Register(n, e) =>
      && n in t.par && n in t.kids && t.kids[n] == [] && (n, e) !in s.told
      && t.top in t.tier && n in t.tier && t.tier[t.top] <= e.schedLevel <= t.tier[n]
    case TakeUp(n, e) =>
      && (n, e) in s.up && n in t.kids && n in s.done && n in t.tier
      && (Turns(t, n, e) || n in t.par)
      && (forall c | c in t.kids[n] :: c in t.par && c in t.addr)
    case Deliver(ch) => Down(s.down, ch) != []
    case TakeDown(p) =>
      && Pend(s.pend, p) != []
      && var a := Target(p, Pend(s.pend, p)[0]);
      && a in t.at && t.at[a] in t.kids && t.at[a] in s.done
      && (forall c | c in t.kids[t.at[a]] :: c in t.par && c in t.addr)
  }

  function DoTakeUp(t: Topo, s: State, n: Node, e: Event): State
    requires Enabled(t, s, TakeUp(n, e))
  {
    var cnt := Recv(s.recv, n, e) + 1;
    var s1 := s.(up := s.up - multiset{(n, e)});
    if cnt == |t.kids[n]| then
      var s2 := s1.(recv := s.recv - {(n, e)});
      if Turns(t, n, e) then Bcast(t, s2, n, e) else Report(t, s2, n, e)
    else
      s1.(recv := s.recv[(n, e) := cnt])
  }

  function DoDeliver(s: State, ch: Chan): State
    requires Down(s.down, ch) != []
  {
    var p := Proc(ch.comm, ch.dst);
    s.(down := s.down[ch := Down(s.down, ch)[1..]],
       pend := s.pend[p := Pend(s.pend, p) + [Down(s.down, ch)[0]]])
  }

  /** A leaf pushes the event on its eventStack_; an inner node broadcasts it to its children.
      (Broadcasting to no child is what a leaf does.) */
  function DoTakeDown(t: Topo, s: State, p: Proc): State
    requires Enabled(t, s, TakeDown(p))
  {
    var m := Pend(s.pend, p)[0];
    var s1 := s.(pend := s.pend[p := Pend(s.pend, p)[1..]]);
    Bcast(t, s1, t.at[Target(p, m)], m.ev)
  }

  function Do(t: Topo, s: State, step: Step): State
    requires Enabled(t, s, step)
  {
    match step
    case Register(n, e) => Report(t, s, n, e)
    case TakeUp(n, e) => DoTakeUp(t, s, n, e)
    case Deliver(ch) => DoDeliver(s, ch)
    case TakeDown(p) => DoTakeDown(t, s, p)
  }

  function Init(t: Topo): State {
    State(multiset{}, map[], map[], map[], {}, map n | n in t.kids :: [], multiset{}, multiset{})
  }

  /** `run` is a legal run from s, and Final is the state it ends in. */
  predicate Legal(t: Topo, s: State, run: seq<Step>)
    decreases |run|
  {
    run == [] || (Enabled(t, s, run[0]) && Legal(t, Do(t, s, run[0]), run[1..]))
  }

  function Final(t: Topo, s: State, run: seq<Step>): State
    requires Legal(t, s, run)
    decreases |run|
  {
    if run == [] then s else Final(t, Do(t, s, run[0]), run[1..])
  }

  // ---------------------------------------------------------------- invariant

  type Log = map<Node, seq<Event>>

  /** What is on its way down to node c. */
  function InFlight(t: Topo, pend: map<Proc, seq<Msg>>, down: map<Chan, seq<Msg>>, c: Node): seq<Event>
    requires c in t.par && c in t.addr
  {
    Pick(Pend(pend, Proc(t.addr[c].comm, t.addr[c].rank)), t.addr[c].lev)
    + Pick(Down(down, Link(t, c)), t.addr[c].lev)
  }

  /** n has finished collecting e from its children. */
  predicate Fin(t: Topo, told: set<(Node, Event)>, done: Log, n: Node, e: Event)
    requires n in t.tier && n in done
  {
    if Turns(t, n, e) then e in done[n] else (n, e) in told
  }

  ghost predicate UpOk(t: Topo, up: multiset<(Node, Event)>, recv: map<(Node, Event), nat>,
                       told: set<(Node, Event)>, done: Log, n: Node, e: Event)
    requires n in t.kids && n in t.tier && n in done
  {
    && up[(n, e)] + (if Fin(t, told, done, n, e) then |t.kids[n]| else Recv(recv, n, e)) == Cnt(t.kids[n], told, e)
    && Recv(recv, n, e) < |t.kids[n]|
    && (Fin(t, told, done, n, e) ==> (n, e) !in recv)
  }

  ghost predicate InvUp(t: Topo, up: multiset<(Node, Event)>, recv: map<(Node, Event), nat>,
                        told: set<(Node, Event)>, done: Log)
    requires WellFormed(t) && done.Keys == t.kids.Keys
  {
    && (forall n, e {:trigger UpOk(t, up, recv, told, done, n, e)} | n in t.kids && t.kids[n] != [] ::
          UpOk(t, up, recv, told, done, n, e))
    && (forall n, e | (n, e) in up ::
          n in t.kids && t.kids[n] != [] && t.tier[t.top] <= e.schedLevel <= t.tier[n])
    && (forall n, e | (n, e) in told ::
          n in t.par && t.tier[t.top] <= e.schedLevel <= t.tier[t.par[n]])
  }

  /** What c's parent has broadcast is what c has broadcast of it, and then what is on its way to c. */
  ghost predicate DownOk(t: Topo, pend: map<Proc, seq<Msg>>, down: map<Chan, seq<Msg>>, done: Log, c: Node)
    requires WellFormed(t) && done.Keys == t.kids.Keys && c in t.par
  {
    done[t.par[c]] == Sel(t.tier[t.par[c]], done[c]) + InFlight(t, pend, down, c)
  }

  ghost predicate DoneOk(t: Topo, done: Log, n: Node)
    requires WellFormed(t) && done.Keys == t.kids.Keys && n in t.kids
  {
    && Distinct(done[n])
    && forall e | e in done[n] :: t.tier[t.top] <= e.schedLevel <= t.tier[n]
  }

  /** A message of a channel is for a child of the process at the other end. */
  ghost predicate MsgOk(t: Topo, ch: Chan, m: Msg)
    requires WellFormed(t)
  {
    var a := Target(Proc(ch.comm, ch.dst), m);
    a in t.at && t.at[a] in t.par && Link(t, t.at[a]) == ch
  }

  ghost predicate QueuesOk(t: Topo, pend: map<Proc, seq<Msg>>, down: map<Chan, seq<Msg>>)
    requires WellFormed(t)
  {
    && (forall p, m | m in Pend(pend, p) :: Target(p, m) in t.at)
    && (forall ch, m | m in Down(down, ch) :: MsgOk(t, ch, m))
  }

  ghost predicate InvDown(t: Topo, pend: map<Proc, seq<Msg>>, down: map<Chan, seq<Msg>>, done: Log)
    requires WellFormed(t) && done.Keys == t.kids.Keys
  {
    && (forall c {:trigger DownOk(t, pend, down, done, c)} | c in t.par :: DownOk(t, pend, down, done, c))
    && (forall n {:trigger DoneOk(t, done, n)} | n in t.kids :: DoneOk(t, done, n))
    && QueuesOk(t, pend, down)
  }

  /** Each edge has carried one registration per reported event and one broadcast per ordered event. */
  ghost predicate InvSent(t: Topo, told: set<(Node, Event)>, done: Log,
                          sentUp: multiset<(Node, Event)>, sentDown: multiset<(Node, Event)>)
    requires WellFormed(t) && done.Keys == t.kids.Keys
  {
    && (forall c, e | c in t.par :: sentUp[(c, e)] == if (c, e) in told then 1 else 0)
    && (forall c, e | c in t.par :: sentDown[(c, e)] == if e in done[t.par[c]] then 1 else 0)
  }

  ghost predicate Inv(t: Topo, s: State) {
    && WellFormed(t) && s.done.Keys == t.kids.Keys
    && InvUp(t, s.up, s.recv, s.told, s.done)
    && InvDown(t, s.pend, s.down, s.done)
    && InvSent(t, s.told, s.done, s.sentUp, s.sentDown)
  }
}
