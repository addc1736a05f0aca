/** One process of a scheduler: the fields and methods of CEventScheduler. */
module SchedulerNode {
  import opened SchedulerProtocol
  import opened SchedulerTree

  /** What initialize computes, and the schedulerLevel_. */
  datatype View = View(level: nat, parent: seq<nat>, child: seq<seq<nat>>, nbChild: seq<nat>, schedLevel: nat)

  /** SEvent: the key of recvEvent_. */
  datatype Key = Key(ev: Event, lev: nat)

  /** What a process does when it treats a message: send to its parent or to a child, push on its
      eventStack_, register with the parent scheduler, or broadcast in the child scheduler. */
  datatype Act =
    | SendUp(dst: nat, m: Msg)
    | SendDown(dst: nat, m: Msg)
    | Stack(ev: Event)
    | Escalate(ev: Event)
    | Descend(ev: Event)

  ghost predicate ViewOk(v: View, size: nat, rank: nat) {
    && rank < size
    && var mc, g := MaxChildOf(size), Group(0, size);
    && v.level == Level(g, mc, rank)
    && |v.parent| == |v.child| == |v.nbChild| > v.level
    && v.parent[0] == 0
    && (forall l {:trigger At(g, mc, rank, l)} | 0 <= l < v.level ::
          Filled(v.parent, v.child, v.nbChild, mc, At(g, mc, rank, l), l))
  }

  /** The entries of level l are those of group g. */
  ghost predicate Filled(parent: seq<nat>, child: seq<seq<nat>>, nbChild: seq<nat>, mc: nat, g: Group, l: nat)
    requires mc >= 2 && l + 1 < |parent| == |child| == |nbChild|
  {
    && parent[l + 1] == g.begin
    && nbChild[l] == Count(g, mc) <= |child[l]|
    && forall i | 0 <= i < Count(g, mc) :: child[l][i] == Start(g, mc, i)
  }

  /** The entries of the levels below `level` are those of the groups of rank r. */
  ghost predicate RowsFilled(parent: seq<nat>, child: seq<seq<nat>>, nbChild: seq<nat>, g: Group, mc: nat, r: nat, level: nat)
    requires mc >= 2 && level < |parent| == |child| == |nbChild|
  {
    forall l {:trigger At(g, mc, r, l)} | 0 <= l < level :: Filled(parent, child, nbChild, mc, At(g, mc, r, l), l)
  }

  lemma NoRows(parent: seq<nat>, child: seq<seq<nat>>, nbChild: seq<nat>, g: Group, mc: nat, r: nat)
    requires mc >= 2 && 0 < |parent| == |child| == |nbChild|
    ensures RowsFilled(parent, child, nbChild, g, mc, r, 0)
  { }

  /** One more level. */
  lemma RowFilled(parent: seq<nat>, child: seq<seq<nat>>, nbChild: seq<nat>, g: Group, mc: nat, r: nat, level: nat,
                  begin: nat, row: seq<nat>, count: nat)
    requires mc >= 2 && level + 1 < |parent| == |child| == |nbChild| && RowsFilled(parent, child, nbChild, g, mc, r, level)
    requires var a := At(g, mc, r, level); begin == a.begin && count == Count(a, mc) <= |row|
    requires forall k | 0 <= k < count :: row[k] == Start(At(g, mc, r, level), mc, k)
    ensures RowsFilled(parent[level + 1 := begin], child[level := row], nbChild[level := count], g, mc, r, level + 1)
  {
    hide At, Start;
    forall l | 0 <= l < level + 1
      ensures Filled(parent[level + 1 := begin], child[level := row], nbChild[level := count], mc, At(g, mc, r, l), l)
    {
      assert l < level ==> Filled(parent, child, nbChild, mc, At(g, mc, r, l), l);
    }
  }

  lemma RowsDone(v: View, size: nat, rank: nat)
    requires rank < size && |v.parent| == |v.child| == |v.nbChild| > v.level && v.parent[0] == 0
    requires v.level == Level(Group(0, size), MaxChildOf(size), rank)
    requires RowsFilled(v.parent, v.child, v.nbChild, Group(0, size), MaxChildOf(size), rank, v.level)
    ensures ViewOk(v, size, rank)
  { }

  // ---------------------------------------------------------------- specification

  function BcastActs(v: View, e: Event, lev: nat, n: nat): seq<Act>
    requires lev < |v.child| && n <= |v.child[lev]|
  {
    if n == 0 then [] else BcastActs(v, e, lev, n - 1) + [SendDown(v.child[lev][n - 1], Msg(e, lev + 1))]
  }

  predicate Fits(v: View) {
    && 1 <= v.level < |v.parent| == |v.child| == |v.nbChild|
    && forall l | 0 <= l < v.level :: v.nbChild[l] <= |v.child[l]|
  }

  function RegisterActs(v: View, e: Event, lev: nat): seq<Act>
    requires 1 <= lev < |v.parent|
  {
    [SendUp(v.parent[lev], Msg(e, lev - 1))]
  }

  /** All the children of level lev have registered e. */
  function CompleteActs(v: View, e: Event, lev: nat): seq<Act>
    requires Fits(v) && lev < v.level
  {
    if lev != 0 then RegisterActs(v, e, lev)
    else if e.schedLevel == v.schedLevel then BcastActs(v, e, 0, v.nbChild[0])
    else [Escalate(e)]
  }

  /** One request from a child: the new recvEvent_ and what to do. */
  function OnUp(v: View, recv: map<Key, nat>, m: Msg): (map<Key, nat>, seq<Act>)
    requires Fits(v) && m.lev < v.level
  {
    var k := Key(m.ev, m.lev);
    var cnt := if k in recv then recv[k] + 1 else 1;
    if cnt == v.nbChild[m.lev] then (recv - {k}, CompleteActs(v, m.ev, m.lev)) else (recv[k := cnt], [])
  }

  /** One request from the parent. */
  function OnDown(v: View, hasChildScheduler: bool, m: Msg): seq<Act>
    requires Fits(v) && m.lev <= v.level
  {
    if m.lev == v.level then (if hasChildScheduler then [Descend(m.ev)] else [Stack(m.ev)])
    else BcastActs(v, m.ev, m.lev, v.nbChild[m.lev])
  }

  predicate UpMsgs(v: View, ms: seq<Msg>) {
    forall m | m in ms :: m.lev < v.level
  }

  predicate DownMsgs(v: View, ms: seq<Msg>) {
    forall m | m in ms :: m.lev <= v.level
  }

  function OnUps(v: View, recv: map<Key, nat>, ms: seq<Msg>): (map<Key, nat>, seq<Act>)
    requires Fits(v) && UpMsgs(v, ms)
  {
    if ms == [] then (recv, []) else
    var (r, a) := OnUps(v, recv, ms[..|ms| - 1]);
    var (r', b) := OnUp(v, r, ms[|ms| - 1]);
    (r', a + b)
  }

  function OnDowns(v: View, has: bool, ms: seq<Msg>): seq<Act>
    requires Fits(v) && DownMsgs(v, ms)
  {
    if ms == [] then [] else
    OnDowns(v, has, ms[..|ms| - 1]) + OnDown(v, has, ms[|ms| - 1])
  }

  /** Treating the requests ms, in this order, leads from recv to r and does a. */
  predicate Outcome(v: View, recv: map<Key, nat>, ms: seq<Msg>, r: map<Key, nat>, a: seq<Act>)
    requires Fits(v)
  {
    UpMsgs(v, ms) && (r, a) == OnUps(v, recv, ms)
  }

  lemma NoUps(v: View, w: View, recv: map<Key, nat>)
    requires Fits(v)
    ensures Outcome(v, recv, [], recv, [])
    ensures Each([], Sent()) == [] && Each([], Escalated(w)) == []
  {}

  lemma NoDowns(v: View, w: View, has: bool)
    requires Fits(v)
    ensures OnDowns(v, has, []) == []
    ensures Each([], Sent()) == [] && Each([], Stacked()) == [] && Each([], Descended(w)) == []
  {}

  /** The messages of `all` are those of q and of r. */
  predicate Splits(all: seq<Msg>, q: seq<Msg>, r: seq<Msg>) {
    multiset(q) + multiset(r) == multiset(all)
  }

  /** Those of the messages that are marked b, in order. */
  function Those(ms: seq<Msg>, marks: seq<bool>, b: bool): seq<Msg>
    requires |ms| == |marks|
  {
    if ms == [] then [] else
    var k := |ms| - 1;
    Those(ms[..k], marks[..k], b) + if marks[k] == b then [ms[k]] else []
  }

  lemma ThoseNext(ms: seq<Msg>, marks: seq<bool>, b: bool, i: nat)
    requires |ms| == |marks| && i < |ms|
    ensures Those(ms[..i + 1], marks[..i + 1], b) == Those(ms[..i], marks[..i], b) + if marks[i] == b then [ms[i]] else []
  {
    assert ms[..i + 1][..i] == ms[..i] && marks[..i + 1][..i] == marks[..i];
  }

  /** All of them, or none, if all are marked alike. */
  lemma {:induction false} ThoseAll(ms: seq<Msg>, marks: seq<bool>, b: bool)
    requires |ms| == |marks| && forall i | 0 <= i < |marks| :: marks[i] == b
    ensures Those(ms, marks, b) == ms && Those(ms, marks, !b) == []
  {
    if ms != [] {
      var k := |ms| - 1;
      ThoseAll(ms[..k], marks[..k], b);
      assert ms == ms[..k] + [ms[k]];
    }
  }

  /** Part by part. */
  lemma {:induction false} ThoseAppend(x: seq<Msg>, y: seq<Msg>, f: seq<bool>, g: seq<bool>, b: bool)
    requires |x| == |f| && |y| == |g|
    ensures Those(x + y, f + g, b) == Those(x, f, b) + Those(y, g, b)
  {
    if y == [] {
      assert x + y == x && f + g == f;
    } else {
      var k := |y| - 1;
      ThoseAppend(x, y[..k], f, g[..k], b);
      assert (x + y)[..|x + y| - 1] == x + y[..k] && (f + g)[..|f + g| - 1] == f + g[..k];
    }
  }

  /** The state at the start of checkChildRequest. */
  datatype UpOrigin = UpOrigin(v: View, w: View, has: bool, all: seq<Msg>, recv: map<Key, nat>, out: seq<Act>, above: seq<Act>)

  /** The state at the start of checkParentRequest. */
  datatype DownOrigin = DownOrigin(v: View, w: View, has: bool, all: seq<Msg>, out: seq<Act>, stack: seq<(nat, nat)>, below: seq<Act>)

  /** Events of other schedulers need a parent scheduler. */
  predicate MayEscalate(v: View, has: bool, ms: seq<Msg>) {
    forall m | m in ms :: m.ev.schedLevel != v.schedLevel ==> has
  }

  lemma TakeOne(v: View, has: bool, q: seq<Msg>, i: nat, taken: seq<Msg>, all: seq<Msg>)
    requires i < |q| && Splits(all, q, taken) && UpMsgs(v, all) && MayEscalate(v, has, all)
    ensures Splits(all, q[..i] + q[i + 1..], taken + [q[i]])
    ensures q[i].lev < v.level && (q[i].ev.schedLevel != v.schedLevel ==> has)
  {
    assert q == q[..i] + [q[i]] + q[i + 1..];
    assert q[i] in multiset(all);
  }

  lemma OnUpsStep(v: View, recv: map<Key, nat>, ms: seq<Msg>, m: Msg, r: map<Key, nat>, a: seq<Act>, r': map<Key, nat>, b: seq<Act>)
    requires Fits(v) && m.lev < v.level && Outcome(v, recv, ms, r, a) && (r', b) == OnUp(v, r, m)
    ensures Outcome(v, recv, ms + [m], r', a + b)
  {
    assert (ms + [m])[..|ms + [m]| - 1] == ms;
  }

  lemma OnDownsStep(v: View, has: bool, ms: seq<Msg>, m: Msg)
    requires Fits(v) && DownMsgs(v, ms) && m.lev <= v.level
    ensures DownMsgs(v, ms + [m]) && OnDowns(v, has, ms + [m]) == OnDowns(v, has, ms) + OnDown(v, has, m)
  {
    assert (ms + [m])[..|ms + [m]| - 1] == ms;
  }

  /** The results of f on all the acts, one after the other. */
  function Each<X>(acts: seq<Act>, f: Act -> seq<X>): seq<X> {
    if acts == [] then [] else Each(acts[..|acts| - 1], f) + f(acts[|acts| - 1])
  }

  lemma EachOne<X>(a: seq<Act>, f: Act -> seq<X>)
    ensures a == [] ==> Each(a, f) == []
    ensures |a| == 1 ==> Each(a, f) == f(a[0])
  {
    if |a| == 1 { assert a[..0] == []; }
  }

  lemma {:induction false} EachAppend<X>(a: seq<Act>, b: seq<Act>, f: Act -> seq<X>)
    ensures Each(a + b, f) == Each(a, f) + Each(b, f)
  {
    if b == [] {
      assert a + b == a;
    } else {
      EachAppend(a, b[..|b| - 1], f);
      assert (a + b)[..|a + b| - 1] == a + b[..|b| - 1];
    }
  }

  /** What the parent scheduler, with view v, does for the acts of a root. */
  function Escalated(v: View): Act -> seq<Act> {
    (a: Act) => if a.Escalate? && Fits(v) then RegisterActs(v, a.ev, v.level) else []
  }

  /** What the child scheduler, with view v, does for the acts of a leaf. */
  function Descended(v: View): Act -> seq<Act> {
    (a: Act) => if a.Descend? && Fits(v) then BcastActs(v, a.ev, 0, v.nbChild[0]) else []
  }

  /** The pairs that the acts push on eventStack_, and the messages they send. */
  function Stacked(): Act -> seq<(nat, nat)> {
    (a: Act) => if a.Stack? then [(a.ev.timeLine, a.ev.hashId)] else []
  }

  function Sent(): Act -> seq<Act> {
    (a: Act) => if a.SendUp? || a.SendDown? then [a] else []
  }

  lemma {:induction false} BcastEach<X>(v: View, e: Event, lev: nat, n: nat, f: Act -> seq<X>)
    requires lev < |v.child| && n <= |v.child[lev]|
    requires forall dst, m :: f(SendDown(dst, m)) == []
    ensures Each(BcastActs(v, e, lev, n), f) == []
  {
    if n > 0 {
      BcastEach(v, e, lev, n - 1, f);
      EachAppend(BcastActs(v, e, lev, n - 1), [SendDown(v.child[lev][n - 1], Msg(e, lev + 1))], f);
    }
  }

  lemma {:induction false} BcastSent(v: View, e: Event, lev: nat, n: nat)
    requires lev < |v.child| && n <= |v.child[lev]|
    ensures Each(BcastActs(v, e, lev, n), Sent()) == BcastActs(v, e, lev, n)
  {
    if n > 0 {
      BcastSent(v, e, lev, n - 1);
      EachAppend(BcastActs(v, e, lev, n - 1), [SendDown(v.child[lev][n - 1], Msg(e, lev + 1))], Sent());
    }
  }

  lemma ViewFits(v: View, size: nat, rank: nat)
    requires ViewOk(v, size, rank)
    ensures Fits(v)
  {
    var mc, g := MaxChildOf(size), Group(0, size);
    LevelIs(g, mc, rank, 0);
    forall l | 0 <= l < v.level ensures v.nbChild[l] <= |v.child[l]| {
      assert Filled(v.parent, v.child, v.nbChild, mc, At(g, mc, rank, l), l);
    }
  }

  lemma CompleteEach(v: View, w: View, e: Event, lev: nat)
    requires Fits(v) && lev < v.level
    ensures Each(CompleteActs(v, e, lev), Sent()) ==
      if lev != 0 then RegisterActs(v, e, lev)
      else if e.schedLevel == v.schedLevel then BcastActs(v, e, 0, v.nbChild[0]) else []
    ensures Each(CompleteActs(v, e, lev), Escalated(w)) ==
      if lev == 0 && e.schedLevel != v.schedLevel && Fits(w) then RegisterActs(w, e, w.level) else []
  {
    hide Each;
    EachOne(CompleteActs(v, e, lev), Sent());
    EachOne(CompleteActs(v, e, lev), Escalated(w));
    BcastSent(v, e, 0, v.nbChild[0]);
    BcastEach(v, e, 0, v.nbChild[0], Escalated(w));
  }

  /** The acts of OnDown, apart. */
  lemma DownSends(v: View, m: Msg, has: bool, w: View)
    requires Fits(v) && m.lev <= v.level
    ensures var acts := OnDown(v, has, m);
      if m.lev < v.level then
        && Each(acts, Sent()) == BcastActs(v, m.ev, m.lev, v.nbChild[m.lev])
        && Each(acts, Descended(w)) == [] && Each(acts, Stacked()) == []
      else
        && Each(acts, Sent()) == []
        && Each(acts, Descended(w)) == (if has && Fits(w) then BcastActs(w, m.ev, 0, w.nbChild[0]) else [])
        && Each(acts, Stacked()) == if has then [] else [(m.ev.timeLine, m.ev.hashId)]
  {
    hide Each;
    var acts := OnDown(v, has, m);
    EachOne(acts, Sent());
    EachOne(acts, Descended(w));
    EachOne(acts, Stacked());
    if m.lev < v.level {
      BcastSent(v, m.ev, m.lev, v.nbChild[m.lev]);
      BcastEach(v, m.ev, m.lev, v.nbChild[m.lev], Descended(w));
      BcastEach(v, m.ev, m.lev, v.nbChild[m.lev], Stacked());
    }
  }

  // ---------------------------------------------------------------- the class

  class Scheduler {
    const size: nat
    const rank: nat
    const schedulerLevel: nat

    var level: nat
    var parent: seq<nat>
    var child: seq<seq<nat>>
    var nbChild: seq<nat>

    var eventStack: seq<(nat, nat)>
    var pendingRecvParent: seq<Msg>
    var pendingRecvChild: seq<Msg>
    var recvEvent: map<Key, nat>
    var outbox: seq<Act>  // the MPI_Isend calls made so far
    ghost var popped: seq<(nat, nat)>  // the events taken from eventStack so far

    var parentScheduler: Scheduler?
    var childScheduler: Scheduler?

    function TheView(): View
      reads `level, `parent, `child, `nbChild
    {
      View(level, parent, child, nbChild, schedulerLevel)
    }

    /** Builds the tree: from the size and its own rank only, every process gets the groups of At. */
    constructor (size: nat, rank: nat, schedulerLevel: nat)
      requires rank < size
      ensures this.size == size && this.rank == rank && this.schedulerLevel == schedulerLevel
      ensures ViewOk(TheView(), size, rank) && Fits(TheView())
      ensures eventStack == [] && pendingRecvParent == [] && pendingRecvChild == []
      ensures recvEvent == map[] && outbox == []
      ensures parentScheduler == null && childScheduler == null
    {
      this.size, this.rank, this.schedulerLevel := size, rank, schedulerLevel;
      parentScheduler, childScheduler := null, null;
      eventStack, pendingRecvParent, pendingRecvChild, recvEvent, outbox, popped := [], [], [], map[], [], [];
      new;
      Initialize();
    }

    method Initialize()
      requires rank < size
      modifies `level, `parent, `child, `nbChild
      ensures ViewOk(TheView(), size, rank) && Fits(TheView())
    {
      hide Next, SlotFrom, Start, Pow, Filled, RowsFilled, ViewOk;
      var maxChild := SchedulerTree.MaxChild(size);
      var maxLevel := SchedulerTree.MaxLevel(size, maxChild);
      ghost var g0 := Group(0, size);
      DepthBound(g0, maxChild, rank, maxLevel);
      LevelIs(g0, maxChild, rank, 0);

      parent := seq(maxLevel + 1, _ => 0);
      child := seq(maxLevel + 1, _ => seq(maxChild, _ => 0));
      nbChild := seq(maxLevel + 1, _ => 0);
      level := 0;
      NoRows(parent, child, nbChild, g0, maxChild, rank);
      var begin: nat, end: int, nb: nat := 0, size - 1, size;
      while level == 0 || nb > 1
        invariant |parent| == |child| == |nbChild| == maxLevel + 1
        invariant level <= Level(g0, maxChild, rank)
        invariant forall l | 0 <= l < |child| :: |child[l]| == maxChild
        invariant parent[0] == 0
        invariant Group(begin, nb) == At(g0, maxChild, rank, level) && end == begin + nb - 1
        invariant level > 0 && nb <= 1 ==> level == Level(g0, maxChild, rank)
        invariant RowsFilled(parent, child, nbChild, g0, maxChild, rank, level)
        decreases Level(g0, maxChild, rank) - level
      {
        AtIn(g0, maxChild, rank, level);
        LevelIs(g0, maxChild, rank, level);
        ghost var parent0, child0, nbChild0 := parent, child, nbChild;
        parent := parent[level + 1 := begin];
        var row, count;
        begin, end, row, count := Divide(begin, end, child[level]);
        child := child[level := row];
        nbChild := nbChild[level := count];
        RowFilled(parent0, child0, nbChild0, g0, maxChild, rank, level, At(g0, maxChild, rank, level).begin, row, count);
        nb := end - begin + 1;
        level := level + 1;
        LevelIs(g0, maxChild, rank, level);
      }
      RowsDone(TheView(), size, rank);
      ViewFits(TheView(), size, rank);
    }

    /** The inner loop of initialize: the child list of the group begin0..end0, and the next group of
        this rank. */
    method Divide(begin0: nat, end0: int, row0: seq<nat>) returns (begin: nat, end: int, row: seq<nat>, count: nat)
      requires |row0| >= 2 && begin0 <= rank <= end0
      ensures var g := Group(begin0, end0 - begin0 + 1);
        && begin <= end + 1 && Group(begin, end - begin + 1) == Next(g, |row0|, rank)
        && count == Count(g, |row0|) && |row| == |row0|
        && (forall k | 0 <= k < count :: row[k] == Start(g, |row0|, k))
    {
      hide Next, SlotFrom, At, Start;
      var maxChild := |row0|;
      begin, end, row, count := begin0, end0, row0, 0;
      var nb: nat := end - begin + 1;
      ghost var g := Group(begin0, nb);
      Partition(g, maxChild);
      DivStep(nb, maxChild);
      StartStep(g, maxChild, 0);
      var pos: nat := begin;
      var i := 0;
      while i < maxChild && i < nb
        invariant 0 <= i == count <= Count(g, maxChild)
        invariant pos == Start(g, maxChild, i) && |row| == maxChild
        invariant forall k | 0 <= k < i :: row[k] == Start(g, maxChild, k)
        invariant if rank < pos then begin <= end + 1 && Group(begin, end - begin + 1) == Next(g, maxChild, rank)
                  else begin == begin0 && end == end0
      {
        var n := if i < nb % maxChild then nb / maxChild + 1 else nb / maxChild;
        if rank >= pos && rank < pos + n {
          begin := pos;
          end := pos + n - 1;
          NextIs(g, maxChild, rank, i);
        }
        StartStep(g, maxChild, i);
        row := row[i := pos];
        pos := pos + n;
        count := count + 1;
        i := i + 1;
      }
    }

    function Parents(): set<Scheduler>
      reads this
    {
      if parentScheduler == null then {} else {parentScheduler}
    }

    function Children(): set<Scheduler>
      reads this
    {
      if childScheduler == null then {} else {childScheduler}
    }

    /** This process, and the schedulers it is linked to, are initialized. */
    ghost predicate Ready()
      reads this, parentScheduler, childScheduler
    {
      && Fits(TheView())
      && (parentScheduler != null ==> parentScheduler != this && Fits(parentScheduler.TheView()))
      && (childScheduler != null ==> childScheduler != this && Fits(childScheduler.TheView()))
    }

    /** Registers an event at level lev: a request to the parent of that level. */
    method RegisterAt(e: Event, lev: nat)
      requires Fits(TheView()) && 1 <= lev <= level
      modifies `outbox
      ensures outbox == old(outbox) + RegisterActs(TheView(), e, lev)
    {
      outbox := outbox + [SendUp(parent[lev], Msg(e, lev - 1))];
    }

    /** Registers an event of some scheduler as a leaf of this one. */
    method RegisterEvent(e: Event)
      requires Fits(TheView())
      modifies `outbox
      ensures outbox == old(outbox) + RegisterActs(TheView(), e, level)
    {
      RegisterAt(e, level);
    }

    method BcastEvent(e: Event, lev: nat)
      requires Fits(TheView()) && lev < level
      modifies `outbox
      ensures outbox == old(outbox) + BcastActs(TheView(), e, lev, nbChild[lev])
    {
      for i := 0 to nbChild[lev]
        invariant outbox == old(outbox) + BcastActs(TheView(), e, lev, i)
      {
        outbox := outbox + [SendDown(child[lev][i], Msg(e, lev + 1))];
      }
    }

    /** All children have registered e at level lev: broadcast it, or register it further up. */
    method Complete(e: Event, lev: nat) returns (ghost acts: seq<Act>)
      requires Ready() && lev < level
      requires e.schedLevel != schedulerLevel ==> parentScheduler != null
      modifies `outbox, Parents()`outbox
      ensures acts == CompleteActs(TheView(), e, lev)
      ensures outbox == old(outbox) + Each(acts, Sent())
      ensures parentScheduler != null ==>
        parentScheduler.outbox == old(parentScheduler.outbox) + Each(acts, Escalated(parentScheduler.TheView()))
    {
      ghost var v := TheView();
      acts := CompleteActs(v, e, lev);
      CompleteEach(v, if parentScheduler != null then parentScheduler.TheView() else v, e, lev);
      hide Each, BcastActs, CompleteActs, Escalated, Sent;
      if lev != 0 {
        RegisterAt(e, lev);
      } else if e.schedLevel == schedulerLevel {
        BcastEvent(e, 0);
      } else {
        parentScheduler.RegisterEvent(e);
      }
    }

    /** One received request of checkChildRequest. */
    method TreatUp(m: Msg) returns (ghost acts: seq<Act>)
      requires Ready() && m.lev < level
      requires m.ev.schedLevel != schedulerLevel ==> parentScheduler != null
      modifies `outbox, `recvEvent, Parents()`outbox
      ensures (recvEvent, acts) == OnUp(TheView(), old(recvEvent), m)
      ensures outbox == old(outbox) + Each(acts, Sent())
      ensures parentScheduler != null ==>
        parentScheduler.outbox == old(parentScheduler.outbox) + Each(acts, Escalated(parentScheduler.TheView()))
    {
      hide CompleteActs, Sent, Escalated;
      acts := [];
      EachOne(acts, Sent());
      if parentScheduler != null { EachOne(acts, Escalated(parentScheduler.TheView())); }
      hide Each;
      var key := Key(m.ev, m.lev);
      if key !in recvEvent {
        recvEvent := recvEvent[key := 1];
      } else {
        recvEvent := recvEvent[key := recvEvent[key] + 1];
      }
      if recvEvent[key] == nbChild[m.lev] {
        acts := Complete(m.ev, m.lev);
        recvEvent := recvEvent - {key};
        assert recvEvent == old(recvEvent) - {key};
      }
    }

    /** Receives the requests `incoming`, then tests the reception of every request of the list once, in list order,
        with the outcomes `ready`: the complete ones are treated and leave the list, the others stay. */
    method CheckChildRequest(incoming: seq<Msg>, ready: seq<bool>) returns (ghost taken: seq<Msg>, ghost acts: seq<Act>)
      requires Ready() && UpMsgs(TheView(), pendingRecvChild + incoming)
      requires MayEscalate(TheView(), parentScheduler != null, pendingRecvChild + incoming)
      requires |ready| == |pendingRecvChild + incoming|
      modifies `outbox, `recvEvent, `pendingRecvChild, Parents()`outbox
      ensures taken == Those(old(pendingRecvChild) + incoming, ready, true)
      ensures pendingRecvChild == Those(old(pendingRecvChild) + incoming, ready, false)
      ensures Splits(old(pendingRecvChild) + incoming, pendingRecvChild, taken)
      ensures Outcome(TheView(), old(recvEvent), taken, recvEvent, acts)
      ensures outbox == old(outbox) + Each(acts, Sent())
      ensures parentScheduler != null ==>
        parentScheduler.outbox == old(parentScheduler.outbox) + Each(acts, Escalated(parentScheduler.TheView()))
    {
      hide OnUp, BcastActs, Each, OnUps, Sent, Escalated, Outcome, Splits, Those, Tested, UpSoFar, Fits, UpMsgs, MayEscalate;
      ghost var o := UpOrigin(TheView(), if parentScheduler != null then parentScheduler.TheView() else TheView(),
        parentScheduler != null, pendingRecvChild + incoming, recvEvent, outbox,
        if parentScheduler != null then parentScheduler.outbox else []);
      pendingRecvChild := pendingRecvChild + incoming;
      taken, acts := [], [];
      var it := 0;
      NothingTested(o, ready);
      StartsHere(o);
      for i := 0 to |ready|
        invariant UpSoFar(o, taken, acts) && Tested(o, ready, i, it, taken)
      {
        it, taken, acts := TestOne(i, it, o, ready, taken, acts);
      }
      AllTested(o, ready, it, taken);
      UpDone(o, taken, acts);
    }

    /** The first i requests have been tested: those before position it of the list stay. */
    ghost predicate Tested(o: UpOrigin, ready: seq<bool>, i: nat, it: nat, taken: seq<Msg>)
      reads `pendingRecvChild
    {
      && i <= |ready| == |o.all|
      && var kept := Those(o.all[..i], ready[..i], false);
        it == |kept| && pendingRecvChild == kept + o.all[i..] && taken == Those(o.all[..i], ready[..i], true)
    }

    lemma NothingTested(o: UpOrigin, ready: seq<bool>)
      requires |ready| == |o.all| && pendingRecvChild == o.all
      ensures Tested(o, ready, 0, 0, [])
    {
      assert o.all[..0] == [] && ready[..0] == [] && [] + o.all[0..] == o.all;
    }

    lemma AllTested(o: UpOrigin, ready: seq<bool>, it: nat, taken: seq<Msg>)
      requires Tested(o, ready, |ready|, it, taken)
      ensures taken == Those(o.all, ready, true) && pendingRecvChild == Those(o.all, ready, false)
    {
      assert o.all[..|ready|] == o.all && ready[..|ready|] == ready;
    }

    lemma StartsHere(o: UpOrigin)
      requires Ready() && TheView() == o.v && o.has == (parentScheduler != null) && (o.has ==> parentScheduler.TheView() == o.w)
      requires UpMsgs(o.v, o.all) && MayEscalate(o.v, o.has, o.all) && pendingRecvChild == o.all && recvEvent == o.recv
      requires outbox == o.out && (o.has ==> parentScheduler.outbox == o.above)
      ensures UpSoFar(o, [], [])
    {
      NoUps(o.v, o.w, o.recv);
    }

    lemma UpDone(o: UpOrigin, taken: seq<Msg>, acts: seq<Act>)
      requires UpSoFar(o, taken, acts)
      ensures Splits(o.all, pendingRecvChild, taken) && Fits(o.v) && Outcome(o.v, o.recv, taken, recvEvent, acts)
      ensures outbox == o.out + Each(acts, Sent()) && TheView() == o.v && o.has == (parentScheduler != null)
      ensures o.has ==> parentScheduler.outbox == o.above + Each(acts, Escalated(o.w)) && parentScheduler.TheView() == o.w
    { }

    /** One test of a reception. */
    method TestOne(i: nat, it0: nat, ghost o: UpOrigin, ready: seq<bool>, ghost taken0: seq<Msg>, ghost acts0: seq<Act>)
        returns (it: nat, ghost taken: seq<Msg>, ghost acts: seq<Act>)
      requires UpSoFar(o, taken0, acts0) && Tested(o, ready, i, it0, taken0) && i < |ready|
      modifies `outbox, `recvEvent, `pendingRecvChild, Parents()`outbox
      ensures UpSoFar(o, taken, acts) && Tested(o, ready, i + 1, it, taken)
    {
      hide OnUp, BcastActs, Each, OnUps, Sent, Escalated, Outcome, Splits, Those, UpSoFar;
      ThoseNext(o.all, ready, true, i);
      ThoseNext(o.all, ready, false, i);
      OneLess(Those(o.all[..i], ready[..i], false), o.all, i);
      var received := ready[i];
      if received {
        it := it0;
        taken, acts := TreatAt(it, o, taken0, acts0);
      } else {
        it, taken, acts := it0 + 1, taken0, acts0;
      }
    }

    /** The request that is tested stands behind those that stay. */
    lemma OneLess(kept: seq<Msg>, all: seq<Msg>, i: nat)
      requires i < |all|
      ensures var q := kept + all[i..];
        && |kept| < |q| && q[|kept|] == all[i] && q[..|kept|] + q[|kept| + 1..] == kept + all[i + 1..]
        && q == (kept + [all[i]]) + all[i + 1..]
    {
      assert all[i..] == [all[i]] + all[i + 1..];
    }

    /** Where checkChildRequest stands, from its start o. */
    ghost predicate UpSoFar(o: UpOrigin, taken: seq<Msg>, acts: seq<Act>)
      reads this, parentScheduler, childScheduler
    {
      && Ready() && TheView() == o.v && o.has == (parentScheduler != null)
      && (o.has ==> parentScheduler.TheView() == o.w)
      && UpMsgs(o.v, o.all) && MayEscalate(o.v, o.has, o.all)
      && Splits(o.all, pendingRecvChild, taken)
      && Outcome(o.v, o.recv, taken, recvEvent, acts)
      && outbox == o.out + Each(acts, Sent())
      && (o.has ==> parentScheduler.outbox == o.above + Each(acts, Escalated(o.w)))
    }

    /** The request at a position of the list is treated, and leaves the list. */
    method TreatAt(it: nat, ghost o: UpOrigin, ghost taken0: seq<Msg>, ghost acts0: seq<Act>)
        returns (ghost taken: seq<Msg>, ghost acts: seq<Act>)
      requires UpSoFar(o, taken0, acts0) && it < |pendingRecvChild|
      modifies `outbox, `recvEvent, `pendingRecvChild, Parents()`outbox
      ensures UpSoFar(o, taken, acts) && taken == taken0 + [old(pendingRecvChild)[it]]
      ensures pendingRecvChild == old(pendingRecvChild)[..it] + old(pendingRecvChild)[it + 1..]
    {
      hide OnUp, BcastActs, Fits, Each, OnUps, Sent, Escalated, Outcome, Splits, UpMsgs, MayEscalate;
      var m := pendingRecvChild[it];
      TakeOne(o.v, o.has, pendingRecvChild, it, taken0, o.all);
      pendingRecvChild := pendingRecvChild[..it] + pendingRecvChild[it + 1..];
      ghost var recv1 := recvEvent;
      ghost var more := TreatUp(m);
      EachAppend(acts0, more, Sent());
      EachAppend(acts0, more, Escalated(o.w));
      OnUpsStep(o.v, o.recv, taken0, m, recv1, acts0, recvEvent, more);
      taken, acts := taken0 + [m], acts0 + more;
    }

    /** queryEvent_: is this event the next one? */
    method QueryEvent(timeLine: nat, hashId: nat) returns (next: bool)
      ensures next <==> [(timeLine, hashId)] <= eventStack
    {
      next := eventStack != [] && eventStack[0].0 == timeLine && eventStack[0].1 == hashId;
    }

    /** popEvent_, after queryEvent has said yes: the process has gone one event further in its log. */
    method PopEvent()
      requires eventStack != []
      modifies `eventStack, `popped
      ensures popped + eventStack == old(popped) + old(eventStack) && |popped| == |old(popped)| + 1
    {
      assert eventStack == [eventStack[0]] + eventStack[1..];
      popped := popped + [eventStack[0]];
      eventStack := eventStack[1..];
    }

    /** One completed request of checkParentRequest. */
    method TreatDown(m: Msg) returns (ghost acts: seq<Act>)
      requires Ready() && m.lev <= level
      modifies `outbox, `eventStack, Children()`outbox
      ensures acts == OnDown(TheView(), childScheduler != null, m)
      ensures outbox == old(outbox) + Each(acts, Sent())
      ensures eventStack == old(eventStack) + Each(acts, Stacked())
      ensures childScheduler != null ==>
        childScheduler.outbox == old(childScheduler.outbox) + Each(acts, Descended(childScheduler.TheView()))
    {
      hide Each, BcastActs, Sent, Stacked, Descended;
      acts := OnDown(TheView(), childScheduler != null, m);
      DownSends(TheView(), m, childScheduler != null, if childScheduler != null then childScheduler.TheView() else TheView());
      if m.lev == level {
        if childScheduler != null {
          childScheduler.BcastEvent(m.ev, 0);
        } else {
          eventStack := eventStack + [(m.ev.timeLine, m.ev.hashId)];
        }
      } else {
        BcastEvent(m.ev, m.lev);
      }
    }

    /** Receives `incoming`, then treats requests from the front of the queue, with the outcomes `ready` of the tests of
        their receptions, up to the first that is not complete. */
    method CheckParentRequest(incoming: seq<Msg>, ready: seq<bool>) returns (ghost taken: seq<Msg>, ghost acts: seq<Act>)
      requires Ready() && DownMsgs(TheView(), pendingRecvParent + incoming)
      requires |ready| == |pendingRecvParent + incoming|
      modifies `outbox, `eventStack, `pendingRecvParent, Children()`outbox
      ensures old(pendingRecvParent) + incoming == taken + pendingRecvParent
      ensures |taken| <= |ready| && forall i | 0 <= i < |taken| :: ready[i]
      ensures |taken| < |ready| ==> !ready[|taken|]
      ensures DownMsgs(TheView(), taken) && acts == OnDowns(TheView(), childScheduler != null, taken)
      ensures outbox == old(outbox) + Each(acts, Sent())
      ensures eventStack == old(eventStack) + Each(acts, Stacked())
      ensures childScheduler != null ==>
        childScheduler.outbox == old(childScheduler.outbox) + Each(acts, Descended(childScheduler.TheView()))
    {
      hide OnDown, BcastActs, Each, OnDowns, Sent, Stacked, Descended, DownSoFar, Fits, DownMsgs;
      ghost var o := DownOrigin(TheView(), if childScheduler != null then childScheduler.TheView() else TheView(),
        childScheduler != null, pendingRecvParent + incoming, outbox, eventStack,
        if childScheduler != null then childScheduler.outbox else []);
      pendingRecvParent := pendingRecvParent + incoming;
      taken, acts := [], [];
      var completed := true;
      var i := 0;
      DownStarts(o);
      while pendingRecvParent != [] && completed
        invariant DownSoFar(o, taken, acts) && i == |taken|
        invariant |taken| + |pendingRecvParent| == |ready|
        invariant forall k | 0 <= k < |taken| :: ready[k]
        invariant !completed ==> i < |ready| && !ready[i]
        decreases |pendingRecvParent|, completed
      {
        completed := ready[i];
        if completed {
          taken, acts := TreatFront(o, taken, acts);
          i := i + 1;
        }
      }
      DownDone(o, taken, acts);
    }

    lemma DownStarts(o: DownOrigin)
      requires Ready() && TheView() == o.v && o.has == (childScheduler != null) && (o.has ==> childScheduler.TheView() == o.w)
      requires DownMsgs(o.v, o.all) && pendingRecvParent == o.all && outbox == o.out && eventStack == o.stack
      requires o.has ==> childScheduler.outbox == o.below
      ensures DownSoFar(o, [], [])
    {
      NoDowns(o.v, o.w, o.has);
    }

    lemma DownDone(o: DownOrigin, taken: seq<Msg>, acts: seq<Act>)
      requires DownSoFar(o, taken, acts)
      ensures o.all == taken + pendingRecvParent && Fits(o.v) && DownMsgs(o.v, taken) && acts == OnDowns(o.v, o.has, taken)
      ensures TheView() == o.v && o.has == (childScheduler != null) && (o.has ==> childScheduler.TheView() == o.w)
      ensures outbox == o.out + Each(acts, Sent()) && eventStack == o.stack + Each(acts, Stacked())
      ensures o.has ==> childScheduler.outbox == o.below + Each(acts, Descended(o.w))
    { }

    /** Where checkParentRequest stands, from its start o. */
    ghost predicate DownSoFar(o: DownOrigin, taken: seq<Msg>, acts: seq<Act>)
      reads this, parentScheduler, childScheduler
    {
      && Ready() && TheView() == o.v && o.has == (childScheduler != null) && (o.has ==> childScheduler.TheView() == o.w)
      && DownMsgs(o.v, o.all) && o.all == taken + pendingRecvParent
      && DownMsgs(o.v, taken) && acts == OnDowns(o.v, o.has, taken)
      && outbox == o.out + Each(acts, Sent())
      && eventStack == o.stack + Each(acts, Stacked())
      && (o.has ==> childScheduler.outbox == o.below + Each(acts, Descended(o.w)))
    }

    /** The request at the front of the queue is treated, and leaves the queue. */
    method TreatFront(ghost o: DownOrigin, ghost taken0: seq<Msg>, ghost acts0: seq<Act>)
        returns (ghost taken: seq<Msg>, ghost acts: seq<Act>)
      requires DownSoFar(o, taken0, acts0) && pendingRecvParent != []
      modifies `outbox, `eventStack, `pendingRecvParent, Children()`outbox
      ensures DownSoFar(o, taken, acts) && |pendingRecvParent| == |old(pendingRecvParent)| - 1 && |taken| == |taken0| + 1
    {
      hide OnDown, BcastActs, Fits, Each, OnDowns, Sent, Stacked, Descended;
      var m := pendingRecvParent[0];
      assert m in o.all;
      pendingRecvParent := pendingRecvParent[1..];
      ghost var more := TreatDown(m);
      EachAppend(acts0, more, Sent());
      EachAppend(acts0, more, Stacked());
      EachAppend(acts0, more, Descended(o.w));
      OnDownsStep(o.v, o.has, taken0, m);
      taken, acts := taken0 + [m], acts0 + more;
    }
  }
}
