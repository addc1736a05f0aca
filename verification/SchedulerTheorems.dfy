/** What the protocol promises, for every run: one order, a barrier, nothing lost, nothing twice. */
module SchedulerTheorems {
  import opened SchedulerProtocol
  import opened SchedulerProof

  /** Node n lies in the subtree of a (or is a). */
  ghost predicate Under(t: Topo, a: Node, n: Node)
    requires WellFormed(t) && n in t.kids
    decreases t.depth[n]
  {
    n == a || (n in t.par && (assert EdgeOk(t, n); Under(t, a, t.par[n])))
  }

  ghost predicate Leaf(t: Topo, n: Node) {
    n in t.kids && t.kids[n] == []
  }

  /** Every process below a has registered e. */
  ghost predicate AllRegistered(t: Topo, s: State, a: Node, e: Event)
    requires WellFormed(t)
  {
    forall m | Leaf(t, m) && Under(t, a, m) :: (m, e) in s.told
  }

  /** Nothing is on its way or waiting to be treated. */
  ghost predicate Quiet(s: State) {
    && s.up == multiset{}
    && (forall ch :: Down(s.down, ch) == [])
    && (forall p :: Pend(s.pend, p) == [])
  }

  // ---------------------------------------------------------------- one order

  lemma {:induction false} UnderTier(t: Topo, a: Node, n: Node)
    requires WellFormed(t) && n in t.kids && a in t.kids && Under(t, a, n)
    ensures t.tier[a] <= t.tier[n] && t.depth[a] <= t.depth[n]
    decreases t.depth[n]
  {
    if n != a {
      assert EdgeOk(t, n);
      UnderTier(t, a, t.par[n]);
    }
  }

  /** Restricted to the schedulers at or above a, what n has seen is a prefix of what a has ordered. */
  lemma {:induction false} PrefixOf(t: Topo, s: State, a: Node, n: Node)
    requires Inv(t, s) && n in t.kids && a in t.kids && Under(t, a, n)
    ensures Sel(t.tier[a], s.done[n]) <= s.done[a]
    decreases t.depth[n]
  {
    hide InvUp, InvSent, InFlight, Sel;
    if n == a {
      assert DoneOk(t, s.done, a);
      SelAll(t.tier[a], s.done[a]);
    } else {
      var p := t.par[n];
      assert EdgeOk(t, n) && DownOk(t, s.pend, s.down, s.done, n);
      PrefixOf(t, s, a, p);
      UnderTier(t, a, p);
      SelSel(t.tier[a], t.tier[p], s.done[n]);
      SelAppend(t.tier[a], Sel(t.tier[p], s.done[n]), InFlight(t, s.pend, s.down, n));
    }
  }

  /** Two logs agree on the events of the schedulers of level at most k. */
  predicate SameOrder(k: int, x: seq<Event>, y: seq<Event>) {
    Sel(k, x) <= Sel(k, y) || Sel(k, y) <= Sel(k, x)
  }

  /** Total order.  After any run, any two nodes below a (in particular any two processes) have seen the
      events of the schedulers at or above a in one common order, the one that a has fixed or passed on.
      With a the top node this orders the events of the top scheduler over all processes; with a the
      root of a child scheduler, it orders the whole interleaving of its processes. */
  lemma TotalOrder(t: Topo, run: seq<Step>, a: Node, m: Node, n: Node)
    requires WellFormed(t) && Legal(t, Init(t), run)
    requires a in t.kids && m in t.kids && n in t.kids && Under(t, a, m) && Under(t, a, n)
    ensures Final(t, Init(t), run).done.Keys == t.kids.Keys
    ensures Sel(t.tier[a], Final(t, Init(t), run).done[m]) <= Final(t, Init(t), run).done[a]
    ensures SameOrder(t.tier[a], Final(t, Init(t), run).done[m], Final(t, Init(t), run).done[n])
  {
    InitInv(t);
    RunInv(t, Init(t), run);
    Agreement(t, Final(t, Init(t), run), a, m, n);
  }

  lemma LogsHere(t: Topo, s: State, a: Node, m: Node, n: Node)
    requires Inv(t, s) && a in t.kids && m in t.kids && n in t.kids
    ensures a in t.tier && a in s.done && m in s.done && n in s.done
  {
    hide InvUp, InvDown, InvSent;
  }

  lemma Agreement(t: Topo, s: State, a: Node, m: Node, n: Node)
    requires Inv(t, s) && a in t.kids && m in t.kids && n in t.kids && Under(t, a, m) && Under(t, a, n)
    ensures Sel(t.tier[a], s.done[m]) <= s.done[a] && SameOrder(t.tier[a], s.done[m], s.done[n])
  {
    hide Inv, WellFormed, Sel, Under, SameOrder;
    LogsHere(t, s, a, m, n);
    PrefixOf(t, s, a, m);
    PrefixOf(t, s, a, n);
    PrefixesAgree(t.tier[a], s.done[m], s.done[n], s.done[a]);
  }

  lemma PrefixesAgree(k: int, x: seq<Event>, y: seq<Event>, z: seq<Event>)
    requires Sel(k, x) <= z && Sel(k, y) <= z
    ensures SameOrder(k, x, y)
  {
    hide Sel;
    assert Sel(k, x) == z[..|Sel(k, x)|] && Sel(k, y) == z[..|Sel(k, y)|];
  }

  // ---------------------------------------------------------------- barrier

  /** The node that fixes the position of e for n's part of the tree. */
  ghost function Decider(t: Topo, n: Node, e: Event): (a: Node)
    requires WellFormed(t) && n in t.kids && t.tier[t.top] <= e.schedLevel <= t.tier[n]
    ensures a in t.kids && Turns(t, a, e) && Under(t, a, n)
    decreases t.depth[n]
  {
    if Turns(t, n, e) then n else (assert EdgeOk(t, n); Decider(t, t.par[n], e))
  }

  lemma {:induction false} DecidedFirst(t: Topo, s: State, n: Node, e: Event)
    requires Inv(t, s) && n in t.kids && e in s.done[n]
    ensures t.tier[t.top] <= e.schedLevel <= t.tier[n] && e in s.done[Decider(t, n, e)]
    decreases t.depth[n]
  {
    hide InvUp, InvSent, InFlight, Sel;
    assert DoneOk(t, s.done, n);
    if !Turns(t, n, e) {
      assert EdgeOk(t, n) && DownOk(t, s.pend, s.down, s.done, n);
      SelIn(t.tier[t.par[n]], s.done[n], e);
      DecidedFirst(t, s, t.par[n], e);
    }
  }

  /** A node that is done with e has heard from everything below it. */
  lemma {:induction false} ToldBelow(t: Topo, s: State, a: Node, n: Node, e: Event)
    requires Inv(t, s) && a in t.kids && n in t.kids && Under(t, a, n)
    requires Fin(t, s.told, s.done, a, e) && e.schedLevel <= t.tier[a]
    ensures n != a ==> (n, e) in s.told
    decreases t.depth[n]
  {
    hide InvDown, InvSent, Cnt;
    if n != a {
      var p := t.par[n];
      assert EdgeOk(t, n);
      ToldBelow(t, s, a, p, e);
      UnderTier(t, a, p);
      assert p != a ==> t.tier[t.par[p]] >= e.schedLevel;
      assert p != a ==> EdgeOk(t, p);
      assert UpOk(t, s.up, s.recv, s.told, s.done, p, e);
      CntBound(t.kids[p], s.told, e);
    }
  }

  /** A leaf has reported exactly the events that its process has registered. */
  lemma {:induction false} LeafTold(t: Topo, s: State, run: seq<Step>, m: Node, e: Event)
    requires Inv(t, s) && Legal(t, s, run) && Leaf(t, m)
    ensures (m, e) in Final(t, s, run).told <==> (m, e) in s.told || Register(m, e) in run
    decreases |run|
  {
    hide InvUp, InvDown, InvSent, Do, Leaf, Enabled;
    if run != [] {
      StepInv(t, s, run[0]);
      LeafTold(t, Do(t, s, run[0]), run[1..], m, e);
      StepTold(t, s, run[0], m, e);
      assert run == [run[0]] + run[1..];
    }
  }

  lemma StepTold(t: Topo, s: State, step: Step, m: Node, e: Event)
    requires Inv(t, s) && Enabled(t, s, step) && Leaf(t, m)
    ensures (m, e) in Do(t, s, step).told <==> (m, e) in s.told || step == Register(m, e)
  {
    hide InvUp, InvDown, InvSent, PushAll, Edges;
    match step
    case TakeUp(n, x) =>
      NotYet(t, s, n, x);
    case _ =>
  }

  /** Barrier, exactly once.  After any run, an event in the log of n has been registered by every
      process of its scheduler, and stands in the log only once. */
  lemma Barrier(t: Topo, run: seq<Step>, n: Node, e: Event)
    requires WellFormed(t) && Legal(t, Init(t), run) && n in t.kids
    requires var s := Final(t, Init(t), run); n in s.done && e in s.done[n]
    ensures Distinct(Final(t, Init(t), run).done[n])
    ensures t.tier[t.top] <= e.schedLevel <= t.tier[n]
    ensures forall m | Leaf(t, m) && Under(t, Decider(t, n, e), m) :: Register(m, e) in run
  {
    InitInv(t);
    RunInv(t, Init(t), run);
    var s := Final(t, Init(t), run);
    assert DoneOk(t, s.done, n);
    DecidedFirst(t, s, n, e);
    var a := Decider(t, n, e);
    forall m | Leaf(t, m) && Under(t, a, m) ensures Register(m, e) in run {
      assert KidsOk(t, a);
      ToldBelow(t, s, a, m, e);
      LeafTold(t, Init(t), run, m, e);
    }
  }

  // ---------------------------------------------------------------- nothing lost

  ghost function Deeper(t: Topo, n: Node): set<Node>
    requires WellFormed(t) && n in t.kids
  {
    set m | m in t.kids && t.depth[m] > t.depth[n]
  }

  /** With no registration under way, a node whose processes have all registered is done collecting. */
  lemma {:induction false} Collected(t: Topo, s: State, a: Node, n: Node, e: Event)
    requires Inv(t, s) && s.up == multiset{} && a in t.kids && n in t.kids && Under(t, a, n)
    requires Turns(t, a, e) && AllRegistered(t, s, a, e)
    ensures Fin(t, s.told, s.done, n, e)
    decreases Deeper(t, n)
  {
    hide InvDown, InvSent, Cnt;
    assert KidsOk(t, n);
    if t.kids[n] != [] {
      forall c | c in t.kids[n] ensures (c, e) in s.told {
        assert EdgeOk(t, c);
        assert c in Deeper(t, n) && c !in Deeper(t, c);
        Collected(t, s, a, c, e);
        UnderTier(t, a, n);
      }
      CntBound(t.kids[n], s.told, e);
      assert UpOk(t, s.up, s.recv, s.told, s.done, n, e);
    }
  }

  lemma {:induction false} Spread(t: Topo, s: State, a: Node, n: Node, e: Event)
    requires Inv(t, s) && Quiet(s) && a in t.kids && n in t.kids && Under(t, a, n)
    requires e in s.done[a]
    ensures e in s.done[n]
    decreases t.depth[n]
  {
    hide InvUp, InvSent, Sel;
    if n != a {
      assert EdgeOk(t, n) && DownOk(t, s.pend, s.down, s.done, n);
      Spread(t, s, a, t.par[n], e);
      SelIn(t.tier[t.par[n]], s.done[n], e);
    }
  }

  /** Nothing lost.  When nothing is under way, an event registered by all processes of its scheduler is
      in all their logs (once, by Barrier), and has cost one message up and one down on every edge. */
  lemma NothingLost(t: Topo, run: seq<Step>, a: Node, e: Event)
    requires WellFormed(t) && Legal(t, Init(t), run) && Quiet(Final(t, Init(t), run))
    requires a in t.kids && Turns(t, a, e) && AllRegistered(t, Final(t, Init(t), run), a, e)
    ensures var s := Final(t, Init(t), run);
      forall n | n in t.kids && Under(t, a, n) ::
        && n in s.done && e in s.done[n]
        && (n != a ==> s.sentUp[(n, e)] == 1 && s.sentDown[(n, e)] == 1)
  {
    InitInv(t);
    RunInv(t, Init(t), run);
    var s := Final(t, Init(t), run);
    Collected(t, s, a, a, e);
    forall n | n in t.kids && Under(t, a, n)
      ensures e in s.done[n] && (n != a ==> s.sentUp[(n, e)] == 1 && s.sentDown[(n, e)] == 1)
    {
      hide InvUp, InvDown;
      Spread(t, s, a, n, e);
      if n != a {
        assert EdgeOk(t, n);
        Spread(t, s, a, t.par[n], e);
        ToldBelow(t, s, a, n, e);
      }
    }
  }

  /** In every state, no edge has carried more than one message each way for an event. */
  lemma AtMostOneMessage(t: Topo, run: seq<Step>, c: Node, e: Event)
    requires WellFormed(t) && Legal(t, Init(t), run) && c in t.par
    ensures Final(t, Init(t), run).sentUp[(c, e)] <= 1 && Final(t, Init(t), run).sentDown[(c, e)] <= 1
  {
    InitInv(t);
    RunInv(t, Init(t), run);
  }

  // ---------------------------------------------------------------- progress

  /** While something is under way, some step that is not a registration is possible. */
  lemma Progress(t: Topo, s: State) returns (step: Step)
    requires Inv(t, s) && !Quiet(s)
    ensures !step.Register? && Enabled(t, s, step)
  {
    if s.up != multiset{} {
      var m :| m in s.up;
      step := TakeUp(m.0, m.1);
      TakeUpEnabled(t, s, m.0, m.1);
    } else if p :| Pend(s.pend, p) != [] {
      step := TakeDown(p);
      var a := Target(p, Pend(s.pend, p)[0]);
      assert Pend(s.pend, p)[0] in Pend(s.pend, p);
      assert AddrOk(t, a) && KidsOk(t, t.at[a]);
    } else {
      var ch :| Down(s.down, ch) != [];
      step := Deliver(ch);
    }
  }

  /** The top node is never asked to pass an event on. */
  lemma TakeUpEnabled(t: Topo, s: State, n: Node, e: Event)
    requires Inv(t, s) && (n, e) in s.up
    ensures Enabled(t, s, TakeUp(n, e))
  {
    assert KidsOk(t, n);
  }

  /** The events registered so far. */
  function Known(s: State): set<Event> {
    set m | m in s.told :: m.1
  }

  /** Reports still possible, broadcasts still possible, and messages not yet received. */
  function Unreported(t: Topo, s: State): set<(Node, Event)> {
    (set n, e | n in t.par.Keys && e in Known(s) :: (n, e)) - s.told
  }

  function Unseen(t: Topo, s: State): set<(Node, Event)> {
    set n, e | n in t.kids.Keys && e in Known(s) && (n in s.done ==> e !in s.done[n]) :: (n, e)
  }

  function OnWire(s: State): set<(Chan, int)> {
    set ch, i | ch in s.down.Keys && 0 <= i < |s.down[ch]| :: (ch, i)
  }

  ghost predicate Smaller(t: Topo, s': State, s: State) {
    || Unreported(t, s') < Unreported(t, s)
    || (Unreported(t, s') == Unreported(t, s)
        && (Unseen(t, s') < Unseen(t, s)
            || (Unseen(t, s') == Unseen(t, s)
                && (s'.up < s.up || (s'.up == s.up && OnWire(s') < OnWire(s))))))
  }

  lemma UpKnown(t: Topo, s: State, n: Node, e: Event)
    requires Inv(t, s) && (n, e) in s.up
    ensures e in Known(s)
  {
    assert UpOk(t, s.up, s.recv, s.told, s.done, n, e);
    SomeTold(t.kids[n], s.told, e);
  }

  lemma {:induction false} SomeTold(ns: seq<Node>, told: set<(Node, Event)>, e: Event)
    requires Cnt(ns, told, e) > 0
    ensures exists c | c in ns :: (c, e) in told
  {
    if (ns[0], e) !in told { SomeTold(ns[1..], told, e); }
  }

  lemma DoneKnown(t: Topo, s: State, n: Node, e: Event)
    requires Inv(t, s) && n in t.kids && e in s.done[n]
    ensures e in Known(s)
  {
    DecidedFirst(t, s, n, e);
    var a := Decider(t, n, e);
    assert KidsOk(t, a) && UpOk(t, s.up, s.recv, s.told, s.done, a, e);
    SomeTold(t.kids[a], s.told, e);
  }

  lemma TakeUpSmaller(t: Topo, s: State, n: Node, e: Event)
    requires Inv(t, s) && Enabled(t, s, TakeUp(n, e))
    ensures Smaller(t, DoTakeUp(t, s, n, e), s)
  {
    hide InvUp, InvDown, InvSent, PushAll, Edges, Unreported, Unseen, OnWire, WellFormed, Known, Recv, Smaller;
    var s' := DoTakeUp(t, s, n, e);
    UpKnown(t, s, n, e);
    NotYet(t, s, n, e);
    if Recv(s.recv, n, e) + 1 != |t.kids[n]| {
      CountSmaller(t, s, s', n, e);
    } else if Turns(t, n, e) {
      BcastSmaller(t, s, s', n, e);
    } else {
      PassSmaller(t, s, s', n, e);
    }
  }

  lemma CountSmaller(t: Topo, s: State, s': State, n: Node, e: Event)
    requires (n, e) in s.up && s'.up == s.up - multiset{(n, e)}
    requires s'.told == s.told && s'.done == s.done
    ensures Smaller(t, s', s)
  {
    assert s'.up < s.up;
  }

  lemma PassSmaller(t: Topo, s: State, s': State, n: Node, e: Event)
    requires n in t.par && e in Known(s) && (n, e) !in s.told && s'.told == s.told + {(n, e)}
    ensures Smaller(t, s', s)
  {
    assert (n, e) in Unreported(t, s) && (n, e) !in Unreported(t, s');
    assert Known(s') == Known(s);
  }

  lemma BcastSmaller(t: Topo, s: State, s': State, n: Node, e: Event)
    requires n in t.kids && n in s.done && e !in s.done[n] && e in Known(s)
    requires s'.told == s.told && s'.done == s.done[n := s.done[n] + [e]]
    ensures Smaller(t, s', s)
  {
    assert Unreported(t, s') == Unreported(t, s);
    assert Known(s') == Known(s);
    assert (n, e) in Unseen(t, s) && (n, e) !in Unseen(t, s');
  }

  lemma TakeDownSmaller(t: Topo, s: State, p: Proc)
    requires Inv(t, s) && Enabled(t, s, TakeDown(p))
    ensures Smaller(t, DoTakeDown(t, s, p), s)
  {
    hide InvUp, InvSent, PushAll, Edges, Sel;
    var m := Pend(s.pend, p)[0];
    var n, e := t.at[Target(p, m)], m.ev;
    assert AddrOk(t, Target(p, m)) && EdgeOk(t, n) && DownOk(t, s.pend, s.down, s.done, n);
    TakeDownEdge(t, s.pend, s.down, p, n);
    NewBelow(t, s, n, e);
    assert InFlight(t, s.pend, s.down, n)[0] == e;
    assert e in s.done[t.par[n]];
    DoneKnown(t, s, t.par[n], e);
    BcastSmaller(t, s, DoTakeDown(t, s, p), n, e);
  }

  lemma DeliverSmaller(t: Topo, s: State, ch: Chan)
    requires Down(s.down, ch) != []
    ensures Smaller(t, DoDeliver(s, ch), s)
  {
    var s' := DoDeliver(s, ch);
    assert (ch, |s.down[ch]| - 1) in OnWire(s) && (ch, |s.down[ch]| - 1) !in OnWire(s');
    assert Unreported(t, s') == Unreported(t, s) && Unseen(t, s') == Unseen(t, s);
  }

  /** Every step other than a registration uses up some of the work that is left. */
  lemma StepSmaller(t: Topo, s: State, step: Step)
    requires Inv(t, s) && Enabled(t, s, step) && !step.Register?
    ensures Smaller(t, Do(t, s, step), s)
  {
    match step
    case TakeUp(n, e) => TakeUpSmaller(t, s, n, e);
    case TakeDown(p) => TakeDownSmaller(t, s, p);
    case Deliver(ch) => DeliverSmaller(t, s, ch);
  }

  /** Whatever order `next` chooses for treating messages, the work ends, with nothing left under way;
      NothingLost then says what every log holds. */
  lemma {:induction false} EveryScheduleDrains(t: Topo, s: State, next: State -> Step) returns (run: seq<Step>)
    requires Inv(t, s)
    requires forall x | Inv(t, x) && !Quiet(x) :: !next(x).Register? && Enabled(t, x, next(x))
    ensures Legal(t, s, run) && Quiet(Final(t, s, run))
    ensures forall i | 0 <= i < |run| :: !run[i].Register?
    decreases Unreported(t, s), Unseen(t, s), s.up, OnWire(s)
  {
    hide WellFormed, InvUp, InvDown, InvSent, Unreported, Unseen, OnWire, Quiet, Do;
    if Quiet(s) {
      run := [];
    } else {
      var step := next(s);
      StepInv(t, s, step);
      StepSmaller(t, s, step);
      var rest := EveryScheduleDrains(t, Do(t, s, step), next);
      run := [step] + rest;
    }
  }
}
