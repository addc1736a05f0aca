/** Every step of the protocol keeps its invariant, and what follows for whole runs. */
module SchedulerProof {
  import opened SchedulerProtocol

  // ---------------------------------------------------------------- sequences of events

  lemma {:induction false} PickAppend(q: seq<Msg>, m: Msg, lev: nat)
    ensures Pick(q + [m], lev) == Pick(q, lev) + (if m.lev == lev then [m.ev] else [])
  {
    if q == [] {
      assert q + [m] == [m];
    } else {
      assert (q + [m])[0] == q[0] && (q + [m])[1..] == q[1..] + [m];
      PickAppend(q[1..], m, lev);
      Joined(if q[0].lev == lev then [q[0].ev] else [], Pick(q[1..], lev), if m.lev == lev then [m.ev] else []);
    }
  }

  lemma Joined<T>(x: seq<T>, y: seq<T>, z: seq<T>)
    ensures x + (y + z) == (x + y) + z
  { }

  lemma {:induction false} SelAppend(k: int, s: seq<Event>, r: seq<Event>)
    ensures Sel(k, s + r) == Sel(k, s) + Sel(k, r)
  {
    if s == [] {
      assert s + r == r;
    } else {
      assert (s + r)[0] == s[0] && (s + r)[1..] == s[1..] + r;
      SelAppend(k, s[1..], r);
      Joined(if s[0].schedLevel <= k then [s[0]] else [], Sel(k, s[1..]), Sel(k, r));
    }
  }

  lemma SelOne(k: int, e: Event)
    ensures Sel(k, [e]) == if e.schedLevel <= k then [e] else []
  {}

  lemma {:induction false} SelIn(k: int, s: seq<Event>, e: Event)
    ensures e in Sel(k, s) <==> e in s && e.schedLevel <= k
  {
    if s != [] {
      SelIn(k, s[1..], e);
      assert s == [s[0]] + s[1..];
    }
  }

  lemma {:induction false} SelAll(k: int, s: seq<Event>)
    requires forall e | e in s :: e.schedLevel <= k
    ensures Sel(k, s) == s
  {
    if s != [] { SelAll(k, s[1..]); }
  }

  lemma {:induction false} SelSel(k: int, j: int, s: seq<Event>)
    requires k <= j
    ensures Sel(k, Sel(j, s)) == Sel(k, s)
  {
    if s != [] {
      SelSel(k, j, s[1..]);
      SelAppend(k, if s[0].schedLevel <= j then [s[0]] else [], Sel(j, s[1..]));
    }
  }

  lemma {:induction false} SelDistinct(k: int, s: seq<Event>)
    requires Distinct(s)
    ensures Distinct(Sel(k, s))
  {
    if s != [] {
      SelDistinct(k, s[1..]);
      SelIn(k, s[1..], s[0]);
    }
  }

  // ---------------------------------------------------------------- counting children

  lemma {:induction false} CntBound(ns: seq<Node>, told: set<(Node, Event)>, e: Event)
    ensures Cnt(ns, told, e) <= |ns|
    ensures Cnt(ns, told, e) == |ns| <==> forall c | c in ns :: (c, e) in told
  {
    if ns != [] {
      CntBound(ns[1..], told, e);
      assert ns == [ns[0]] + ns[1..];
    }
  }

  lemma {:induction false} CntAdd(ns: seq<Node>, told: set<(Node, Event)>, n: Node, x: Event, e: Event)
    requires Distinct(ns) && (n, x) !in told
    ensures Cnt(ns, told + {(n, x)}, e) == Cnt(ns, told, e) + if n in ns && x == e then 1 else 0
  {
    if ns != [] {
      CntAdd(ns[1..], told, n, x, e);
      assert ns == [ns[0]] + ns[1..];
    }
  }

  // ---------------------------------------------------------------- broadcasting

  predicate SomeKid(t: Topo, ks: seq<Node>, e: Event, ch: Chan, m: Msg)
    requires forall c | c in ks :: c in t.par && c in t.addr
  {
    exists k | k in ks :: ch == Link(t, k) && m == Msg(e, t.addr[k].lev)
  }

  lemma {:induction false} PushAllNew(t: Topo, d: map<Chan, seq<Msg>>, ks: seq<Node>, e: Event, ch: Chan, m: Msg)
    requires forall c | c in ks :: c in t.par && c in t.addr
    requires m in Down(PushAll(t, d, ks, e), ch)
    ensures m in Down(d, ch) || SomeKid(t, ks, e, ch, m)
  {
    if ks != [] {
      var i := |ks| - 1;
      var d' := PushAll(t, d, ks[..i], e);
      if m in Down(d', ch) {
        PushAllNew(t, d, ks[..i], e, ch, m);
      } else {
        assert ks[i] in ks;
      }
    }
  }

  /** Messages for two children of one node never have both the same channel and the same level. */
  lemma LinkInjective(t: Topo, c: Node, k: Node)
    requires WellFormed(t) && c in t.par && k in t.par
    requires Link(t, c) == Link(t, k) && t.addr[c].lev == t.addr[k].lev
    ensures c == k
  {
    assert EdgeOk(t, c) && EdgeOk(t, k);
  }

  lemma {:induction false} PushAllPick(t: Topo, d: map<Chan, seq<Msg>>, ks: seq<Node>, e: Event, c: Node)
    requires WellFormed(t) && c in t.par
    requires Distinct(ks) && forall k | k in ks :: k in t.par
    ensures Pick(Down(PushAll(t, d, ks, e), Link(t, c)), t.addr[c].lev)
         == Pick(Down(d, Link(t, c)), t.addr[c].lev) + if c in ks then [e] else []
  {
    hide Pick, EdgeOk, KidsOk, AddrOk;
    if ks != [] {
      var i := |ks| - 1;
      var k := ks[i];
      assert ks == ks[..i] + [k];
      PushAllPick(t, d, ks[..i], e, c);
      if Link(t, k) == Link(t, c) {
        PickAppend(Down(PushAll(t, d, ks[..i], e), Link(t, c)), Msg(e, t.addr[k].lev), t.addr[c].lev);
        if t.addr[k].lev == t.addr[c].lev { LinkInjective(t, c, k); }
      }
    }
  }

  lemma {:induction false} EdgesCount(ks: seq<Node>, e: Event, c: Node, x: Event)
    requires Distinct(ks)
    ensures Edges(ks, e)[(c, x)] == if c in ks && x == e then 1 else 0
  {
    if ks != [] {
      var i := |ks| - 1;
      EdgesCount(ks[..i], e, c, x);
      assert ks == ks[..i] + [ks[i]];
    }
  }

  // ---------------------------------------------------------------- the initial state

  lemma {:induction false} CntNone(ns: seq<Node>, e: Event)
    ensures Cnt(ns, {}, e) == 0
  {
    if ns != [] { CntNone(ns[1..], e); }
  }

  lemma InitInv(t: Topo)
    requires WellFormed(t)
    ensures Inv(t, Init(t))
  {
    var s := Init(t);
    forall n, e | n in t.kids && t.kids[n] != [] ensures UpOk(t, s.up, s.recv, s.told, s.done, n, e) {
      assert KidsOk(t, n);
      CntNone(t.kids[n], e);
    }
    forall c | c in t.par ensures DownOk(t, s.pend, s.down, s.done, c) {
      assert EdgeOk(t, c);
    }
    assert forall n | n in t.kids :: DoneOk(t, s.done, n);
  }

  // ---------------------------------------------------------------- registrations

  /** Adding a report of e by n, a node that had not reported it, counts at n's parent only. */
  lemma ReportCount(t: Topo, told: set<(Node, Event)>, n: Node, e: Event, p: Node, x: Event)
    requires WellFormed(t) && n in t.par && (n, e) !in told && p in t.kids
    ensures Cnt(t.kids[p], told + {(n, e)}, x)
         == Cnt(t.kids[p], told, x) + if t.par[n] == p && x == e then 1 else 0
  {
    assert KidsOk(t, p) && EdgeOk(t, n);
    CntAdd(t.kids[p], told, n, e, x);
  }

  /** A node that a request for e is still on its way to is not done with e. */
  lemma NotYet(t: Topo, s: State, n: Node, e: Event)
    requires Inv(t, s) && n in t.kids && (n, e) in s.up
    ensures !Fin(t, s.told, s.done, n, e) && t.kids[n] != []
    ensures Recv(s.recv, n, e) + 1 <= |t.kids[n]|
  {
    assert UpOk(t, s.up, s.recv, s.told, s.done, n, e);
    CntBound(t.kids[n], s.told, e);
  }

  /** `up` and `recv` are those just before n reports e: without the request that completed n's own
      count, if n has children. */
  ghost predicate BeforeReport(t: Topo, s: State, up: multiset<(Node, Event)>, recv: map<(Node, Event), nat>, n: Node, e: Event) {
    && Inv(t, s) && n in t.par && (n, e) !in s.told
    && t.tier[t.top] <= e.schedLevel <= t.tier[t.par[n]]
    && (t.kids[n] == [] ==> up == s.up && recv == s.recv)
    && (t.kids[n] != [] ==>
          && !Turns(t, n, e) && (n, e) in s.up && Recv(s.recv, n, e) + 1 == |t.kids[n]|
          && up == s.up - multiset{(n, e)} && recv == s.recv - {(n, e)})
  }

  /** The counts of p and x, when n reports e to its parent. */
  lemma ReportOne(t: Topo, s: State, up: multiset<(Node, Event)>, recv: map<(Node, Event), nat>, n: Node, e: Event, p: Node, x: Event)
    requires p in t.kids && p in t.tier && p in s.done && n in t.kids && n in t.tier && n in s.done && n in t.par && t.par[n] != n
    requires UpOk(t, s.up, s.recv, s.told, s.done, p, x) && (n, e) !in s.told && t.kids[p] != []
    requires Cnt(t.kids[p], s.told + {(n, e)}, x) == Cnt(t.kids[p], s.told, x) + if t.par[n] == p && x == e then 1 else 0
    requires t.kids[n] == [] ==> up == s.up && recv == s.recv
    requires t.kids[n] != [] ==>
      && !Turns(t, n, e) && (n, e) in s.up && Recv(s.recv, n, e) + 1 == |t.kids[n]|
      && up == s.up - multiset{(n, e)} && recv == s.recv - {(n, e)}
    ensures UpOk(t, up + multiset{(t.par[n], e)}, recv, s.told + {(n, e)}, s.done, p, x)
  {
    hide Cnt;
  }

  lemma ReportUpAt(t: Topo, s: State, up: multiset<(Node, Event)>, recv: map<(Node, Event), nat>, n: Node, e: Event, p: Node, x: Event)
    requires BeforeReport(t, s, up, recv, n, e) && p in t.kids && t.kids[p] != []
    ensures UpOk(t, up + multiset{(t.par[n], e)}, recv, s.told + {(n, e)}, s.done, p, x)
  {
    hide Cnt, InvDown, InvSent, KidsOk, AddrOk;
    assert UpOk(t, s.up, s.recv, s.told, s.done, p, x);
    ReportCount(t, s.told, n, e, p, x);
    assert EdgeOk(t, n) && t.par[n] != n;
    hide WellFormed, InvUp, EdgeOk;
    ReportOne(t, s, up, recv, n, e, p, x);
  }

  /** A report keeps the counts. */
  lemma ReportUp(t: Topo, s: State, up: multiset<(Node, Event)>, recv: map<(Node, Event), nat>, n: Node, e: Event)
    requires BeforeReport(t, s, up, recv, n, e)
    ensures InvUp(t, up + multiset{(t.par[n], e)}, recv, s.told + {(n, e)}, s.done)
  {
    hide Cnt, InvDown, InvSent, UpOk;
    var up', told' := up + multiset{(t.par[n], e)}, s.told + {(n, e)};
    assert EdgeOk(t, n);
    forall p, x | p in t.kids && t.kids[p] != [] ensures UpOk(t, up', recv, told', s.done, p, x) {
      ReportUpAt(t, s, up, recv, n, e, p, x);
    }
    forall p, x | (p, x) in up'
      ensures p in t.kids && t.kids[p] != [] && t.tier[t.top] <= x.schedLevel <= t.tier[p]
    {
      if (p, x) !in s.up { assert (p, x) == (t.par[n], e); }
    }
  }

  lemma ReportSent(t: Topo, s: State, n: Node, e: Event)
    requires Inv(t, s) && n in t.par && (n, e) !in s.told
    ensures InvSent(t, s.told + {(n, e)}, s.done, s.sentUp + multiset{(n, e)}, s.sentDown)
  {}

  // ---------------------------------------------------------------- broadcasts

  /** Everything InvDown says, except that at n event e is about to be broadcast. */
  ghost predicate BeforeBcast(t: Topo, pend: map<Proc, seq<Msg>>, down: map<Chan, seq<Msg>>, done: Log, n: Node, e: Event) {
    && WellFormed(t) && done.Keys == t.kids.Keys && n in t.kids
    && (forall c {:trigger DownOk(t, pend, down, done, c)} | c in t.par && c != n :: DownOk(t, pend, down, done, c))
    && (n in t.par ==> done[t.par[n]] == Sel(t.tier[t.par[n]], done[n] + [e]) + InFlight(t, pend, down, n))
    && (forall m {:trigger DoneOk(t, done, m)} | m in t.kids :: DoneOk(t, done, m))
    && e !in done[n] && t.tier[t.top] <= e.schedLevel <= t.tier[n]
    && QueuesOk(t, pend, down)
  }

  lemma BcastEdge(t: Topo, pend: map<Proc, seq<Msg>>, down: map<Chan, seq<Msg>>, done: Log, n: Node, e: Event, c: Node)
    requires BeforeBcast(t, pend, down, done, n, e) && c in t.par
    requires forall k | k in t.kids[n] :: k in t.par
    ensures DownOk(t, pend, PushAll(t, down, t.kids[n], e), done[n := done[n] + [e]], c)
  {
    hide Pick, Sel, PushAll;
    assert KidsOk(t, n) && EdgeOk(t, c);
    PushAllPick(t, down, t.kids[n], e, c);
    var before, after := InFlight(t, pend, down, c), InFlight(t, pend, PushAll(t, down, t.kids[n], e), c);
    assert after == before + if c in t.kids[n] then [e] else [];
    assert c in t.kids[n] <==> t.par[c] == n;
    if c != n {
      assert DownOk(t, pend, down, done, c);
    }
  }

  lemma BcastDown(t: Topo, pend: map<Proc, seq<Msg>>, down: map<Chan, seq<Msg>>, done: Log, n: Node, e: Event)
    requires BeforeBcast(t, pend, down, done, n, e)
    requires forall k | k in t.kids[n] :: k in t.par
    ensures InvDown(t, pend, PushAll(t, down, t.kids[n], e), done[n := done[n] + [e]])
  {
    hide Pick, Sel, PushAll, InFlight, DownOk, MsgOk;
    var down', done' := PushAll(t, down, t.kids[n], e), done[n := done[n] + [e]];
    forall c | c in t.par ensures DownOk(t, pend, down', done', c) {
      BcastEdge(t, pend, down, done, n, e, c);
    }
    forall m | m in t.kids ensures DoneOk(t, done', m) { assert DoneOk(t, done, m); }
    forall ch, m | m in Down(down', ch) ensures MsgOk(t, ch, m) {
      BcastMsg(t, pend, down, n, e, ch, m);
    }
  }

  lemma BcastMsg(t: Topo, pend: map<Proc, seq<Msg>>, down: map<Chan, seq<Msg>>, n: Node, e: Event, ch: Chan, m: Msg)
    requires WellFormed(t) && QueuesOk(t, pend, down) && n in t.kids
    requires forall k | k in t.kids[n] :: k in t.par
    requires m in Down(PushAll(t, down, t.kids[n], e), ch)
    ensures MsgOk(t, ch, m)
  {
    PushAllNew(t, down, t.kids[n], e, ch, m);
    if m !in Down(down, ch) {
      var k :| k in t.kids[n] && ch == Link(t, k) && m == Msg(e, t.addr[k].lev);
      assert EdgeOk(t, k);
      assert Target(Proc(ch.comm, ch.dst), m) == t.addr[k];
    }
  }

  /** A broadcast of e by n, for which e is new, is one message over each edge below n. */
  lemma BcastSent(t: Topo, told: set<(Node, Event)>, done: Log,
                  sentUp: multiset<(Node, Event)>, sentDown: multiset<(Node, Event)>, n: Node, e: Event)
    requires WellFormed(t) && done.Keys == t.kids.Keys && InvSent(t, told, done, sentUp, sentDown)
    requires n in t.kids && e !in done[n]
    ensures InvSent(t, told, done[n := done[n] + [e]], sentUp, sentDown + Edges(t.kids[n], e))
  {
    assert KidsOk(t, n);
    var done', sentDown' := done[n := done[n] + [e]], sentDown + Edges(t.kids[n], e);
    forall c, x | c in t.par
      ensures sentDown'[(c, x)] == if x in done'[t.par[c]] then 1 else 0
    {
      assert EdgeOk(t, c);
      EdgesCount(t.kids[n], e, c, x);
      assert sentDown[(c, x)] == if x in done[t.par[c]] then 1 else 0;
    }
  }

  // ---------------------------------------------------------------- steps

  lemma RegisterInv(t: Topo, s: State, n: Node, e: Event)
    requires Inv(t, s) && Enabled(t, s, Register(n, e))
    ensures Inv(t, Do(t, s, Register(n, e)))
  {
    assert EdgeOk(t, n) && KidsOk(t, n);
    ReportUp(t, s, s.up, s.recv, n, e);
    ReportSent(t, s, n, e);
  }

  /** A request that does not complete the count. */
  lemma CountUp(t: Topo, s: State, n: Node, e: Event)
    requires Inv(t, s) && Enabled(t, s, TakeUp(n, e)) && Recv(s.recv, n, e) + 1 != |t.kids[n]|
    ensures Inv(t, DoTakeUp(t, s, n, e))
  {
    hide Cnt, InvDown, InvSent;
    var s' := DoTakeUp(t, s, n, e);
    NotYet(t, s, n, e);
    forall p, x | p in t.kids && t.kids[p] != [] ensures UpOk(t, s'.up, s'.recv, s'.told, s'.done, p, x) {
      assert UpOk(t, s.up, s.recv, s.told, s.done, p, x);
    }
  }

  /** The last request at a node that does not decide: the event is passed on. */
  lemma PassUp(t: Topo, s: State, n: Node, e: Event)
    requires Inv(t, s) && Enabled(t, s, TakeUp(n, e)) && Recv(s.recv, n, e) + 1 == |t.kids[n]|
    requires !Turns(t, n, e)
    ensures Inv(t, DoTakeUp(t, s, n, e))
  {
    NotYet(t, s, n, e);
    assert EdgeOk(t, n);
    ReportUp(t, s, s.up - multiset{(n, e)}, s.recv - {(n, e)}, n, e);
    ReportSent(t, s, n, e);
  }

  lemma TurnUpCounts(t: Topo, s: State, n: Node, e: Event)
    requires Inv(t, s) && n in t.kids && (n, e) in s.up && Recv(s.recv, n, e) + 1 == |t.kids[n]|
    requires Turns(t, n, e)
    ensures InvUp(t, s.up - multiset{(n, e)}, s.recv - {(n, e)}, s.told, s.done[n := s.done[n] + [e]])
  {
    var up', recv', done' := s.up - multiset{(n, e)}, s.recv - {(n, e)}, s.done[n := s.done[n] + [e]];
    NotYet(t, s, n, e);
    forall p, x | p in t.kids && t.kids[p] != [] ensures UpOk(t, up', recv', s.told, done', p, x) {
      assert UpOk(t, s.up, s.recv, s.told, s.done, p, x);
    }
  }

  lemma UpLevel(t: Topo, s: State, n: Node, e: Event)
    requires Inv(t, s) && (n, e) in s.up
    ensures n in t.kids && t.tier[t.top] <= e.schedLevel <= t.tier[n]
  {
    hide InvDown, InvSent;
  }

  lemma TurnReady(t: Topo, s: State, n: Node, e: Event)
    requires Inv(t, s) && n in t.kids && (n, e) in s.up && Turns(t, n, e)
    ensures BeforeBcast(t, s.pend, s.down, s.done, n, e)
  {
    hide Sel, InFlight, InvUp, InvSent, QueuesOk, DoneOk, KidsOk, AddrOk, Recv;
    NotYet(t, s, n, e);
    UpLevel(t, s, n, e);
    if n in t.par {
      assert EdgeOk(t, n) && DownOk(t, s.pend, s.down, s.done, n);
      SelAppend(t.tier[t.par[n]], s.done[n], [e]);
      SelOne(t.tier[t.par[n]], e);
    }
  }

  /** The last request at the root of e's scheduler: e gets its position. */
  lemma TurnUp(t: Topo, s: State, n: Node, e: Event)
    requires Inv(t, s) && Enabled(t, s, TakeUp(n, e)) && Recv(s.recv, n, e) + 1 == |t.kids[n]|
    requires Turns(t, n, e)
    ensures Inv(t, DoTakeUp(t, s, n, e))
  {
    hide InvUp, InvDown, InvSent, PushAll, Edges, QueuesOk;
    TurnReady(t, s, n, e);
    TurnUpCounts(t, s, n, e);
    BcastDown(t, s.pend, s.down, s.done, n, e);
    BcastSent(t, s.told, s.done, s.sentUp, s.sentDown, n, e);
  }

  lemma PickFirst(q: seq<Msg>, lev: nat)
    requires q != []
    ensures Pick(q, lev) == (if q[0].lev == lev then [q[0].ev] else []) + Pick(q[1..], lev)
  { }

  /** A message that c's process receives on another channel is not for c. */
  lemma OtherChannel(t: Topo, s: State, ch: Chan, c: Node)
    requires Inv(t, s) && Down(s.down, ch) != [] && c in t.par && Link(t, c) != ch
    requires ch.comm == t.addr[c].comm && ch.dst == t.addr[c].rank
    ensures Down(s.down, ch)[0].lev != t.addr[c].lev
  {
    hide Sel, InvUp, InvSent, InFlight, DownOk, DoneOk, KidsOk, AddrOk;
    assert EdgeOk(t, c);
    assert Down(s.down, ch)[0] in Down(s.down, ch) && MsgOk(t, ch, Down(s.down, ch)[0]);
  }

  lemma DeliverFlight(t: Topo, pend: map<Proc, seq<Msg>>, down: map<Chan, seq<Msg>>, ch: Chan, c: Node)
    requires c in t.par && c in t.addr && Down(down, ch) != []
    requires t.addr[c].comm == ch.comm && t.addr[c].rank == ch.dst && Link(t, c) != ch ==> Down(down, ch)[0].lev != t.addr[c].lev
    requires Link(t, c) == ch ==> t.addr[c].comm == ch.comm && t.addr[c].rank == ch.dst
    ensures var p := Proc(ch.comm, ch.dst); var q := Down(down, ch);
      InFlight(t, pend[p := Pend(pend, p) + [q[0]]], down[ch := q[1..]], c) == InFlight(t, pend, down, c)
  {
    hide Pick;
    var p, q := Proc(ch.comm, ch.dst), Down(down, ch);
    PickAppend(Pend(pend, p), q[0], t.addr[c].lev);
    PickFirst(q, t.addr[c].lev);
  }

  lemma DeliverEdge(t: Topo, s: State, ch: Chan, c: Node)
    requires Inv(t, s) && Down(s.down, ch) != [] && c in t.par
    ensures DownOk(t, DoDeliver(s, ch).pend, DoDeliver(s, ch).down, s.done, c)
  {
    hide Sel, InvUp, InvSent, InFlight, DoneOk, QueuesOk, KidsOk, AddrOk, Pend, Down;
    assert DownOk(t, s.pend, s.down, s.done, c) && EdgeOk(t, c);
    if ch.comm == t.addr[c].comm && ch.dst == t.addr[c].rank && Link(t, c) != ch { OtherChannel(t, s, ch, c); }
    DeliverFlight(t, s.pend, s.down, ch, c);
  }

  lemma DeliverInv(t: Topo, s: State, ch: Chan)
    requires Inv(t, s) && Enabled(t, s, Deliver(ch))
    ensures Inv(t, DoDeliver(s, ch))
  {
    hide InvUp, InvSent, DownOk;
    var s' := DoDeliver(s, ch);
    forall c | c in t.par ensures DownOk(t, s'.pend, s'.down, s'.done, c) { DeliverEdge(t, s, ch, c); }
    var m := Down(s.down, ch)[0];
    assert m in Down(s.down, ch) && MsgOk(t, ch, m);
    forall p, x | x in Pend(s'.pend, p) ensures Target(p, x) in t.at {
      assert x in Pend(s.pend, p) || (x == m && p == Proc(ch.comm, ch.dst));
    }
    forall c, x | x in Down(s'.down, c) ensures MsgOk(t, c, x) { assert x in Down(s.down, c); }
  }

  lemma TakeDownEdge(t: Topo, pend: map<Proc, seq<Msg>>, down: map<Chan, seq<Msg>>, p: Proc, c: Node)
    requires WellFormed(t) && Pend(pend, p) != [] && c in t.par
    ensures InFlight(t, pend, down, c) == (if Target(p, Pend(pend, p)[0]) == t.addr[c] then [Pend(pend, p)[0].ev] else [])
      + InFlight(t, pend[p := Pend(pend, p)[1..]], down, c)
  {
  }

  /** The next event on its way to n is one that n has not seen, and belongs to a scheduler above n. */
  lemma NewBelow(t: Topo, s: State, n: Node, e: Event)
    requires Inv(t, s) && n in t.par
    requires InFlight(t, s.pend, s.down, n) != [] && InFlight(t, s.pend, s.down, n)[0] == e
    ensures e !in s.done[n] && t.tier[t.top] <= e.schedLevel <= t.tier[t.par[n]] <= t.tier[n]
    ensures Sel(t.tier[t.par[n]], s.done[n] + [e]) == Sel(t.tier[t.par[n]], s.done[n]) + [e]
  {
    assert EdgeOk(t, n) && DownOk(t, s.pend, s.down, s.done, n) && DoneOk(t, s.done, t.par[n]);
    var p, k := t.par[n], t.tier[t.par[n]];
    var seen := Sel(k, s.done[n]);
    assert s.done[p][|seen|] == e;
    SelIn(k, s.done[n], e);
    forall i | 0 <= i < |seen| ensures seen[i] != e { assert s.done[p][i] == seen[i]; }
    SelAppend(k, s.done[n], [e]);
    SelOne(k, e);
  }

  /** The front of p's queue leaves it: nothing changes for the other nodes. */
  lemma TakeDownOthers(t: Topo, s: State, p: Proc, n: Node, c: Node)
    requires Inv(t, s) && Pend(s.pend, p) != [] && Target(p, Pend(s.pend, p)[0]) in t.at && n == t.at[Target(p, Pend(s.pend, p)[0])]
    requires c in t.par && c != n
    ensures DownOk(t, s.pend[p := Pend(s.pend, p)[1..]], s.down, s.done, c)
  {
    hide Sel, InvUp, InvSent, InFlight, Pend, DoneOk, QueuesOk, KidsOk, AddrOk;
    assert DownOk(t, s.pend, s.down, s.done, c) && EdgeOk(t, c);
    TakeDownEdge(t, s.pend, s.down, p, c);
  }

  /** Its event is the next one for n. */
  lemma TakeDownFirst(t: Topo, s: State, p: Proc, n: Node)
    requires Inv(t, s) && Pend(s.pend, p) != [] && Target(p, Pend(s.pend, p)[0]) in t.at && n == t.at[Target(p, Pend(s.pend, p)[0])]
    ensures n in t.par && n in t.kids && n in s.done && t.par[n] in s.done
    ensures var e := Pend(s.pend, p)[0].ev;
      && InFlight(t, s.pend, s.down, n) == [e] + InFlight(t, s.pend[p := Pend(s.pend, p)[1..]], s.down, n)
      && s.done[t.par[n]] == Sel(t.tier[t.par[n]], s.done[n] + [e]) + InFlight(t, s.pend[p := Pend(s.pend, p)[1..]], s.down, n)
      && e !in s.done[n] && t.tier[t.top] <= e.schedLevel <= t.tier[t.par[n]] <= t.tier[n]
  {
    hide Sel, InvUp, InvSent, InFlight, Pend, DoneOk, QueuesOk, KidsOk;
    var e := Pend(s.pend, p)[0].ev;
    assert AddrOk(t, Target(p, Pend(s.pend, p)[0])) && EdgeOk(t, n);
    assert DownOk(t, s.pend, s.down, s.done, n);
    TakeDownEdge(t, s.pend, s.down, p, n);
    NewBelow(t, s, n, e);
    SelAppend(t.tier[t.par[n]], s.done[n], [e]);
    SelOne(t.tier[t.par[n]], e);
  }

  lemma TakeDownReady(t: Topo, s: State, p: Proc)
    requires Inv(t, s) && Enabled(t, s, TakeDown(p))
    ensures BeforeBcast(t, s.pend[p := Pend(s.pend, p)[1..]], s.down, s.done,
                        t.at[Target(p, Pend(s.pend, p)[0])], Pend(s.pend, p)[0].ev)
    ensures var n := t.at[Target(p, Pend(s.pend, p)[0])];
      n in t.par && Pend(s.pend, p)[0].ev.schedLevel <= t.tier[t.par[n]]
  {
    hide Sel, InvUp, InvSent, InFlight, MsgOk, DownOk, DoneOk, EdgeOk, KidsOk, AddrOk;
    var pend' := s.pend[p := Pend(s.pend, p)[1..]];
    var n := t.at[Target(p, Pend(s.pend, p)[0])];
    TakeDownFirst(t, s, p, n);
    forall c | c in t.par && c != n ensures DownOk(t, pend', s.down, s.done, c) {
      TakeDownOthers(t, s, p, n, c);
    }
    forall q, x | x in Pend(pend', q) ensures Target(q, x) in t.at { assert x in Pend(s.pend, q); }
  }

  lemma TakeDownInv(t: Topo, s: State, p: Proc)
    requires Inv(t, s) && Enabled(t, s, TakeDown(p))
    ensures Inv(t, DoTakeDown(t, s, p))
  {
    var m, pend' := Pend(s.pend, p)[0], s.pend[p := Pend(s.pend, p)[1..]];
    var n, e := t.at[Target(p, m)], m.ev;
    assert AddrOk(t, Target(p, m)) && EdgeOk(t, n);
    TakeDownReady(t, s, p);
    BcastDown(t, pend', s.down, s.done, n, e);
    BcastSent(t, s.told, s.done, s.sentUp, s.sentDown, n, e);
    TakeDownCounts(t, s, n, e);
  }

  /** An event from above is not one that n decides, so n's counts do not change. */
  lemma TakeDownCounts(t: Topo, s: State, n: Node, e: Event)
    requires Inv(t, s) && n in t.par && e.schedLevel <= t.tier[t.par[n]]
    ensures InvUp(t, s.up, s.recv, s.told, s.done[n := s.done[n] + [e]])
  {
    var done' := s.done[n := s.done[n] + [e]];
    hide Cnt, InvDown, InvSent;
    assert EdgeOk(t, n);
    forall p, x | p in t.kids && t.kids[p] != [] ensures UpOk(t, s.up, s.recv, s.told, done', p, x) {
      assert UpOk(t, s.up, s.recv, s.told, s.done, p, x);
    }
  }

  /** Every step keeps the invariant. */
  lemma StepInv(t: Topo, s: State, step: Step)
    requires Inv(t, s) && Enabled(t, s, step)
    ensures Inv(t, Do(t, s, step))
  {
    match step
    case Register(n, e) => RegisterInv(t, s, n, e);
    case TakeUp(n, e) =>
      if Recv(s.recv, n, e) + 1 != |t.kids[n]| {
        CountUp(t, s, n, e);
      } else if Turns(t, n, e) {
        TurnUp(t, s, n, e);
      } else {
        PassUp(t, s, n, e);
      }
    case Deliver(ch) => DeliverInv(t, s, ch);
    case TakeDown(p) => TakeDownInv(t, s, p);
  }

  /** Every state of every run from a good state is good. */
  lemma {:induction false} RunInv(t: Topo, s: State, run: seq<Step>)
    requires Inv(t, s) && Legal(t, s, run)
    ensures Inv(t, Final(t, s, run))
    decreases |run|
  {
    if run != [] {
      StepInv(t, s, run[0]);
      RunInv(t, Do(t, s, run[0]), run[1..]);
    }
  }
}
