/** The end of the hand-shake of DoubleBuffer: when it is sure to end, when not, and what a call of
    fixBufferSize at the wrong time does (src/buffer_client.cpp, src/buffer_client.hpp). */
module DoubleBufferProgress {
  import opened Buffers
  import opened Messages
  import opened DoubleBuffer

  /** The actions that do not start anything. */
  predicate Inner(act: Action) {
    !act.Write? && !act.Want? && !act.Fix?
  }

  function Phase(s: State): nat {
    if s.step == 0 || s.step > 4 then 0 else 5 - s.step
  }

  function Rank(s: State): nat {
    10 * Phase(s) + (if s.b != [] then 5 else 0) + (if s.w != [] then 2 else 0) + (if s.a != [] then 1 else 0)
    + (if s.pending then 1 else 0) + if Stale(s) then 1 else 0
  }

  lemma HandleLeaves(s: State, es: seq<Event>)
    ensures var t := Handle(s, es);
      t.step == s.step && t.pending == s.pending && t.a == s.a && t.w == s.w && t.b == s.b && t.sent == s.sent
      && t.counted == s.counted
  { }

  lemma InnerShrinks(s: State, act: Action)
    requires Inv(s) && Can(s, act) && Inner(act)
    ensures Rank(Do(s, act)) < Rank(s)
  {
    match act
    case Pull(t) => PullKeeps(s, t);
    case Process =>
      HandleLeaves(s.(window := Other(s.window), a := []), s.a);
    case _ =>
  }

  lemma InnerSendsNothing(s: State, act: Action)
    requires Inner(act)
    ensures Do(s, act).sent == s.sent
  { }

  lemma AddressOf(size: nat) returns (e: Event)
    requires size < WORD
    ensures IsChange([e], size)
  {
    e := Event(CHANGE, Word(size) + Word(0) + Word(0));
    WordRoundTrip(size);
    assert e.payload[..WORD_BYTES] == Word(size);
  }

  /** As long as an event is under way or a change of size is not over, something can happen. */
  lemma NeverStuck(s: State) returns (act: Action)
    requires Inv(s) && Rank(s) > 0
    ensures Inner(act) && Can(s, act)
  {
    if s.a != [] { return Process; }
    if s.w != [] { return Receive; }
    if s.pending { return Tested; }
    if s.b != [] { return Push; }
    if s.counted { return Refresh; }
    if s.step == 1 { return Notice; }
    if s.step == 2 { return Told; }
    var e := AddressOf(s.newSize);
    return Resize(e);
  }

  /** So, once the client starts nothing new, every run ends, within 50 actions, with all events delivered, the
      hand-shake over and the ring as large as the buffer; provided that a client whose count is stale reads it
      again, as every request to write does. */
  lemma {:induction false} EveryRunDrains(s: State, acts: seq<Action>)
    requires Inv(s) && Run(s, acts) && forall i | 0 <= i < |acts| :: Inner(acts[i])
    ensures |acts| <= Rank(s) < 50
    ensures var t := After(s, acts);
      (forall act | Inner(act) :: !Can(t, act)) ==>
        t.step == 0 && !t.pending && t.delivered == t.sent && t.sent == s.sent && !t.resizing && t.ringSize == t.size
    decreases |acts|
  {
    if acts == [] {
      if Rank(s) > 0 {
        var act := NeverStuck(s);
      }
    } else {
      ActionKeeps(s, acts[0]);
      InnerShrinks(s, acts[0]);
      InnerSendsNothing(s, acts[0]);
      EveryRunDrains(Do(s, acts[0]), acts[1..]);
    }
  }

  /** On the way to buffers of size n, and then with such a buffer, empty. */
  predicate Heading(s: State, n: nat) {
    match s.step
    case 0 => s.size == n && s.b == []
    case 4 => s.size == n
    case _ => s.newSize == n
  }

  lemma {:induction false} HeadingStays(s: State, acts: seq<Action>, n: nat)
    requires Heading(s, n) && Run(s, acts) && forall i | 0 <= i < |acts| :: Inner(acts[i])
    ensures Heading(After(s, acts), n)
    decreases |acts|
  {
    if acts != [] {
      assert Inner(acts[0]);
      HeadingStep(s, acts[0], n);
      HeadingStays(Do(s, acts[0]), acts[1..], n);
    }
  }

  lemma HeadingStep(s: State, act: Action, n: nat)
    requires Heading(s, n) && Can(s, act) && Inner(act)
    ensures Heading(Do(s, act), n)
  {
    hide Users, AllUser, IsChange, Flat;
  }

  /** An event that was refused, and for which buffers of at least its size were asked for, is accepted once the
      hand-shake is over; and it is over at the end of every run that starts nothing new (EveryRunDrains). */
  lemma RefusedThenAccepted(s: State, n: nat, acts: seq<Action>, e: Event)
    requires Inv(s) && Can(s, Want(n)) && IsUser(e) && Size(e) <= n
    requires Run(Do(s, Want(n)), acts) && forall i | 0 <= i < |acts| :: Inner(acts[i])
    ensures After(Do(s, Want(n)), acts).step == 0 ==> Can(After(Do(s, Want(n)), acts), Write(e))
    ensures (forall act | Inner(act) :: !Can(After(Do(s, Want(n)), acts), act)) ==> Can(After(Do(s, Want(n)), acts), Write(e))
  {
    var t := Do(s, Want(n));
    HeadingStays(t, acts, n);
    ActionKeeps(s, Want(n));
    EveryRunDrains(t, acts);
    if After(t, acts).step == 0 { assert Flat(After(t, acts).b) == []; }
  }

  // ---------------------------------------------------------------- a client that only polls

  /** The actions without the client's reading its count again: what checkBuffer and the server do. */
  predicate Poll(act: Action) {
    Inner(act) && !act.Refresh?
  }

  predicate PollRun(s: State, acts: seq<Action>) {
    Run(s, acts) && forall i | 0 <= i < |acts| :: Poll(acts[i])
  }

  predicate AtRest(s: State) {
    s.a == s.w == s.b == [] && !s.pending && (s.step == 0 || (s.step == 1 && s.counted))
  }

  /** The server has taken what the client still counts, or may take it before the client sends it: the client
      asks for a change of size, and its count is stale, or the header of its buffer names a time line. */
  predicate AtRisk(s: State) {
    s.step == 1 && (Stale(s) || 0 < s.stamp < NOTIFY)
  }

  /** A run of polling stops exactly where nothing is under way, and the hand-shake is over or the count stale. */
  lemma PollStops(s: State)
    requires Inv(s)
    ensures AtRest(s) <==> forall act | Poll(act) :: !Can(s, act)
    ensures AtRest(s) ==> s.delivered == s.sent && !s.resizing && s.ringSize == s.size
  {
    if AtRest(s) {
      UsersOfNothing();
    } else {
      var act := NextPoll(s);
    }
  }

  lemma NextPoll(s: State) returns (act: Action)
    requires Inv(s) && !AtRest(s)
    ensures Poll(act) && Can(s, act)
  {
    if s.a != [] { return Process; }
    if s.w != [] { return Receive; }
    if s.pending { return Tested; }
    if s.b != [] { return Push; }
    if s.step == 1 { return Notice; }
    if s.step == 2 { return Told; }
    if s.step == 3 {
      var e := AddressOf(s.newSize);
      return Resize(e);
    }
  }

  /** Whatever the count, every event is delivered. */
  lemma {:induction false} PollingDelivers(s: State, acts: seq<Action>)
    requires Inv(s) && PollRun(s, acts)
    ensures |acts| <= Rank(s)
    ensures var t := After(s, acts);
      (forall act | Poll(act) :: !Can(t, act)) ==> t.delivered == t.sent == s.sent && !t.resizing && t.ringSize == t.size
    decreases |acts|
  {
    if acts == [] {
      PollStops(s);
    } else {
      ActionKeeps(s, acts[0]);
      InnerShrinks(s, acts[0]);
      InnerSendsNothing(s, acts[0]);
      PollingDelivers(Do(s, acts[0]), acts[1..]);
    }
  }

  lemma SafeStays(s: State, act: Action)
    requires Inv(s) && !AtRisk(s) && Poll(act) && Can(s, act)
    ensures !AtRisk(Do(s, act))
  {
    match act
    case Pull(t) => PullKeeps(s, t);
    case Process => HandleLeaves(s.(window := Other(s.window), a := []), s.a);
    case _ =>
  }

  lemma {:induction false} SafeRun(s: State, acts: seq<Action>)
    requires Inv(s) && !AtRisk(s) && PollRun(s, acts)
    ensures !AtRisk(After(s, acts)) && Inv(After(s, acts))
    decreases |acts|
  {
    if acts != [] {
      SafeStays(s, acts[0]);
      ActionKeeps(s, acts[0]);
      SafeRun(Do(s, acts[0]), acts[1..]);
    }
  }

  lemma RunStep(s: State, act: Action, acts: seq<Action>)
    requires Allowed(s, act) && Run(Do(s, act), acts)
    ensures Run(s, [act] + acts) && After(s, [act] + acts) == After(Do(s, act), acts)
  {
    assert ([act] + acts)[1..] == acts;
  }

  /** From a state at risk, the server can take the bytes first, and the client waits for ever. */
  lemma {:induction false} Strand(s: State) returns (acts: seq<Action>)
    requires Inv(s) && AtRisk(s)
    ensures PollRun(s, acts) && AtRest(After(s, acts)) && After(s, acts).step == 1
    decreases Rank(s)
  {
    if Stale(s) && AtRest(s) { return []; }
    var act := if s.a != [] then Process else if s.w != [] then Receive else if s.b != [] then Pull(s.stamp) else Tested;
    RiskStays(s, act);
    ActionKeeps(s, act);
    InnerShrinks(s, act);
    var rest := Strand(Do(s, act));
    RunStep(s, act, rest);
    return [act] + rest;
  }

  lemma RiskStays(s: State, act: Action)
    requires Inv(s) && AtRisk(s) && !(Stale(s) && AtRest(s))
    requires act == if s.a != [] then Process else if s.w != [] then Receive else if s.b != [] then Pull(s.stamp) else Tested
    ensures Can(s, act) && AtRisk(Do(s, act))
  {
    if act.Process? { RiskProcess(s); }
    if act.Pull? { PullKeeps(s, s.stamp); }
  }

  lemma RiskProcess(s: State)
    requires Inv(s) && s.a != []
    ensures var t := Do(s, Process); t.step == s.step && t.stamp == s.stamp && t.counted == s.counted && t.b == s.b
  { }

  /** Polling alone is sure to end the hand-shake if and only if the state is not at risk. */
  lemma PollingCompletes(s: State)
    requires Inv(s)
    ensures (forall acts | PollRun(s, acts) && AtRest(After(s, acts)) :: After(s, acts).step == 0) <==> !AtRisk(s)
  {
    if AtRisk(s) {
      var acts := Strand(s);
    } else {
      forall acts | PollRun(s, acts) && AtRest(After(s, acts)) ensures After(s, acts).step == 0 {
        SafeRun(s, acts);
      }
    }
  }

  /** Both ways into such a state: a read before fixBufferSize, and one after it. */
  lemma StaleHappens(s: State, e: Event, n: nat)
    requires IsInit(s) && IsUser(e) && e.timeLine > 0 && Size(e) <= s.size && CHANGE_SIZE <= n < WORD
    ensures var before := [Write(e), Pull(e.timeLine), Fix(n)]; var after := [Write(e), Fix(n), Pull(e.timeLine)];
      && Run(s, before) && AtRisk(After(s, before)) && Stale(After(s, before))
      && Run(s, after) && AtRisk(After(s, after)) && Stale(After(s, after))
  {
    assert s.b + [e] == [e];
    var t := Do(s, Write(e));
    HandleUsers(t.(b := [], stamp := 0), [e]);
    HandleUsers(Do(t, Fix(n)).(b := [], stamp := 0), [e]);
    hide Handle;
    Three(s, Write(e), Pull(e.timeLine), Fix(n));
    Three(s, Write(e), Fix(n), Pull(e.timeLine));
  }

  lemma Three(s: State, x: Action, y: Action, z: Action)
    requires Allowed(s, x) && Allowed(Do(s, x), y) && Allowed(Do(Do(s, x), y), z)
    ensures Run(s, [x, y, z]) && After(s, [x, y, z]) == Do(Do(Do(s, x), y), z)
  {
    var t := Do(Do(s, x), y);
    assert Run(Do(t, z), []) && After(Do(t, z), []) == Do(t, z);
    RunStep(t, z, []);
    RunStep(Do(s, x), y, [z]);
    RunStep(s, x, [y, z]);
    assert [z] + [] == [z] && [y] + [z] == [y, z] && [x] + [y, z] == [x, y, z];
    assert [z] == [z] + [];
  }

  // ---------------------------------------------------------------- fixBufferSize at the wrong time

  predicate SecondNotice(s: State) {
    || (s.a == [NOTICE] && !s.resizing && s.notified == {}
        && if s.b == [] then s.w == [NOTICE] && s.window == s.current
           else s.b == [NOTICE] && s.w == [] && s.window == Other(s.current))
    || (s.resizing
        && if s.b == [] then
             s.window == s.current && s.notified <= {Other(s.current)}
             && ((s.a == [] && s.w == [NOTICE]) || (s.a == [NOTICE] && s.w == [])
                 || (s.a == s.w == [] && s.notified == {Other(s.current)}))
           else
             s.b == [NOTICE] && s.a == s.w == [] && s.window == Other(s.current) && s.notified <= {s.current})
  }

  /** A second notice is, or will be, sent: the server's answer goes to the window the client has left. */
  predicate Doomed(s: State) {
    && s.current < 2 && s.window < 2 && (s.w != [] ==> s.pending) && (s.b == [] ==> s.stamp == 0)
    && (s.b == [] <==> !s.counted) && CHANGE_SIZE <= s.newSize < WORD
    && if s.step == 1 then
         || (s.notified == {} && InStep(s) && NoticeLast(s))
         || (Waiting(s) && s.notified <= {s.current})
       else s.step == 2 && SecondNotice(s)
  }

  /** fixBufferSize between the notice and the new buffers is fatal ... */
  lemma FixTooLate(s: State, n: nat)
    requires Inv(s) && Can(s, Fix(n)) && (s.step == 2 || s.step == 3)
    ensures Doomed(Do(s, Fix(n)))
  { }

  lemma DoomedStays(s: State, act: Action)
    requires Doomed(s) && Can(s, act) && !act.Fix?
    ensures Doomed(Do(s, act))
  {
    match act
    case Process => DoomedProcess(s);
    case Pull(t) => DoomedPull(s, t);
    case _ =>
      UsersOfNothing();
      hide Users, AllUser, IsChange, Handle;
  }

  lemma DoomedPull(s: State, t: nat)
    requires Doomed(s)
    ensures !Can(s, Pull(t))
  {
    hide Users, AllUser, IsChange, Handle;
  }

  lemma DoomedProcess(s: State)
    requires Doomed(s) && s.a != []
    ensures Doomed(Do(s, Process))
  {
    UsersOfNotice();
    UsersOfNothing();
    if AllUser(s.a) {
      HandleUsers(s.(window := Other(s.window), a := []), s.a);
      if IsChange(s.a, s.size) { UsersOfChange(s.a, s.size); }
      hide Users, AllUser, IsChange, Handle;
    } else if s.a == [NOTICE] {
      hide Users, AllUser, IsChange;
    } else {
      DoomedChange(s);
    }
  }

  lemma DoomedChange(s: State)
    requires Doomed(s) && s.a != [] && s.a != [NOTICE] && !AllUser(s.a)
    ensures Doomed(Do(s, Process))
  {
    UsersOfNotice();
    UsersOfNothing();
    assert s.step == 1 && IsChange(s.a, s.size);
    hide Users, AllUser;
  }

  /** ... in every run without a further call the client never writes again; ... */
  lemma {:induction false} DoomedForEver(s: State, acts: seq<Action>, e: Event)
    requires Doomed(s) && Run(s, acts) && forall i | 0 <= i < |acts| :: !acts[i].Fix?
    ensures !Can(After(s, acts), Write(e)) && After(s, acts).step != 0
    decreases |acts|
  {
    if acts != [] {
      DoomedStays(s, acts[0]);
      DoomedForEver(Do(s, acts[0]), acts[1..], e);
    }
  }

  /** ... at any other time it is not: the hand-shake can be completed without a further call if and only if
      fixBufferSize did not come at step 2 or 3. */
  lemma FixCanBeCompleted(s: State, n: nat)
    requires Inv(s) && Can(s, Fix(n))
    ensures (exists acts :: FixFree(acts) && Run(Do(s, Fix(n)), acts) && After(Do(s, Fix(n)), acts).step == 0)
       <==> s.step != 2 && s.step != 3
  {
    var t := Do(s, Fix(n));
    if s.step == 2 || s.step == 3 {
      FixTooLate(s, n);
      forall acts | FixFree(acts) && Run(t, acts) ensures After(t, acts).step != 0 { DoomedForEver(t, acts, NOTICE); }
    } else {
      ActionKeeps(s, Fix(n));
      var acts := Drain(t);
    }
  }

  predicate FixFree(acts: seq<Action>) {
    forall i | 0 <= i < |acts| :: !acts[i].Fix?
  }

  lemma {:induction false} Drain(s: State) returns (acts: seq<Action>)
    requires Inv(s)
    ensures Run(s, acts) && FixFree(acts) && After(s, acts).step == 0
    decreases Rank(s)
  {
    if Rank(s) == 0 { return []; }
    var act := NeverStuck(s);
    ActionKeeps(s, act);
    InnerShrinks(s, act);
    var rest := Drain(Do(s, act));
    RunStep(s, act, rest);
    return [act] + rest;
  }

  /** It does happen: a change of size is asked for, the notice is in the buffer, fixBufferSize is called. */
  lemma FixTooLateHappens(s: State, n: nat, m: nat)
    requires IsInit(s) && !s.pending && CHANGE_SIZE <= n < WORD && CHANGE_SIZE <= m < WORD
    ensures var t := After(s, [Want(n), Notice]);
      Run(s, [Want(n), Notice]) && t.step == 2 && Can(t, Fix(m)) && Doomed(Do(t, Fix(m)))
  {
    InitInv(s);
    WantThenNotice(s, n);
    RunKeeps(s, [Want(n), Notice]);
    FixTooLate(After(s, [Want(n), Notice]), m);
  }

  lemma WantThenNotice(s: State, n: nat)
    requires IsInit(s) && !s.pending && CHANGE_SIZE <= n < WORD
    ensures Run(s, [Want(n), Notice]) && After(s, [Want(n), Notice]) == Do(Do(s, Want(n)), Notice)
  {
    var t := Do(s, Want(n));
    assert Run(Do(t, Notice), []) && After(Do(t, Notice), []) == Do(t, Notice);
    RunStep(t, Notice, []);
    RunStep(s, Want(n), [Notice]);
    assert [Notice] + [] == [Notice] && [Want(n)] + [Notice] == [Want(n), Notice];
  }

  /** An initial state, with buffers of any size. */
  function Fresh(size: nat): (s: State)
    requires CHANGE_SIZE <= size < WORD
    ensures IsInit(s) && !s.pending && s.size == size
  {
    State(0, 1, size, 0, false, false, 0, {}, 1, false, size, [], [], [], [], [])
  }

  /** Where a doomed run without a further call stops. */
  predicate Stranded(s: State) {
    s.step == 2 && s.resizing && s.a == s.w == s.b == [] && !s.pending && !s.counted
    && s.current < 2 && s.window == s.current && s.notified == {Other(s.current)}
  }

  lemma DoomedStops(s: State)
    requires Doomed(s) && forall act | Inner(act) :: !Can(s, act)
    ensures Stranded(s)
  {
    assert !Can(s, Process) && !Can(s, Receive) && !Can(s, Tested) && !Can(s, Push) && !Can(s, Notice);
  }

  /** A further call of fixBufferSize, from there, makes a third notice, and the client finds the answer to the
      second one: the hand-shake can end. */
  lemma LaterFixRescues(s: State, n: nat) returns (acts: seq<Action>)
    requires Stranded(s) && CHANGE_SIZE <= n < WORD
    ensures var t := Do(s, Fix(n)); FixFree(acts) && Run(t, acts) && After(t, acts).step == 0
  {
    var e := AddressOf(n);
    var t := Do(s, Fix(n));
    var u := ThirdNotice(s, n);
    var v := Do(Do(Do(u, Process), Told), Resize(e));
    var w := Do(v, Push);
    assert Run(w, []) && After(w, []) == w;
    RunStep(v, Push, []);
    RunStep(Do(Do(u, Process), Told), Resize(e), [Push]);
    RunStep(Do(u, Process), Told, [Resize(e), Push]);
    RunStep(u, Process, [Told, Resize(e), Push]);
    acts := [Notice, Push, Receive, Tested] + ([Process] + ([Told] + ([Resize(e)] + ([Push] + []))));
    assert [Push] + [] == [Push] && [Resize(e)] + [Push] == [Resize(e), Push];
    assert [Told] + [Resize(e), Push] == [Told, Resize(e), Push];
    FourActions(t, [Process] + [Told, Resize(e), Push]);
  }

  /** But the client no longer waits for the server: it may replace the buffers before the server has handled
      the notice. */
  lemma LaterFixIsUnsafe(s: State, n: nat, e: Event)
    requires Stranded(s) && CHANGE_SIZE <= n < WORD && IsChange([e], n)
    ensures var t := Do(s, Fix(n)); var acts := [Notice, Push, Receive, Tested, Told];
      Run(t, acts) && After(t, acts).a == [NOTICE] && Can(After(t, acts), Resize(e))
  {
    var t := Do(s, Fix(n));
    var u := ThirdNotice(s, n);
    assert Run(Do(u, Told), []) && After(Do(u, Told), []) == Do(u, Told);
    RunStep(u, Told, []);
    assert [Told] + [] == [Told];
    FourActions(t, [Told]);
    assert [Notice, Push, Receive, Tested] + [Told] == [Notice, Push, Receive, Tested, Told];
  }

  lemma ThirdNotice(s: State, n: nat) returns (u: State)
    requires Stranded(s) && CHANGE_SIZE <= n < WORD
    ensures var t := Do(s, Fix(n));
      && Can(t, Notice) && Can(Do(t, Notice), Push) && Can(Do(Do(t, Notice), Push), Receive)
      && Can(Do(Do(Do(t, Notice), Push), Receive), Tested) && u == Do(Do(Do(Do(t, Notice), Push), Receive), Tested)
    ensures u == s.(step := 2, newSize := n, current := Other(s.current), a := [NOTICE], stamp := 0)
  {
    u := s.(step := 2, newSize := n, current := Other(s.current), a := [NOTICE], stamp := 0);
  }

  lemma FourActions(t: State, acts: seq<Action>)
    requires Can(t, Notice) && Can(Do(t, Notice), Push) && Can(Do(Do(t, Notice), Push), Receive)
    requires Can(Do(Do(Do(t, Notice), Push), Receive), Tested)
    requires Run(Do(Do(Do(Do(t, Notice), Push), Receive), Tested), acts)
    ensures var all := [Notice, Push, Receive, Tested] + acts;
      Run(t, all) && After(t, all) == After(Do(Do(Do(Do(t, Notice), Push), Receive), Tested), acts)
  {
    hide Can, Do, Run, After;
    RunStep(Do(Do(Do(t, Notice), Push), Receive), Tested, acts);
    RunStep(Do(Do(t, Notice), Push), Receive, [Tested] + acts);
    RunStep(Do(t, Notice), Push, [Receive] + ([Tested] + acts));
    RunStep(t, Notice, [Push] + ([Receive] + ([Tested] + acts)));
    assert [Notice] + ([Push] + ([Receive] + ([Tested] + acts))) == [Notice, Push, Receive, Tested] + acts;
  }
}
