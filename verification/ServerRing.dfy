/** The server's side of a change of size, with its ring: the ring is deleted only when nothing in it is live,
    and it never holds up the hand-shake (src/transport/legacy_context_server.cpp, src/event_server.cpp). */
module ServerRing {
  import opened Buffers
  import opened Messages
  import opened DoubleBuffer
  import opened DoubleBufferProgress
  import opened ServerBuffer

  /** `held` are the blocks of the ring, oldest first, as the events in them.  While a message is being received it
      is the last block; the events of the others have been delivered, and wait to be freed. */
  datatype Server = Server(s: State, held: seq<seq<Event>>)

  datatype Act =
    | Link(act: Action)  // an action of client and server
    | Free               // the oldest event has been executed: freeBuffer

  /** The blocks as bytes. */
  function Ring(held: seq<seq<Event>>): seq<seq<byte>> {
    seq(|held|, i requires 0 <= i < |held| => Flat(held[i]))
  }

  /** The blocks whose events have been delivered. */
  function Live(r: Server): seq<seq<Event>> {
    if r.s.a == [] || r.held == [] then r.held else r.held[..|r.held| - 1]
  }

  /** A message is received during a change, and a window read, only into an empty ring. */
  predicate CanDo(r: Server, act: Act) {
    match act
    case Free => Live(r) != [] && r.held[0] != []
    case Link(a) => Allowed(r.s, a) && ((a.Receive? && r.s.resizing) || a.Pull? ==> r.held == [])
  }

  function FreeFirst(held: seq<seq<Event>>): seq<seq<Event>>
    requires held != [] && held[0] != []
  {
    if |held[0]| == 1 then held[1..] else [held[0][1..]] + held[1..]
  }

  function DoIt(r: Server, act: Act): Server
    requires CanDo(r, act)
  {
    match act
    case Free => r.(held := FreeFirst(r.held))
    case Link(a) =>
      var s' := Do(r.s, a);
      match a
      case Receive => Server(s', r.held + [r.s.w])
      case Pull(t) => Server(s', r.held + [r.s.b])
      case Process =>
        if r.s.a == [NOTICE] then Server(s', if r.held == [] then [] else r.held[..|r.held| - 1])  // popBuffer
        else if |r.s.a| == 1 && r.s.a[0].timeLine == CHANGE then Server(s', [])  // freeBuffer; a new ring
        else Server(s', r.held)
      case _ => Server(s', r.held)
  }

  predicate RingOk(r: Server) {
    && (forall g | g in r.held :: g != [])
    && (r.s.a != [] ==> r.held != [] && r.held[|r.held| - 1] == r.s.a)
    && (r.s.a != [] && r.s.resizing ==> |r.held| == 1)
  }

  /** What is sent fits in the ring that it is sent to. */
  predicate SizesOk(s: State) {
    |Flat(s.b)| <= s.size && |Flat(s.w)| <= s.size && CHANGE_SIZE <= s.ringSize
  }

  predicate RInv(r: Server) {
    Inv(r.s) && RingOk(r) && SizesOk(r.s)
  }

  lemma StartOk(s: State)
    requires IsInit(s)
    ensures RInv(Server(s, []))
  {
    InitInv(s);
  }

  lemma FlatOfOne(e: Event)
    ensures Flat([e]) == Encode(e) && |Flat([e])| == Size(e)
  {
    assert [e][1..] == [];
  }

  lemma SizesKeep(s: State, a: Action)
    requires Inv(s) && SizesOk(s) && Allowed(s, a)
    ensures SizesOk(Do(s, a))
  {
    match a
    case Write(e) =>
      FlatConcat(s.b, [e]);
      FlatOfOne(e);
    case Notice => FlatOfOne(NOTICE);
    case Resize(e) => FlatOfOne(e);
    case Process => ProcessSizes(s);
    case Pull(t) => PullKeeps(s, t);
    case _ =>
  }

  lemma ProcessSizes(s: State)
    requires Inv(s) && SizesOk(s) && s.a != []
    ensures SizesOk(Do(s, Process))
  {
    hide Users, Flat;
    if AllUser(s.a) { assert IsUser(s.a[0]); }
  }

  /** Only a message received during a change is the change. */
  lemma ChangeIsLate(s: State, size: nat)
    requires Inv(s) && IsChange(s.a, size)
    ensures s.resizing && NewSize(s.a[0]) == s.size
  {
    UsersOfChange(s.a, size);
  }

  lemma LinkKeeps(r: Server, a: Action)
    requires RInv(r) && CanDo(r, Link(a))
    ensures RingOk(DoIt(r, Link(a)))
  {
    hide Inv, SizesOk, Users, Flat;
    match a
    case Process =>
      HandleLeaves(r.s.(window := Other(r.s.window), a := []), r.s.a);
      var held' := DoIt(r, Link(Process)).held;
      assert forall g | g in held' :: g in r.held;
    case Pull(t) =>
      HandleLeaves(r.s.(b := [], stamp := 0), r.s.b);
      PullBytes(r.s, t);
    case _ =>
  }

  lemma PullBytes(s: State, t: nat)
    requires Inv(s) && Can(s, Pull(t))
    ensures s.b != []
  { }

  lemma FreeKeeps(r: Server)
    requires RInv(r) && CanDo(r, Free)
    ensures RInv(DoIt(r, Free))
  {
    hide Inv, SizesOk, Flat;
    var held' := FreeFirst(r.held);
    forall g | g in held' ensures g != [] {
      if g in r.held[1..] { assert g in r.held; }
    }
  }

  /** Every action keeps the ring in order. */
  lemma RingKeeps(r: Server, act: Act)
    requires RInv(r) && CanDo(r, act)
    ensures RInv(DoIt(r, act))
  {
    match act
    case Free => FreeKeeps(r);
    case Link(a) =>
      ActionKeeps(r.s, a);
      SizesKeep(r.s, a);
      LinkKeeps(r, a);
  }

  predicate RingRun(r: Server, acts: seq<Act>)
    decreases |acts|
  {
    acts == [] || (CanDo(r, acts[0]) && RingRun(DoIt(r, acts[0]), acts[1..]))
  }

  function RingAfter(r: Server, acts: seq<Act>): Server
    requires RingRun(r, acts)
    decreases |acts|
  {
    if acts == [] then r else RingAfter(DoIt(r, acts[0]), acts[1..])
  }

  lemma {:induction false} RingRunKeeps(r: Server, acts: seq<Act>)
    requires RInv(r) && RingRun(r, acts)
    ensures RInv(RingAfter(r, acts))
    decreases |acts|
  {
    hide RInv, CanDo, DoIt;
    if acts != [] {
      RingKeeps(r, acts[0]);
      RingRunKeeps(DoIt(r, acts[0]), acts[1..]);
    }
  }

  // ---------------------------------------------------------------- the blocks as bytes

  lemma FlatSome(es: seq<Event>)
    requires es != []
    ensures |Flat(es)| >= Size(es[0]) >= HEAD
  {
    FlatFirst(es);
  }

  /** freeBuffer, for the first event of the oldest block, takes this event from the ring. */
  lemma FreeIsFront(held: seq<seq<Event>>)
    requires held != [] && held[0] != []
    ensures var n := Size(held[0][0]); 0 < n <= |Ring(held)[0]| && DropFront(Ring(held), n) == Ring(FreeFirst(held))
  {
    var e, rest := held[0][0], held[0][1..];
    FlatFirst(held[0]);
    var n := Size(e);
    assert Ring(held)[0] == Encode(e) + Flat(rest);
    assert Ring(held)[1..] == Ring(held[1..]);
    if rest == [] {
      assert Ring(held)[0] == Encode(e);
      assert DropFront(Ring(held[1..]), 0) == Ring(held[1..]);
    } else {
      FlatSome(rest);
      assert Ring(held)[0][n..] == Flat(rest);
      assert Ring(FreeFirst(held)) == [Flat(rest)] + Ring(held[1..]);
    }
  }

  /** popBuffer, for the whole of the newest block, takes this block from the ring. */
  lemma PopIsBack(held: seq<seq<Event>>)
    requires held != [] && held[|held| - 1] != []
    ensures var i := |held| - 1; |Flat(held[i])| == |Ring(held)[i]| && DropBack(Ring(held), |Flat(held[i])|) == Ring(held[..i])
  {
    var i := |held| - 1;
    FlatSome(held[i]);
    assert Ring(held)[..i] == Ring(held[..i]);
    assert DropBack(Ring(held[..i]), 0) == Ring(held[..i]);
  }

  /** The notice is the newest block when it is handled: popBuffer(count) takes it and nothing else. */
  lemma NoticeIsPopped(r: Server, acts: seq<Act>)
    requires IsInit(r.s) && r.held == [] && RingRun(r, acts) && RingAfter(r, acts).s.a == [NOTICE]
    ensures var t := RingAfter(r, acts);
      DropBack(Ring(t.held), |Flat(t.s.a)|) == Ring(DoIt(t, Link(Process)).held)
  {
    hide RInv, RingRun, RingAfter, IsInit;
    StartOk(r.s);
    RingRunKeeps(r, acts);
    NoticeIsLast(RingAfter(r, acts));
  }

  lemma NoticeIsLast(t: Server)
    requires RInv(t) && t.s.a == [NOTICE] && CanDo(t, Link(Process))
    ensures DropBack(Ring(t.held), |Flat(t.s.a)|) == Ring(DoIt(t, Link(Process)).held)
  {
    hide Inv, SizesOk, Ring, Flat, DropBack;
    PopIsBack(t.held);
  }

  /** When the server is told the new size, its ring holds this message and nothing else: freeBuffer(count) leaves
      it empty, and the ring that is deleted has no live block. */
  lemma ChangeIsAlone(r: Server, acts: seq<Act>, size: nat)
    requires IsInit(r.s) && r.held == [] && RingRun(r, acts) && IsChange(RingAfter(r, acts).s.a, size)
    ensures var t := RingAfter(r, acts);
      t.held == [t.s.a] && Live(t) == [] && DropFront(Ring(t.held), |Flat(t.s.a)|) == []
  {
    hide RingRun, RingAfter, IsInit;
    StartOk(r.s);
    RingRunKeeps(r, acts);
    var t := RingAfter(r, acts);
    ChangeIsLate(t.s, size);
    FlatOfOne(t.s.a[0]);
    FreeIsFront(t.held);
    assert t.held == [t.s.a];
  }

  /** An empty ring has room for the next message, and for what the server may read from the window. */
  lemma EmptyRingFits(r: Server, acts: seq<Act>, t: nat)
    requires IsInit(r.s) && r.held == [] && RingRun(r, acts)
    ensures var u := RingAfter(r, acts);
      && (Can(u.s, Receive) ==> |Flat(u.s.w)| <= u.s.ringSize)
      && (Can(u.s, Pull(t)) ==> |Flat(u.s.b)| <= u.s.ringSize)
  {
    hide RInv, RingRun, RingAfter, IsInit, Can;
    StartOk(r.s);
    RingRunKeeps(r, acts);
    RInvParts(RingAfter(r, acts));
    NextFits(RingAfter(r, acts).s, t);
  }

  lemma RInvParts(r: Server)
    requires RInv(r)
    ensures Inv(r.s) && SizesOk(r.s)
  { }

  lemma NextFits(s: State, t: nat)
    requires Inv(s) && SizesOk(s)
    ensures Can(s, Receive) ==> |Flat(s.w)| <= s.ringSize
    ensures Can(s, Pull(t)) ==> |Flat(s.b)| <= s.ringSize
  {
    hide Flat, Users, AllUser;
    if Can(s, Receive) && s.resizing {
      FlatOfOne(s.w[0]);
      assert s.w == [s.w[0]];
    }
    if Can(s, Pull(t)) { PullIsOfUsers(s, t); }
  }

  // ---------------------------------------------------------------- progress

  /** The events in the ring. */
  function Held(held: seq<seq<Event>>): nat {
    if held == [] then 0 else |held[0]| + Held(held[1..])
  }

  /** The actions that start nothing. */
  predicate RingInner(act: Act) {
    act.Free? || Inner(act.act)
  }

  /** What the server and a client that writes nothing can always do: a message is received at the latest when the
      ring is empty. */
  predicate Certain(r: Server, act: Act) {
    CanDo(r, act) && RingInner(act) && (act == Link(Receive) ==> r.held == [])
  }

  lemma RingShrinks(r: Server, act: Act)
    requires RInv(r) && CanDo(r, act) && RingInner(act)
    ensures var t := DoIt(r, act); Rank(t.s) < Rank(r.s) || (t.s == r.s && Held(t.held) < Held(r.held))
  {
    match act
    case Free =>
    case Link(a) => InnerShrinks(r.s, a);
  }

  /** The ring holds nothing up: as long as an event is in it or under way, or a change of size is not over, something
      can happen. */
  lemma RingNeverStuck(r: Server) returns (act: Act)
    requires RInv(r) && (Rank(r.s) > 0 || r.held != [])
    ensures Certain(r, act)
  {
    if r.s.a != [] { return Link(Process); }
    if r.held != [] {
      assert r.held[0] in r.held;
      return Free;
    }
    var a := NeverStuck(r.s);
    return Link(a);
  }

  /** Every run that starts nothing new ends, whatever the server does first; and where nothing certain is left to do,
      all events have been delivered and freed, and the hand-shake is over. */
  lemma {:induction false} RingDrains(r: Server, next: Server -> Act) returns (acts: seq<Act>)
    requires RInv(r)
    requires forall x | RInv(x) && (exists act :: Certain(x, act)) :: CanDo(x, next(x)) && RingInner(next(x))
    ensures RingRun(r, acts)
    ensures var t := RingAfter(r, acts);
      t.held == [] && t.s.step == 0 && !t.s.pending && t.s.delivered == t.s.sent == r.s.sent && t.s.ringSize == t.s.size
    decreases Rank(r.s), Held(r.held)
  {
    hide CanDo, DoIt, RInv, RingInner;
    if act :| Certain(r, act) {
      var step := next(r);
      RingKeeps(r, step);
      RingShrinks(r, step);
      SentStays(r, step);
      var rest := RingDrains(DoIt(r, step), next);
      acts := [step] + rest;
    } else {
      acts := [];
      Drained(r);
    }
  }

  lemma SentStays(r: Server, act: Act)
    requires CanDo(r, act) && RingInner(act)
    ensures DoIt(r, act).s.sent == r.s.sent
  {
    if act.Link? { InnerSendsNothing(r.s, act.act); }
  }

  lemma Drained(r: Server)
    requires RInv(r) && forall act :: !Certain(r, act)
    ensures r.held == [] && r.s.step == 0 && !r.s.pending && r.s.delivered == r.s.sent && r.s.ringSize == r.s.size
  {
    if Rank(r.s) > 0 || r.held != [] {
      var act := RingNeverStuck(r);
    }
    UsersOfNothing();
  }

  // ---------------------------------------------------------------- the code

  lemma Ends(data: seq<byte>, first: nat, current: nat, end: nat, used: int, bs: seq<Block>, k: nat)
    requires Layout(first, current, end, |data|, used, bs, k) && bs != []
    ensures Inside(bs, |data|)
    ensures var c := Bytes(data, bs); |c| == |bs| && |c[0]| <= FrontRun(first, current, end, used) && |c[|bs| - 1]| <= BackRun(first, current, used)
  {
    LayoutBounds(first, current, end, |data|, used, bs, k);
    FrontBlockFrees(first, current, end, |data|, used, bs, k);
    hide Layout;
    assert bs[0] in bs && bs[|bs| - 1] in bs;
  }

  lemma {:induction false} CutWhole(c: seq<seq<byte>>)
    requires c != [] && c[|c| - 1] != []
    ensures DropBack(c, |c[|c| - 1]|) == c[..|c| - 1]
    ensures |c| == 1 ==> DropFront(c, |c[0]|) == []
  {
    assert DropBack(c[..|c| - 1], 0) == c[..|c| - 1];
    if |c| == 1 { assert DropFront(c[1..], 0) == []; }
  }

  /** What the context server holds for one client: its ring, resizingBuffer_, and whether a message is being received. */
  class ClientBuffer {
    var ring: CServerBuffer
    var resizing: bool
    var receiving: bool

    ghost predicate Valid()
      reads this, ring
    {
      ring.Valid() && ring.tame && ring.size < WORD
    }

    ghost function Blocks(): seq<seq<byte>>
      requires Valid()
      reads this, ring, ring.buffer
    {
      ring.Contents()
    }

    constructor (buffSize: nat)
      requires 1 <= buffSize && 3 * buffSize < WORD
      ensures Valid() && Blocks() == [] && !resizing && !receiving && ring.buffSize == buffSize && fresh(ring) && fresh(ring.buffer)
    {
      ring := new CServerBuffer(buffSize);
      resizing, receiving := false, false;
    }

    /** checkPendingProbe: a message that waits is received if there is room, or, during a change, if the ring is
        empty.  An empty ring takes every message that is not larger than the client's buffer. */
    method CheckPendingProbe(message: seq<byte>) returns (taken: bool)
      requires Valid() && message != [] && |message| <= ring.buffSize
      modifies this`receiving, ring, ring.buffer
      ensures Valid() && ring.buffer == old(ring.buffer) && receiving == (old(receiving) || taken)
      ensures Blocks() == if taken then old(Blocks()) + [message] else old(Blocks())
      ensures taken && resizing ==> old(Blocks()) == []
      ensures taken <==> !old(receiving) && if resizing then old(Blocks()) == [] else HasPlace(old(ring.blocks), old(ring.first), old(ring.current), ring.size, |message|)
      ensures !old(receiving) && old(Blocks()) == [] ==> taken
    {
      taken := false;
      if !receiving {
        var free := ring.IsBufferFree(|message|);
        var empty := ring.IsBufferEmpty();
        EmptyIsUnused(ring);
        if (free && !resizing) || (resizing && empty) {
          taken := ring.Receive(message);
          receiving := true;
        }
      }
    }

    lemma EmptyIsUnused(ring: CServerBuffer)
      requires ring.Valid()
      ensures ring.Contents() == [] ==> ring.used == 0
    {
      UsedIsTotal(ring.buffer[..], ring.first, ring.current, ring.end, ring.used, ring.blocks, ring.upper);
    }

    /** processRequest, for the notice: its message leaves the ring at the back. */
    method NotifyBufferResizing(count: nat)
      requires Valid() && Blocks() != [] && count == |Blocks()[|Blocks()| - 1]|
      modifies this`resizing, this`receiving, ring
      ensures Valid() && ring.buffer == old(ring.buffer) && resizing && !receiving
      ensures Blocks() == old(Blocks()[..|Blocks()| - 1])
    {
      hide Sound, Layout, Bytes, DropBack, DropFront, BackRun, FrontRun;
      resizing, receiving := true, false;
      RingEnds(ring);
      LastNotEmpty(ring);
      CutWhole(Blocks());
      NoLonger(ring);
      var ok := ring.PopBuffer(count);
    }

    lemma RingEnds(ring: CServerBuffer)
      requires ring.Valid() && ring.Contents() != []
      ensures |ring.Contents()[0]| <= FrontRun(ring.first, ring.current, ring.end, ring.used)
      ensures |ring.Contents()[|ring.Contents()| - 1]| <= BackRun(ring.first, ring.current, ring.used)
    {
      Ends(ring.buffer[..], ring.first, ring.current, ring.end, ring.used, ring.blocks, ring.upper);
    }

    lemma NoLonger(ring: CServerBuffer)
      requires ring.Valid() && ring.Contents() != []
      ensures |ring.Contents()[|ring.Contents()| - 1]| <= ring.size
    {
      LayoutBounds(ring.first, ring.current, ring.end, ring.size, ring.used, ring.blocks, ring.upper);
      assert ring.blocks[|ring.blocks| - 1] in ring.blocks;
    }

    lemma LastNotEmpty(ring: CServerBuffer)
      requires ring.Valid() && ring.Contents() != []
      ensures ring.Contents()[|ring.Contents()| - 1] != []
    {
      LayoutBounds(ring.first, ring.current, ring.end, ring.size, ring.used, ring.blocks, ring.upper);
      assert ring.blocks[|ring.blocks| - 1] in ring.blocks;
    }

    /** processRequest, for the change of size, when its message is alone in the ring: once it is freed, no block is
        live in the ring that is deleted. */
    method ChangeBufferSize(count: nat, newSize: nat)
      requires Valid() && 1 <= newSize && 3 * newSize < WORD && |Blocks()| == 1 && count == |Blocks()[0]|
      modifies this, ring
      ensures Valid() && Blocks() == [] && !resizing && !receiving && ring.buffSize == newSize && fresh(ring) && fresh(ring.buffer)
      ensures old(ring).Valid() && old(ring).Contents() == []
    {
      hide Sound, Layout, Bytes, DropBack, DropFront, BackRun, FrontRun;
      RingEnds(ring);
      LastNotEmpty(ring);
      CutWhole(Blocks());
      var ok := ring.FreeBuffer(count);
      ring := new CServerBuffer(newSize);
      resizing, receiving := false, false;
    }

    /** The end of an event: its bytes, at the front of the oldest block, are freed without an error. */
    method FreeEvent(size: nat)
      requires Valid() && Blocks() != [] && size <= |Blocks()[0]|
      modifies ring
      ensures Valid() && ring.buffer == old(ring.buffer) && Blocks() == DropFront(old(Blocks()), size)
    {
      hide Sound, Layout, Bytes, DropFront, FrontRun;
      RingEnds(ring);
      var ok := ring.FreeBuffer(size);
    }
  }
}
