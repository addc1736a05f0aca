/** The double buffer between a client and a server as a state machine: the client's writes and sends
    (src/buffer_client.cpp), the server's receives and one-sided reads (src/buffer_server.cpp and
    src/transport/legacy_context_server.cpp), and the hand-shake that changes the size of the buffers.
    Each section under a window's lock is one action.  BufferLink.dfy has the code of the actions. */
module DoubleBuffer {
  import opened Buffers
  import opened Messages

  const NOTIFY_SIZE: nat := HEAD
  const CHANGE_SIZE: nat := HEAD + 3 * WORD_BYTES

  /** The client fills buffer `current`, whose header says `stamp` for its first time line; the server looks at
      `window`.  b, w and a are the events in the buffer, on the wire and being received; `counted` says that the
      client's own count of the bytes in the buffer is not 0; notified are the windows that hold the server's
      notice. */
  datatype State = State(
    step: nat, current: nat, size: nat, newSize: nat, pending: bool, counted: bool, stamp: nat, notified: set<nat>,
    window: nat, resizing: bool, ringSize: nat,
    a: seq<Event>, w: seq<Event>, b: seq<Event>,
    sent: seq<Event>, delivered: seq<Event>)

  datatype Action =
    | Write(e: Event)        // getBuffer: the event is accepted
    | Want(n: nat)           // isBufferFree: a refusal that starts a change of size
    | Fix(n: nat)            // fixBufferSize
    | Refresh                // isBufferFree, refusing, or hasPendingRequest: the count is read again
    | Push                   // checkBuffer: the buffer is sent
    | Tested                 // checkBuffer: the send has completed
    | Notice                 // resizeBufferNotify
    | Told                   // isNotifiedChangeBufferSize
    | Resize(e: Event)       // resizeBuffer
    | Receive                // checkPendingProbe: the receive is posted
    | Process                // checkPendingRequest and processRequest
    | Pull(t: nat)           // getBufferFromClient and processRequest

  /** The client counts bytes that the server has taken. */
  predicate Stale(s: State) {
    s.counted && s.b == []
  }

  function Other(i: nat): nat {
    if i == 1 then 0 else 1
  }

  function NewSize(e: Event): nat {
    if |e.payload| < WORD_BYTES then 0 else FromLe(e.payload[..WORD_BYTES])
  }

  const NOTICE: Event := Event(NOTIFY, [])

  predicate IsChange(es: seq<Event>, size: nat) {
    |es| == 1 && Fits(es[0]) && es[0].timeLine == CHANGE && |es[0].payload| == 3 * WORD_BYTES && NewSize(es[0]) == size
  }

  /** What processRequest does with a message. */
  function Handle(s: State, es: seq<Event>): State {
    if es == [NOTICE] then s.(resizing := true, notified := s.notified + {s.window}, window := Other(s.window))
    else if |es| == 1 && es[0].timeLine == CHANGE then s.(resizing := false, window := 1, ringSize := NewSize(es[0]))
    else s.(delivered := s.delivered + es)
  }

  predicate Can(s: State, act: Action) {
    match act
    case Write(e) => s.step == 0 && IsUser(e) && |Flat(s.b)| + Size(e) <= s.size
    case Want(n) => s.step == 0 && CHANGE_SIZE <= n < WORD
    case Fix(n) => CHANGE_SIZE <= n < WORD
    case Push => !s.pending && s.b != []
    case Tested => s.pending && s.w == []
    case Refresh => Stale(s)
    case Notice => !s.pending && !s.counted && s.step == 1
    case Told => !s.pending && !s.counted && s.step == 2 && s.current in s.notified
    case Resize(e) => !s.pending && !s.counted && s.step == 3 && IsChange([e], s.newSize)
    case Receive => s.w != [] && s.a == []
    case Process => s.a != []
    case Pull(t) => s.a == [] && !s.resizing && 0 < t < NOTIFY && t == if s.window == s.current then s.stamp else 0
  }

  function Do(s: State, act: Action): State {
    match act
    case Write(e) => s.(b := s.b + [e], counted := true, sent := s.sent + [e],
                        stamp := if s.stamp == 0 then e.timeLine else s.stamp)
    case Want(n) => s.(step := 1, stamp := 0, newSize := n, counted := s.b != [])
    case Fix(n) => s.(step := 1, newSize := n)
    case Refresh => s.(counted := false)
    case Push => s.(step := if s.step == 4 then 0 else s.step, pending := true, stamp := 0, w := s.b, b := [],
                    counted := false, current := Other(s.current))
    case Tested => s.(pending := false)
    case Notice => s.(step := 2, b := [NOTICE], counted := true, stamp := NOTIFY)
    case Told => s.(step := 3, notified := s.notified - {s.current})
    case Resize(e) => s.(step := 4, size := s.newSize, current := 0, notified := {}, b := [e], counted := true,
                         stamp := CHANGE)
    case Receive => s.(a := s.w, w := [])
    case Process => Handle(s.(window := Other(s.window), a := []), s.a)
    case Pull(t) => Handle(s.(b := [], stamp := 0), s.b)
  }

  predicate IsInit(s: State) {
    && s.step == 0 && s.current == s.window == 1 && !s.counted && CHANGE_SIZE <= s.size < WORD && s.stamp == 0 && s.notified == {}
    && !s.resizing && s.ringSize == s.size && s.a == s.w == s.b == s.sent == s.delivered == []
  }

  // ---------------------------------------------------------------- the invariant

  /** Nothing lost, nothing twice, in order. */
  predicate Conserved(s: State) {
    s.sent == s.delivered + Users(s.a) + Users(s.w) + Users(s.b)
  }

  predicate Shape(s: State) {
    && s.current < 2 && s.window < 2 && s.step <= 4
    && CHANGE_SIZE <= s.size < WORD && (s.step > 0 ==> CHANGE_SIZE <= s.newSize < WORD)
    && (s.w != [] ==> s.pending) && (s.b == [] ==> s.stamp == 0)
    && (s.b != [] ==> s.counted) && (Stale(s) ==> s.step <= 1)
  }

  /** The next message the server handles tells it the size of the new buffers. */
  predicate ChangeAhead(s: State) {
    if s.a != [] then IsChange(s.a, s.size) else IsChange(s.w, s.size)
  }

  /** The server's window is behind the client's buffer by one for each message it has yet to handle. */
  predicate InStep(s: State) {
    if s.resizing then
      ChangeAhead(s) && s.current == if s.a != [] && s.w != [] then 0 else 1
    else
      s.ringSize == s.size && s.window == if (s.a == []) == (s.w == []) then s.current else Other(s.current)
  }

  predicate UserOrChange(s: State, es: seq<Event>) {
    AllUser(es) || (s.resizing && IsChange(es, s.size))
  }

  /** The messages are the application's; the first may be the change of size. */
  predicate Plain(s: State) {
    UserOrChange(s, s.a) && (if s.a == [] then UserOrChange(s, s.w) else AllUser(s.w))
  }

  /** The notice that the size will change is the last message. */
  predicate NoticeLast(s: State) {
    if s.b != [] then s.b == [NOTICE] && s.stamp == NOTIFY && Plain(s)
    else if s.w != [] then s.w == [NOTICE] && UserOrChange(s, s.a)
    else s.a == [NOTICE]
  }

  predicate Waiting(s: State) {
    s.resizing && s.a == s.w == s.b == [] && s.window == Other(s.current)
  }

  predicate AtChange(s: State) {
    s.notified == {} && s.resizing && s.a == s.w == [] && s.current == 0 && IsChange(s.b, s.size) && s.stamp == CHANGE
  }

  /** Where the hand-shake stands, by the step the client is at. */
  predicate HandShake(s: State) {
    if s.step <= 1 then
      (s.notified == {} && InStep(s) && Plain(s) && AllUser(s.b) && s.stamp < NOTIFY) || (s.step == 1 && AtChange(s))
    else if s.step == 2 then
      || (s.notified == {} && InStep(s) && NoticeLast(s))
      || (s.notified == {s.current} && Waiting(s))
    else if s.step == 3 then s.notified == {} && Waiting(s)
    else AtChange(s)
  }

  predicate Inv(s: State) {
    Shape(s) && Conserved(s) && HandShake(s)
  }

  // ---------------------------------------------------------------- every action keeps it

  lemma InitInv(s: State)
    requires IsInit(s)
    ensures Inv(s)
  { }

  lemma UsersOfChange(es: seq<Event>, size: nat)
    requires IsChange(es, size)
    ensures Users(es) == [] && es != [NOTICE] && !AllUser(es)
  {
    assert es[1..] == [];
    assert !IsUser(es[0]);
  }

  lemma UsersOfNothing()
    ensures Users([]) == [] && AllUser([])
  { }

  lemma UsersOfNotice()
    ensures Users([NOTICE]) == [] && !AllUser([NOTICE])
  {
    assert !IsUser([NOTICE][0]);
  }

  lemma HandleUsers(s: State, es: seq<Event>)
    requires AllUser(es)
    ensures Handle(s, es) == s.(delivered := s.delivered + es) && Users(es) == es
  {
    UsersAll(es);
    if |es| == 1 { assert IsUser(es[0]); }
  }

  lemma WriteKeeps(s: State, e: Event)
    requires Inv(s) && Can(s, Write(e))
    ensures Inv(Do(s, Write(e)))
  {
    WriteConserves(s, e);
    assert AllUser(s.b) ==> AllUser(s.b + [e]);
    hide Conserved, Users, AllUser, IsChange, Flat;
  }

  lemma WriteConserves(s: State, e: Event)
    requires Conserved(s) && IsUser(e)
    ensures Conserved(Do(s, Write(e)))
  {
    UsersConcat(s.b, [e]);
    UsersAll([e]);
    hide Users;
    Glue(s.delivered + Users(s.a) + Users(s.w), Users(s.b), [e], s.sent, Users(s.b + [e]));
  }

  lemma Glue(x: seq<Event>, y: seq<Event>, z: seq<Event>, xy: seq<Event>, yz: seq<Event>)
    requires xy == x + y && yz == y + z
    ensures xy + z == x + yz
  { }

  lemma PushKeeps(s: State)
    requires Inv(s) && Can(s, Push)
    ensures Inv(Do(s, Push))
  {
    if IsChange(s.b, s.size) { UsersOfChange(s.b, s.size); }
    UsersOfNotice();
    UsersOfNothing();
    hide Users, AllUser, IsChange, Flat;
  }

  lemma NoticeKeeps(s: State)
    requires Inv(s) && Can(s, Notice)
    ensures Inv(Do(s, Notice))
  {
    UsersOfNotice();
  }

  lemma ResizeKeeps(s: State, e: Event)
    requires Inv(s) && Can(s, Resize(e))
    ensures Inv(Do(s, Resize(e)))
  {
    UsersOfChange([e], s.newSize);
  }

  lemma ReceiveKeeps(s: State)
    requires Inv(s) && Can(s, Receive)
    ensures Inv(Do(s, Receive))
  { }

  lemma ProcessKeeps(s: State)
    requires Inv(s) && Can(s, Process)
    ensures Inv(Do(s, Process))
  {
    if AllUser(s.a) {
      ProcessUsersKeeps(s);
    } else if s.a == [NOTICE] {
      ProcessNoticeKeeps(s);
    } else {
      ProcessChangeKeeps(s);
    }
  }

  lemma ProcessUsersKeeps(s: State)
    requires Inv(s) && s.a != [] && AllUser(s.a)
    ensures Inv(Do(s, Process))
  {
    HandleUsers(s.(window := Other(s.window), a := []), s.a);
    if IsChange(s.a, s.size) { UsersOfChange(s.a, s.size); }
    UsersOfNotice();
    UsersOfNothing();
    hide Handle, Users, AllUser, IsChange;
    var t := Do(s, Process);
    assert t == s.(window := Other(s.window), a := [], delivered := s.delivered + s.a);
    assert Conserved(t);
    hide Conserved, Do;
  }

  lemma ProcessNoticeKeeps(s: State)
    requires Inv(s) && s.a == [NOTICE]
    ensures Inv(Do(s, Process))
  {
    UsersOfNotice();
  }

  lemma ProcessChangeKeeps(s: State)
    requires Inv(s) && s.a != [] && s.a != [NOTICE] && !AllUser(s.a)
    ensures Inv(Do(s, Process))
  {
    UsersOfNotice();
    assert s.step <= 2 && IsChange(s.a, s.size);
    UsersOfChange(s.a, s.size);
  }

  lemma PullIsOfUsers(s: State, t: nat)
    requires Inv(s) && Can(s, Pull(t))
    ensures AllUser(s.b) && s.w == [] && s.step <= 1 && s.window == s.current
  { }

  lemma PullKeeps(s: State, t: nat)
    requires Inv(s) && Can(s, Pull(t))
    ensures Inv(Do(s, Pull(t))) && AllUser(s.b) && s.step <= 1 && s.window == s.current
    ensures Do(s, Pull(t)) == s.(b := [], stamp := 0, delivered := s.delivered + s.b)
  {
    hide Handle, Users, AllUser, IsChange, IsUser, Fits;
    PullIsOfUsers(s, t);
    HandleUsers(s.(b := [], stamp := 0), s.b);
    UsersOfNothing();
    assert Conserved(Do(s, Pull(t)));
    hide Conserved;
  }

  /** fixBufferSize must not come between the notice and the new buffers. */
  predicate Allowed(s: State, act: Action) {
    Can(s, act) && (act.Fix? ==> s.step != 2 && s.step != 3)
  }

  lemma ToldKeeps(s: State)
    requires Inv(s) && Can(s, Told)
    ensures Inv(Do(s, Told))
  {
    hide Users, AllUser, IsChange;
  }

  lemma CallKeeps(s: State, act: Action)
    requires Inv(s) && Allowed(s, act) && (act.Want? || act.Fix? || act.Refresh? || act.Tested?)
    ensures Inv(Do(s, act))
  {
    hide Users, AllUser, IsChange;
  }

  lemma ActionKeeps(s: State, act: Action)
    requires Inv(s) && Allowed(s, act)
    ensures Inv(Do(s, act))
  {
    hide Inv, Do, Can;
    match act
    case Write(e) => WriteKeeps(s, e);
    case Push => PushKeeps(s);
    case Notice => NoticeKeeps(s);
    case Resize(e) => ResizeKeeps(s, e);
    case Receive => ReceiveKeeps(s);
    case Process => ProcessKeeps(s);
    case Pull(t) => PullKeeps(s, t);
    case Told => ToldKeeps(s);
    case _ => CallKeeps(s, act);
  }

  /** The client's count, read again: Refresh, or nothing. */
  function Recounted(s: State): State {
    s.(counted := s.b != [])
  }

  lemma RecountedIs(s: State)
    requires Inv(s)
    ensures Recounted(s) == (if Can(s, Refresh) then Do(s, Refresh) else s) && Inv(Recounted(s))
  { }

  // ---------------------------------------------------------------- whole runs

  predicate Run(s: State, acts: seq<Action>)
    decreases |acts|
  {
    acts == [] || (Allowed(s, acts[0]) && Run(Do(s, acts[0]), acts[1..]))
  }

  function After(s: State, acts: seq<Action>): State
    decreases |acts|
  {
    if acts == [] then s else After(Do(s, acts[0]), acts[1..])
  }

  lemma {:induction false} RunKeeps(s: State, acts: seq<Action>)
    requires Inv(s) && Run(s, acts)
    ensures Inv(After(s, acts))
    decreases |acts|
  {
    if acts != [] {
      ActionKeeps(s, acts[0]);
      RunKeeps(Do(s, acts[0]), acts[1..]);
    }
  }

  /** The server gets the events the client accepted: each once, in their order, whichever way they travel;
      when no event is under way it has them all. */
  lemma ExactlyOnce(s: State, acts: seq<Action>)
    requires IsInit(s) && Run(s, acts)
    ensures var t := After(s, acts);
      && t.delivered <= t.sent
      && t.sent == t.delivered + Users(t.a) + Users(t.w) + Users(t.b)
      && (t.a == t.w == t.b == [] ==> t.delivered == t.sent)
  {
    RunKeeps(s, acts);
  }

  /** The buffers are replaced only when both are empty, the wire too, and the server has handled everything. */
  lemma ResizeIsDrained(s: State, acts: seq<Action>, e: Event)
    requires IsInit(s) && Run(s, acts) && Can(After(s, acts), Resize(e))
    ensures var t := After(s, acts); t.a == t.w == t.b == [] && t.delivered == t.sent && t.resizing
  {
    RunKeeps(s, acts);
  }

  /** While a buffer is being sent the client neither sends another, nor replaces it; and the server, that may
      still look at its window, reads nothing from it. */
  lemma InFlightIsLeftAlone(s: State, acts: seq<Action>, t: nat, e: Event)
    requires IsInit(s) && Run(s, acts) && After(s, acts).w != []
    ensures var u := After(s, acts); !Can(u, Push) && !Can(u, Resize(e)) && !Can(u, Pull(t))
  {
    RunKeeps(s, acts);
  }

  /** A one-sided read takes the application's events, from the window the client fills. */
  lemma PullIsFromTheFilledBuffer(s: State, acts: seq<Action>, t: nat)
    requires IsInit(s) && Run(s, acts) && Can(After(s, acts), Pull(t))
    ensures var u := After(s, acts);
      u.window == u.current && AllUser(u.b) && Do(u, Pull(t)).delivered == u.delivered + u.b
  {
    RunKeeps(s, acts);
    var u := After(s, acts);
    PullKeeps(u, t);
  }

  /** The server's ring is as large as the client's buffer, but during a change. */
  lemma RingFollows(s: State, acts: seq<Action>)
    requires IsInit(s) && Run(s, acts) && !After(s, acts).resizing
    ensures After(s, acts).ringSize == After(s, acts).size
  {
    RunKeeps(s, acts);
  }
}
