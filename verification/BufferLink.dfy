/** The code of src/buffer_client.cpp, of getBufferFromClient (src/buffer_server.cpp) and of the server's
    receives and processRequest (src/transport/legacy_context_server.cpp), over real buffers of bytes.
    Each method is an action, or no action, of DoubleBuffer. */
module BufferLink {
  import opened Buffers
  import opened Messages
  import opened DoubleBuffer
  import opened DoubleBufferProgress

  /** The words at the head of a window. */
  datatype Header = Header(firstTimeLine: nat, bufferCount: nat, notify: nat)

  /** The synchronous send under way, if any: its bytes stay in the client's buffer. */
  datatype Wire = Nothing | Sent(which: nat, len: nat)

  /** The receive the server has posted, if any (pendingRequest). */
  datatype Reception = Idle | Receiving(bytes: seq<byte>)

  const NOTIFY_NOTHING: nat := 0
  const NOTIFY_RESIZE: nat := 2

  function Notices(header: seq<Header>): set<nat>
    requires |header| == 2
  {
    (if header[0].notify == NOTIFY_RESIZE then {0} else {}) + (if header[1].notify == NOTIFY_RESIZE then {1} else {})
  }

  /** Only notices differ. */
  predicate SameData(g: seq<Header>, h: seq<Header>)
    requires |g| == |h| == 2
  {
    && g[0].firstTimeLine == h[0].firstTimeLine && g[0].bufferCount == h[0].bufferCount
    && g[1].firstTimeLine == h[1].firstTimeLine && g[1].bufferCount == h[1].bufferCount
  }

  ghost predicate IsMessage(es: seq<Event>) {
    AllUser(es) || es == [NOTICE] || (|es| == 1 && Fits(es[0]) && es[0].timeLine == CHANGE && |es[0].payload| == 3 * WORD_BYTES)
  }

  lemma MessageFits(es: seq<Event>)
    requires IsMessage(es)
    ensures AllFit(es)
  { }

  /** A size times the factor, truncated to an integer. */
  function Grow(x: nat, factor: real): int {
    (x as real * factor).Floor
  }

  lemma GrowIs(x: nat, factor: real)
    ensures Grow(x, factor) as real <= x as real * factor < Grow(x, factor) as real + 1.0
  { }

  /** A factor of at least 1 makes no size smaller, and keeps their order. */
  lemma Grown(x: nat, y: nat, factor: real)
    requires x <= y && factor >= 1.0
    ensures x <= Grow(x, factor) <= Grow(y, factor)
  {
    assert x as real * factor >= x as real;
    assert (y - x) as real * factor >= 0.0;
    assert y as real * factor == x as real * factor + (y - x) as real * factor;
  }

  class Link {
    // the windows
    var header: seq<Header>
    var buffer: seq<array<byte>>
    // the client
    var bufferSize: nat
    var current: nat
    var count: nat
    var pending: bool
    var step: nat
    var newBufferSize: nat
    var growable: bool
    var growFactor: real
    // between the two
    var wire: Wire
    // the server
    var receiving: Reception
    var currentWindows: nat
    var resizing: bool
    var ringSize: nat
    var delivered: seq<Event>
    // the events accepted, and those in the buffer, on the wire and being received
    ghost var sent: seq<Event>
    ghost var b: seq<Event>
    ghost var w: seq<Event>
    ghost var a: seq<Event>

    ghost function Abstract(): State
      requires |header| == 2 && current < 2
      reads this
    {
      State(step, current, bufferSize, newBufferSize, pending, count > 0, header[current].firstTimeLine, Notices(header),
            currentWindows, resizing, ringSize, a, w, b, sent, delivered)
    }

    ghost predicate Memory()
      reads this, buffer
    {
      && |header| == 2 && |buffer| == 2 && buffer[0] != buffer[1]
      && buffer[0].Length == buffer[1].Length == bufferSize && current < 2 && count <= bufferSize
    }

    /** The header count is 0 or the client's count; the other buffer is empty. */
    ghost predicate Counts()
      requires Memory()
      reads this, buffer
    {
      && header[Other(current)].bufferCount == 0 && header[Other(current)].firstTimeLine == 0
      && (header[current].bufferCount == 0 || header[current].bufferCount == count)
    }

    ghost predicate InBuffer()
      requires Memory() && Counts()
      reads this, buffer
    {
      buffer[current][..header[current].bufferCount] == Flat(b) && IsMessage(b)
    }

    /** The bytes of a send under way are still in the buffer they are sent from. */
    ghost predicate OnWire()
      requires Memory()
      reads this, buffer
    {
      match wire
      case Nothing => w == []
      case Sent(which, len) =>
        w != [] && which == Other(current) && len <= bufferSize && buffer[which][..len] == Flat(w) && IsMessage(w)
    }

    ghost predicate AtServer()
      reads this
    {
      match receiving
      case Idle => a == []
      case Receiving(bytes) => a != [] && bytes == Flat(a) && IsMessage(a)
    }

    /** The bytes are where the events are. */
    ghost predicate Stored()
      reads this, buffer
    {
      Memory() && Counts() && InBuffer() && OnWire() && AtServer()
    }

    ghost predicate Valid()
      reads this, buffer
    {
      Stored() && Inv(Abstract())
    }

    /** After the first message has told the server the size of the buffers and the windows are attached. */
    constructor (bufferSize: nat, growable: bool, pending: bool)
      requires CHANGE_SIZE <= bufferSize < WORD
      ensures Valid() && fresh(buffer) && IsInit(Abstract())
      ensures this.bufferSize == bufferSize && this.growable == growable && this.pending == pending && growFactor == 1.2
    {
      var b0, b1 := new byte[bufferSize], new byte[bufferSize];
      buffer := [b0, b1];
      header := [Header(0, 0, NOTIFY_NOTHING), Header(0, 0, NOTIFY_NOTHING)];
      this.bufferSize, this.growable, this.pending, growFactor := bufferSize, growable, pending, 1.2;
      current, count, step, newBufferSize := 1, 0, 0, 0;
      wire, receiving := Nothing, Idle;
      currentWindows, resizing, ringSize, delivered := 1, false, bufferSize, [];
      sent, b, w, a := [], [], [], [];
      new;
      hide Inv, Handle, Users, IsChange;
      InitInv(Abstract());
    }

    // ---------------------------------------------------------------- the client

    /** getBuffer, and the event written into it. */
    method Put(e: Event)
      requires Memory() && header[current].bufferCount == count
      requires Fits(e) && Size(e) <= bufferSize - count
      modifies this`header, this`count, buffer[current]
      ensures header == old(header)[current := Header(
                if old(header)[current].firstTimeLine == 0 then e.timeLine else old(header)[current].firstTimeLine,
                count, old(header)[current].notify)]
      ensures count == old(count) + Size(e) <= bufferSize
      ensures buffer[current][..count] == old(buffer[current][..count]) + Encode(e)
    {
      var bytes, mem := Encode(e), buffer[current];
      ghost var was := mem[..count];
      for i := 0 to |bytes|
        invariant count == old(count) && header == old(header)
        invariant mem[..count] == was && mem[count..count + i] == bytes[..i]
      {
        mem[count + i] := bytes[i];
      }
      assert bytes[..|bytes|] == bytes;
      assert mem[..count + |bytes|] == mem[..count] + mem[count..count + |bytes|];
      count := count + |bytes|;
      var h := header[current];
      if h.firstTimeLine == 0 { h := h.(firstTimeLine := e.timeLine); }
      header := header[current := h.(bufferCount := count)];
    }

    /** setGrowableBuffer. */
    method SetGrowableBuffer(factor: real)
      requires Valid()
      modifies this`growable, this`growFactor
      ensures Valid() && Abstract() == old(Abstract()) && growable && growFactor == factor
    {
      hide Inv;
      growable, growFactor := true, factor;
    }

    /** isBufferFree and, if it is, getBuffer, under one lock.  A refused event asks for larger buffers: of its own size
        if it is larger than the buffer, else, for a growable client, of the bytes in the buffer and its own together,
        times the factor, and so larger than the buffer was. */
    method Send(e: Event) returns (ok: bool)
      requires Valid() && IsUser(e) && growFactor >= 1.0 && Grow(bufferSize + Size(e), growFactor) < WORD
      modifies this, buffer
      ensures Valid() && buffer == old(buffer)
      ensures ok <==> old(step) == 0 && |Flat(old(b))| + Size(e) <= old(bufferSize)
      ensures ok ==> Abstract() == Do(old(Abstract()), Write(e))
      ensures old(step) == 0 && Size(e) > old(bufferSize) ==>
        Can(old(Abstract()), Want(Size(e))) && Abstract() == Do(old(Abstract()), Want(Size(e)))
      ensures old(step) == 0 && Size(e) <= old(bufferSize) < |Flat(old(b))| + Size(e) && old(growable) ==>
        && newBufferSize == Grow(|Flat(old(b))| + Size(e), old(growFactor)) > old(bufferSize)
        && Can(old(Abstract()), Want(newBufferSize)) && Abstract() == Do(old(Abstract()), Want(newBufferSize))
      ensures !ok && !(old(step) == 0 && (old(growable) || Size(e) > old(bufferSize))) ==>
                Abstract() == Recounted(old(Abstract()))
    {
      hide Grow, Do, Can, Allowed, Handle, Inv, Flat, Encode, AllUser, Fits, Recounted;
      RecountedSame(Abstract(), e);
      var any := HasPendingRequest();
      ok := SendCounted(e);
    }

    /** The same, once the count has been read again. */
    method SendCounted(e: Event) returns (ok: bool)
      requires Valid() && IsUser(e) && growFactor >= 1.0 && Grow(bufferSize + Size(e), growFactor) < WORD
      requires count == header[current].bufferCount == |Flat(b)|
      modifies this, buffer
      ensures Valid() && buffer == old(buffer)
      ensures ok <==> old(step) == 0 && old(count) + Size(e) <= old(bufferSize)
      ensures ok ==> Abstract() == Do(old(Abstract()), Write(e))
      ensures old(step) == 0 && Size(e) > old(bufferSize) ==>
        Can(old(Abstract()), Want(Size(e))) && Abstract() == Do(old(Abstract()), Want(Size(e)))
      ensures old(step) == 0 && Size(e) <= old(bufferSize) < old(count) + Size(e) && old(growable) ==>
        && newBufferSize == Grow(old(count) + Size(e), old(growFactor)) > old(bufferSize)
        && Can(old(Abstract()), Want(newBufferSize)) && Abstract() == Do(old(Abstract()), Want(newBufferSize))
      ensures !ok && !(old(step) == 0 && (old(growable) || Size(e) > old(bufferSize))) ==> Abstract() == old(Abstract())
    {
      hide Grow, Do, Can, Allowed, Handle, Inv, Flat, Encode, AllUser, Fits;
      WriteIs(Abstract(), e);
      Wants(Abstract());
      BufferLength();
      Basics();
      ok := false;
      if step == 0 {
        if Size(e) > bufferSize {
          SizeFits(e);
          AskForMore(Size(e));
        } else if Size(e) <= bufferSize - count {
          WriteOne(e);
          ok := true;
        } else if growable {
          AskToGrow(count + Size(e), bufferSize + Size(e));
        }
      }
    }

    lemma SizeFits(e: Event)
      requires IsUser(e)
      ensures Size(e) < WORD
    { }

    method AskToGrow(size: nat, ghost most: nat)
      requires Valid() && step == 0 && count == header[current].bufferCount && bufferSize < size <= most
      requires growFactor >= 1.0 && Grow(most, growFactor) < WORD
      modifies this`step, this`header, this`newBufferSize
      ensures Valid() && newBufferSize == Grow(size, growFactor) > bufferSize
      ensures Can(old(Abstract()), Want(newBufferSize)) && Abstract() == Do(old(Abstract()), Want(newBufferSize))
    {
      hide Grow, Do, Can, Allowed, Handle, Inv, Flat, Encode, AllUser, Fits;
      Basics();
      Wants(Abstract());
      Grown(size, most, growFactor);
      AskForMore(Grow(size, growFactor));
    }

    method WriteOne(e: Event)
      requires Valid() && header[current].bufferCount == count && Can(Abstract(), Write(e))
      modifies this`header, this`count, this`sent, this`b, buffer[current]
      ensures Valid() && buffer == old(buffer) && Abstract() == Do(old(Abstract()), Write(e))
    {
      hide Do, Can, Allowed, Handle, Inv, Flat, Encode, AllUser, Fits, Users;
      BufferLength();
      WriteIs(Abstract(), e);
      StillMessage(e);
      Append(e);
    }

    /** The event is in the buffer, and nothing else has changed. */
    method Append(e: Event)
      requires Stored() && header[current].bufferCount == count == |Flat(b)|
      requires AllUser(b + [e]) && Fits(e) && Size(e) <= bufferSize - count
      modifies this`header, this`count, this`sent, this`b, buffer[current]
      ensures Stored()
      ensures Abstract() == old(Abstract()).(b := old(b) + [e], counted := true, sent := old(sent) + [e],
        stamp := if old(Abstract()).stamp == 0 then e.timeLine else old(Abstract()).stamp)
    {
      hide Flat, Encode, AllUser, Fits;
      FlatConcat(b, [e]);
      FlatOne(e);
      Put(e);
      sent, b := sent + [e], b + [e];
    }

    lemma StillMessage(e: Event)
      requires Valid() && step == 0 && IsUser(e)
      ensures AllUser(b + [e]) && Fits(e)
    { }

    lemma BufferLength()
      requires Valid()
      ensures header[current].bufferCount == |Flat(b)| <= bufferSize
      ensures header[current].bufferCount == 0 <==> b == []
    {
      assert |buffer[current][..header[current].bufferCount]| == header[current].bufferCount;
      if b != [] { FlatLonger(b); }
    }

    lemma Basics()
      requires Valid()
      ensures current < 2 && currentWindows < 2 && step <= 4 && (w != [] ==> pending)
      ensures CHANGE_SIZE <= bufferSize < WORD && (step > 0 ==> CHANGE_SIZE <= newBufferSize < WORD)
    { }

    method AskForMore(size: nat)
      requires Valid() && Can(Abstract(), Want(size)) && count == header[current].bufferCount
      modifies this`step, this`header, this`newBufferSize
      ensures Valid() && Abstract() == Do(old(Abstract()), Want(size)) && newBufferSize == size
    {
      hide Do, Can, Allowed, Handle, Inv, Flat, Encode, AllUser, Fits;
      BufferLength();
      WantIs(Abstract(), size);
      step := 1;
      header := header[current := header[current].(firstTimeLine := 0)];
      newBufferSize := size;
    }

    /** fixBufferSize, at any time; at steps 2 and 3 it dooms the hand-shake. */
    method FixBufferSize(size: nat)
      requires Valid() && CHANGE_SIZE <= size < WORD
      modifies this`newBufferSize, this`growable, this`step
      ensures Stored() && Can(old(Abstract()), Fix(size)) && Abstract() == Do(old(Abstract()), Fix(size))
      ensures if old(step) == 2 || old(step) == 3 then Doomed(Abstract()) else Valid()
    {
      hide Do, Can, Allowed, Handle, Inv, Flat, Encode, AllUser, Fits, Doomed;
      FixIs(Abstract(), size);
      newBufferSize := size;
      growable := false;
      step := 1;
    }

    /** hasPendingRequest. */
    method HasPendingRequest() returns (r: bool)
      requires Valid()
      modifies this`count
      ensures Valid() && Abstract() == Recounted(old(Abstract()))
      ensures count == |Flat(b)| == header[current].bufferCount
      ensures r == (pending || b != [])
    {
      hide Do, Can, Allowed, Handle, Inv, Flat, Encode, AllUser, Fits;
      BufferLength();
      RecountedIs(Abstract());
      count := header[current].bufferCount;
      r := pending || count > 0;
    }

    /** checkBuffer.  flag is the outcome of MPI_Test, which needs the server to have taken the bytes; elapsed, that
        the latency is over; the addresses are those of new windows. */
    method CheckBuffer(send: bool, flag: bool, elapsed: bool, address0: nat, address1: nat)
        returns (r: bool, ghost acts: seq<Action>, ghost e: Event)
      requires Valid() && (flag ==> wire == Nothing)
      modifies this, buffer
      ensures Valid() && r == pending
      ensures acts == Turn(old(Abstract()), send, flag, elapsed, e)
      ensures Run(old(Abstract()), acts) && Abstract() == After(old(Abstract()), acts)
    {
      hide Do, Can, Allowed, Handle, Inv, Flat, Encode, AllUser, Fits, Next, Run, After;
      acts, e := [], ChangeEvent(newBufferSize, address0, address1);
      if pending && flag {
        TestCompleted();
        acts := [Tested];
        OneAction(old(Abstract()), Tested);
      } else {
        NoAction(Abstract());
      }
      ghost var more: seq<Action> := [];
      if !pending && (send || step > 0) {
        if acts != [] { NextTested(old(Abstract()), elapsed, e); }
        more := Attempt(elapsed, address0, address1);
        if acts != [] { TwoActions(old(Abstract()), Tested, more); }
      }
      assert [] + more == more && acts + [] == acts;
      acts := acts + more;
      r := pending;
    }

    method TestCompleted()
      requires Valid() && pending && wire == Nothing
      modifies this`pending
      ensures Valid() && !pending && Can(old(Abstract()), Tested) && Abstract() == Do(old(Abstract()), Tested)
    {
      hide Do, Can, Allowed, Handle, Inv, Flat, Encode, AllUser, Fits;
      TestedIs(Abstract());
      pending := false;
    }

    /** The part of checkBuffer for a client with no send under way. */
    method Attempt(elapsed: bool, address0: nat, address1: nat) returns (ghost acts: seq<Action>)
      requires Valid() && !pending
      modifies this, buffer
      ensures Valid() && Run(old(Abstract()), acts) && Abstract() == After(old(Abstract()), acts)
      ensures acts == Next(old(Abstract()), elapsed, ChangeEvent(old(newBufferSize), address0, address1))
    {
      hide Do, Can, Allowed, Handle, Inv, Flat, Encode, AllUser, Fits;
      hide Run, After;
      NoAction(Abstract());
      acts := [];
      BufferLength();
      Basics();
      if count > 0 {
        if elapsed && header[current].bufferCount > 0 {
          Push();
          acts := [Action.Push];
          OneAction(old(Abstract()), Action.Push);
        }
      } else {
        if step == 1 {
          ResizeBufferNotify();
          acts := [Notice];
          OneAction(old(Abstract()), Notice);
        } else if step == 2 {
          acts := IsNotifiedChangeBufferSize();
        } else if step == 3 {
          ResizeBuffer(newBufferSize, address0, address1);
          acts := [Resize(ChangeEvent(old(newBufferSize), address0, address1))];
          OneAction(old(Abstract()), acts[0]);
        }
      }
    }

    /** The synchronous send: the bytes stay where they are, the client goes to the other buffer. */
    method Push()
      requires Valid() && !pending && header[current].bufferCount > 0
      modifies this`wire, this`step, this`pending, this`header, this`current, this`count, this`w, this`b
      ensures Valid() && Can(old(Abstract()), Action.Push) && Abstract() == Do(old(Abstract()), Action.Push)
    {
      hide IsMessage, Do, Can, Allowed, Handle, Inv, Flat, Encode, AllUser, Fits;
      BufferLength();
      PushIs(Abstract());
      NoMessage();
      Basics();
      Issend();
      w, b := b, [];
      assert Counts() && InBuffer() && OnWire();
      assert Abstract() == Do(old(Abstract()), Action.Push);
    }

    method Issend()
      requires |header| == 2 && current < 2
      modifies this`wire, this`step, this`pending, this`header, this`current, this`count
      ensures wire == Sent(old(current), old(count)) && pending && count == 0 && current == Other(old(current))
      ensures step == if old(step) == 4 then 0 else old(step)
      ensures |header| == 2 && header[current] == old(header)[current]
      ensures header[Other(current)] == Header(0, 0, old(header[current].notify))
    {
      wire := Sent(current, count);
      if step == 4 { step := 0; }
      pending := true;
      header := header[current := header[current].(firstTimeLine := 0, bufferCount := 0)];
      current := if current == 1 then 0 else 1;
      count := 0;
    }

    method ResizeBufferNotify()
      requires Valid() && !pending && count == 0 && step == 1
      modifies this`header, this`count, this`step, this`b, buffer[current]
      ensures Valid() && Can(old(Abstract()), Notice) && Abstract() == Do(old(Abstract()), Notice)
    {
      hide Do, Can, Allowed, Handle, Inv, Flat, Encode, AllUser, Fits;
      BufferLength();
      NoticeIs(Abstract());
      FlatOne(NOTICE);
      Basics();
      Put(NOTICE);
      step := 2;
      b := [NOTICE];
    }

    method IsNotifiedChangeBufferSize() returns (ghost acts: seq<Action>)
      requires Valid() && !pending && count == 0 && step == 2
      modifies this`header, this`step
      ensures Valid() && acts == if old(current in Abstract().notified) then [Told] else []
      ensures Run(old(Abstract()), acts) && Abstract() == After(old(Abstract()), acts)
    {
      hide Do, Can, Allowed, Handle, Inv, Flat, Encode, AllUser, Fits;
      BufferLength();
      NoAction(Abstract());
      acts := [];
      if header[current].notify == NOTIFY_RESIZE {
        ToldIs(Abstract());
        header := header[current := header[current].(notify := NOTIFY_NOTHING)];
        step := 3;
        acts := [Told];
        OneAction(old(Abstract()), Told);
        assert Notices(header) == old(Notices(header)) - {current};
      }
    }

    /** New buffers and headers; the first event in them is the change itself. */
    method ResizeBuffer(newSize: nat, address0: nat, address1: nat)
      requires Valid() && !pending && count == 0 && step == 3 && newSize == newBufferSize
      modifies this
      ensures Valid() && fresh(buffer)
      ensures var act := Resize(ChangeEvent(newSize, address0, address1));
        Can(old(Abstract()), act) && Abstract() == Do(old(Abstract()), act)
    {
      hide Do, Can, Allowed, Handle, Inv, Flat, Encode, AllUser, Fits;
      BufferLength();
      Basics();
      ghost var e := ChangeEvent(newSize, address0, address1);
      ChangeEventIs(newSize, address0, address1);
      ResizeIs(Abstract(), e);
      FlatOne(e);
      EmptyWire();
      Renew(newSize, ChangeEvent(newSize, address0, address1));
      step := 4;
      b := [e];
      assert IsMessage(b);
      assert InBuffer();
      assert OnWire();
      assert Abstract() == Do(old(Abstract()), Resize(e));
    }

    method Renew(newSize: nat, e: Event)
      requires Fits(e) && Size(e) <= newSize && e.timeLine != 0
      modifies this`bufferSize, this`buffer, this`header, this`current, this`count
      ensures Memory() && Counts() && fresh(buffer) && current == 0 && bufferSize == newSize
      ensures header == [Header(e.timeLine, Size(e), NOTIFY_NOTHING), Header(0, 0, NOTIFY_NOTHING)]
      ensures buffer[0][..Size(e)] == Encode(e)
    {
      bufferSize := newSize;
      var b0, b1 := new byte[bufferSize], new byte[bufferSize];
      buffer := [b0, b1];
      header := [Header(0, 0, NOTIFY_NOTHING), Header(0, 0, NOTIFY_NOTHING)];
      current, count := 0, 0;
      Put(e);
    }

    lemma EmptyWire()
      requires Valid() && step == 3
      ensures wire == Nothing && receiving == Idle && w == a == []
    { }

    // ---------------------------------------------------------------- the server

    /** checkPendingProbe: a receive is posted, and the bytes are taken from the client's buffer. */
    method ReceiveMessage()
      requires Valid() && wire != Nothing && receiving == Idle
      modifies this`wire, this`receiving, this`w, this`a
      ensures Valid() && Can(old(Abstract()), Receive) && Abstract() == Do(old(Abstract()), Receive)
    {
      hide Do, Can, Allowed, Handle, Inv, Flat, Encode, AllUser, Fits;
      ReceiveIs(Abstract());
      Basics();
      receiving := Receiving(buffer[wire.which][..wire.len]);
      wire := Nothing;
      a, w := w, [];
    }

    method UpdateCurrentWindows()
      requires currentWindows < 2
      modifies this`currentWindows
      ensures currentWindows == Other(old(currentWindows))
    {
      if currentWindows == 0 { currentWindows := 1; } else { currentWindows := 0; }
    }

    /** checkPendingRequest, when the receive has completed. */
    method CheckPendingRequest()
      requires Valid() && receiving != Idle
      modifies this`receiving, this`a, this`currentWindows, this`header, this`resizing, this`ringSize, this`delivered
      ensures Valid() && Can(old(Abstract()), Process) && Abstract() == Do(old(Abstract()), Process)
    {
      hide Do, Can, Allowed, Handle, Inv, Flat, Encode, AllUser, Fits, IsMessage;
      ProcessIs(Abstract());
      var bytes := receiving.bytes;
      ghost var message := a;
      Received();
      HandleMessage(bytes, message);
    }

    /** The window follows the client; the message leaves the list of receives. */
    method Received()
      requires Valid() && receiving != Idle
      modifies this`receiving, this`a, this`currentWindows
      ensures Stored() && currentWindows < 2
      ensures Abstract() == old(Abstract()).(window := Other(old(currentWindows)), a := [])
    {
      Basics();
      hide Inv, Flat, IsMessage, Notices;
      UpdateCurrentWindows();
      receiving := Idle;
      a := [];
    }

    /** getBufferFromClient: the filled window, if its first event is the one the server waits for. */
    method GetBufferFromClient(timeLine: nat) returns (ok: bool)
      requires Valid() && receiving == Idle && 0 < timeLine < NOTIFY
      modifies this`b, this`currentWindows, this`header, this`resizing, this`ringSize, this`delivered
      ensures Valid() && ok == Can(old(Abstract()), Pull(timeLine))
      ensures Abstract() == if ok then Do(old(Abstract()), Pull(timeLine)) else old(Abstract())
    {
      hide Do, Can, Allowed, Handle, Inv, Flat, Encode, AllUser, Fits, IsMessage;
      PullIs(Abstract(), timeLine);
      Basics();
      if resizing { return false; }
      if timeLine != header[currentWindows].firstTimeLine { return false; }
      var bytes := buffer[currentWindows][..header[currentWindows].bufferCount];
      ghost var message := b;
      Taken();
      HandleMessage(bytes, message);
      return true;
    }

    /** The header of the window is cleared: its bytes have been taken. */
    method Taken()
      requires Valid() && currentWindows == current
      modifies this`b, this`header
      ensures Stored() && Abstract() == old(Abstract()).(b := [], stamp := 0)
    {
      BufferLength();
      Basics();
      NoMessage();
      hide Inv, Flat, IsMessage;
      header := header[currentWindows := header[currentWindows].(firstTimeLine := 0, bufferCount := 0)];
      b := [];
    }

    /** processRequest leaves the stored bytes alone. */
    method HandleMessage(bytes: seq<byte>, ghost es: seq<Event>)
      requires Stored() && bytes == Flat(es) && IsMessage(es) && currentWindows < 2
      modifies this`header, this`currentWindows, this`resizing, this`ringSize, this`delivered
      ensures Stored() && Abstract() == Handle(old(Abstract()), es)
    {
      hide Handle, Flat, IsMessage, Notices;
      ProcessRequest(bytes, es);
    }

    /** processRequest: the events of a message, one after the other. */
    method ProcessRequest(bytes: seq<byte>, ghost es: seq<Event>)
      requires bytes == Flat(es) && IsMessage(es) && |header| == 2 && currentWindows < 2 && current < 2
      modifies this`header, this`currentWindows, this`resizing, this`ringSize, this`delivered
      ensures |header| == 2 && SameData(old(header), header)
      ensures Abstract() == Handle(old(Abstract()), es)
    {
      MessageFits(es);
      ghost var s := Abstract();
      var rest := bytes;
      ghost var i := 0;
      FlatNone(es);
      assert es[0..] == es;
      HandledStart(s, es);
      hide Flat, Encode, Fits, IsChange, Notices, Handle, AllUser, Handled;
      while |rest| > 0
        invariant 0 <= i <= |es| && rest == Flat(es[i..]) && (|rest| > 0 <==> i < |es|)
        invariant |header| == 2 && currentWindows < 2 && SameData(old(header), header)
        invariant Handled(Abstract(), s, es, i)
        decreases |es| - i
      {
        var size, timeLine, payload := ReadEvent(rest, es, i);
        HandledStep(Abstract(), s, es, i);
        Dispatch(timeLine, payload);
        rest := rest[size..];
        i := i + 1;
      }
      HandledEnd(Abstract(), s, es);
    }

    /** The size, the time line and the payload of the next event. */
    static method ReadEvent(rest: seq<byte>, ghost es: seq<Event>, ghost i: nat)
        returns (size: nat, timeLine: nat, payload: seq<byte>)
      requires i < |es| && AllFit(es) && rest == Flat(es[i..])
      ensures size <= |rest| && Event(timeLine, payload) == es[i] && rest[size..] == Flat(es[i + 1..])
      ensures |rest[size..]| > 0 <==> i + 1 < |es|
    {
      assert es[i..][0] == es[i] && es[i..][1..] == es[i + 1..];
      FrontRoundTrip(es[i], Flat(es[i + 1..]));
      FlatNone(es[i + 1..]);
      size, timeLine := FromLe(rest[..INT_BYTES]), FromLe(rest[INT_BYTES..HEAD]);
      payload := rest[HEAD..size];
    }

    /** One event: the notice of a change of size, the change itself, or an event of the application. */
    method Dispatch(timeLine: nat, payload: seq<byte>)
      requires |header| == 2 && currentWindows < 2 && current < 2
      requires timeLine == NOTIFY ==> payload == []
      requires timeLine == CHANGE ==> |payload| == 3 * WORD_BYTES
      modifies this`header, this`currentWindows, this`resizing, this`ringSize, this`delivered
      ensures |header| == 2 && currentWindows < 2 && SameData(old(header), header)
      ensures Abstract() == Handle(old(Abstract()), [Event(timeLine, payload)])
    {
      if timeLine == NOTIFY {
        resizing := true;
        header := header[currentWindows := header[currentWindows].(notify := NOTIFY_RESIZE)];
        UpdateCurrentWindows();
      } else if timeLine == CHANGE {
        ringSize := FromLe(payload[..WORD_BYTES]);
        resizing := false;
        currentWindows := 1;
      } else {
        delivered := delivered + [Event(timeLine, payload)];
      }
    }
  }

  // ---------------------------------------------------------------- the actions, one by one

  lemma WriteIs(s: State, e: Event)
    requires Inv(s)
    ensures Can(s, Write(e)) <==> s.step == 0 && IsUser(e) && |Flat(s.b)| + Size(e) <= s.size
    ensures Can(s, Write(e)) ==> Inv(Do(s, Write(e)))
    ensures Do(s, Write(e))
         == s.(b := s.b + [e], counted := true, sent := s.sent + [e], stamp := if s.stamp == 0 then e.timeLine else s.stamp)
  {
    if Can(s, Write(e)) { WriteKeeps(s, e); }
  }

  lemma Wants(s: State)
    ensures forall n: nat :: Can(s, Want(n)) <==> s.step == 0 && CHANGE_SIZE <= n < WORD
  { }

  lemma WantIs(s: State, n: nat)
    requires Inv(s) && Can(s, Want(n))
    ensures Inv(Do(s, Want(n))) && Do(s, Want(n)) == s.(step := 1, stamp := 0, newSize := n, counted := s.b != [])
  { }

  lemma FixIs(s: State, n: nat)
    requires Inv(s) && CHANGE_SIZE <= n < WORD
    ensures Can(s, Fix(n)) && Do(s, Fix(n)) == s.(step := 1, newSize := n)
    ensures if s.step == 2 || s.step == 3 then Doomed(Do(s, Fix(n))) else Inv(Do(s, Fix(n)))
  {
    if s.step == 2 || s.step == 3 { FixTooLate(s, n); }
  }

  /** Reading the count first changes nothing of what follows. */
  lemma RecountedSame(s: State, e: Event)
    ensures var t := Recounted(s);
      && (Can(t, Write(e)) <==> Can(s, Write(e))) && Do(t, Write(e)) == Do(s, Write(e))
      && (forall n: nat :: (Can(t, Want(n)) <==> Can(s, Want(n))) && Do(t, Want(n)) == Do(s, Want(n)))
  { }

  lemma TestedIs(s: State)
    requires Inv(s) && s.pending && s.w == []
    ensures Can(s, Tested) && Inv(Do(s, Tested)) && Do(s, Tested) == s.(pending := false)
  { }

  lemma PushIs(s: State)
    requires Inv(s) && !s.pending && s.b != []
    ensures Can(s, Push) && Inv(Do(s, Push)) && s.w == []
    ensures Do(s, Push) == s.(step := if s.step == 4 then 0 else s.step, pending := true, stamp := 0, w := s.b, b := [],
                              counted := false, current := Other(s.current))
  {
    PushKeeps(s);
  }

  lemma NoticeIs(s: State)
    requires Inv(s) && !s.pending && !s.counted && s.step == 1
    ensures Can(s, Notice) && Inv(Do(s, Notice)) && s.stamp == 0 && Fits(NOTICE)
    ensures Do(s, Notice) == s.(step := 2, b := [NOTICE], counted := true, stamp := NOTIFY)
  {
    NoticeKeeps(s);
  }

  lemma ToldIs(s: State)
    requires Inv(s) && !s.pending && !s.counted && s.step == 2 && s.current in s.notified
    ensures Can(s, Told) && Inv(Do(s, Told)) && Do(s, Told) == s.(step := 3, notified := s.notified - {s.current})
  { }

  lemma ResizeIs(s: State, e: Event)
    requires Inv(s) && !s.pending && !s.counted && s.step == 3 && IsChange([e], s.newSize)
    ensures Can(s, Resize(e)) && Inv(Do(s, Resize(e))) && Fits(e) && e.timeLine != 0
    ensures Do(s, Resize(e))
         == s.(step := 4, size := s.newSize, current := 0, notified := {}, b := [e], counted := true,
               stamp := CHANGE)
  {
    ResizeKeeps(s, e);
  }

  lemma ReceiveIs(s: State)
    requires Inv(s) && s.w != [] && s.a == []
    ensures Can(s, Receive) && Inv(Do(s, Receive)) && Do(s, Receive) == s.(a := s.w, w := [])
  {
    ReceiveKeeps(s);
  }

  lemma ProcessIs(s: State)
    requires Inv(s) && s.a != []
    ensures Can(s, Process) && Inv(Do(s, Process))
    ensures Do(s, Process) == Handle(s.(window := Other(s.window), a := []), s.a)
  {
    ProcessKeeps(s);
    hide Inv;
  }

  lemma PullIs(s: State, t: nat)
    requires Inv(s) && 0 < t < NOTIFY
    ensures Can(s, Pull(t)) <==> s.a == [] && !s.resizing && t == if s.window == s.current then s.stamp else 0
    ensures Can(s, Pull(t)) ==> Inv(Do(s, Pull(t))) && s.window == s.current
    ensures Do(s, Pull(t)) == Handle(s.(b := [], stamp := 0), s.b)
  {
    if Can(s, Pull(t)) { PullKeeps(s, t); }
  }

  /** What the first i events of a message make of state s. */
  ghost predicate Handled(t: State, s: State, es: seq<Event>, i: nat)
    requires i <= |es|
  {
    if AllUser(es) then t == s.(delivered := s.delivered + es[..i])
    else i <= 1 && t == if i == 0 then s else Handle(s, es)
  }

  lemma HandledStart(s: State, es: seq<Event>)
    ensures Handled(s, s, es, 0)
  {
    assert s.delivered + es[..0] == s.delivered;
  }

  lemma HandledStep(t: State, s: State, es: seq<Event>, i: nat)
    requires i < |es| && IsMessage(es) && Handled(t, s, es, i)
    ensures Handled(Handle(t, [es[i]]), s, es, i + 1)
    ensures es[i].timeLine == NOTIFY ==> es[i].payload == []
    ensures es[i].timeLine == CHANGE ==> |es[i].payload| == 3 * WORD_BYTES
  {
    if AllUser(es) {
      assert IsUser(es[i]) && AllUser([es[i]]);
      HandleUsers(t, [es[i]]);
      assert s.delivered + es[..i] + [es[i]] == s.delivered + es[..i + 1];
    } else {
      assert |es| == 1;
      assert es == [es[0]];
    }
  }

  lemma HandledEnd(t: State, s: State, es: seq<Event>)
    requires IsMessage(es) && Handled(t, s, es, |es|)
    ensures t == Handle(s, es)
  {
    assert es[..|es|] == es;
    if AllUser(es) { HandleUsers(s, es); }
  }

  lemma NextTested(s: State, elapsed: bool, e: Event)
    ensures Next(Do(s, Tested), elapsed, e) == Next(s, elapsed, e)
  { }

  lemma NoMessage()
    ensures Flat([]) == [] && AllUser([]) && IsMessage([])
  { }

  lemma OneAction(s: State, act: Action)
    requires Can(s, act) && !act.Fix?
    ensures Run(s, [act]) && After(s, [act]) == Do(s, act)
  {
    assert [act][1..] == [];
    assert Run(Do(s, act), []);
  }

  lemma NoAction(s: State)
    ensures Run(s, []) && After(s, []) == s
  { }

  lemma TwoActions(s: State, act: Action, acts: seq<Action>)
    requires Can(s, act) && !act.Fix? && Run(Do(s, act), acts)
    ensures Run(s, [act] + acts) && After(s, [act] + acts) == After(Do(s, act), acts)
  {
    RunStep(s, act, acts);
  }

  lemma FlatNone(es: seq<Event>)
    ensures Flat(es) == [] <==> es == []
  {
    if es != [] { FlatLonger(es); }
  }

  function ChangeEvent(size: nat, address0: nat, address1: nat): Event {
    Event(CHANGE, Word(size) + Word(address0) + Word(address1))
  }

  lemma ChangeEventIs(size: nat, address0: nat, address1: nat)
    requires size < WORD
    ensures IsChange([ChangeEvent(size, address0, address1)], size)
  {
    WordRoundTrip(size);
    assert ChangeEvent(size, address0, address1).payload[..WORD_BYTES] == Word(size);
  }

  /** What checkBuffer does: it notes the end of a send, then takes the next step if it may. */
  ghost function Turn(s: State, send: bool, flag: bool, elapsed: bool, e: Event): seq<Action> {
    var tested := s.pending && flag;
    (if tested then [Tested] else [])
    + if (s.pending && !tested) || (!send && s.step == 0) then [] else Next(s, elapsed, e)
  }

  /** The next step: the buffer's content goes first; then the hand-shake, unless the client still counts bytes
      that the server has taken. */
  ghost function Next(s: State, elapsed: bool, e: Event): seq<Action> {
    if s.b != [] then if elapsed then [Push] else []
    else if s.counted then []
    else if s.step == 1 then [Notice]
    else if s.step == 2 && s.current in s.notified then [Told]
    else if s.step == 3 then [Resize(e)]
    else []
  }
}
