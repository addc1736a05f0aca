# XIOS: ordering of events, transport, calendars and data distribution

This project models the parts of XIOS (an I/O server library for climate models) where ranks must agree,
bytes must arrive once, or totals must stay right, and proves what they promise.

- **Event scheduler** (`Scheduler*.dfy`, `Policy.dfy`). Every rank registers an event; counts travel up a tree
  that each rank computes for itself, the root fixes the order, and the order travels down. `SchedulerTree` is
  the tree, `SchedulerProtocol` the system of all ranks as a state machine, `SchedulerProof` its invariant,
  `SchedulerTheorems` total order, barrier, exactly once, nothing lost, progress. `SchedulerNode` has the code:
  a class with the arrays, queues and counters of one rank. `SchedulerSystem` joins the locally built trees of
  any forest of split schedulers, and `SchedulerPool` states the theorems for communicators and ranks, and that
  splitting keeps the forest. `SchedulerCode` compares the class with the protocol on these trees, part by part,
  `SchedulerRefines` shows that what a call treats is a run of the protocol, and `SchedulerWorld` keeps the
  objects of all ranks: every call on any of them is a run, so what is proved of runs holds of the objects. `SchedulerDrain` adds the
  network and `checkEvent_`: polling ends, with every registered event on every `eventStack_`.
- **Server ring buffer** (`ServerBuffer.dfy`): the array with its gap cell and floating end mark refines a queue
  of blocks of bytes.
- **Client double buffer** (`Messages.dfy`, `DoubleBuffer.dfy`, `DoubleBufferProgress.dfy`, `BufferLink.dfy`,
  `ServerRing.dfy`): sends and one-sided reads race to drain two buffers, with a five-step hand-shake that changes
  their size. `DoubleBuffer` is the state machine and its safety, `DoubleBufferProgress` says when the hand-shake
  ends, `BufferLink` is the code over real byte arrays, each method an action of the state machine, and
  `ServerRing` joins the state machine with the server's ring.
- **Calendars** (`CalendarMath.dfy`, `Calendar.dfy`, `Calendars.dfy`, `Text.dfy`): date arithmetic in an abstract
  calendar with months, conversion to seconds, the calendars that XIOS has, and dates and durations as text. C++
  division and remainder truncate and are written out.
- **Registry** (`Buffers.dfy`, `Registry.dfy`, `RegistryGather.dfy`): serialisation, merging, and the
  hierarchical gather.
- **File distribution** (`FileDistribution.dfy`): annealing with incremental totals and rollbacks.
- **Inheritance** (`Inheritance.dfy`, `GroupInheritance.dfy`): attributes along reference chains and down groups.
- **Data cache** (`DataCache.dfy`): the vendored least-recently-used cache.

Assumptions. A message channel between two ranks keeps its order (section 3.5 of the MPI 3.1 standard);
requests to a parent may be treated in any order. A rank registers an event at most once. Each section under
a window's lock is one atomic action. A synchronous send completes only after its receive has been posted.
Results of MPI_Test, MPI probes, clocks and `rand()` are inputs or free choices. Counts and sizes are unbounded integers, except
where unsigned subtraction matters (`PopBuffer`).

Four places where the code does less than its purpose or its documentation suggests, each with an input that shows it
and its exact condition; the model follows the code:

- The conversion of a date to seconds is right if and only if all years have one length or the date's year is
  not before the origin's (`Calendar.ToTime`, `Calendars.TimeFails`).
- `checkBuffer` looks at the client's own count of the bytes in its buffer, which a one-sided read of the server
  leaves behind. A client that only calls `checkBuffer` gets all events delivered, but is sure to complete a
  change of size if and only if it does not wait at step 1 with such a count, or with bytes that the server may
  still read (`DoubleBufferProgress.PollingCompletes`, `StaleHappens`). `isBufferFree` and `hasPendingRequest`
  read the count again, and then every change is completed (`EveryRunDrains`).
- `fixBufferSize` restarts the change of the buffers' size at any step. At steps 2 and 3 this is fatal in every
  run without a further `fixBufferSize`: the client waits for ever for a notice that the server writes in the
  other window (`DoubleBufferProgress.FixTooLate`, `FixTooLateHappens`, `DoomedForEver`). At all other steps, and
  only there, the change can be completed without a further call (`FixCanBeCompleted`). A further call can
  free the client, which then no longer waits for the server before it replaces its buffers (`LaterFixRescues`,
  `LaterFixIsUnsafe`).

- The user guide (`doc/XIOS_user_guide.lyx:595-652`) allows a date in part, or none, before an offset. The parser
  refuses an offset without a date in every case (`Text.OmittedDate`), and an offset with spaces exactly behind a date
  that ends with its day (`Text.PartOffset`).

`dafny verify dfyconfig.toml` checks the whole project.

## Model

| member | source | states |
|---|---|---|
| SchedulerTheorems.TotalOrder | src/event_scheduler.cpp:190-367 | after every run of every interleaving, what a process has seen of the schedulers at or above a node is a prefix of what that node has ordered, and any two processes below it agree on one order |
| SchedulerTheorems.Barrier | src/event_scheduler.cpp:302-331 | an event stands in a log only after every process below its deciding root has registered it, and at most once |
| SchedulerTheorems.NothingLost | src/event_scheduler.cpp:190-367 | with nothing under way, an event registered by all is in every log and used exactly one message up and one down over every edge |
| SchedulerTheorems.AtMostOneMessage | src/event_scheduler.cpp:190-367 | in every reachable state no edge has carried more than one message each way for an event |
| SchedulerTheorems.LeafTold | src/event_scheduler.cpp:139-165 | a leaf has reported exactly the events its process has registered |
| SchedulerTheorems.Collected | src/event_scheduler.cpp:302-331 | with no registration on its way, counting is complete at every node below the deciding root |
| SchedulerTheorems.Progress | src/event_scheduler.cpp:190-334 | while a message is under way or waiting, some process can treat one: no deadlock |
| SchedulerTheorems.StepSmaller | src/event_scheduler.cpp:190-334 | every step other than a registration uses up work: no livelock |
| SchedulerTheorems.EveryScheduleDrains | src/event_scheduler.cpp:179-188 | whatever order of polling is chosen, the work ends with nothing under way |
| SchedulerProof.StepInv | src/event_scheduler.cpp:190-367 | every step of every process keeps the protocol's invariant |
| SchedulerProof.RunInv | src/event_scheduler.cpp:190-367 | every state of every run satisfies it |
| SchedulerProof.InitInv | src/event_scheduler.cpp:27-33 | it holds at the start |
| SchedulerPool.OneScheduler | src/event_scheduler.cpp:190-367 | one scheduler over any number of ranks: of any two logs one is a prefix of the other, without repetition, and an event in one log has been registered by every rank |
| SchedulerPool.SameScheduler | src/event_scheduler.cpp:118-165 | all ranks of one child scheduler see its events and those of the schedulers above it in one interleaving |
| SchedulerPool.AllSchedulers | src/event_scheduler.cpp:118-165 | events of the first scheduler come in one order at all ranks of all schedulers split from it |
| SchedulerPool.SplitOnce | src/event_scheduler.cpp:118-165 | after a split: parent-level events come in one order at all ranks of all children, once each, and only after every rank of every child has registered them; ranks of one child agree on the full interleaving |
| SchedulerSystem.BuildOk | src/event_scheduler.cpp:27-86 | the trees that all ranks compute locally, joined by any forest of splits, form one tree: parents and child lists match, addresses are unambiguous |
| SchedulerPool.CutOk | src/event_scheduler.cpp:118-137 | splitScheduler keeps the schedulers such a forest: the new parent scheduler joins the roots of the parts in the place of the old one, each part is one level below it |
| SchedulerPool.CutsOk | src/event_scheduler.cpp:118-137 | so after any number of splits the ranks form one tree, and every split adds one rank for each part: no process is lost or gained |
| SchedulerPool.PoolIsCut | src/event_scheduler.cpp:118-137 | the schedulers of SplitOnce are those after one split |
| SchedulerCode.RegisterIsCode | src/event_scheduler.cpp:139-165 | what RegisterEvent sends, with the computed arrays, is the protocol's registration |
| SchedulerCode.CountIsCode | src/event_scheduler.cpp:302-331 | counting one request in recvEvent_ is the protocol's count, and the same request completes it |
| SchedulerCode.CompleteIsCode | src/event_scheduler.cpp:309-325 | on completion the class broadcasts, registers further up or registers with the parent scheduler exactly as the protocol |
| SchedulerCode.TakeDownIsCode | src/event_scheduler.cpp:229-257 | treating a request from the parent does what the protocol does, also through a leaf that is the root of a child scheduler |
| SchedulerCode.BcastIsCode | src/event_scheduler.cpp:352-367 | bcastEvent puts the protocol's messages on the channels, in order |
| SchedulerRefines.TakeUpIsDo | src/event_scheduler.cpp:302-331 | on the tree that the ranks build, in every state of the invariant, treating one request of a child is the protocol's step: the new recvEvent_, the sends, and what the parent scheduler then sends |
| SchedulerRefines.UpsAreRun | src/event_scheduler.cpp:263-334 | treating any list of requests that have been sent is a run of such steps |
| SchedulerRefines.TakeDownIsDo | src/event_scheduler.cpp:229-257 | treating one request of the parent is the protocol's step: the sends, what the child scheduler then sends, and the push on eventStack_ |
| SchedulerRefines.DownsAreRun | src/event_scheduler.cpp:220-261 | treating any front part of the queue is a run of such steps |
| SchedulerWorld.ChildCallIsRun | src/event_scheduler.cpp:263-334 | whatever selection one call of checkChildRequest treats, it is a run, of one step for each request, of the protocol after which this process and all others stand for the new state, and the network has changed by the messages taken and sent |
| SchedulerWorld.ParentCallIsRun | src/event_scheduler.cpp:190-261 | the same for checkParentRequest, with the messages it receives from any channels |
| SchedulerWorld.RegisterIsRun | src/event_scheduler.cpp:139-165 | the same for registerEvent, for an event that the process has not registered before |
| SchedulerWorld.RunFrame | src/event_scheduler.cpp:190-334 | steps of one process leave the counts, queues and logs of all others alone |
| SchedulerWorld.CheckChildRequest | src/event_scheduler.cpp:263-334 | called on the object of any process of a pool, for any outcomes of the tests of its receptions: objects that stand for a state of the invariant stand for the state at the end of a legal run, one step for each complete request; these leave the list and the others stay |
| SchedulerWorld.CheckParentRequest | src/event_scheduler.cpp:190-261 | likewise, one step for each message received and each request treated, which are those before the first incomplete one |
| SchedulerWorld.RegisterEvent | src/event_scheduler.cpp:139-165 | likewise, as one registration |
| SchedulerWorld.PopEvent | src/event_scheduler.hpp:59 | likewise, and the log stays |
| SchedulerWorld.StartWorld | src/event_scheduler.cpp:5-86 | the objects that the constructors leave stand for the initial state |
| SchedulerWorld.StacksAgree | src/event_scheduler.cpp:168-257 | so after any calls of any processes in any order: of all that two processes of one scheduler have ever had on eventStack_, one is a prefix of the other |
| SchedulerDrain.Fetch | src/event_scheduler.cpp:272-284 | all registrations under way to a process, in some order, and no others |
| SchedulerDrain.FetchDown | src/event_scheduler.cpp:211-222 | all broadcasts under way to a process, each channel in its order, and no others |
| SchedulerDrain.PollChild | src/event_scheduler.cpp:263-334 | with complete receptions checkChildRequest leaves no request untreated, sends what the protocol sends, and does nothing exactly if nothing was under way to the process |
| SchedulerDrain.PollParent | src/event_scheduler.cpp:190-261 | likewise checkParentRequest |
| SchedulerDrain.CheckEvent | src/event_scheduler.cpp:179-188 | the parent scheduler first, then the requests of children, then those of the parent: a legal run without registrations, empty exactly if nothing was treated |
| SchedulerDrain.IdleIsQuiet | src/event_scheduler.cpp:179-334 | if nothing is under way to any process of the system, nothing is under way at all |
| SchedulerDrain.RanSmaller | src/event_scheduler.cpp:190-334 | every such run that is not empty uses up work |
| SchedulerDrain.Drain | src/event_scheduler.cpp:179-334 | objects that poll in rounds, in any order in each round, come to an end with nothing under way, and every event that all its processes had registered then stands on the eventStack_ of each of them |
| SchedulerDrain.DrainedStacks | src/event_scheduler.cpp:229-257 | with nothing under way, an event registered by all processes below its deciding node has been on the eventStack_ of each of them |
| SchedulerDrain.RegisterAll | src/event_scheduler.cpp:139-165 | registerEvent at a list of processes registers the event at each of them and at no other |
| SchedulerDrain.Announce | src/event_scheduler.cpp:139-334 | from the registrations of an event at all its processes to every eventStack_, by calls on the objects alone |
| SchedulerNode.Scheduler.constructor | src/event_scheduler.cpp:5-25 | a fresh scheduler has the arrays of Initialize and empty queues |
| SchedulerNode.Scheduler.Initialize | src/event_scheduler.cpp:27-86 | level_, parent_, child_ and nbChild_ are the groups of the pure tree; no index leaves the arrays |
| SchedulerNode.Scheduler.Divide | src/event_scheduler.cpp:56-83 | one round of the loops: the bounds, the first ranks of all children and their number |
| SchedulerNode.Scheduler.RegisterAt | src/event_scheduler.cpp:151-165 | one message to parent_[lev] for level lev-1 |
| SchedulerNode.Scheduler.RegisterEvent | src/event_scheduler.cpp:139-149 | registration at the process's own level |
| SchedulerNode.Scheduler.BcastEvent | src/event_scheduler.cpp:352-367 | one message per child, in order, for the next level |
| SchedulerNode.Scheduler.TreatUp | src/event_scheduler.cpp:302-331 | one request: the count, and on the last one the broadcast, the registration further up or with the parent scheduler |
| SchedulerNode.Scheduler.CheckChildRequest | src/event_scheduler.cpp:263-334 | exactly the requests whose receptions are complete are treated, in list order, and leave the list; exactly the others stay |
| SchedulerNode.Scheduler.TreatDown | src/event_scheduler.cpp:229-257 | push on eventStack_, or broadcast to the children, or in the child scheduler |
| SchedulerNode.Scheduler.CheckParentRequest | src/event_scheduler.cpp:190-261 | the queue is treated from its front, exactly up to the first request whose reception is not complete |
| SchedulerNode.Scheduler.QueryEvent | src/event_scheduler.cpp:168-177 | true exactly for the front of eventStack_ |
| SchedulerNode.Scheduler.PopEvent | src/event_scheduler.hpp:59 | the log (popped events and eventStack_) stays; the process is one event further in it |
| SchedulerNode.ThoseAll | src/event_scheduler.cpp:286-334 | with all receptions complete all requests are treated, with none complete all stay |
| SchedulerNode.ThoseAppend | src/event_scheduler.cpp:286-334 | the selection is made request by request, in order |
| SchedulerTree.Partition | src/event_scheduler.cpp:56-83 | children fill the group, none is empty, sizes differ by at most one |
| SchedulerTree.Agree | src/event_scheduler.cpp:56-83 | all ranks of a group compute the same bounds at every level |
| SchedulerTree.LeaderOf | src/event_scheduler.cpp:56-83 | the first rank of a group knows it, and has each rank's next group among its children |
| SchedulerTree.ChildOfGroup | src/event_scheduler.cpp:56-83 | the first rank of each child knows the group it comes from, and leads the child |
| SchedulerTree.AloneAtLevel | src/event_scheduler.cpp:56-83 | at its last level every rank is alone: it is one leaf |
| SchedulerTree.SharedLevel | src/event_scheduler.cpp:56-83 | before its last level, all ranks of a group go one level further |
| SchedulerTree.LevelIs | src/event_scheduler.cpp:56-83 | the number of levels is where the groups first become single ranks, and at least one |
| SchedulerTree.DepthAtMostMaxChild | src/event_scheduler.cpp:35-47 | no rank is deeper in the tree than maxChild |
| SchedulerTree.DepthBound | src/event_scheduler.cpp:46-83 | the depth is at most any k with maxChild to the k not below the size |
| SchedulerTree.MaxChild | src/event_scheduler.cpp:35-43 | the loop finds the least maxChild, from 2 on, whose own power reaches the size |
| SchedulerTree.MaxLevel | src/event_scheduler.cpp:46-47 | the loop counts the powers of maxChild up to the size |
| Policy.LastFits | src/policy.cpp:75-119 | the group left after the division loop has at most maxChild ranks, though the loop also stops at maxLevel |
| Policy.DivideAdaptiveComm.ComputeMPICommLevel | src/policy.cpp:57-119 | nested groups and their children at every level; single ranks at the last; computed once |
| Policy.DivideAdaptiveComm.BuildGroups | src/policy.cpp:81-113 | the division loop, within its arrays |
| ServerBuffer.CServerBuffer.constructor | src/buffer_server.cpp:11-22 | an empty ring of three buffer sizes |
| ServerBuffer.CServerBuffer.IsBufferFree | src/buffer_server.cpp:36-84 | true exactly if a run of that many cells behind the newest block, or from cell 0, is free of live blocks and of the gap cell, which the cell behind it is not either; so true for every request with used + count below twice the buffer size if no request was above one, and an empty ring never blocks |
| ServerBuffer.AcceptsIs | src/buffer_server.cpp:36-84 | the comparisons of isBufferFree say yes if and only if there is a place among the live blocks |
| ServerBuffer.PlacedIs | src/buffer_server.cpp:92-149 | the branches of getBuffer choose the place behind the newest block wherever there is one, else cell 0 |
| ServerBuffer.RunsAre | src/buffer_server.cpp:151-228 | what freeBuffer and popBuffer can take at once is the bytes of the live blocks that lie one behind the other at the front and at the back |
| ServerBuffer.CServerBuffer.IsBufferEmpty | src/buffer_server.cpp:86-90 | true exactly when no block is live |
| ServerBuffer.CServerBuffer.GetBuffer | src/buffer_server.cpp:92-149 | its error branch is taken exactly when there is no such place; otherwise one block is appended, behind the newest block if there is a place there, else at cell 0, on free cells |
| ServerBuffer.CServerBuffer.FreeBuffer | src/buffer_server.cpp:151-189 | bytes leave at the front, also less than a block; refused exactly beyond the front run |
| ServerBuffer.CServerBuffer.PopBuffer | src/buffer_server.cpp:191-228 | bytes leave at the back, and no other byte changes, exactly if they lie in one run; beyond that the error branch, or, for a count beyond the end of the run, wrapped numbers that no comparison notices |
| ServerBuffer.CServerBuffer.Receive | src/transport/legacy_context_server.cpp:175-182 | a message received in its block is one more element of the queue of contents |
| ServerBuffer.LayoutBounds | src/buffer_server.cpp:36-228 | live blocks are inside the buffer, disjoint, and avoid the gap cell |
| ServerBuffer.UsedIsTotal | src/buffer_server.cpp:86-228 | used is the number of live bytes |
| ServerBuffer.FrontBlockFrees | src/buffer_server.cpp:151-228 | the oldest block can always be freed and the newest popped at once |
| ServerBuffer.Grown | src/buffer_server.cpp:92-149 | allocation keeps the invariant: blocks one after the other around the gap and the end mark |
| ServerBuffer.Shrunk | src/buffer_server.cpp:151-189 | freeing keeps it, also across the end mark |
| ServerBuffer.PoppedSound | src/buffer_server.cpp:191-228 | popping keeps it, also back across the end mark |
| DoubleBuffer.ExactlyOnce | src/buffer_client.cpp:153-282 | over every interleaving of writes, sends, receives and one-sided reads: accepted events are delivered once each, in order; the rest is in the buffer, on the wire or being received |
| DoubleBuffer.ResizeIsDrained | src/buffer_client.cpp:296-360 | buffers are replaced only with both empty, nothing on the wire and everything accepted already delivered |
| DoubleBuffer.InFlightIsLeftAlone | src/buffer_client.cpp:228-282 | while a send is under way there is no second send, no replacement, and no one-sided read by the server that still looks at its window |
| DoubleBuffer.PullIsFromTheFilledBuffer | src/buffer_server.cpp:230-294 | a one-sided read takes only the application's events, from the window that the client fills |
| DoubleBuffer.RingFollows | src/transport/legacy_context_server.cpp:275-287 | outside a change of size the server's ring is made for the client's buffer size |
| DoubleBuffer.ActionKeeps | src/buffer_client.cpp:153-386 | every action of either side keeps the invariant |
| DoubleBuffer.RunKeeps | src/buffer_client.cpp:153-386 | every state of every run satisfies it |
| DoubleBufferProgress.NeverStuck | src/buffer_client.cpp:228-282 | while an event is under way or the hand-shake is not over, some action is possible, if a stale count may be read again |
| DoubleBufferProgress.InnerShrinks | src/buffer_client.cpp:228-282 | each such action uses up a measure |
| DoubleBufferProgress.EveryRunDrains | src/buffer_client.cpp:153-386 | so every run without new requests ends within 50 actions: all delivered, hand-shake over, ring and buffer of one size; provided that a client whose count is stale reads it again, as isBufferFree and hasPendingRequest do |
| DoubleBufferProgress.PollingDelivers | src/buffer_client.cpp:228-282 | a client that only calls checkBuffer gets every event delivered all the same |
| DoubleBufferProgress.PollingCompletes | src/buffer_client.cpp:246-282 | but such a client is sure to complete a change of size if and only if it does not stand at step 1 with a count of bytes that the server has taken or may still take |
| DoubleBufferProgress.StaleHappens | src/buffer_client.cpp:246-282 | both ways into such a state from a fresh buffer: a one-sided read before or after fixBufferSize |
| DoubleBufferProgress.FixCanBeCompleted | src/buffer_client.hpp:35 | after fixBufferSize the hand-shake can be completed without a further call of it if and only if it did not come at step 2 or 3 |
| DoubleBufferProgress.FixTooLate | src/buffer_client.hpp:35 | fixBufferSize at step 2 or 3 leads into a doomed state, from every reachable state at those steps |
| DoubleBufferProgress.FixTooLateHappens | src/buffer_client.hpp:35 | a run from a fresh buffer in which it does |
| DoubleBufferProgress.DoomedStays | src/buffer_client.hpp:35 | every action except a further fixBufferSize leads from a doomed state to a doomed state: the second notice goes to the window the client has left |
| DoubleBufferProgress.DoomedForEver | src/buffer_client.hpp:35 | from a doomed state the client never writes again, in any run without a further fixBufferSize |
| DoubleBufferProgress.DoomedStops | src/buffer_client.hpp:35 | such a run stops with the client waiting in one window for a notice that stands in the other |
| DoubleBufferProgress.LaterFixRescues | src/buffer_client.hpp:35 | from where it stops, a further fixBufferSize lets the client write again |
| DoubleBufferProgress.LaterFixIsUnsafe | src/buffer_client.hpp:35 | but the client then may replace its buffers before the server has handled the last notice: ResizeIsDrained no longer holds |
| BufferLink.Link.constructor | src/buffer_client.cpp:16-68 | the state after the first message and the attachment of the windows |
| BufferLink.Link.Send | src/buffer_client.cpp:153-207 | isBufferFree and getBuffer under one lock: the event is written exactly if no change is under way and it fits; refused, it asks for a buffer of its own size if it is larger than the buffer, else, if the client may grow, for the bytes in the buffer and its own times the factor, which is more than the buffer had |
| BufferLink.GrowIs | src/buffer_client.cpp:183 | the product of size and factor is truncated |
| BufferLink.Grown | src/buffer_client.cpp:183 | with a factor of at least 1 no size gets smaller, and the order of sizes stays |
| BufferLink.Link.SetGrowableBuffer | src/buffer_client.hpp:34 | growing is allowed from now on, by this factor |
| DoubleBufferProgress.RefusedThenAccepted | src/buffer_client.cpp:153-207 | the event that was refused is accepted once the change of size that it asked for is over, as it is at the end of every run that starts nothing new |
| BufferLink.Link.Put | src/buffer_client.cpp:191-207 | the bytes go behind those in the buffer; header count and first time line follow |
| BufferLink.Link.CheckBuffer | src/buffer_client.cpp:228-282 | which of completion, send, notice, notified, replacement happens, for each outcome of MPI_Test and of the latency |
| BufferLink.Link.Push | src/buffer_client.cpp:249-265 | the send: the bytes stay in place, the client goes to the other buffer |
| BufferLink.Link.ResizeBufferNotify | src/buffer_client.cpp:284-294 | the notice event in an empty buffer |
| BufferLink.Link.IsNotifiedChangeBufferSize | src/buffer_client.cpp:372-386 | the server's notice is read in the client's current window |
| BufferLink.Link.ResizeBuffer | src/buffer_client.cpp:296-360 | new buffers and headers, holding the change event alone |
| BufferLink.Link.HasPendingRequest | src/buffer_client.cpp:362-370 | the count is refreshed; true exactly while something is to be sent or under way |
| BufferLink.Link.FixBufferSize | src/buffer_client.hpp:35 | the request for a fixed size, at any step; at steps 2 and 3 the state is doomed |
| BufferLink.Link.ReceiveMessage | src/transport/legacy_context_server.cpp:158-189 | the bytes of the send are taken from the buffer they are still in |
| BufferLink.Link.CheckPendingRequest | src/transport/legacy_context_server.cpp:192-225 | the window follows the client, the message is handled |
| BufferLink.Link.GetBufferFromClient | src/buffer_server.cpp:230-294 | data are read exactly if the filled window's first time line is the awaited one |
| BufferLink.Link.ProcessRequest | src/transport/legacy_context_server.cpp:250-302 | the bytes of a message are taken apart into its events, each handled |
| BufferLink.Link.Dispatch | src/transport/legacy_context_server.cpp:267-296 | the notice, the change of size, or an event of the application |
| ServerRing.RingKeeps | src/transport/legacy_context_server.cpp:158-302 | actions of client and server with the server's ring keep the message being received as its newest block, and alone in it during a change |
| ServerRing.ChangeIsAlone | src/transport/legacy_context_server.cpp:275-281 | in every run: when the server is told the new size its ring holds this message alone; once it is freed, the ring that is deleted has no live block |
| ServerRing.NoticeIsPopped | src/transport/legacy_context_server.cpp:267-273 | in every run: the notice is the newest block of the ring, and popBuffer takes it and nothing else |
| ServerRing.EmptyRingFits | src/transport/legacy_context_server.cpp:175-182 | in every run: an empty ring has room for the next message, and for what a one-sided read takes |
| ServerRing.FreeIsFront | src/event_server.cpp:60-68 | freeing the oldest event takes its bytes from the front of the oldest block |
| ServerRing.RingShrinks | src/transport/legacy_context_server.cpp:158-302 | every action that starts nothing uses up a measure, with the freeing of events |
| ServerRing.RingNeverStuck | src/transport/legacy_context_server.cpp:158-189 | the conditions on the ring never block: something can be done as long as anything is under way, held in the ring, or a change of size is not over |
| ServerRing.RingDrains | src/transport/legacy_context_server.cpp:158-302 | so in whatever order the work is done it ends, with all events delivered and freed and the hand-shake over |
| ServerRing.ClientBuffer.CheckPendingProbe | src/transport/legacy_context_server.cpp:158-189 | a message is received exactly if none is being received and isBufferFree says yes or, during a change, the ring is empty; an empty ring takes every message of at most the client's buffer size |
| ServerRing.ClientBuffer.NotifyBufferResizing | src/transport/legacy_context_server.cpp:267-273 | the newest block leaves the ring, all others stay |
| ServerRing.ClientBuffer.ChangeBufferSize | src/transport/legacy_context_server.cpp:275-287 | freeBuffer takes no error branch and leaves the old ring without a live block; a new one of the new size |
| ServerRing.ClientBuffer.FreeEvent | src/event_server.cpp:60-68 | the bytes at the front of the oldest block are freed without an error |
| Messages.FrontRoundTrip | src/transport/legacy_context_server.cpp:263-265 | reading a message gives back its first event and what follows |
| CalendarMath.PlusExact | src/calendar_util.cpp:49-123 | date plus days, hours, minutes and seconds, of either sign, is the valid date that many seconds away |
| CalendarMath.PlusAssociative | src/calendar_util.cpp:18-25 | (dt + a) + b == dt + (a + b) |
| CalendarMath.PlusMinus | src/calendar_util.cpp:125 | (dt + a) - a == dt |
| CalendarMath.StepLater | src/calendar.cpp:127-132 | step n+1 is one time step after step n |
| CalendarMath.PlusMonths | src/calendar_util.cpp:82-122 | month and year durations add exactly to the month index, the day is clamped to the month, the time of day stays |
| CalendarMath.OrderFaithful | src/calendar_util.cpp:160-201 | valid dates are ordered, and told apart, by their seconds |
| CalendarMath.SecsMul | src/calendar_util.cpp:26-33 | a multiple of a duration has the multiple of its seconds |
| Calendars.BaseOk | src/calendar.cpp:161-178 | the base calendar of 365 days meets what the arithmetic assumes |
| Calendars.AllLeapOk | src/date/allleap.cpp:35-42 | so does the calendar of 366 days |
| Calendars.JulianOk | src/date/julian.cpp:35-54 | so does the julian calendar, with its leap years |
| Calendars.GregorianOk | src/date/gregorian.cpp:35-60 | so does the gregorian calendar, with its leap years |
| Calendars.D360Ok | src/date/d360.cpp:35-39 | so does the calendar of 360 days |
| Calendars.GregorianDay | src/date/gregorian.cpp:35-55 | the day number of every date in closed form: 365 days a year, one more for each leap year before, and the days of the months before |
| Calendars.GregorianLong | src/date/gregorian.cpp:35-55 | the years divisible by 4 have 29 days in their second month, except those divisible by 100 and not by 400 |
| Calendars.GregorianCycle | src/date/gregorian.cpp:35-55 | the calendar repeats after 400 years, which are 146097 days |
| Calendars.JulianDay | src/date/julian.cpp:35-49 | the day number in closed form; exactly the years divisible by 4 have a day more |
| Calendars.BaseDay | src/calendar.cpp:161-170 | the day number in closed form, with years of 365 days |
| Calendars.AllLeapDay | src/date/allleap.cpp:35-42 | the day number in closed form, with years of 366 days |
| Calendars.D360Day | src/date/d360.cpp:35-39 | the day number in closed form, with months of 30 days |
| Calendar.Resolve | src/calendar.cpp:191-229 | normalisation keeps the seconds and the months; with noNegativeTime the time of day is in range |
| Calendar.ResolveDays | src/calendar.cpp:195-212 | the borrow from the days |
| Calendar.AddMonth | src/date.cpp:235-245 | one month on or back, across years |
| Calendar.CheckDate | src/calendar.cpp:292-327 | true exactly for valid dates; others are clamped field by field |
| Calendar.WalkForward | src/calendar_util.cpp:85-95 | walking months forward finds the month and day of a day number |
| Calendar.WalkBackward | src/calendar_util.cpp:96-103 | and backward |
| Calendar.FixMonth | src/calendar_util.cpp:107-113 | month and year after the months of the duration |
| Calendar.AddExpanded | src/calendar_util.cpp:62-123 | the loops compute the specified sum, a valid date |
| Calendar.Plus | src/calendar_util.cpp:49-123 | it fails exactly if the duration has time steps and the calendar has none; else the result is the date all seconds later, those of the time steps included, moved by all months: the month index adds, the day is clamped, the time of day stays |
| CalendarMath.PlusLater | src/calendar_util.cpp:49-123 | the specified sum is that date |
| CalendarMath.LaterIsOne | src/calendar_util.cpp:49-123 | there is only one such date |
| CalendarMath.LaterExact | src/calendar_util.cpp:49-123 | without months it lies exactly that many seconds later |
| Calendar.ExpandIs | src/calendar_util.cpp:56-63 | expanding time steps adds their multiple to the seconds and to the months |
| Calendar.OneStepMore | src/calendar_util.cpp:49-123 | with a time step of days and time, dt + (n+1)ts is (dt + n ts) + 1ts |
| Calendar.GetSecondOfYear | src/date.cpp:162-175 | the loop over the months gives the seconds since the year began |
| Calendar.ToTime | src/date.cpp:107-124 | the conversion is the difference in seconds to the origin if and only if years have one length or the date's year is not before the origin's |
| Calendar.TimeExact | src/date.cpp:107-124 | the same for every two dates, as a property of the conversion |
| Calendars.YearBefore | src/date.cpp:113-121 | in every calendar with leap years the first day of the year before an origin at the start of a year is converted to 0 |
| Calendars.TimeFails | src/date.cpp:113-121 | an instance: in the julian calendar with origin 0001-01-01, the date 0000-01-01 is converted to 0 and not to minus 366 days |
| Calendar.YearsEqual | src/date.cpp:113-121 | with equal year lengths the product replaces the loop over the years |
| Calendar.TimeOrder | src/date.cpp:107-124 | the converted values of two dates are ordered as the dates, where the conversion is exact for both |
| Calendar.CCalendar.constructor | src/calendar.cpp:72-78 | start date, origin and current date coincide and are valid |
| Calendar.CCalendar.SetTimeStep | src/calendar.cpp:114-120 | refused exactly when the step is itself in time steps |
| Calendar.CCalendar.Update | src/calendar.cpp:127-132 | the date of step n lies n times the seconds of the time step after the start, and n times its months |
| Text.DurationRoundTrip | src/duration.cpp:51-157 | reading a printed duration gives the same duration, also for all zeros and for the units of two letters |
| Text.DateRoundTrip | src/date.cpp:74-95 | reading a printed date of a year from 0 on gives the same date, with or without a calendar |
| Text.PartRead | src/calendar.cpp:232-283 | a text that ends behind the year, month, day, hour, minute or second is that date with the rest at its beginning; except that a year alone is refused if the variable c, which the source leaves without a value, happens to be a plus sign |
| Text.PartOffset | src/calendar.cpp:241-279 | a date, or the first part of one, with a plus sign and a printed duration is read as both, with or without spaces around the sign, if and only if it is not a date without time with spaces |
| Text.OmittedDate | src/calendar.cpp:241-283 | an offset without a date, as in + 36h, is always refused |
| Text.ReadDuration | src/duration.cpp:51-110 | the parser's loop: value, unit, each unit once, until the end |
| Text.ToString | src/duration.cpp:141-157 | the text of the non-zero components in order, or 0ts |
| Text.PrintDate | src/date.cpp:74-95 | the loop that widens the year never changes the text of four-digit padding |
| Text.DigitsLength | src/date.cpp:79-85 | a number has at most w digits exactly when it is below 10 to the w |
| Registry.CRegistry.Size | src/registry.cpp:88-96 | the number of bytes that toBuffer writes, in whatever order of keys |
| Registry.CRegistry.ToBuffer | src/registry.cpp:76-86 | all entries, and success exactly if they fit |
| Registry.CRegistry.FromBuffer | src/registry.cpp:116-141 | what was written is read: its keys take its values, other keys stay |
| Registry.CRegistry.MergeRegistry | src/registry.cpp:170-187 | the other registry's keys that are missing here are added |
| Registry.EntriesLength | src/registry.cpp:88-96 | size counts the bytes written, entry by entry |
| Registry.SizeSame | src/registry.cpp:88-96 | the size does not depend on the order of keys |
| RegistryGather.FlatLowest | src/registry.cpp:216-256 | the gathered registry has exactly the keys of all ranks, each with the value of the lowest rank that has it |
| RegistryGather.HierIsFlat | src/registry.cpp:277-300 | the pairwise recursive gather leaves at its first rank what the flat gather does |
| RegistryGather.TakingFlat | src/registry.cpp:258-275 | leaving out the empty registries changes nothing |
| RegistryGather.FlatConcat | src/registry.cpp:170-187 | gathering two groups and merging is gathering both |
| RegistryGather.Transfer | src/registry.cpp:216-256 | one registry sent as bytes, read and merged |
| RegistryGather.GatherRegistry | src/registry.cpp:216-256 | rank 0 has the flat gather, the others are unchanged |
| RegistryGather.HierarchicalGather | src/registry.cpp:277-300 | the recursion over halves, with every rank's registry |
| RegistryGather.HierarchicalGatherAll | src/registry.cpp:258-300 | with the empty registries split off, rank 0 ends with the flat gather over all ranks |
| Buffers.CBufferOut.Put | src/buffer_out_impl.hpp:58-76 | all bytes or none, and success exactly if they fit |
| Buffers.CBufferOut.Advance | src/buffer_out_impl.hpp:79-95 | skips exactly if there is room |
| Buffers.CBufferIn.Get | src/buffer_in_impl.hpp:58-76 | the next bytes, or none if there are too few |
| Buffers.WordRoundTrip | src/buffer_in_impl.hpp:58-76 | a size read back is the one written |
| FileDistribution.AddFile | src/distribute_file_server2.cpp:187-201 | incremental bandwidth, memory, counts and energy equal those from scratch with the file once more, also from a negative count |
| FileDistribution.RemoveFile | src/distribute_file_server2.cpp:204-216 | and once less |
| FileDistribution.CountIs | src/distribute_file_server2.cpp:187-216 | a server counts a grid exactly when one of its files uses it |
| FileDistribution.EnergyIsLargest | src/distribute_file_server2.cpp:37-39 | the energy is the largest energy of a server, and one server has it |
| FileDistribution.Distribution.constructor | src/distribute_file_server2.cpp:24-39 | files dealt round; totals from scratch |
| FileDistribution.Distribution.MoveStep | src/distribute_file_server2.cpp:51-74 | accepted: the file is on the other server, all others stay; refused, only if the energy would grow: nothing has changed |
| FileDistribution.Distribution.SwapStep | src/distribute_file_server2.cpp:76-106 | accepted: each of the two files is on the other's server, all others stay; refused, only if the energy would grow: nothing has changed; also for one file drawn twice; the files per server keep their number |
| FileDistribution.Distribution.GridStep | src/distribute_file_server2.cpp:119-160 | accepted: every file of the one server that uses the grid is on the other, all others stay; refused, only if the energy would grow: nothing has changed; also onto the same server |
| FileDistribution.Distribution.Regroup | src/distribute_file_server2.cpp:121-140 | each such file moves once, in order, and is listed |
| FileDistribution.Distribution.SendBack | src/distribute_file_server2.cpp:150-154 | the rollback restores every assignment |
| FileDistribution.Distribution.ChooseGrid | src/distribute_file_server2.cpp:111-119 | the retry loops can end: a used grid exists as soon as one file uses one |
| FileDistribution.Distribution.Anneal | src/distribute_file_server2.cpp:48-161 | round by round the assignment follows the random numbers drawn, and totals, counts and energy are right; the retry loop goes on for ever exactly when there are files and none uses a grid |
| FileDistribution.SwapIs | src/distribute_file_server2.cpp:76-106 | swapping is its own inverse and keeps the number of files on every server |
| FileDistribution.BandwithConserved | src/distribute_file_server2.cpp:24-39 | the bandwidths of all servers add up to those of all files, whatever the assignment |
| Inheritance.SetAttributes | src/attribute_map.cpp:224-246 | attribute by attribute: filled, or only inherited for reading, or left |
| Inheritance.CObjectFactory.SolveRefInheritance | src/declare_ref_func.hpp:30-54 | the walk ends; it fails exactly when the chain never ends; else each empty attribute that may inherit has the first value along the chain |
| Inheritance.CObjectFactory.SolveAll | src/declare_ref_func.hpp:30-54 | objects solved in any order, repeatedly or not, end as if each were solved alone |
| Inheritance.SolvedStays | src/declare_ref_func.hpp:30-54 | solving one object does not change what solving another gives |
| Inheritance.Loops | src/declare_ref_func.hpp:41-47 | a chain that comes back to an earlier object never ends |
| Inheritance.ReferenceChain | src/declare_ref_func.hpp:30-54 | objects of which each has the id of the next as its reference attribute, up to one without a reference or with an unknown one, are the chain that is walked |
| Inheritance.ReferenceLoop | src/declare_ref_func.hpp:41-47 | objects whose reference attributes lead back to one of them have no chain that ends |
| Inheritance.FilledOnce | src/attribute_map.cpp:236-242 | one more link fills what the links before left empty |
| GroupInheritance.NearestAncestor | src/group_template_impl.hpp:264-287 | every object reads the value of its nearest ancestor that has one, unless it or a nearer ancestor was reset; stored with apply, read only without |
| GroupInheritance.CGroups.SolveDescInheritance | src/group_template_impl.hpp:264-287 | each member is filled from its parent, parents first, and nothing outside the tree changes |
| DataCache.NCcache.constructor | extern/src_netcdf4/cache.c:333-342 | an empty cache within its limits |
| DataCache.NCcache.IsCached | extern/src_netcdf4/cache.c:18-77 | the prefetched node if it has the target, else the most recently used node that has the whole of it, which becomes the last; else nothing changes |
| DataCache.NCcache.Insert | extern/src_netcdf4/cache.c:258-285 | the nodes whose last use is longest ago make room; the cache is within its limit or holds the new node alone |
| DataCache.NCcache.MakeRoom | extern/src_netcdf4/cache.c:262-283 | survivors are a suffix of the order of use; cachesize stays their total |
| DataCache.EvictedIsLeast | extern/src_netcdf4/cache.c:262-283 | no fewer evictions would have met both limits |

## Left out

- SchedulerNode.Scheduler.RegisterEvent: does not poll (`checkEvent_`) after sending; polling is SchedulerDrain.CheckEvent, or its parts in any order.
- SchedulerNode.Scheduler.QueryEvent: does not poll first, for the same reason.
- SchedulerNode.Scheduler.PopEvent: an empty eventStack_ is the caller's error, as for std::queue.
- SchedulerNode.Scheduler.Initialize: does not model 32-bit wrap-around of the power that is compared with the size.
- SchedulerNode: sending appends to one list of sends; the queues of pending sends, which only keep message buffers alive, are not modelled.
- SchedulerWorld.RegisterEvent: an event registered twice by one process is not modelled; nor is one of a scheduler below the process's own.
- SchedulerWorld.CheckParentRequest: messages between two ranks stay in order (as MPI has it); those of different senders come in any order.
- SchedulerDrain.Drain: all that is under way to a process is received when it polls, and all receptions are complete; with some incomplete, SchedulerWorld says what one call does and SchedulerTheorems.EveryScheduleDrains that treating always ends.
- SchedulerDrain.CheckEvent: the parent scheduler that is part of no tree (see BuildOk) is not polled; nothing is sent to it.
- SchedulerPool.CutOk: a scheduler is split before it has a child scheduler, and before events are under way in it.
- SchedulerSystem.BuildOk: of the parent schedulers that a split makes, only those that join the roots of child schedulers are modelled; the one that the other ranks get among themselves has no child scheduler roots to order.
- ServerBuffer.CServerBuffer.GetBuffer: after its error branch only the queue and the positions are stated, not the end mark, which the source may have moved before it fails.
- BufferLink.Link.Send: the growth factor is a real number of at least 1 (the only caller passes 1.2), without the rounding of doubles, and the size asked for is below the machine's range; the record sizes kept for reports are not modelled.
- BufferLink.Link.ReceiveMessage: the conditions on the server's ring are not part of this class but of ServerRing, which joins them to the same state machine.
- BufferLink.Link.ProcessRequest: the ring space of a message is freed and popped in ServerRing.ClientBuffer, not here.
- DoubleBufferProgress.EveryRunDrains: without the ring; ServerRing.RingDrains has the conditions on receiving and the freeing of events.
- ServerRing: the events of one client are freed in the order in which they came, one at a time.
- BufferLink: client buffers without windows, the first message that opens a connection, finalisation, the waiting loop over several servers, and the server's latency and empty-ring conditions for one-sided reads (they only make reads rarer).
- Calendar.Plus: components are integers; fractions of years to minutes, calendars without months and the difference of two dates (not an inverse of addition) are not modelled.
- Calendar.ToTime: user-defined calendars stand behind the abstract year and month lengths, with what the code assumes of them as a precondition; those of src/date meet it (Calendars).
- Text.ReadDuration: numbers are integers in plain digits; fractions, exponents and overflow are not modelled.
- Text.DateRoundTrip: the duration that may follow a plus sign is parsed, but its addition to the date is Calendar's.
- Registry.CRegistry.FromBuffer: the source does not check the bytes it reads; a well-formed message is required.
- Registry: std::map iterates in key order; here any order of keys is allowed, so every statement holds for that one too. Files and broadcasting of registries are left out.
- RegistryGather.HierarchicalGather: ranks are run one after the other; sends and receives are a transfer of bytes.
- FileDistribution: doubles are integers; the random numbers and the decision to refuse a larger energy, which depends on the temperature, are inputs.
- Inheritance.CObjectFactory.SolveRefInheritance: with apply; without it later links overwrite the inherited value. After a cyclic chain only the solved object may have changed; how far it was filled is not stated.
- GroupInheritance: groups that refer to other groups (fields only) are left out.
- DataCache.NCcache.Prefetch: prefetches of the netCDF-3 protocol, which stay out of the list of nodes.
- Transport of the newer protocols (point-to-point and one-sided buffers), the workflow graph, XML parsing, netCDF files and the Fortran interface are not part of this model.
- The allocation tracker (src/memtrack.cpp): a doubly linked list and sums over it, which would only add easier members.
