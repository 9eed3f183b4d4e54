# Verified models of the C socket programs

This project models the state machines inside a collection of C socket programs and proves
what their own logic guarantees. System calls, the scheduler and the kernel are the
environment: their results are arguments, scripts or steps, and every theorem holds for all of
them.

| files | what they model |
|---|---|
| `FixedPool.dfy` | the fixed-size thread pool: one signal per event, sent after unlocking |
| `AdaptivePool.dfy`, `AdaptivePoolRuns.dfy`, `AdaptivePoolStranding.dfy` | the thread pool whose manager grows and shrinks it from stale snapshots; what the manager decides; when jobs are stranded |
| `Reactor.dfy`, `ReactorSafety.dfy`, `ReactorLoop.dfy`, `ReactorService.dfy`, `ReactorProgram.dfy` | the epoll reactor: routines as functions, invariants, whole runs of the main loop, what its clients get, and the program on its array |
| `Sockets.dfy`, `Framing.dfy`, `LineReader.dfy` | system calls with short transfers; length-prefixed messages; the buffered line reader |
| `SelectServer.dfy` | the select server's table and its early-exit counter |
| `ConnPool.dfy` | the client connection pool |
| `Totals.dfy`, `RingIndex.dfy` | sums over a thread table, ring index arithmetic |

State that the programs change in place is a class over arrays. Each of its methods is proved
equal to a function on the class's abstract value (`View()`), and the properties are proved
about that function over every run. A concurrent program is a state machine whose steps are its
critical sections and whatever its threads do outside the locks. A condition variable's signal
wakes one sleeper if there is one; spurious wakeups are steps of their own.

## Main results

* **Fixed pool.** No wakeup is ever lost, the k-th dequeued job is number 1000 + k, and every
  schedule of the threads already inside the pool ends, after a bounded number of steps, with
  everything that was added finished exactly once and every caller returned.
* **Adaptive pool.** The thread bounds and both counters survive every interleaving with the
  manager's stale snapshots; nothing queued is lost, duplicated or overtaken; the manager shrinks
  and grows the pool exactly when the table at its two looks says so. The pool does lose
  wakeups: `StrandingCondition` shows that some run reaches a state from which no step of the
  pool's own threads ever starts a queued job exactly when the pool has no minimum thread (and
  room for a job), or when it can grow and its queue holds the ten jobs that make it grow. No
  spurious wakeup is needed for it, and a pool that cannot grow loses no wakeup.
* **Reactor.** Every event of a batch reaches the slot it was reported for, unchanged since the
  wait, and is served with the reply its system call gave, while no other connection changes;
  the slot table mirrors the interest set; each connection is echoed chunk by chunk, and is in
  one slot or was closed; any eleven passes examine every client slot once or twice and close a
  client that stays idle.
* **Framing and lines.** Messages survive every schedule of short, interrupted and zero-length
  transfers, truncated streams yield exactly their whole frames, and buffered line reading
  equals unbuffered splitting for every chunking. A receive keeps to its buffer except for one
  length field, 2^32 - 1, which no sender of this program produces.
* **Select server, connection pool.** The round with shortcuts equals the round without them and
  serves each ready client once; a client stays until it is at its end of stream. Every pooled
  connection ever opened is idle, lent or closed, and a broken one is not lent again.

Where code and comments disagree the code is followed. `MIN_WAIT_TASK_NUM` is commented as a
strict threshold and compared with `>=`. `sckCltPool_putConnet` is declared with "0 normal, 1",
and the code treats 1 as a good connection. `Readline` returns one more than it stores when a
line fills its buffer without a newline; `Returned` states the exact value.

Three properties one would expect are false of the code, each with the exact condition under
which it holds: no lost wakeup in the adaptive pool (`StrandingCondition`), a receive that stays
inside its buffer (`ReceiveStaysInside`), and a clean-up after a failed pool creation that closes
only what was opened (`CleanUpIsExact`).

## Model

| member | source | states |
|---|---|---|
| `FixedPool.ThreadPool.constructor` | Csocket/epoll_反应堆/threadpoolsimple.c:58-70 | a new pool is empty, numbering starts at 1000 |
| `FixedPool.ThreadPool.RunWorkerSection` | Csocket/epoll_反应堆/threadpoolsimple.c:18-50 | a worker's critical section on the ring equals `WorkerSection`: sleep, copy one job out, or leave |
| `FixedPool.ThreadPool.RunAddSection` | Csocket/epoll_反应堆/threadpoolsimple.c:114-129 | `addtask`'s critical section equals `AddTask`, or changes nothing when the ring is full |
| `FixedPool.AddKeepsRing` | Csocket/epoll_反应堆/threadpoolsimple.c:122-127 | adding overwrites no unread cell and keeps the counters in agreement |
| `FixedPool.WorkerKeepsWakeups` | Csocket/epoll_反应堆/threadpoolsimple.c:21-38 | a worker's section loses no wakeup, for workers or producers |
| `FixedPool.SignalKeepsWakeups` | Csocket/epoll_反应堆/threadpoolsimple.c:129-131 | the signal sent after the unlock loses no wakeup |
| `FixedPool.StepKeepsInv` | Csocket/epoll_反应堆/threadpoolsimple.c:15-52 | every step of every thread keeps ring contents, numbering, conservation and the wakeup bounds |
| `FixedPool.EveryRunIsSafe` | Csocket/epoll_反应堆/threadpoolsimple.c:8-133 | over every interleaving: job_num = job_push - job_pop in range, the k-th dequeue copied 1000 + k, a sleeping worker or producer leaves no more work than wakeups on their way, each copied job is running in one worker or finished once, and only a worker that leaves at shutdown drops its copy |
| `FixedPool.StuckMeansDone` | Csocket/epoll_反应堆/threadpoolsimple.c:15-52 | deadlock freedom: where nothing can move, nothing is queued, no caller waits and every job finished exactly once |
| `FixedPool.EveryScheduleDrains` | Csocket/epoll_反应堆/threadpoolsimple.c:15-133 | from every reachable state before shutdown, every schedule of the threads inside the pool is bounded and, when it cannot continue, is done |
| `FixedPool.NoJobStartsAfterShutdown` | Csocket/epoll_反应堆/threadpoolsimple.c:21-47 | over every run after shutdown: a worker that runs a job had it before, and a worker that reaches its lock leaves for good |
| `AdaptivePool.ThreadPool.constructor` | Csocket/epoll_反应堆/threadpool.c:70-116 | the created pool: empty ring, `min_thr_num` started threads |
| `AdaptivePool.ThreadPool.RunAddSection` | Csocket/epoll_反应堆/threadpool.c:139-161 | `threadpool_add`'s section waits when full, refuses after shutdown, otherwise stores at the rear |
| `AdaptivePool.ThreadPool.RunWorkerSection` | Csocket/epoll_反应堆/threadpool.c:183-219 | a worker's section: exit request first if it was woken, then sleep, leave on shutdown, or dequeue |
| `AdaptivePool.ThreadPool.RunGrowSection` | Csocket/epoll_反应堆/threadpool.c:268-283 | the growth loop on the thread table equals `Grow` |
| `AdaptivePool.PutAppends` | Csocket/epoll_反应堆/threadpool.c:151-161 | storing appends to the queue's contents around the ring |
| `AdaptivePool.TakeRemovesOldest` | Csocket/epoll_反应堆/threadpool.c:215-219 | dequeuing removes the oldest entry |
| `AdaptivePool.GrowthIsExact` | Csocket/epoll_反应堆/threadpool.c:272-281 | one growth decision starts ten threads, or one per free table entry if there are fewer |
| `AdaptivePool.StepKeepsCounters` | Csocket/epoll_反应堆/threadpool.c:189-299 | every step, including the manager's stale decisions, keeps the bounds and both counters exact |
| `AdaptivePool.SectionHoldsTaken` | Csocket/epoll_反应堆/threadpool.c:189-219 | a worker leaves its section with exactly what it dequeued; a retiring worker holds nothing |
| `AdaptivePool.EveryRunKeepsBounds` | Csocket/epoll_反应堆/threadpool.c:171-303 | min <= live <= max and 0 <= busy <= live over every interleaving; live counts the unretired workers before shutdown, busy those between the two counter updates |
| `AdaptivePool.EveryRunConservesTasks` | Csocket/epoll_反应堆/threadpool.c:134-244 | accepted = dequeued followed by the ring, in order; each dequeued job is held by one worker or completed; shutdown abandons only what is queued |
| `AdaptivePool.EveryRunThrottles` | Csocket/epoll_反应堆/threadpool.c:139-299 | a sleeping producer implies a full ring; retirements plus pending exits never exceed ten per shrink decision; wakeups are lost only to retirements |
| `AdaptivePoolRuns.ShrinkFollowsTable` | Csocket/epoll_反应堆/threadpool.c:256-299 | at the end of every cycle of every run: ten exits are asked for exactly when less than half of the workers live at the first look were busy at the second and they exceeded the minimum; otherwise nothing changes |
| `AdaptivePoolRuns.ShrinksFollowTable` | Csocket/epoll_反应堆/threadpool.c:256-299 | the shrink decisions of a run are exactly those cycles; without one, nobody is asked to leave and nobody retires |
| `AdaptivePoolRuns.GrowthFollowsTable` | Csocket/epoll_反应堆/threadpool.c:256-284 | a cycle starts threads exactly when its first look found ten jobs queued and fewer live workers than the maximum: ten, or one per free entry |
| `AdaptivePoolRuns.WakeupsUseRequests` | Csocket/epoll_反应堆/threadpool.c:186-201 | until the next shrink decision every wakeup uses up one exit request, whether or not the worker retires |
| `AdaptivePoolRuns.StepAfterShutdown` | Csocket/epoll_反应堆/threadpool.c:139-209 | after shutdown a worker at its lock leaves, and a caller is turned away and wakes every sleeper |
| `AdaptivePoolRuns.NothingStartsAfterShutdown` | Csocket/epoll_反应堆/threadpool.c:139-209 | after shutdown nothing is accepted or started, so exactly what was queued is abandoned |
| `AdaptivePoolRuns.ManagerStops` | Csocket/epoll_反应堆/threadpool.c:250-303 | after shutdown the manager takes a bounded number of steps, at most the rest of its cycle |
| `AdaptivePoolStranding.StrandedForever` | Csocket/epoll_反应堆/threadpool.c:183-299 | once jobs are queued, nobody is awake and no wakeup is pending, the pool never starts another job by itself |
| `AdaptivePoolStranding.CannotGrowKeepsWakeups` | Csocket/epoll_反应堆/threadpool.c:183-299 | a pool that cannot grow keeps the full wakeup bound over every run: a sleeping worker leaves no more jobs queued than workers were woken |
| `AdaptivePoolStranding.UpThreadStarts` | Csocket/epoll_反应堆/threadpool.c:183-240 | in a pool that never grew, a thread that is up starts a queued job within three of its own steps |
| `AdaptivePoolStranding.CannotGrowNeverAbandons` | Csocket/epoll_反应堆/threadpool.c:183-299 | a pool with a minimum thread that cannot grow reaches no state in which a queued job is never started |
| `AdaptivePoolStranding.GrowingPoolStrands` | Csocket/epoll_反应堆/threadpool.c:186-299 | every pool that can grow and queue ten jobs has a run, without spurious wakeups, in which retirements consume the signals and queued jobs are abandoned |
| `AdaptivePoolStranding.StrandingCondition` | Csocket/epoll_反应堆/threadpool.c:58-303 | the exact condition on the three creation arguments under which some run abandons a queued job: no own step of the pool's threads ever starts it; the same with and without spurious wakeups |
| `Reactor.FreeSlot` | Csocket/epoll_反应堆/epoll_loop.c:112-114 | the first slot that is not registered, or the table's end |
| `ReactorProgram.EventLoop.constructor` | Csocket/epoll_反应堆/epoll_loop.c:200-209 | after set-up only the listening slot is registered |
| `ReactorProgram.EventLoop.EventSet` | Csocket/epoll_反应堆/epoll_loop.c:41-53 | the slot's fields are set, nothing else changes |
| `ReactorProgram.EventLoop.EventAdd` | Csocket/epoll_反应堆/epoll_loop.c:57-77 | status and interest set, with the kernel refusing a wrong add or modify |
| `ReactorProgram.EventLoop.EventDel` | Csocket/epoll_反应堆/epoll_loop.c:81-93 | a registered slot leaves the interest set |
| `ReactorProgram.EventLoop.RunAcceptConn` | Csocket/epoll_反应堆/epoll_loop.c:97-137 | `acceptconn` in place equals `OnAccept` |
| `ReactorProgram.EventLoop.RunRecvData` | Csocket/epoll_反应堆/epoll_loop.c:140-168 | `recvdata` in place equals `OnReadable` |
| `ReactorProgram.EventLoop.RunSendData` | Csocket/epoll_反应堆/epoll_loop.c:171-196 | `senddata` in place equals `OnWritable` |
| `ReactorProgram.EventLoop.SweepPass` | Csocket/epoll_反应堆/epoll_loop.c:245-258 | the timeout loop equals `Sweep` |
| `ReactorProgram.EventLoop.DispatchBatch` | Csocket/epoll_反应堆/epoll_loop.c:267-277 | the dispatch loop equals `Dispatch` |
| `ReactorProgram.EventLoop.RunPass` | Csocket/epoll_反应堆/epoll_loop.c:241-278 | one pass of the main loop equals `Pass` with 100 checks |
| `ReactorProgram.EventLoop.RunPasses` | Csocket/epoll_反应堆/epoll_loop.c:241-278 | the main loop equals `Run` and keeps all invariants of the program's own table |
| `ReactorProgram.Serve` | Csocket/epoll_反应堆/epoll_loop.c:224-278 | the whole program from set-up on: table and interest set agree, every connection is echoed in order, and is in one slot or was closed |
| `ReactorSafety.FdsDistinct` | Csocket/epoll_反应堆/epoll_loop.c:57-93 | registered descriptors are pairwise distinct |
| `ReactorSafety.RegisteredIffWatched` | Csocket/epoll_反应堆/epoll_loop.c:57-93 | a slot's status is set exactly when the interest set maps its descriptor to it |
| `ReactorSafety.AcceptKeepsInv` | Csocket/epoll_反应堆/epoll_loop.c:97-137 | accepting keeps the invariant and every registered slot |
| `ReactorSafety.ReadKeepsInv` | Csocket/epoll_反应堆/epoll_loop.c:140-168 | receiving keeps the invariant and every other registered slot |
| `ReactorSafety.WriteKeepsInv` | Csocket/epoll_反应堆/epoll_loop.c:171-196 | sending keeps the invariant and every other registered slot |
| `ReactorSafety.CallKeepsInv` | Csocket/epoll_反应堆/epoll_loop.c:97-196 | whatever callback a registered slot has, with any reply, the invariant survives |
| `ReactorSafety.DropKeepsLedger` | Csocket/epoll_反应堆/epoll_loop.c:160-192 | closing a slot's descriptor closes its connection and no other open one |
| `ReactorLoop.DispatchOneCalls` | Csocket/epoll_反应堆/epoll_loop.c:271-276 | an event fires at most one callback |
| `ReactorLoop.NoStaleDispatch` | Csocket/epoll_反应堆/epoll_loop.c:261-277 | at its turn every event of a batch finds its slot as it was at the wait, registered under the same descriptor |
| `ReactorLoop.EveryDispatchIsFresh` | Csocket/epoll_反应堆/epoll_loop.c:224-277 | the same at every event of every pass of every run of the program |
| `ReactorLoop.ActiveClientSurvives` | Csocket/epoll_反应堆/epoll_loop.c:50-53 | a client whose chunk was moved less than the timeout before a sweep keeps its slot, descriptor and connection |
| `ReactorLoop.SweepIsExact` | Csocket/epoll_反应堆/epoll_loop.c:240-258 | check k examines slot k mod 1024 and closes it exactly when idle for 60 seconds; the listening slot is never touched |
| `ReactorLoop.ElevenPassesCover` | Csocket/epoll_反应堆/epoll_loop.c:245-258 | any eleven consecutive passes examine every client slot once or twice |
| `ReactorLoop.IdleClientIsClosed` | Csocket/epoll_反应堆/epoll_loop.c:241-278 | the descriptor of a client idle for the timeout throughout eleven passes was closed, and no slot holds the client |
| `ReactorLoop.EveryRunIsSafe` | Csocket/epoll_反应堆/epoll_loop.c:224-278 | registration invariant, echo discipline and the fate of every connection after every run of the main loop |
| `ReactorLoop.EchoIsComplete` | Csocket/epoll_反应堆/epoll_loop.c:140-196 | when every send takes its whole chunk, a connection's output is its input minus at most one pending chunk |
| `ReactorService.EventIsServed` | Csocket/epoll_反应堆/epoll_loop.c:140-277 | a readable client's received chunk is appended to its input, a writable client's sent prefix to its output, a failed call closes it, and its slot is kept with the new time |
| `ReactorService.ListenerIsServed` | Csocket/epoll_反应堆/epoll_loop.c:97-137 | an accepted client is the next connection and gets the lowest free slot; nothing else brings a connection in |
| `ReactorService.NoEventNoChange` | Csocket/epoll_反应堆/epoll_loop.c:267-277 | a connection without an event in the batch, and its slot, are as before |
| `ReactorService.EveryEventIsServed` | Csocket/epoll_反应堆/epoll_loop.c:224-277 | the same for every event of every pass of every run of the program |
| `Framing.LengthRoundTrip` | Csocket/socketutil.c:384-385 | the network-order length decodes to itself |
| `Framing.BytesRoundTrip` | Csocket/socketutil.c:468-469 | every four bytes are the network form of their value |
| `Framing.NetworkOrder` | Csocket/socketutil.c:384 | the most significant byte comes first: numbers are ordered as their bytes are |
| `Framing.Readn` | Csocket/socketutil.c:25-47 | under every script: all that was asked for or all there is, or -1 on a failing call |
| `Framing.Writen` | Csocket/socketutil.c:56-78 | under every script: exactly the buffer is appended, or -1 with a prefix appended |
| `Framing.Send` | Csocket/socketutil.c:362-404 | one whole frame is appended, or an error that appends nothing or part of it |
| `Framing.Receive` | Csocket/socketutil.c:452-497 | the result is what `ReceiveOne` makes of the stream, whatever the script: a message, a close, a failed allocation, or a read past the buffer |
| `Framing.ReceiveStaysInside` | Csocket/socketutil.c:468-496 | a receive writes only inside its buffer exactly when fewer than four bytes arrive or the length field is not 2^32 - 1 |
| `Framing.LongestLengthOverruns` | Csocket/socketutil.c:468-496 | the header FF FF FF FF makes it write outside, whatever follows |
| `Framing.FrameStaysInside` | Csocket/socketutil.c:384-388 | no frame of a body up to 2^31 - 5 bytes does, whole or cut short |
| `Framing.ReceiveUntilStop` | Csocket/socketutil.c:452-497 | receiving until no message comes back equals `ReceiveAll` under every script, so a stream of frames cut anywhere yields its whole frames and then peer-closed |
| `Framing.Exchange` | Csocket/socketutil.c:663-781 | sending a list and receiving as many times returns the list and leaves nothing, for every script |
| `Framing.ReceiveFrame` | Csocket/socketutil.c:452-497 | a frame followed by anything yields its body and the rest |
| `Framing.MessageExactly` | Csocket/socketutil.c:452-497 | a receive delivers a message and a rest exactly when the stream is that message's frame followed by that rest |
| `Framing.ReceiveByLength` | Csocket/socketutil.c:452-497 | how a receive ends, by the unsigned length field and the bytes there are |
| `Framing.ReceiveCutFrame` | Csocket/socketutil.c:452-492 | a frame cut short yields peer-closed |
| `Framing.FramesRoundTrip` | Csocket/socketutil.c:362-497 | parsing a stream of frames gives the messages, in order, ending on a frame boundary |
| `Framing.FramesInjective` | Csocket/socketutil.c:384-388 | equal byte streams come from equal message lists |
| `Framing.WholeFramesIsExact` | Csocket/socketutil.c:452-492 | `WholeFrames` counts exactly the frames that fit |
| `Framing.TruncatedStream` | Csocket/socketutil.c:452-497 | every prefix of a stream of frames yields its whole frames and then peer-closed |
| `LineReader.Reader.MyRead` | Csocket/wrap.c:154-174 | the next byte, end of stream, or an error that loses nothing; cache and kernel stay the unread suffix |
| `LineReader.Reader.FillLine` | Csocket/wrap.c:181-192 | the loop stores stream bytes up to a newline, the limit, the end or an error |
| `LineReader.Reader.Readline` | Csocket/wrap.c:176-196 | the buffer holds the next line and a terminator, with the exact return value; a size of zero acts like one |
| `LineReader.NextLineStops` | Csocket/wrap.c:182-195 | the next line stops at the first newline, the limit or the end |
| `LineReader.NextLineIsUnique` | Csocket/wrap.c:182-195 | no other prefix of the stream does |
| `LineReader.LinesJoin` | Csocket/wrap.c:176-196 | the lines concatenate to the whole stream |
| `LineReader.ReadAllLines` | Csocket/wrap.c:154-196 | repeated calls return the unbuffered split for every chunking and every interruption |
| `SelectServer.Server.constructor` | Csocket/select_advance.c:39-46 | the empty table agrees with the descriptor set |
| `SelectServer.Server.AcceptClient` | Csocket/select_advance.c:63-80 | the first free slot, the set and both bounds are updated, or the table is full |
| `SelectServer.Server.ServeClients` | Csocket/select_advance.c:86-105 | the loop bounded by `maxi` with its early exit serves every ready client once, in slot order |
| `SelectServer.Server.RunRound` | Csocket/select_advance.c:48-106 | it gives up exactly when somebody connects while all 1024 slots are taken; otherwise slots, set and bounds follow the input, it equals the round without shortcuts, and the served clients are the ready set without the listening descriptor |
| `SelectServer.RoundFollowsInput` | Csocket/select_advance.c:53-105 | a new client sits in the lowest free slot, a client leaves slot and set exactly when it was ready and at its end, everything else stays |
| `SelectServer.EveryRunKeepsClient` | Csocket/select_advance.c:48-106 | over every run a client keeps its slot and stays watched until a round in which it is ready and at its end |
| `SelectServer.ReadyIsExact` | Csocket/select_advance.c:51-90 | the ready clients in the table are the ready descriptors, each once, so the count is theirs |
| `SelectServer.RoundKeepsAgreement` | Csocket/select_advance.c:48-106 | a round keeps table, set and bounds in agreement |
| `SelectServer.EveryRunAgrees` | Csocket/select_advance.c:39-106 | agreement after every run |
| `ConnPool.Init` | Csocket/poolsocket.c:102-144 | success exactly when every connect succeeds, and then all are idle in order; otherwise it stops at the first refusal and closes everything it opened |
| `ConnPool.CleanUpIsExact` | Csocket/poolsocket.c:118-131 | the clean-up closes nothing else exactly when no status cell that was never written holds a 1 |
| `ConnPool.Pool.GetConnet` | Csocket/poolsocket.c:174-223 | the top of the stack is lent, repaired first if marked bad; a failed repair leaves the cell empty and lends nothing |
| `ConnPool.Pool.PutConnet` | Csocket/poolsocket.c:308-357 | duplicates and overflow are rejected and change nothing, a good descriptor is pushed, a broken one closed and replaced or lost |
| `ConnPool.ReturnEffect` | Csocket/poolsocket.c:308-357 | for a descriptor a caller holds: good goes back whatever a connect would give, broken is closed and only what reconnecting yields goes in |
| `ConnPool.BorrowTakesLast` | Csocket/poolsocket.c:195-223 | a borrow lends the connection on top and changes nothing else |
| `ConnPool.LastInFirstOut` | Csocket/poolsocket.c:219-332 | a good connection that is put back is the next one lent |
| `ConnPool.BrokenIsNotLentAgain` | Csocket/poolsocket.c:174-357 | over every run a descriptor returned as broken is neither idle nor lent unless a later connect yields it |
| `ConnPool.StepConserves` | Csocket/poolsocket.c:174-357 | borrowing and returning keep idle descriptors distinct, disjoint from lent ones, and the sum constant |
| `ConnPool.RejectionsNeverFire` | Csocket/poolsocket.c:195-324 | callers that return what they hold are never rejected, and the repair inside get is never taken |
| `ConnPool.BorrowFailsOnlyWhenEmpty` | Csocket/poolsocket.c:174-183 | a borrow fails exactly when every connection is lent or lost |
| `ConnPool.EveryRunConserves` | Csocket/poolsocket.c:102-357 | over every run of a created pool: idle, lent and lost add up, and every connection ever opened is idle, lent or closed |

## Left out

- FixedPool.EveryRunIsSafe: the counters are unbounded, so it does not cover a program that pushes 2^31 times and overflows an int.
- Framing.Receive: what happens after a read past the buffer is not modelled; an allocation of zero bytes is taken to succeed.
- ConnPool.Pool.PutConnet: a negative descriptor is excluded, because the code then unlocks the mutex of a null handle.
- AdaptivePool.ThreadPool.constructor: a minimum above the maximum is excluded, because the code then writes past its thread table.
- LineReader.Reader.Readline: the buffer has room for at least the terminator, also when the size passed is zero.
- Pool teardown (`threadpool_destroy`, `threadpool_free`, `destroy_threadpool`, `sckCltPool_destroy`): shutdown is only the setting of the flag, and its broadcast is covered by spurious wakeups.
- Failing `malloc` (except for impossible sizes), `pthread_create` and `pthread_mutex_init`, null handles, and the terminated branches of the connection pool.
- Callbacks that themselves add jobs to the pool that runs them.
- Clients accepted while the reactor's table is full or when `fcntl` fails stay open and untracked: no claim is made about them beyond that they disturb nothing.
- The terminator that `recvdata` writes behind a received chunk, and everything that is only printed or logged.
- The select server's answer to a client (the bytes in upper case) and descriptors too large for an `fd_set`.
- The end of the reactor's main loop when `epoll_wait` fails.
- `Readn` and `Writen` of wrap.c, and one line reader shared by several descriptors.
- The timeout wrappers, connect, accept, bind and listen; poll.c, the edge-triggered, pipe and per-thread demo servers: they pass system calls' results through and keep no state of their own beyond a descriptor table.
- The copies of these programs elsewhere in the repository and the C++ socket classes, which repeat the same protocols.
