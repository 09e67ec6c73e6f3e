# Proofs about the AWP sharded worker pool

AWP is a C11 worker pool. Producers submit messages that are hashed to a worker, each worker
consumes its own bounded lock-free ring, a supervisor restarts exited workers and quarantines
stalled ones, and shutdown drains and joins everything within one time budget. This project
models the concurrent protocols of that pool as state machines and the sequential parts as
methods and a class, and proves properties of every run.

`dafny verify dfyconfig.toml` checks the whole project.

## What is modelled

| files | component | model |
|---|---|---|
| `Positions`, `PowerOfTwo` | src/internal.h | powers of two by bit smearing, mask indexing; numbers with bitwise operators defined on them |
| `Options`, `Ring`, `RingInit` | src/ring.c, the inlined producers of src/pool.c | the Vyukov ring in its four modes, push, try_push, claim/commit, pop, close, reopen, park and wake |
| `RingInvariant`, `RingSteps`, `RingFifo`, `RingWakeup`, `RingDrain`, `RingEarly` | | its invariant, refinement of a FIFO, no lost wakeup, multi-consumer drain and a run with an early -1 |
| `RingView`, `PoolView` | src/ring.c, src/pool.c | a ring as reserved, published and dequeued positions, with the moves allowed on it; the ring machine and the pool machine each make only these moves |
| `Pool`, `PoolEffects` | src/pool.c, src/worker.c, src/supervisor.c | lifecycle: worker threads, submitters, claimers, shutdown callers, the shutdown owner, the supervisor, destroy |
| `PoolJoins`, `PoolReturns`, `PoolAborts`, `PoolRings`, `PoolLogs`, `PoolFates`, `PoolRoutes`, `PoolConserve`, `PoolCounters`, `PoolDrain`, `PoolDestroy`, `PoolBudget`, `PoolDeadline`, `PoolResidual` | | its invariants, one concern each, and the theorems |
| `PoolReach`, `PoolDrainGap` | | concrete runs, and exactly which configurations drain |
| `FramePool`, `FramePoolSafety` | src/frame_pool.c | the tagged free list: acquire, release, initialisation |
| `JoinBox` | src/worker.c | the box shared by a bounded join and its helper thread |
| `Arena` | src/arena.c | the chunked bump allocator, as a class |
| `Shard` | src/shard.c | FNV-1a, the key encoding, routing |

Every state machine has the same form: a state with one program counter per thread, a relation
for what one thread may do in one step (one atomic load, store, compare-exchange or fetch-add),
and `Run(tr)`: any interleaving of such steps from an initial state, with any number of threads.
Theorems quantify over every run and every state of it. Fields named in the comments as history
record what happened; no step depends on them.

Assumptions:

- Interleavings are sequentially consistent.
- A weak compare-exchange may fail spuriously (section 7.17.7.4 of ISO/IEC 9899:2011); condition
  waits may wake spuriously; `pthread_create`, `pthread_join` and allocation may fail.
- Positions and the clock are naturals. The tag of the free list is taken modulo 2^32, and fewer
  than 2^32 exchanges succeed between one thread's load of the head and its exchange.
- A message is a token; a pop hands out what was published at its position. Its bytes are not
  followed past the release of the cell.
- In the pool machine a ring is a log of reserved positions, each published or not, with a dequeue
  position. `RingView` maps every step of the ring machine to a reservation, a publication, a
  dequeue of a published head or nothing, and `PoolView` does the same for the pool machine.
- An awp_submit goes to the worker that `Shard.ShardOf` gives for its feed, symbol and flag; a claim goes to
  the shard its caller names, which for awp_submit_keyed is the one selected by the hash. Each message
  carries its key or named shard as history.
- Consecutive loads of flags that only ever rise are one step (quarantined and destroy_started in
  a submit; lifecycle and supervisor_stop in life_is_running); the step is the first of the two
  loads. In the supervisor's stall test the queue depth is read and the idle time may come out
  either way, as may the caps on grace periods. Counting a processed message is one step with the
  end of its callback, and destroy called from a callback sets the flag and the counter in one
  step. `life_mu` and `life_cv` only carry wakeups and are not modelled.
- Callers keep the owner protocol of include/awp/awp.h:277-289: the owner's shutdown call has
  returned when destroy is called, no call starts afterwards, destroy is called once, and a claim
  is committed at most once. The other shutdown callers may still be in their wait, which destroy
  waits out. Calls already under way when destroy starts are allowed.

Where the code and its documents differ the code is followed: docs/DESIGN.md:96-101 lets
awp_submit take frames from the frame pool, the code uses the frame embedded in the ring slot.

## Transition relations

| relation | source |
|---|---|
| `Ring.AdmitStep`, `Ring.PutStep` | src/ring.c:155-256, src/ring.c:274-326, src/pool.c:283-357, src/pool.c:477-536 |
| `Ring.SeekStep`, `Ring.TakeStep` | src/ring.c:344-434 |
| `Ring.WakeStep`, `Ring.WaitStep` | src/ring.c:11-53, src/ring.c:139-153, src/ring.c:452-467 |
| `Pool.WorkerStep` | src/worker.c:9-74 |
| `Pool.SubDoes` | src/pool.c:283-357, src/pool.c:420-552 |
| `Pool.CallStep` | src/pool.c:91-106, src/pool.c:609-637 |
| `Pool.SubmitsDoes`, `Pool.SupJoinDoes` | src/pool.c:643-710 |
| `Pool.PollDoes`, `Pool.ExitedDoes` | src/worker.c:146-308 |
| `Pool.TeardownDoes`, `Pool.QuarantineDoes`, `Pool.StopDoes` | src/pool.c:712-763 |
| `Pool.ScanDoes`, `Pool.StallDoes` | src/supervisor.c:73-174 |
| `Pool.RejoinDoes`, `Pool.StartDoes` | src/supervisor.c:3-71, src/worker.c:76-100 |
| `Pool.DestroyDoes` | src/pool.c:765-838 |
| `FramePool.AcquireStep`, `FramePool.ReleaseStep` | src/frame_pool.c:83-171 |
| `JoinBox.HelperStep`, `JoinBox.WaiterStep` | src/worker.c:127-144, src/worker.c:188-207 |

## Model

| member | source | states |
|---|---|---|
| `RingSteps.NextKeeps` | src/ring.c:155-434 | every atomic step of every thread, in all four modes, with stale positions and failed exchanges, keeps the ring invariant: each cell's sequence number tells which position it stores and whether that is free, claimed by one owner, full or being taken |
| `RingSteps.RunInv` | src/ring.c:155-434 | the invariant holds in every state of every run |
| `RingFifo.StepRefines` | src/ring.c:155-434 | each concrete step is a step of a bounded FIFO: enqueue at the tail with room, fill of a reserved slot, dequeue of a filled head, or nothing |
| `RingFifo.RunRefinesFifo` | src/ring.c:155-256 | every run refines the FIFO from empty on, and never holds more than capacity entries |
| `RingFifo.RunGrows` | src/ring.c:344-434 | along a run history is only extended: positions, published values and deliveries never change once made |
| `RingFifo.ExactlyOnce` | src/ring.c:344-434 | every dequeued position was delivered with exactly the value enqueued there or is in the hands of exactly one thread; nothing beyond the dequeue position was handed out |
| `RingFifo.TicketsApart` | src/pool.c:283-357 | positions that are claimed and not yet published, tickets and threads inside a push or commit alike, never share a slot and have one owner each; while p is one of them dequeues stay at or below p, claims at or below p + capacity, and its cell says not filled |
| `RingWakeup.NoLostWakeup` | src/ring.c:20-53 | whoever is parked on a closed ring, or in wait_space with room, or in wait_data with data, is counted as a waiter and another thread has yet to broadcast; only for wait_data on an open ring may that wake be the commit of a claim still out |
| `RingWakeup.NextWake` | src/ring.c:20-53 | every step keeps the waiter count, the mutex owner and, for each thread inside a wait and by what it waits for, that it will look again or be woken |
| `RingDrain.DrainLeavesNothing` | src/ring.c:388-434 | if no push was under way at close and the latest pop of every consumer returned -1, every claimed position was dequeued and delivered with its value |
| `RingDrain.EarlyMinusOne` | src/ring.c:417-425 | in every run, a consumer that rechecks a sealed ring while messages remain gets -1 exactly if another consumer took its head and has released the cell, and then its own last dequeue is not the latest |
| `RingEarly.EarlyMinusOneHappens` | src/ring.c:388-434 | a run of two consumers in which one returns -1 from a sealed ring with a message left |
| `RingView.StepIsView` | src/ring.c:155-434 | each step of each thread reserves a free position, publishes a reserved one, dequeues a published head, or shows nothing |
| `RingView.RunIsView` | src/ring.c:155-434 | every run is such a sequence of moves, from the empty ring on |
| `RingView.MinusOne` | src/ring.c:408-425 | a pop looks again only after it saw the ring closed, and with its position still the head it returns -1 exactly if no published head is there |
| `RingInit.AllocCells` | src/ring.c:55-125 | refuses exactly the capacities below 1 and above 2^24; otherwise yields an initial ring with the least power of two that fits |
| `RingInit.CellByMask` | src/ring.c:90-90 | the cell the model uses for a position is the one `pos & mask` selects |
| `PowerOfTwo.RoundUpPow2` | src/internal.h:80-96 | the five smearing assignments compute RoundUp for every 32-bit input, the overflow test after them included |
| `PowerOfTwo.RoundUpLeast` | src/internal.h:80-96 | for v in [2, 2^24] the result is a power of two, not below v, at most 2^24, and no smaller power of two is at least v |
| `PowerOfTwo.SmearDoubles` | src/internal.h:87-91 | one `v \|= v >> span` doubles the distance over which every bit is smeared downwards |
| `PowerOfTwo.MaskIsMod` | src/ring.c:90-90 | `pos & (2^k - 1)` equals `pos mod 2^k` |
| `PowerOfTwo.MaskApart` | src/ring.c:90-90 | any capacity-many consecutive positions select distinct cells |
| `PoolJoins.NextJoins` | src/pool.c:671-733 | every step of every thread keeps worker states, join flags and threads consistent, and the owner touches workers only with the supervisor out |
| `PoolJoins.RunJoins` | src/worker.c:236-308 | the same in every reachable state, over restarts, stalls, quarantine and bounded joins |
| `PoolJoins.OneConsumer` | src/supervisor.c:42-60 | a thread is created only where no thread exists, and during the residual drain of a ring its worker's thread has finished and the supervisor is gone |
| `PoolReturns.LifeForward` | src/pool.c:624-753 | the lifecycle never moves backwards, and the flag recorded when STOPPED was published never changes |
| `PoolReturns.OneOwner` | src/pool.c:634-637 | in a whole run exactly one call can win the shutdown |
| `PoolReturns.ShutdownAnswers` | src/pool.c:624-763 | every answer is given after STOPPED; 0 means every worker and any supervisor is joined; a pool quarantined when STOPPED was published makes every answer positive |
| `PoolReturns.NextRet` | src/pool.c:747-762 | every step keeps given answers true and, unless quarantined, keeps every worker the owner has finished with joined |
| `PoolReturns.CleanStop` | src/pool.c:747-753 | in every run a stopped pool that is not quarantined has all threads joined |
| `PoolAborts.AbortsReported` | src/pool.c:754-762 | every answer of every shutdown call is at least the number of aborts counted before STOPPED |
| `PoolAborts.LateIsReported` | src/pool.c:719-723 | once the owner is about to count an abort for a worker, which it is after a join past the grace period, a failed join or a quarantine, every answer is positive |
| `PoolDeadline.DeadlineMissed` | src/worker.c:250-308 | a worker thread that has not finished when the shutdown's deadline has passed is never recorded as joined, and every answer of every shutdown call is positive |
| `PoolRings.StoppedClosed` | src/pool.c:712-753 | once STOPPED every ring is closed, except one between its reopen and the check after it |
| `PoolRings.OpenRingCloses` | src/supervisor.c:14-25 | with the pool stopped and a ring open, the supervisor's only steps are the failed check and the close, and one of them is possible |
| `PoolRings.WindsDown` | src/supervisor.c:42-57 | over any run from a state in which the lifecycle has left RUNNING, the supervisor makes no more steps than a bound read off its program counter, at most 29, and at most one ring is opened again |
| `PoolRings.NextRings` | src/supervisor.c:42-57 | every step keeps each ring that shutdown has closed closed or in the hands of the reopening supervisor |
| `PoolLogs.SubCounts` | src/pool.c:461-550 | active_submits is raised and lowered exactly on entry to and exit from the counted region, api_refs on entry to and exit from the call |
| `PoolLogs.NextLogs` | src/pool.c:461-550 | every step keeps both counters equal to the number of calls inside, each reserved position owned by one call, no call at two positions, and one submitter's messages in call order |
| `PoolLogs.RunLogs` | src/pool.c:283-357 | the same in every reachable state, claims included |
| `PoolFates.HistoryShape` | src/worker.c:24-72 | each ring's dequeue history is published messages only: processed ones, then at most the last in hand, abandoned ones only as a suffix |
| `PoolRoutes.NextRoutes` | src/pool.c:470-475 | every step keeps each call at the worker its key is routed to and each message in that worker's ring |
| `PoolRoutes.OneRing` | src/pool.c:470-475 | in every run messages with the same key, or claimed for the same shard, stand in one ring, the one they are routed to |
| `PoolRoutes.ProcessedInCallOrder` | src/pool.c:470-475 | one submitter's messages with one key, and more generally to one worker, are processed in call order across restarts: when the later one has been processed the earlier one stands before it and has been processed too |
| `PoolFates.NextFates` | src/worker.c:24-72 | every step keeps the history shape, and messages are abandoned only after the supervisor is gone |
| `PoolView.NextMoves` | src/pool.c:461-550 | every step of the pool, whoever makes it, reserves, publishes or dequeues a published head in a ring, or leaves it alone |
| `PoolView.RunMoves` | src/worker.c:24-72 | in every run each worker's ring starts empty and makes only the moves that the ring machine refines to |
| `PoolConserve.Conservation` | src/worker.c:64-64 | the reserved positions of a ring are those queued, those counted in `processed`, those abandoned and the one in hand, and the counter `abandoned` is the number of abandoned messages of all rings |
| `PoolCounters.SubmittedCounts` | src/pool.c:548-548 | in every run `submitted` plus the producers about to count is the number of published positions of all rings |
| `PoolCounters.SubmittedIsProcessed` | src/pool.c:562-562 | without claims and restarting supervisor, after a shutdown returned 0 `submitted` is the sum of the workers' `processed` |
| `PoolDrain.AcceptedIsProcessed` | src/pool.c:634-733 | without claims and restarting supervisor, after a shutdown returned 0 every accepted submit has one position, processed, and nothing was abandoned |
| `PoolDrain.NoLateSubmit` | src/pool.c:649-668 | without claims, restarts or not: once shutdown read active_submits as zero, no submit reserves or publishes a position in any continuation |
| `PoolDrain.NextDrain` | src/worker.c:24-72 | every step keeps: without claims no submitter can still publish once shutdown has seen none counted; without restarting supervisor as well, no worker ends before that, and it ends with an empty ring |
| `PoolDrainGap.ClaimEscapes` | src/pool.c:292-317 | in every configuration with claims there is a run in which shutdown returns 0 and an accepted message is never processed: the claim won its position before it was counted |
| `PoolDrainGap.RestartAbandons` | src/pool.c:724-731 | in every configuration with a restarting supervisor there is a run in which shutdown returns 0 and abandons an accepted message: the worker ended on a stall's stop request before the submit |
| `PoolDrainGap.DrainsIff` | src/pool.c:634-733 | for every configuration: all runs that return 0 have processed what was accepted if and only if it has neither claims nor a supervisor that restarts |
| `PoolDestroy.ReclaimIsSafe` | src/pool.c:765-838 | whenever destroy frees, the pool is stopped, no worker or supervisor thread exists, no call is counted, no claim is unpublished, and no shutdown call is under way or counted as waiting |
| `PoolDestroy.WaitersCounted` | src/pool.c:91-106 | in every run shutdown_waiters is the number of shutdown calls inside their counted wait |
| `PoolDestroy.NothingAfterFree` | src/pool.c:826-838 | after the free no thread of the pool can take a step |
| `PoolDestroy.NextDestroy` | src/pool.c:784-815 | every step keeps what destroy's checks have established |
| `PoolBudget.SleepsBounded` | src/pool.c:643-733 | all polling loops of a shutdown together sleep at most ceil(budget / nap) times, whatever the number of workers |
| `PoolBudget.CeilDiv` | src/pool.c:643-647 | that bound is the least number of naps covering the budget |
| `PoolResidual.DrainBounded` | src/pool.c:724-731 | without claims, restarts or not: while the owner drains a ring its log does not change, at most as many messages are popped as were queued, the owner makes at most two steps for each and one more, and it always has a step |
| `PoolResidual.DrainsClosed` | src/pool.c:712-731 | in every run, claims and restarts included, the ring that the owner drains is closed and the supervisor that could reopen it is out |
| `PoolResidual.DrainNeverParks` | src/pool.c:724-731 | so the owner has a step in every state of the drain: its pop never parks |
| `FramePool.UnpackPack` | src/frame_pool.c:6-15 | unpacking a packed head gives back index and tag |
| `FramePool.PackUnpack` | src/frame_pool.c:6-15 | packing an unpacked head gives back the word |
| `FramePool.InitLinks` | src/frame_pool.c:17-34 | refuses size 0; otherwise the links lead from 0 through every frame in order to EMPTY |
| `FramePoolSafety.NextInv` | src/frame_pool.c:83-171 | every step of every thread keeps the free-list invariant |
| `FramePoolSafety.FreeListSound` | src/frame_pool.c:83-171 | the links from the head are acyclic, end in EMPTY and visit exactly the frames nobody holds; every other frame is held by one thread |
| `FramePoolSafety.GuardNeverFires` | src/frame_pool.c:149-153 | the double-release check never stops a thread releasing a frame it holds |
| `FramePoolSafety.RefinesStack` | src/frame_pool.c:118-126 | every step is a stack step; a winning acquire takes the top through the link that is current at that moment |
| `FramePoolSafety.PopIsCurrent` | src/frame_pool.c:118-126 | a winning acquire saw no change since it loaded the head |
| `FramePoolSafety.PushIsCurrent` | src/frame_pool.c:147-158 | a winning release links its frame in front of the current head, and the frame was not on the list |
| `JoinBox.FreedOnce` | src/worker.c:127-207 | the box is freed at most once, exactly once when both sides have ended, and a call that did not time out answers with the helper's join result, with 0 only if the thread has ended |
| `JoinBox.NoUseAfterFree` | src/worker.c:127-207 | after the free neither side has a step left |
| `JoinBox.NeverStuck` | src/worker.c:127-207 | waiter or helper can move if and only if not both have ended and not: the waiter has timed out while the helper's pthread_join waits for a thread still running |
| `Arena.AlignUpLeast` | src/arena.c:67-67 | for alignments that are powers of two up to 64 the masked address is the least multiple not below the cursor |
| `Arena.NewCapFits` | src/arena.c:25-30 | for sizes up to 2^24 a dedicated chunk has at least the asked capacity |
| `Arena.CutBlock` | src/arena.c:84-86 | cutting the next block keeps all blocks apart and inside their chunks, adds exactly its bytes to the total, and stays in allocated memory |
| `Arena.Arena.Alloc` | src/arena.c:48-87 | a non-null block is aligned, of the asked size, inside its chunk's memory and apart from all blocks since the last reset; a null result changes no block and has one of three causes |
| `Arena.Arena.NewChunk` | src/arena.c:25-46 | one more chunk of the rounded capacity, nothing else changed |
| `Arena.Arena.Reset` | src/arena.c:98-108 | every chunk kept and empty, total zero, no block left |
| `Arena.Arena.constructor` | src/arena.c:14-23 | an empty arena with the 2 MB default |
| `Shard.HashKey` | src/shard.c:4-27 | the two loops compute FNV-1a of feed, 0x1F, symbol, null pointers as empty strings |
| `Shard.MixBijective` | src/shard.c:16-19 | one step is a bijection of the 64-bit states, with an explicit inverse |
| `Shard.OneByteApart` | src/shard.c:4-27 | encodings that differ in exactly one byte never have the same hash |
| `Shard.EncodedAloneIff` | src/shard.c:16-25 | a key shares its encoding with no other key if and only if neither part contains 0x1F |
| `Shard.FeedIsBroadcast` | src/shard.c:29-40 | true exactly for a non-null feed among the configured ones |
| `Shard.ComputeShard` | src/shard.c:42-67 | computes `ShardOf`: every key goes to an existing worker; with broadcast workers, exactly broadcast traffic goes to them |

## Left out

- C11 weak-memory behaviour and cache alignment: the machines are sequentially consistent.
- Frame bytes after the consumer has released the cell, which a producer one lap later may overwrite; and what user callbacks do beyond returning, never returning, or calling destroy.
- The awp_submit_keyed retry loop: it retries on every code but 0 and -1, so its termination is not claimed; its successful path is claim and commit.
- Parking on an empty frame pool: an acquire that finds the list empty retries; the wakeup of its waiters is not modelled.
- awp_arena_calloc, sizes above 2^24, alignments that are not powers of two up to 64, address overflow, wrap of positions at 2^64.
- Create rollback, copying of broadcast feeds, the metrics other than submitted, processed and abandoned, high-water marks, awp_runtime_enabled and length checks of inputs: branch by branch or easy.
- Liveness: that a parked thread is eventually scheduled, or that a worker's callback returns.
- PoolDrain.AcceptedIsProcessed: for pools without claims and without a restarting supervisor; PoolDrainGap.DrainsIff shows that for all others it is false.
- RingDrain.DrainLeavesNothing: needs all pushes finished before close, as the source promises no more.
- Arena.Arena.Alloc: addresses come from parameters that stand for the system allocator, whose blocks are assumed disjoint.
