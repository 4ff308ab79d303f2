# A verified model of a cancel-safe io_uring read driver

The driver reads files through io_uring on behalf of futures that may be dropped
at any time. Each shard is a thread with a ring, a table of pending reads, a
backlog and a channel; count and byte semaphores bound what is in flight. This
project models the shard, the reads it performs, admission, the shared byte pool,
the wakeup protocol and the ordered prefetch consumer built on top, and proves
what their documentation promises for every run, every kernel and every caller.

## How it is laid out

* `Base`, `Geometry`, `LogicalRead`, `Delivery`: arithmetic, O_DIRECT geometry and
  one logical read against a one-line `pread`.
* `ShardMachine`: one shard as a transition system. The kernel is an adversary: it
  accepts any prefix of the submission queue, answers in any order or never, and
  may scribble over the window of any operation it holds. Memory and descriptors
  are modelled far enough that a use after free is a state that could be reached.
* `ShardInvariant`, `Tokens`, `CallerSteps`, `IntakeSteps`, `CancelSteps`,
  `KernelSteps`, `ReapSteps`: the inductive invariant, one event at a time.
* `ShardTheorems`, `CancelTheorems`, `DrainTheorems`, `SubmitPolicy`: what follows
  for every reachable state.
* `ThreadEffects`, `Outcomes`, `ErrorCauses`, `Counters`: what each step of the thread
  does, field by field, and from that why every read of a run ended as it did and
  whom the counters count.
* `Frames`: what each kind of step leaves alone.
* `ThreadTrace`, `DriverThread`: which events each part of a turn adds, given what
  the outside decides, and the thread with its own variables and loops, proved to
  do exactly that.
* `TurnBounds`, `LoopRuns`, `StaleCancels`, `CompletionBounds`, `DrainLoop`: the budget of
  a turn, runs of that loop, what they can pile up, and how a drain ends.
* `Semaphores`, `Permits`, `Admission`, `AdmissionSteps`, `AdmissionHandles`,
  `AdmissionTheorems`, `AdmissionCalls`, `AdmissionClosing`, `Selection`, `Pool`,
  `TerminalClose`: permits, whole drivers and pools of them, what their calls come to,
  and closing them.
* `Wakeup`: producers and drivers around the eventfd.
* `OrderedPrefetch`, `OrderedReader`: the prefetch consumer, described and in place.

Many lemmas begin by hiding the definitions they do not need; that keeps each
proof small.

## Assumptions

* A positioned read returns at most what was asked, copies the file's bytes at its
  offset when positive, and returns zero only at the end of the file or for an empty
  request (the `read` page of POSIX.1-2017, System Interfaces). Files do not change.
* A handle that waits holds its file and its end of the channel, so neither goes
  while it waits; every submission takes the next id, and one that would reach the
  cancel bit is refused (src/driver.rs:1497-1498).
* The fair semaphores assign released permits to the head of their queue first, as
  src/admission_tests.rs:126-144 pins down, and a closed semaphore fails every poll.
* Deadlines are a choice that may go either way while draining.

## Where code and documentation differ

src/driver.rs:764, 2358 and 2652 say that deduplicated cancels keep completions
within `2 * entries`. A cancel can outlive its read: the read finishes and returns
its permit while the cancel is still queued or in the kernel. With a kernel that
takes its time over cancels, the loop of a ring of n slots, within n permits and
with k reads cancelled on drop, can have `2 * n + k` completions ready together
(`StaleCancels.CompletionsReach`), and never more
(`CompletionBounds.CompletionsBounded`); so the documented limit holds of the loop
if and only if nothing is cancelled on drop (`CompletionBounds.DocumentedBoundHoldsIff`).
Live reads and cancels of reads still pending stay within `2 * entries` either way
(`AdmissionTheorems.CountPermitsConserved`), and no completion is lost, since the
ring is required to buffer an overflow.

A close of byte admission takes the registered count semaphores out of the registry
before it closes them (src/driver.rs:697-708). A second one finds none, closes the
bytes and returns, so a thread can return while count semaphores of other shards are
still open (`TerminalClose.SecondCloseReturnsFirst`,
`AdmissionClosing.ThreadReturnsBeforeFirstCloser`). Its own is closed, and
`request_shutdown`, which closes each count semaphore again itself, does return with
all of them closed (`TerminalClose.ShutdownReturnsClosed`).

## Model

| member | source | states |
|---|---|---|
| `Geometry.MaskIsFloor` | src/driver.rs:87-88 | For every value and every power-of-two block below the word range, masking with the complement of `align - 1` (defined bit by bit) is rounding down to a multiple of the block. |
| `Geometry.KernelOffsetIsFloor` | src/driver.rs:87-88 | The 64-bit mask of the source computes `offset - offset % align` for every offset and every accepted alignment. |
| `Geometry.GeometryIsLeastSuperset` | src/driver.rs:76-92 | Whenever a geometry is returned, it is block-aligned, covers the requested range, and no block-aligned range that covers it is smaller; alignment 1 passes the request through. |
| `Geometry.GeometryRefusesExactlyBadAlign` | src/driver.rs:76-92 | For an accepted length the geometry is refused if and only if the alignment is zero, not a power of two or above the read cap. |
| `Geometry.ValidateIsExact` | src/driver.rs:1509-1632 | For every offset, length, alignment and limit: which requests are accepted and which of the five refusals the others get, each if and only if, with the aligned range given as the least block-aligned cover of the request; the charge of an accepted one is that cover and one block less a byte. |
| `Geometry.AcceptedArithmetic` | src/driver.rs:1617-1632 | What later stages rely on: every accepted request, stream or positioned, ends within `i64::MAX`, its charge and its request length fit 32 bits, and the charge is the allocation made at intake. |
| `Geometry.PadAligns` | src/driver.rs:2462-2470 | The padding brings any base address to a block boundary, for every block size. |
| `LogicalRead.ConfirmedGrows` | src/driver.rs:2183-2188 | A positive completion extends the prefix of the region that holds the file's own bytes. |
| `LogicalRead.DeliveredIsFile` | src/driver.rs:2138-2154 | Delivery of a confirmed prefix that covers the range or reaches the end of the file equals the one-line `pread` specification. |
| `LogicalRead.ReapIsExact` | src/driver.rs:2167-2208 | For every legal completion of a positioned read (error, zero, short, full, direct tail with or without metadata), the step either keeps the confirmed prefix at a block boundary and asks for the rest, or finishes, and a success is exactly what `pread` owes the caller. |
| `LogicalRead.ReapDecides` | src/driver.rs:2167-2208 | For every entry and every result: the read goes on if and only if it is not stopped and either made progress short of its range up to a block boundary or was interrupted with room and retries left; the new entry is given; and when it ends the outcome is the one the result explains, bytes and errno included. |
| `LogicalRead.OutcomesAreExact` | src/driver.rs:2167-2208 | Success, each of the two direct-tail errors and each errno, if and only if its condition on entry and result holds; ECANCELED is made up only for a stopped read. |
| `LogicalRead.ExplainedOnce` | src/driver.rs:2167-2208 | No result explains two outcomes. |
| `LogicalRead.NoContinuation` | src/driver.rs:2168-2199 | A cancelled, draining or stream read never asks for another request. |
| `LogicalRead.OpennessOnlyHidesBytes` | src/driver.rs:2138-2143 | A closed receiver changes the bytes handed out only: same entry, same kind of step, the same error, and an empty success for a success. |
| `LogicalRead.ResubmitSpends` | src/driver.rs:2167-2208 | Every continuation strictly spends a potential of 17 per remaining block, less the retries used since the last progress, and leaves at least one. |
| `Delivery.DeliverInPlace` | src/driver.rs:2138-2154 | The in-place shift and truncation of the buffer yield exactly the slice that `Deliver` names, for overlapping ranges too, and leave a closed receiver's buffer alone. |
| `ShardTheorems.NextKeepsInv` | src/driver.rs:2336-2717 | Every event of callers, thread and kernel keeps the whole shard invariant. |
| `ShardTheorems.KernelOwnership` | src/driver.rs:2549-2631 | In every reachable state no kernel access has ever touched a freed buffer or closed descriptor; each pending read has exactly one read request among backlog, submission queue, kernel and completion queue; that request's window lies in the entry's own buffer past the confirmed bytes and its descriptor still names the accepted file; a clean exit leaves no request and no buffer. |
| `ShardTheorems.DirectRequestsAligned` | src/driver.rs:867-888 | Every queued request, first or resubmitted, is block-aligned in offset, address and length, ends within `i64::MAX` and fits the read cap. |
| `ShardTheorems.ObservedReadsAreExact` | src/driver.rs:2121-2208 | Over every interleaving of kernel writes, short reads, retries, cancels and shutdown, a success seen by an open receiver is exactly the range of the file the request named. |
| `ShardTheorems.SendersResolveOnce` | src/driver.rs:2665-2709 | Each accepted read's sender is used at most once; while the thread lives it is unused exactly for queued and pending reads; once the thread has left, drained or leaking, it has been used exactly once. |
| `Outcomes.ResultsHaveCauses` | src/driver.rs:2121-2208 | Over every run, every use of a sender, with its outcome, its bytes and whether it was observed, is what some event of the run had to lead to in the state it met: a completion that explains it, a refusal at intake, or an exit. |
| `ErrorCauses.EveryOutcomeIsJustified` | src/driver.rs:2167-2208 | Over every run, an errno is the answer the kernel gave to that very read, or ECANCELED for a read a caller cancelled or whose shard was told to drain; a success follows an answer that is no error; each of the driver's own errors follows the event it names. |
| `ErrorCauses.UntroubledReadsSucceed` | src/driver.rs:2164-2208 | A buffered read that nobody asked to stop, that the kernel never failed and whose buffer was not refused succeeds whenever it ends, and an open receiver sees its range of its file. |
| `ShardTheorems.CancelsComeLast` | src/driver.rs:2214-2232 | At most one cancel is made per id, no request for the id follows it in the order the kernel takes requests, marked ids are pending, and a mark implies a cancel request or shutdown. |
| `ShardTheorems.Conservation` | src/driver.rs:2501-2502 | submitted = delivered + orphaned + in flight, and in flight is the size of the pending table, in every state, the leaked ones included. |
| `Counters.CountersAreExact` | src/driver.rs:2613-2619 | In every reachable state `delivered` counts the completed reads whose result was observed, `orphans` those whose was not, and with the pending ones these are all that were submitted. |
| `Counters.CancelCountersAreExact` | src/driver.rs:2557-2570 | Over every run, each of the three counters of cancels is the number of answers of its kind that were consumed. |
| `ShardTheorems.BoundedRequests` | src/driver.rs:2167-2208 | One logical read costs at most 17 read requests per block of its region (17 when it has none), a stream read one. |
| `CancelTheorems.OneCancelInFlight` | src/driver.rs:2214-2218 | A pending read has exactly one read request and at most one cancel on its way, and that only when the table says so. |
| `StaleCancels.CompletionsReach` | src/driver.rs:2356-2361 | The documented bound of two completions per permit is false as stated: for every n permits and k reads cancelled on drop there are choices of callers and kernel under which turns of the loop, on a ring of n slots and within the permits, end with 2n + k completions ready at once. |
| `CompletionBounds.CompletionsBounded` | src/driver.rs:2647-2652 | Over every run of the shard machine within n permits, in any order of events, requests and completions of reads and cancels together never exceed 2n plus the reads cancelled on drop, stale cancels included. |
| `CompletionBounds.BoundIsExact` | src/driver.rs:2356-2361 | For the loop with n slots, n permits and up to k drop-cancels, a limit holds whatever callers and kernel do if and only if it is at least 2n + k. |
| `CompletionBounds.DocumentedBoundHoldsIff` | src/driver.rs:2647-2652 | The documented limit of 2n holds of every run of the loop if and only if nothing is cancelled on drop. |
| `CompletionBounds.NextIsFrugal` | src/driver.rs:2509-2521 | Every step keeps the rule that cancels are made for drop-cancel messages, one each, and by a single sweep, one per read pending at that moment. |
| `DrainTheorems.DrainCountsDown` | src/driver.rs:2430-2436 | While shutting down, whatever happens, no entry and no read request is added, and the table shrinks by exactly the read completions consumed. |
| `DrainTheorems.DrainedAfterAllCompletions` | src/driver.rs:2665-2671 | After as many read completions as there were entries, and with the backlog flushed, the clean exit is taken. |
| `DrainTheorems.DrainCanFinish` | src/driver.rs:2665-2671 | From every draining state of a ring with at least one slot, some order of events, those of callers not among them, brings the shard to its clean exit; what the loop itself does is `DrainLoop.DrainLoopEnds`. |
| `DrainLoop.TurnLowers` | src/driver.rs:2381-2716 | Draining, with quiet callers, a kernel that has taken and answered everything by the end of the first submission and no deadline, every turn of the loop does at least one piece of the work left (messages, cancels a sweep may make, and each request's way through the rings) or leaves cleanly. |
| `DrainLoop.DrainLoopEnds` | src/driver.rs:2665-2671 | Every run of such turns from a draining state has at most one turn more than there are pieces of work left, and it ends by the clean exit and no other. |
| `DrainLoop.KernelCanAnswer` | src/driver.rs:2256-2274 | From every state the kernel has moves that take every queued request and answer every operation, so what the drain asks of it can be met at each submission. |
| `DriverThread.Thread.FlushBacklog` | src/driver.rs:2222-2232 | Moves requests from the front of the backlog to the end of the submission queue, none lost or reordered, until the backlog is empty or the queue full; as flush events, exactly as many as fit. |
| `DriverThread.Thread.PushCancel` | src/driver.rs:2214-2218 | Queues a cancel unless the id is marked. |
| `DriverThread.Thread.HandleSubmitResult` | src/driver.rs:2280-2318 | For every result, by its errno, the new state is the submission event of the shard with that result and some order of the table, sweep included. |
| `DriverThread.Thread.SubmitRing` | src/driver.rs:2256-2274 | Flushes all that fits; enters the ring if and only if requests are queued or the kernel has work of its own; then handles the result of that call; reports exactly what the kernel took. |
| `DriverThread.Thread.IntakeRead` | src/driver.rs:2418-2508 | Takes one read into a block not in use: refused while draining or exactly when the buffer does not align, else entered with a fresh entry, a zeroed buffer and one request; costs its charge unless it was refused outright. |
| `ThreadEffects.IntakeReadIs` | src/driver.rs:2418-2508 | Field by field: ShuttingDown if and only if draining, CannotAlign if and only if not draining and not aligned, otherwise an entry with nothing read over the least cover of the request, a zeroed buffer of its charge, and one request for the whole region at the end of the backlog. |
| `DriverThread.Thread.IntakeCancel` | src/driver.rs:2509-2514 | Marks the read if it is pending and makes one cancel request unless there was one; otherwise only takes the message. |
| `ThreadEffects.IntakeCancelIs` | src/driver.rs:2509-2514 | The same of the cancel event of the shard, field by field. |
| `DriverThread.Thread.IntakeShutdown` | src/driver.rs:2515-2521 | Starts the drain; every pending read is marked, and each that was not marked gets exactly one cancel request, in some order of the table. |
| `ThreadEffects.IntakeShutdownIs` | src/driver.rs:2515-2521 | The same of the shutdown event: the multiset of requests it makes is given exactly. |
| `DriverThread.Thread.Intake` | src/driver.rs:2405-2534 | Rounds of one message each, every one begun with message and allocation budget left and taking the head of the queue as the outside decided, until the budget is spent or the channel is found empty. |
| `DriverThread.Thread.FinishRead` | src/driver.rs:2601-2628 | Removes entry, buffer and mark, uses the sender and counts the result, all at the final completion. |
| `DriverThread.Thread.ReapOne` | src/driver.rs:2549-2631 | Consumes one completion; that of a read leads where its result says, with the receiver closing and the metadata failing as the outside decided. |
| `ThreadEffects.ReapReadIs` | src/driver.rs:2593-2630 | Field by field: either the read goes on with one request for all that is left of its region, exactly when it must, or entry, buffer and mark go, the sender is used once with the outcome the result explains, and it is counted by whether the receiver was there. |
| `DriverThread.Thread.ReapAll` | src/driver.rs:2549-2631 | Rounds of one completion each until the budget is spent or the completion queue is found empty. |
| `DriverThread.Thread.FailStranded` | src/driver.rs:2689-2693 | Uses the sender of every pending read exactly once and leaves every buffer where it is. |
| `DriverThread.Thread.ExitCheck` | src/driver.rs:2665-2709 | Leaves cleanly if and only if draining with nothing pending and nothing queued, leaks if and only if the deadline has passed otherwise, and else changes nothing. |
| `DriverThread.Thread.Turn` | src/driver.rs:2381-2716 | One turn is intake, submission, reap, submission, exit check, each exactly as the outside's choices have it, in states the log names; it keeps the invariant, exits when drained, and says whether to block as the budget does. |
| `DriverThread.Thread.Drive` | src/driver.rs:2336-2717 | From the initial state, with callers and kernel moving between its steps, the loop is a sequence of such turns, only reaches reachable states of the shard and ends only by an exit. |
| `ThreadTrace.OutsideLeavesDriver` | src/driver.rs:2343-2361 | Nothing callers or the kernel do changes the thread's own variables or fills its submission queue. |
| `ThreadTrace.ReceiveTakesHead` | src/driver.rs:2405-2416 | Whatever the message, the event that takes it removes it from the queue. |
| `ThreadTrace.RoundsCount` | src/driver.rs:244-251 | The rounds of a stage are exactly what its budget counts, and never more than it allows. |
| `ThreadTrace.BlocksOnlyWhenEmpty` | src/driver.rs:2710-2716 | After a turn that blocks, the channel was empty at the end of intake with a disconnect noticed, the completion queue was empty at the end of the reap, and none is ready at the end. |
| `TurnBounds.BlocksExactly` | src/driver.rs:253-258 | The thread sleeps after a turn if and only if the turn had room for a message, an allocation and a completion, none is ready, and nothing is queued or the kernel took nothing in that turn. |
| `TurnBounds.IntakeAllocates` | src/driver.rs:2405-2461 | The buffers allocated grow in intake by no more than the budget counts, by exactly that if every buffer aligned, and the limit is overshot by one read at most. |
| `SubmitPolicy.CounterIsTrailingRun` | src/driver.rs:2289-2303 | The counter is the length of the run of hard failures the trace of results ends in. |
| `SubmitPolicy.ShutdownFiresExactly` | src/driver.rs:2280-2318 | For every trace of results, shutdown fires if and only if some 128 consecutive results were neither successes nor EBUSY nor EINTR; the sweep is made at most once and every hard failure is counted. |
| `SubmitPolicy.ShardFollowsPolicy` | src/driver.rs:2256-2318 | The shard's step follows that policy, marks every pending read when it fires, and touches no entry and no buffer. |
| `SubmitPolicy.RunFollowsPolicy` | src/driver.rs:2256-2318 | In every run of a shard, whoever else shuts it down, the counters follow the results handled, and once 128 in a row were hard the shard is shutting down. |
| `Wakeup.NoLostWakeup` | src/driver.rs:2381-2416 | For every interleaving of sends, signals, drains and bounded intakes by any number of producers and shards, batches that unwind included: a driver that blocks with a message queued has a readable eventfd or a producer that still owes it the signal. |
| `Wakeup.DebtIsPaid` | src/driver.rs:1440-1462 | A producer that owes a signal pays it by its own next steps, whether it finishes its batch or unwinds. |
| `Wakeup.SendArrives` | src/driver.rs:1440-1462 | A batch with room sends: the message is last in its shard's queue and its signal is owed. |
| `Wakeup.HeadIsTaken` | src/driver.rs:2405-2416 | Wherever in its turn a driver is, its own next steps take the message at the head of its queue. |
| `Wakeup.NextKeepsInv` | src/driver.rs:1046-1071 | Every step of producers and drivers keeps the wakeup invariant. |
| `TerminalClose.CloseIsInescapable` | src/driver.rs:680-718 | Once a close has begun and every started register, close and shutdown call has returned, every semaphore ever registered and the byte semaphore are closed. |
| `TerminalClose.SecondCloseReturnsFirst` | src/driver.rs:697-708 | A run in which a close that came second has returned while a registered count semaphore is still open. |
| `TerminalClose.ShutdownReturnsClosed` | src/driver.rs:1826-1843 | Each shutdown request that has returned, with or without a byte budget, leaves every semaphore it was made for closed, and the byte semaphore and the registry too, even while racing another caller's half-done close. |
| `Semaphores.TryAcquire` | src/driver.rs:625-627 | An attempt succeeds if and only if the semaphore is open and has that many free permits, and is answered closed if and only if it is. |
| `Semaphores.ReleaseConserves` | src/driver.rs:625-655 | Releasing permits to a fair queue with partial assignment to its head creates and loses none, and leaves free permits only when nobody waits. |
| `Semaphores.AbandonQueuedConserves` | src/admission_tests.rs:126-144 | A queued waiter that goes away gives back its partial reservation, to the next in line. |
| `Permits.HeapIsCharged` | src/driver.rs:2442-2461 | The buffer bytes allocated are exactly the sum of the charges of the pending entries. |
| `Permits.AllocationIsHeld` | src/driver.rs:2442-2490 | Allocated buffer bytes never exceed the byte permits held by queued messages and entries. |
| `Permits.NextReleases` | src/driver.rs:2418-2436 | No event of a shard other than sending a read takes permits into it. |
| `Permits.SendTakes` | src/driver.rs:1657-1678 | A read the shard accepts brings exactly one count permit and its charge. |
| `AdmissionSteps.NextKeepsInv` | src/driver.rs:625-655 | Every submission, deferral, poll, drop, close and shard event conserves the count permits of each shard and the byte permits of the driver. |
| `AdmissionHandles.NextKeepsHandles` | src/driver.rs:1497-1498 | Every event keeps the waiting handles apart: no id twice, none already used by its shard, each file and channel held until the read is sent. |
| `AdmissionTheorems.RunFacts` | src/driver.rs:1239-1270 | In every run of a driver permits are conserved, handles have ids, files and senders of their own, the configuration stays, each shard is itself a run of the shard machine, and a shard that has left has closed its own admission. |
| `AdmissionTheorems.MemoryBound` | src/driver.rs:1617-1632 | Over every run, with cancels, deferred admission, retirement and leaks, the buffers allocated by all shards of a driver stay within its byte budget. |
| `AdmissionTheorems.CountPermitsConserved` | src/driver.rs:1380-1385 | Per shard, free, waiter-held, message-held and entry-held count permits always add up to `entries`; so pending reads have at most `2 * entries` live requests between them. |
| `AdmissionCalls.FitsIsAccepted` | src/driver.rs:1509-1632 | The requests a driver takes are exactly those that validation with its limits accepts at that charge. |
| `AdmissionCalls.SubmitIs` | src/driver.rs:1642-1678 | An acceptable submission whose permits are both free puts its read, under the next id, at the end of its shard's queue and takes one count permit and its charge; any other changes nothing. |
| `AdmissionCalls.PollIs` | src/driver.rs:968-1044 | A poll fails if and only if a semaphore the handle depends on is closed or its shard has left, waits if and only if the handle is queued at an open one, and sends if and only if it has all permits and the shard is there, the read then being last in the queue. |
| `AdmissionTheorems.TotalsConserve` | src/driver.rs:1772-1787 | The conservation identity holds of the counters summed over shards, and the summed in-flight count is zero exactly when no table holds an entry. |
| `AdmissionTheorems.AdmissionNeverDeadlocks` | src/driver.rs:635-655 | With open semaphores, if anyone waits while no message and no pending read holds a permit, polling at most three handles makes one of them send its read. |
| `AdmissionClosing.NextKeepsClosers` | src/driver.rs:697-718 | Whatever interleaves: once a close has begun the registry is emptied; from then on each count semaphore is closed or on the list of a close still at work; a close past its first step has closed the bytes; and a thread closes only after its shard has left. |
| `AdmissionClosing.HandlesResolve` | src/driver.rs:968-1044 | Over every run, with closes racing step by step: once a shard's thread has returned, each of its handles that still waits for permits fails when polled, whatever its stage, and every accepted read's sender has been used exactly once; a handle of another shard fails, given a byte budget, if and only if it is past its count permit or its own count semaphore is closed. |
| `AdmissionClosing.DriverCloses` | src/driver.rs:697-718 | Over every run with a byte budget: once a close has begun and every close begun is over, every count semaphore is closed and every waiting handle of every shard fails when polled. |
| `AdmissionClosing.ThreadReturnsBeforeFirstCloser` | src/driver.rs:697-718 | While an earlier close holds the registered semaphores, the thread of another shard that has left returns after two steps with every count semaphore as it was, and a handle queued at an open one keeps waiting. |
| `Selection.Selector.TryReadPermits` | src/driver.rs:625-633 | With others moving between the two attempts, in terms of what the semaphores hold: closed or without a permit, it answers so and changes nothing; with one, it takes it and then the bytes if they are open and enough, else gives the count permit back. |
| `Selection.Selector.SelectReadShard` | src/driver.rs:1282-1328 | While others change the semaphores before every look and between the two attempts, the scan meets `Chosen`: the first shard in cyclic order with a count permit, else the first full but open one, else closed, with the semaphores left as `Tries` says. |
| `Selection.SelectionIsExact` | src/driver.rs:1282-1328 | Undisturbed, in terms of what the semaphores hold: it admits if and only if some shard is open with a permit and the bytes are open with the charge, answers closed if and only if the bytes or all shards are closed, and names the first shard in cyclic order with a permit, else the first open one; success takes exactly one permit and the charge, an error changes nothing. |
| `Pool.SharedBudget.TryReserve` | src/driver.rs:574-590 | Reserves if and only if the request fits the capacity and what is left; refusals change nothing; available plus outstanding receipts is always the capacity. |
| `Pool.SharedBudget.Refund` | src/driver.rs:597-603 | Gives back one outstanding receipt, exactly once, without exceeding the capacity. |
| `Pool.NewBudget` | src/driver.rs:548-558 | A pool is refused if and only if it is of zero bytes. |
| `Pool.JoinIs` | src/driver.rs:574-590 | Over every run, a driver that starts gets its receipt if and only if it asks for some bytes and these fit beside the receipts still alive; else nothing changes. |
| `Pool.DeadStaysDead` | src/driver.rs:592-603 | Once the driver, its threads, its waiters, its messages and its entries are gone, nothing revives its receipt. |
| `Pool.PoolBound` | src/driver.rs:574-603 | Over every run of any number of drivers that join, read, retire and leak: available plus live receipts is the capacity, and the buffers of all of them never exceed what is reserved. |
| `Pool.PoolIsWholeWhenAllRetired` | src/driver.rs:520-529 | The whole pool is available exactly when every driver has retired with nothing left behind. |
| `OrderedPrefetch.PollRefines` | examples/ordered_prefetch/reader.rs:111-174 | One poll, in any state and with any futures ready, delivers the next items of the sequential reading and nothing else. |
| `OrderedPrefetch.PrefetchIsSequential` | examples/ordered_prefetch/reader.rs:111-174 | For every validated range, source and pattern of readiness, the delivered items are a prefix of the sequential reading, all of it once the end or an error is announced, and the reader is fused afterwards. |
| `OrderedPrefetch.PrefetchResources` | examples/ordered_prefetch/reader.rs:94-143 | In every state slots are contiguous and nonempty, within the window and the byte limit, the reserved bytes are their sum, source reads partition what was scheduled, and no completed future is waiting again. |
| `OrderedPrefetch.FillIsFull` | examples/ordered_prefetch/reader.rs:94-109 | A refill keeps the slots there are as a prefix, adds waiting ones with one source read each, and ends only when the window is full, the range exhausted or the next chunk does not fit; a stopped reader is left alone. |
| `OrderedPrefetch.PrefetchReaches` | examples/ordered_prefetch/reader.rs:111-143 | In every run, after every poll that leaves the reader going, nothing more could have been started before that poll delivered. |
| `OrderedPrefetch.ScanReaches` | examples/ordered_prefetch/reader.rs:118-136 | Each poll reaches every slot up to the first terminal one: a waiting one is done afterwards if and only if its future was ready, with the reply of its source or an error if that is too long, and a done one stays. |
| `OrderedPrefetch.ReadyPollAnswers` | examples/ordered_prefetch/reader.rs:144-156 | With every future ready a poll never waits. |
| `OrderedPrefetch.ReadyPollsDeliverAll` | examples/ordered_prefetch/reader.rs:111-174 | With every future ready, one poll for each item of the sequential reading and one more deliver all of it and finish the reader. |
| `OrderedPrefetch.SequentialReadsFile` | examples/ordered_prefetch/reader.rs:157-173 | Read through a file, the chunks concatenate to exactly the range of the file. |
| `OrderedReader.Open` | examples/ordered_prefetch/reader.rs:25-86 | A configuration is accepted if and only if chunk, window, byte limit and range are within the stated bounds; the reader is then the initial one. |
| `OrderedReader.Consumer.FillWindow` | examples/ordered_prefetch/reader.rs:94-109 | The loop issues reads until the window is full, the range exhausted or the next chunk does not fit, and keeps the slots there are. |
| `OrderedReader.Consumer.PollWindow` | examples/ordered_prefetch/reader.rs:118-136 | The loop polls in order, stops at the first terminal slot and leaves the rest unpolled. |
| `OrderedReader.Consumer.DropBehind` | examples/ordered_prefetch/reader.rs:137-143 | Drops, from the back, exactly the slots behind the terminal one and their reservations. |
| `OrderedReader.Consumer.TakeFront` | examples/ordered_prefetch/reader.rs:145-173 | Delivers the front slot if it is ready, ending the reader after a short chunk, an error or an empty window. |
| `OrderedReader.Consumer.PollNext` | examples/ordered_prefetch/reader.rs:111-174 | The whole poll, in place, equals the described one, and had started all the reads it could. |

## Left out

- EventFd system calls, `wait_for_events`, ring setup, probing and io-wq registration: foreign calls; the wakeup model keeps only readable and drained.
- Real time: heartbeats and the drain timeout are choices of the environment.
- Fault injection, tracing, log latches and the process abort in the destructor: an aborted process frees nothing and does not go on.
- src/diagnostics.rs, the CQ overflow counter, the benchmarks and the scripts: pointwise counters and argument parsing, which would only add easy members.
- `shutdown`, `shutdown_async`, joining threads and the runtime's own scheduling: not visible at this level.
- The contents a stream read returns are not constrained; only that it takes one request and resolves once.
- The kernel's overflow list behind the completion queue: the model's completion queue has no bound.
- Each shard has its own view of memory and of descriptors; two shards reading one file are two descriptors.
- LogicalRead.ReapIsExact: speaks of a function that returns the updated entry; `reap_read` updates it through a reference, which the thread's `ReapPending` does in its table.
- TerminalClose.CloseIsInescapable: registration and closing are steps of an interleaving at the grain of the registry lock and of single closures, not methods of an object.
- An immediate submission takes both permits in one step of the driver model; `Selection` models the two attempts separately.
- The saturating addition of allocated bytes in a turn: the model adds without a bound.
- Semaphores.ReleaseConserves: speaks of values; the semaphores of the source are shared objects of another library, of which only the fair queue is modelled.
