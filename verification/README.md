# A verified model of monoio's runtime core

The Dafny project models the hard parts of the vendored async runtime (`crates/monoio`) and of its tokio adapter
(`crates/monoio-compat`), and proves what the code relies on. Everything that the source asserts, unwraps, or marks
`unreachable_unchecked` / `unwrap_unchecked` in these parts is a proof obligation here.

`dafny verify dfyconfig.toml` checks the whole project.

## What is modelled

**The task cell** (`task/*`, `blocking.rs`). `TaskState` is the packed state word: the class `State` changes a number with
the source's bit arithmetic, and each method is proved to do to the unpacked view (`Snapshot`) what the transition
functions say. `TaskProtocol` is a transition system over one cell: every owner of a reference (queued or running Task,
JoinHandle, waker in user code or in a cross-thread channel) has a program counter, and one move is one compare-and-swap,
fetch, load or access to a non-atomic field. A run is any interleaving of any number of owners. A move that violates an
assertion of the code, or touches the cell when it may be gone, sets `fault`. `TaskInvariant` proves one invariant
inductive, `TaskTheorems` draws the conclusions over all runs. `TaskHarness` is the code of `harness.rs`, `core.rs`,
`join.rs` and the waker functions as methods over one cell's memory, with arbitrary moves of the other owners between
any two accesses. The class keeps the run of the protocol so far; every method continues it, each of its accesses being
the protocol's next move, and what a method promises is stated about that run and its end. Each assertion of the code is
proved to hold.

**The slab** (`utils/slab.rs`). `Page` is the fixed buffer with its intrusive free list, `Slab` the 26 pages, with insert,
get, remove, `Ref::remove` and the periodic compaction, refining a finite map.

**The uring operation table** (`driver/uring/lifecycle.rs`, `driver/uring/mod.rs`, `driver/op.rs`). `UringTable` is the
table together with the kernel (the set of submissions still in flight, each answered once, in any order), the live Op
futures, the data they own, and the answers and descriptors the kernel has returned. `UringDriver` is the code:
lifecycles changed in place in the slab, and the draining of the completion queue.

**Park and unpark** (`driver/uring/mod.rs`, `driver/legacy/mod.rs`, both `waker.rs`). `Parking` is the handshake between
the owner thread and any number of senders: channel, `awake` flag, eventfd or mio token, the eventfd's read in the ring.
`Parker` is `inner_park` itself, with the others' moves between its accesses. `WakePath` puts `TaskProtocol` and `Parking`
together: the whole way of a wake from another thread to the sleeping owner, and the wakes on the owner thread itself on
its way into the sleep.

**The run loop** (`runtime.rs`, `scheduler.rs`, `task/waker_fn.rs`): `RunLoop`.

**Data structures and streams**: `LinkedList` (intrusive list and `DrainFilter`), `Readiness` and `LegacyDriver` (readiness
bits, waiting tasks, dispatch, `poll_op`, cancel), `BufReader` with `read_until` and `read_line`, `BufWriter` with
`write_all`, `StreamWrapper` (the tokio adapter), `Interval`.

The parts that the model does not see are parameters. What other threads, user futures, the kernel, the wrapped streams
and the clock do comes from arbitrary finite scripts or arbitrary moves.

## What the code does not do

- `flush_space` may tick while it waits for room in the submission queue, after the second drain, and `need_wait` is not
  looked at again. Two things can go wrong there, and nothing else leaves work undone before a blocked owner
  (`WakePath.BlockedWithWorkIff`):
  - The tick reaps the completion of the eventfd's read. `Parking.EarlyReapLosesAWake` is a run that ends with the owner
    blocked, a waker in its channel and nothing to end the sleep. It takes a park with a timeout, so the sleep does end
    with the timeout (`Parking.EarlyReapIsSafeUnlessItLosesTheWake`).
  - The tick completes an operation that a task waits for. The task is queued, and the owner goes to sleep in front of it.
    This takes no timeout: `WakePath.EarlyReapStrandsATask` is such a run in a park without one, and
    `RunLoop.BlocksInFrontOfATask` what `block_on` makes of it.
- The legacy driver's own wake token, `1 << 31`, is also a key its slab can issue (page 25, slot 64); a resource registered
  under it gets no events (`LegacyDriver.WakeupTokenIsAKey`, `LegacyDriver.EventsReachTheirResource`).
- The legacy `inner_park` clears `awake` and never sets it again (`Parking.LegacyIsAwakeOnce`), so later wakes write a
  token that was not needed. The uring one leaves it clear exactly when an error takes it out of its sleep
  (`Parking.UringIsAsleepOutsideIff`).
- With a buffer of capacity zero, `read_until` reports the end of a stream that is not at its end; it keeps its promise
  exactly when the capacity is above zero or the stream is at its end (`BufReader.Finished`;
  `BufReader.ZeroCapacityReadsNothing` is a run in which it does not).
- A flush of `BufWriter` that fails after writing a part keeps the whole buffer and sends that part again later; this is
  the only way to break the stream; it happens exactly when the answers of the inner writer take a part and then fail
  (`BufWriter.BufWriter.FlushBuf`, `BufWriter.FailedFlushSendsTwice`).
- A flush of `StreamWrapper` that was pending while more was written need not cover it: it covers everything if and only
  if it was made in the same call, nothing was written since it was made, or all was flushed before
  (`StreamWrapper.StreamWrapper.PollFlush`; `StreamWrapper.FlushMissesLaterWrite` is a run in which it does not).
- `set_writable` wakes nobody; it is harmless exactly when no writer waits (`Readiness.SetWritableIsSafeIff`).
- `Skip` panics exactly when the time since the last multiple of the period exceeds `u64::MAX` nanoseconds
  (`Interval.SkipIsNextGridPoint`).

## Model

| member | source | states |
|---|---|---|
| TaskState.PackUnpack | crates/monoio/src/task/state.rs:11-60 | the word is nothing but its five flags and the reference count: packing what was read from a word gives the word back |
| TaskState.UnpackPack | crates/monoio/src/task/state.rs:11-60 | packing a snapshot and reading it back gives the snapshot |
| TaskState.BitOperations | crates/monoio/src/task/state.rs:310-368 | setting, clearing or flipping one bit of the word changes that flag of the snapshot and nothing else |
| TaskState.RefArithmetic | crates/monoio/src/task/state.rs:229-256 | adding or subtracting REF_ONE changes the count by one and no flag |
| TaskState.State.constructor | crates/monoio/src/task/state.rs:75-77 | a new word has two references, JOIN_INTEREST and NOTIFIED |
| TaskState.State.TransitionToRunning | crates/monoio/src/task/state.rs:85-93 | from idle and notified to running, NOTIFIED cleared; other flags and the count unchanged |
| TaskState.State.TransitionToIdle | crates/monoio/src/task/state.rs:96-107 | RUNNING cleared; tells whether the task was notified meanwhile |
| TaskState.State.TransitionToComplete | crates/monoio/src/task/state.rs:110-118 | the fetch_xor turns running into complete and returns the new snapshot |
| TaskState.State.TransitionToNotifiedWithoutSubmit | crates/monoio/src/task/state.rs:123-134 | a running task is marked notified and any other word is left alone; nothing is left to do exactly if the task is running, complete or notified |
| TaskState.State.TransitionToNotified | crates/monoio/src/task/state.rs:137-150 | NOTIFIED is set if the task is running, or idle and not complete; asks for a submit exactly if it was neither running, complete nor notified |
| TaskState.State.DropJoinHandleFast | crates/monoio/src/task/state.rs:154-169 | succeeds exactly on the initial word, and then gives up the handle's reference and interest in one step |
| TaskState.State.UnsetJoinInterested | crates/monoio/src/task/state.rs:174-187 | clears JOIN_INTEREST exactly when the task is not complete |
| TaskState.State.SetJoinWaker | crates/monoio/src/task/state.rs:193-207 | sets JOIN_WAKER exactly when the task is not complete |
| TaskState.State.UnsetWaker | crates/monoio/src/task/state.rs:213-227 | clears JOIN_WAKER exactly when the task is not complete |
| TaskState.State.RefIncrement | crates/monoio/src/task/state.rs:229-244 | one reference more; the process aborts exactly if the word before was above 2^63 - 1 |
| TaskState.State.RefDecrement | crates/monoio/src/task/state.rs:247-256 | one reference less; reports exactly the one that takes the count to zero |
| TaskState.FetchUpdate | crates/monoio/src/task/state.rs:258-300 | both CAS loops are linearizable: whatever other threads store in between, the result is the update function applied once, to the word as it was at one of the loop's own accesses |
| TaskInvariant.NewInv | crates/monoio/src/task/mod.rs:89-106 | a new cell, with its Task and its JoinHandle, satisfies the invariant |
| TaskInvariant.MoveKeepsInv | crates/monoio/src/task/harness.rs:47-402 | every move of every owner keeps the invariant, whatever the other owners are in the middle of |
| TaskInvariant.TaskKeepsCore | crates/monoio/src/task/harness.rs:53-113 | running, storing the output, idling, completing: no assertion fails, lifecycle bits and stage stay in agreement |
| TaskInvariant.HandleKeepsJoin | crates/monoio/src/task/harness.rs:326-402 | each step of JoinHandle poll and drop keeps JOIN_WAKER, the waker slot and the handle's progress in agreement |
| TaskInvariant.CallStepKeepsInv | crates/monoio/src/task/harness.rs:217-267 | the transition of a wake_by_ref keeps the invariant although its caller only borrows a reference |
| TaskInvariant.DropKeepsInv | crates/monoio/src/task/harness.rs:269-274 | giving back a reference keeps the invariant, the last one included |
| TaskInvariant.PollEndsKeepsInv | crates/monoio/src/task/core.rs:81-103 | the stage is a live future whenever a poll of it returns |
| TaskInvariant.SomebodyThere | crates/monoio/src/task/harness.rs:92-104 | only the deallocation (or the closing of the channel) can move once the count is zero |
| TaskTheorems.RunKeepsInv | crates/monoio/src/task/harness.rs:47-402 | the invariant holds in every state of every run |
| TaskTheorems.ReferencesAreOwners | crates/monoio/src/task/state.rs:229-256 | in every interleaving the count is the number of owners; the cell is alive exactly while there are owners, is freed at most once, no step touches it afterwards, and no assertion of the code fails |
| TaskTheorems.LastDropFrees | crates/monoio/src/task/harness.rs:269-274 | the deallocation becomes due in exactly one kind of step, the ref_dec from one to zero, and the cell is freed only then |
| TaskTheorems.OneRunner | crates/monoio/src/task/state.rs:85-118 | never two runners, and no run after completion |
| TaskTheorems.NotifiedIsOneTask | crates/monoio/src/task/state.rs:120-150 | idle and NOTIFIED exactly when one Task is queued, in hand or about to be made; never two of them |
| TaskTheorems.NoLostWake | crates/monoio/src/task/harness.rs:161-267 | a task woken since its last run began will run again: NOTIFIED while it runs, or a Task for it, or the wake on its way to the owner thread |
| TaskTheorems.PendingJoinIsWoken | crates/monoio/src/task/harness.rs:279-299 | a handle whose last poll was Pending has its waker stored, and is woken by the completing step |
| TaskTheorems.NoRaceOnFields | crates/monoio/src/task/harness.rs:326-402 | the waker slot is never written while another uses it, and the stage has one user at a time |
| TaskTheorems.OutputOnce | crates/monoio/src/task/core.rs:109-148 | at most one output is stored and it is disposed of at most once, by taking it or dropping it on one side; what is in the stage, and what was taken or dropped, is what was stored; before the memory goes it has been disposed of |
| TaskTheorems.RunGoesOn | crates/monoio/src/task/state.rs:110-118 | completion, lost join interest, the stored output, its disposal and the wake of the joining task are final: no later step of anybody takes them back |
| TaskTheorems.BlockingCompletesOnce | crates/monoio/src/blocking.rs:46-75 | a BlockingTask completes exactly once, by run or by drop, and never reaches NoopScheduler |
| TaskTheorems.BlockingOutput | crates/monoio/src/blocking.rs:46-75 | the output of a BlockingTask is Canceled if and only if it was dropped without being run |
| TaskHarness.OthersKeepOwner | crates/monoio/src/task/harness.rs:47-402 | no move of another owner takes an owner on in its code |
| TaskHarness.StepFacts | crates/monoio/src/task/harness.rs:47-402 | in every reachable state the next step of any owner finds the cell alive and what the code asserts true |
| TaskHarness.ReachableFits | crates/monoio/src/task/state.rs:229-244 | in every run the packed word stays below 2^64 |
| TaskHarness.Harness.constructor | crates/monoio/src/task/mod.rs:89-106 | the memory of a new cell is the protocol's initial state |
| TaskHarness.Harness.Load | crates/monoio/src/task/harness.rs:326-332 | the first load of can_read_output; the debug assertion on JOIN_INTEREST holds |
| TaskHarness.Harness.WillWake | crates/monoio/src/task/core.rs:166-169 | the slot is Some whenever it is compared, so unwrap is safe |
| TaskHarness.Harness.TakeOutput | crates/monoio/src/task/core.rs:133-143 | the stage is Finished whenever the handle takes it; what is returned is the one output this task has stored, and its only disposal |
| TaskHarness.Harness.WakeJoin | crates/monoio/src/task/core.rs:171-176 | the waker is never missing, and the one that is woken is the one that was there when the task completed |
| TaskHarness.Harness.SetJoinWaker | crates/monoio/src/task/harness.rs:376-402 | both assertions hold; afterwards the waker is registered, or the task is complete, the slot is empty again and the output can be taken |
| TaskHarness.Harness.CanReadOutput | crates/monoio/src/task/harness.rs:326-374 | true: the output may be taken; false: the caller's waker is registered |
| TaskHarness.Harness.RegisterWaker | crates/monoio/src/task/harness.rs:334-371 | the waker in the slot is the caller's, or has been replaced by it; the assertion that a failed update saw a complete task holds |
| TaskHarness.Harness.PollJoinHandle | crates/monoio/src/task/join.rs:40-60 | against any interference: Ready with the one output this task has stored, which is then disposed of by this handle and by nobody else, or Pending with the waker registered |
| TaskHarness.Harness.DropJoinHandle | crates/monoio/src/task/join.rs:62-70 | fast or slow, the handle's reference is gone; either the join interest is gone too, so that the completing side drops the output, or the output has been disposed of |
| TaskHarness.Harness.Schedule | crates/monoio/src/blocking.rs:150-158 | a Task is scheduled only if the task is not a blocking one |
| TaskHarness.Harness.Complete | crates/monoio/src/task/harness.rs:279-299 | the task is complete for good; without interest at that moment the output has been dropped on this side, with a waker registered at that moment that waker has been woken; the reference is given back |
| TaskHarness.Harness.BeginRun | crates/monoio/src/task/harness.rs:72-80 | the assertions of transition_to_running hold for any Task popped from the queue, which is running and not notified then |
| TaskHarness.Harness.EndReady | crates/monoio/src/task/harness.rs:53-90 | after a ready poll the task is complete, its only output is the one of the future, and the Task is gone |
| TaskHarness.Harness.EndPending | crates/monoio/src/task/harness.rs:53-90 | the task is idle, and if it had been notified while it ran, a new Task was queued before the old one was dropped; it aborts only in that case |
| TaskHarness.Harness.FutureReturns | crates/monoio/src/task/core.rs:81-103 | the stage holds the future (not unreachable) and is Consumed once it is ready |
| TaskHarness.Harness.Cancel | crates/monoio/src/blocking.rs:46-57 | dropping a BlockingTask completes the task, and Canceled is its only output |
| TaskHarness.Harness.DropReference | crates/monoio/src/task/harness.rs:269-274 | one owner less; the cell has been deallocated, once, exactly if that was the last |
| TaskHarness.Harness.CloneWaker | crates/monoio/src/task/waker.rs:48-57 | a new owner, and one reference more; or the abort, exactly if the word was above 2^63 - 1 |
| TaskHarness.Harness.DropWakerOf | crates/monoio/src/task/waker.rs:59-67 | the waker's reference is given back |
| TaskHarness.Harness.WakeByVal | crates/monoio/src/task/harness.rs:161-211 | the move of this call and the wake it registers; off the owner thread the reference ends in the channel (or is given back if that is closed) unless nothing was left to do, on it as a queued Task exactly if the transition asked for one |
| TaskHarness.Harness.WakeReceived | crates/monoio/src/driver/uring/mod.rs:229-232 | the received waker made its transition on the owner thread, and is a queued Task exactly if that asked for one |
| TaskHarness.Harness.WakeByRef | crates/monoio/src/task/harness.rs:217-267 | the move of this call; if it asked for more, the ref_inc made a new owner, which ends in the channel (or is given back if that is closed), or as a queued Task on the owner thread; else the task is notified or complete |
| Slab.GetPageIdInverts | crates/monoio/src/utils/slab.rs:130-136 | page lookup inverts slot + prev_len on every key a page can issue, and all keys are below 2^32 - 64 |
| Slab.GetPageIdInRange | crates/monoio/src/utils/slab.rs:130-136 | for any machine word the page number is in range and the subtraction of prev_len does not underflow |
| Slab.LinkedFrame | crates/monoio/src/utils/slab.rs:218-326 | the free chain depends on its own slots only, and all of them are vacant and inside the buffer |
| Slab.Page.Alloc | crates/monoio/src/utils/slab.rs:256-280 | None exactly when the page is full; else the slot freed last, or the first never used |
| Slab.Page.Set | crates/monoio/src/utils/slab.rs:284-287 | the allocated slot holds the value and the page is well formed again |
| Slab.Page.Get | crates/monoio/src/utils/slab.rs:289-308 | finds exactly the occupied slots, and never reads an uninitialized one |
| Slab.Page.SlotKnown | crates/monoio/src/utils/slab.rs:289-326 | an initialized slot is occupied or on the free list, and not both |
| Slab.Page.Remove | crates/monoio/src/utils/slab.rs:310-326 | takes exactly an occupied slot out and puts it at the head of the free list; unwrap_unchecked is safe |
| Slab.LookupFinds | crates/monoio/src/utils/slab.rs:46-61 | a key is in the map exactly when its slot is occupied in the page that the lookup names |
| Slab.Slab.Get | crates/monoio/src/utils/slab.rs:46-61 | the lookup agrees with the map, for any word |
| Slab.Slab.Insert | crates/monoio/src/utils/slab.rs:66-90 | a fresh key below 2^32 - 64 in the first page with room from the write page on, which becomes the write page, and the map with it; no room (the panic) only if every page from the write page on is full |
| Slab.Slab.Remove | crates/monoio/src/utils/slab.rs:94-103 | the map without the key, and the value that was there; it counts as a removal exactly if the key's page is allocated |
| Slab.Slab.MarkRemove | crates/monoio/src/utils/slab.rs:105-126 | every 2048th counted removal makes page 0 the write page, and gives up exactly the last allocated page if that is empty and not page 0; the map never changes; generation wraps at 32 bits |
| Slab.Slab.RefRemove | crates/monoio/src/utils/slab.rs:147-153 | removal through a Ref: the value is there, so unwrap_unchecked is safe, it leaves the map, and the removal counts |
| Slab.Slab.RefWrite | crates/monoio/src/utils/slab.rs:163-183 | a write through a Ref changes that entry only |
| Slab.Slab.Len | crates/monoio/src/utils/slab.rs:39-44 | the sum over the pages is the size of the map |
| UringTable.StepKeepsInv | crates/monoio/src/driver/uring/lifecycle.rs:45-114 | submission, completion, poll and drop keep the table, the kernel, the ops and the descriptors in agreement |
| UringTable.TableAgreesWithKernel | crates/monoio/src/driver/uring/mod.rs:380-400 | an index is in flight exactly while its entry is Submitted, Waiting or Ignored, and for the submission that owns the entry: a reused index never gets an old completion; nothing undefined is reached; indices stay below the reserved ones |
| UringTable.DataOutlivesKernel | crates/monoio/src/driver/uring/lifecycle.rs:95-114 | while the kernel has an operation its data is owned by the live Op or the Ignored entry, and has not been dropped |
| UringTable.PendingPollerIsWoken | crates/monoio/src/driver/uring/lifecycle.rs:72-92 | a pending Op is registered under its last waker, or its completion has woken that waker |
| UringTable.DescriptorsConserved | crates/monoio/src/driver/op.rs:72-139 | each descriptor the kernel returned is held in the table, or was moved out once, or closed once; with its Op gone, one of the last two |
| UringTable.OpGetsItsOwnAnswer | crates/monoio/src/driver/uring/lifecycle.rs:48-92 | what an Op is given is the kernel's answer to its own submission, whatever index it had and who had it before: the number and the flags, as a descriptor if it asked for one, or the error |
| UringTable.CompleteKeepsFd | crates/monoio/src/driver/uring/lifecycle.rs:48-69 | the descriptor of a completion is held by the entry, or closed if the Op is gone |
| UringDriver.DrainedQueue | crates/monoio/src/driver/uring/mod.rs:380-400 | reaping a queue leaves in flight exactly what it did not answer |
| UringDriver.UringInner.CompleteEntry | crates/monoio/src/driver/uring/lifecycle.rs:48-69 | per lifecycle: store the result, wake, or remove and close; Completed is unreachable |
| UringDriver.UringInner.Complete | crates/monoio/src/driver/uring/mod.rs:612-615 | the entry of a completion is there (unwrap_unchecked), and the step is the protocol's |
| UringDriver.UringInner.PollEntry | crates/monoio/src/driver/uring/lifecycle.rs:72-92 | Pending with the current waker stored, or the result and the entry gone; Ignored is unreachable |
| UringDriver.UringInner.PollOp | crates/monoio/src/driver/op.rs:240-249 | Ready exactly if the entry is completed, with the number (a descriptor if asked for) or error and the flags that the kernel answered to this submission; the index is retired; Pending leaves the caller's waker; the slab entry is there |
| UringDriver.UringInner.DropEntry | crates/monoio/src/driver/uring/lifecycle.rs:95-114 | an unfinished operation keeps its data in the entry; a finished one is removed and its descriptor closed |
| UringDriver.UringInner.DropOp | crates/monoio/src/driver/uring/mod.rs:510-538 | a cancel is pushed exactly for an operation still in flight that does not opt out; a held descriptor is closed |
| UringDriver.UringInner.SubmitWithData | crates/monoio/src/driver/uring/mod.rs:434-473 | the kernel is told a fresh index below the reserved ones; the panic only if the slab is full from its write page on |
| UringDriver.UringInner.Reap | crates/monoio/src/driver/uring/mod.rs:380-400 | one entry of the queue: the table step, the wake and the close that it calls for and no others; a result from zero up is logged as that number, one below zero as the error of its negation; the eventfd's completion clears eventfd_installed |
| UringDriver.UringInner.Tick | crates/monoio/src/driver/uring/mod.rs:380-400 | the table, the wakes and the closes after draining the queue are those of its entries, in order, and each submission answered is logged with its entry's result |
| Parking.MoveKeepsInv | crates/monoio/src/driver/uring/mod.rs:220-322 | every step of the owner, the senders and the kernel keeps the sleep of the owner safe as far as the wakers in its channel go, save an early reap that takes their only wake |
| Parking.NoLostUnpark | crates/monoio/src/driver/uring/mod.rs:220-322 | in every run without a harmful early reap, the owner is never blocked with a waker in its channel unless a wake is pending or a sender is in unpark and will write; under uring the eventfd's read is armed |
| Parking.WakersDelivered | crates/monoio/src/runtime.rs:87-117 | wakers are woken in the order sent, each once, none lost |
| Parking.LegacyHasNoEarlyReap | crates/monoio/src/driver/legacy/mod.rs:116-171 | for the legacy driver the invariant holds in every run |
| Parking.LegacyIsAwakeOnce | crates/monoio/src/driver/legacy/mod.rs:129-135 | the legacy flag is set exactly until it is cleared for the first time |
| Parking.UringIsAsleepOutsideIff | crates/monoio/src/driver/uring/mod.rs:311-316 | outside inner_park the uring flag is clear if and only if an error left inner_park after it was cleared, and it has not been set since |
| Parking.EarlyReapIsSafeUnlessItLosesTheWake | crates/monoio/src/driver/uring/mod.rs:175-183 | for the wakers in the channel: an early reap keeps the sleep safe if and only if it does not take their only wake, which takes a park with a timeout; what its tick wakes on the owner thread itself is in WakePath |
| Parking.EarlyReapLosesAWake | crates/monoio/src/driver/uring/mod.rs:402-423 | there is a run that ends in such a loss |
| Parker.Owner.SenderStep | crates/monoio/src/driver/uring/waker.rs:25-37 | send_waker, then the load and the write of EventWaker::wake, have exactly the effect of the sender's next move |
| Parker.Owner.TryRecv | crates/monoio/src/driver/legacy/mod.rs:123-127 | one receive wakes the first waker of the channel or finds it empty |
| Parker.Owner.Drain | crates/monoio/src/driver/uring/mod.rs:226-247 | a drain wakes all that was in the channel, in order, and keeps need_wait only if there was nothing |
| Parker.Owner.DeliverWakers | crates/monoio/src/driver/uring/mod.rs:220-247 | drain, clear awake, drain again: the owner goes on to wait only with nothing delivered |
| Parker.Owner.FlushSpace | crates/monoio/src/driver/uring/mod.rs:175-183 | ticks any number of times; without a timeout that loses no wake of the channel |
| Parker.Owner.PrepareWait | crates/monoio/src/driver/uring/mod.rs:249-280 | the eventfd is installed when the wait begins, or the error is returned |
| Parker.Owner.WaitForEvents | crates/monoio/src/driver/uring/mod.rs:281-309 | the wakers in the channel are safe when the sleep begins, unless their wake was reaped early |
| Parker.Owner.InnerPark | crates/monoio/src/driver/legacy/mod.rs:116-171 | every waker in the channel when it is called has been woken, in order, when it returns; a park without timeout loses no wake of the channel; under uring awake is set again |
| WakePath.MoveKeepsInv | crates/monoio/src/task/harness.rs:161-211 | the cell and the owner's channel stay in agreement, and an owner on its way to sleep has nothing of the cell to do but what the tick of an early reap has given it, in every step of both |
| WakePath.SentWakerIsHeard | crates/monoio/src/driver/uring/mod.rs:220-322 | while the owner sleeps with a waker of the cell in its channel, a wake is pending or a sender is still in unpark, unless an early reap of this park took the wake |
| WakePath.BlockedWithWorkIff | crates/monoio/src/driver/uring/mod.rs:256-305 | an owner blocked with no wake pending and nobody in unpark leaves something undone, a waker in its channel or the task queued, if and only if an early reap of this park took the only wake of a nonempty channel or woke the task, which was not complete |
| WakePath.QueuedWhileBlockedIff | crates/monoio/src/driver/uring/lifecycle.rs:55-60 | the task is queued in front of a blocked owner if and only if the tick of an early reap of this park woke it |
| WakePath.SleeperIsWoken | crates/monoio/src/task/harness.rs:161-267 | end to end: while the owner thread is blocked in its wait, and no early reap of this park did either of these, a task that was woken and has not run since has its wake pending, or some thread is in the middle of waking it or of unparking the owner |
| WakePath.LegacySleeperIsWoken | crates/monoio/src/driver/legacy/mod.rs:116-171 | under the legacy driver that holds in every run |
| WakePath.EarlyReapStrandsATask | crates/monoio/src/driver/uring/mod.rs:402-423 | there is a run in which the owner blocks without a timeout in front of a task that the early reap of this park has queued, and nothing is about to end its sleep |
| RunLoop.TaskQueue.Pop | crates/monoio/src/scheduler.rs:65-67 | first in, first out |
| RunLoop.Runtime.PollMain | crates/monoio/src/runtime.rs:168-172 | ready exactly if the future says so; the flag and the wake owed are those of this poll |
| RunLoop.Runtime.RunTasks | crates/monoio/src/runtime.rs:154-165 | a round over n queued tasks runs all of them, in order, and at most 2n + 1 tasks; fewer only if the queue runs out |
| RunLoop.Runtime.CheckMain | crates/monoio/src/runtime.rs:167-173 | the main future is polled if it has been woken, again exactly if a poll woke it, and until one is ready; not ready means the flag is clear and no wake of it unanswered |
| RunLoop.Runtime.RunUntilIdle | crates/monoio/src/runtime.rs:152-183 | everything queued at the start runs; it stops when the main future is ready, which its last poll said and none before, or with an empty queue, the flag clear and no wake of the main future unanswered |
| RunLoop.Runtime.Park | crates/monoio/src/runtime.rs:186-193 | park is entered only with an empty queue, the poll flag clear and no wake unanswered; the queue and the flag are then what it woke: before its wait, and after it if it ends |
| RunLoop.Runtime.BlockOn | crates/monoio/src/runtime.rs:131-196 | every push is run once, in order; done exactly if the last poll of the main future was ready, and none before; blocked for good, what is left to do is exactly what the last park woke before its wait, so nothing is left if and only if that was nothing |
| RunLoop.BlocksInFrontOfATask | crates/monoio/src/runtime.rs:186-193 | a run of the loop that blocks for good with a task queued and nothing run |
| LinkedList.LinkedList.PushFront | crates/monoio/src/utils/linked_list.rs:120-139 | the sequence with the node in front; prev and next mirror it |
| LinkedList.LinkedList.PopBack | crates/monoio/src/utils/linked_list.rs:143-159 | the sequence without its last node, whose pointers are null |
| LinkedList.LinkedList.IsEmpty | crates/monoio/src/utils/linked_list.rs:162-169 | empty exactly when the sequence is; the assertion on tail holds |
| LinkedList.LinkedList.Remove | crates/monoio/src/utils/linked_list.rs:177-209 | the sequence without the node; an unlinked node gives None and nothing changes |
| LinkedList.LinkedList.Detach | crates/monoio/src/utils/linked_list.rs:177-209 | both debug assertions hold |
| LinkedList.DrainFilter.Next | crates/monoio/src/utils/linked_list.rs:263-276 | the next matching node from head to tail, the others left in order, or None at the end |
| LinkedList.DrainFilter.Drain | crates/monoio/src/utils/linked_list.rs:242-276 | run to the end it terminates with exactly the matching nodes in order, and leaves exactly the others in order |
| LinkedList.SelectPartitions | crates/monoio/src/utils/linked_list.rs:242-276 | the two selections partition the sequence |
| Readiness.ReadyIsASet | crates/monoio/src/driver/ready.rs:187-219 | the operators of Ready are union, intersection and difference of its bits |
| Readiness.FromMio | crates/monoio/src/driver/ready.rs:73-104 | the bits are those of the event and no cancel bit |
| Readiness.ReadyOf | crates/monoio/src/driver/ready.rs:110-134 | is_readable and is_writable hold exactly for ready or closed in that direction |
| Readiness.RunKeepsWaits | crates/monoio/src/driver/scheduled_io.rs:37-91 | in every run a stored reader (writer) waker means that no read-side (write-side) bit is set |
| Readiness.SetWritableIsSafeIff | crates/monoio/src/driver/scheduled_io.rs:32-34 | set_writable keeps that if and only if no writer waits |
| Readiness.PendingPollWaits | crates/monoio/src/driver/legacy/mod.rs:261-310 | a Pending poll_op leaves the caller's waker in its direction's slot, and no readiness there |
| Readiness.PollLeavesOtherDirection | crates/monoio/src/driver/legacy/mod.rs:261-310 | a poll_op touches neither waker nor readiness of the other direction |
| Readiness.CancelIsConsumed | crates/monoio/src/driver/legacy/mod.rs:281-289 | Canceled is reported exactly when the direction's cancel bit is set, and then that bit alone is cleared |
| Readiness.StaysWaiting | crates/monoio/src/driver/scheduled_io.rs:62-91 | a waiting task stays in its slot until its direction is polled again or hears something |
| Readiness.NextEventWakes | crates/monoio/src/driver/legacy/mod.rs:249-259 | the first event or cancel in the direction of a pending poll wakes the task that polled |
| Readiness.CancelIsReported | crates/monoio/src/driver/legacy/mod.rs:312-323 | a cancel is what the next poll of its direction reports, whatever happens in between |
| Readiness.ReadinessIsKept | crates/monoio/src/driver/legacy/mod.rs:249-259 | over all runs: after an event of a direction, and with no poll of it since, the next poll is ready for every call that does not block, with that call's result unless it reports a cancel |
| Readiness.DispatchAddsBits | crates/monoio/src/driver/legacy/mod.rs:257 | an event adds its bits and takes none away |
| Readiness.DispatchWakes | crates/monoio/src/driver/scheduled_io.rs:41-53 | exactly the wakers waiting in a direction of the event are woken, and leave their slots |
| Readiness.PollAnswers | crates/monoio/src/driver/legacy/mod.rs:280-310 | a poll is pending exactly if its direction is not ready, or the call would block without a cancel, which clears it; else the call's result is handed on and the readiness stays |
| Readiness.ScheduledIo.Wake | crates/monoio/src/driver/scheduled_io.rs:42-53 | takes and wakes exactly the wakers of the directions concerned |
| Readiness.ScheduledIo.PollReadiness | crates/monoio/src/driver/scheduled_io.rs:62-73 | Ready with the direction's bits, or Pending with the waker stored |
| Readiness.ScheduledIo.PutWaker | crates/monoio/src/driver/scheduled_io.rs:76-91 | the slot of the direction holds the waker |
| LegacyDriver.WakeupTokenIsAKey | crates/monoio/src/driver/legacy/mod.rs:54 | the wake token is the key of exactly one slot |
| LegacyDriver.EventsReachTheirResource | crates/monoio/src/driver/legacy/mod.rs:154-171 | each resource gets its own events in order and no others, except that the one at the wake token gets none |
| LegacyDriver.WaitersAreWoken | crates/monoio/src/driver/legacy/mod.rs:159-165 | every waker waiting in the direction of one of the events of a poll is among those woken |
| LegacyDriver.LegacyInner.DispatchTo | crates/monoio/src/driver/legacy/mod.rs:249-259 | the bits are added to those there and their waiters woken; an unknown token is ignored |
| LegacyDriver.LegacyInner.DispatchAll | crates/monoio/src/driver/legacy/mod.rs:154-171 | the resources and the wakes after the events of one poll are those of its events, in order |
| LegacyDriver.LegacyInner.CancelOp | crates/monoio/src/driver/legacy/mod.rs:312-323 | the waiter of that direction is woken, and no other; the other direction is untouched |
| LegacyDriver.LegacyInner.PollOperation | crates/monoio/src/driver/legacy/mod.rs:261-310 | the system call is made exactly when the direction is ready and not canceled; its result is handed on unless it would block; a cancel is reported; pending otherwise |
| LegacyDriver.LegacyInner.Register | crates/monoio/src/driver/legacy/mod.rs:211-227 | a fresh token with no readiness, or no change if the OS refuses; no token only if the slab is full from its write page on |
| LegacyDriver.LegacyInner.Deregister | crates/monoio/src/driver/legacy/mod.rs:230-245 | the resource is gone exactly if the OS agrees |
| BufReader.BufReader.Read | crates/monoio/src/io/util/buf_reader.rs:80-103 | what is put into the caller's buffer is the next part of the stream, also around the internal buffer; nothing only at the end; what is buffered is handed out at once, else the inner reader is asked once and its error is the result, which loses nothing |
| BufReader.BufReader.FillBuf | crates/monoio/src/io/util/buf_reader.rs:121-149 | the stream does not change; something is buffered unless the stream is at its end |
| BufReader.BufReader.Consume | crates/monoio/src/io/util/buf_reader.rs:151-153 | the stream loses that many buffered bytes and no more |
| BufReader.UpToIsUnique | crates/monoio/src/io/async_buf_read_ext.rs:24-54 | a prefix with no delimiter before its end that ends with one, or is everything, is the shortest such prefix |
| BufReader.ReadUntil | crates/monoio/src/io/async_buf_read_ext.rs:24-54 | appends exactly the bytes through the first delimiter, or to the end of the stream; interruptions are ignored, and the first other error of the inner reader ends it and is the result, with what was appended being what was consumed |
| BufReader.Finished | crates/monoio/src/io/async_buf_read_ext.rs:24-54 | the promise is kept if and only if the capacity is above zero or the stream is at its end |
| BufReader.ZeroCapacityReadsNothing | crates/monoio/src/io/util/buf_reader.rs:30-38 | a run in which it is not: two bytes are left, and the end is reported |
| BufReader.ReadLine | crates/monoio/src/io/async_buf_read_ext.rs:100-120 | keeps the new bytes exactly if they are valid UTF-8, also after an error, and else restores the old length; the result is the inner reader's error if there was one, else invalid data or the number of bytes |
| BufWriter.WriteAll | crates/monoio/src/io/async_write_rent_ext.rs:28-51 | over short and interrupted writes all is written, or a proper prefix with the error; which, how much and what error is a function of the answers of the inner writer |
| BufWriter.EndsAtFirstStop | crates/monoio/src/io/async_write_rent_ext.rs:28-51 | the first answer that is an error or takes nothing ends it, with its error, unless everything was taken before; interruptions and short writes are got over |
| BufWriter.AllIsTaken | crates/monoio/src/io/async_write_rent_ext.rs:28-51 | everything is written if no answer is an error or takes nothing |
| BufWriter.BufWriter.FlushBuf | crates/monoio/src/io/util/buf_writer.rs:72-88 | success empties the buffer into the sink; failure keeps it, and breaks the stream if and only if the inner writer's answers take a part of what is buffered and then fail |
| BufWriter.FailedFlushSendsTwice | crates/monoio/src/io/util/buf_writer.rs:72-88 | a run in which they do: one byte is sent twice |
| BufWriter.BufWriter.Write | crates/monoio/src/io/util/buf_writer.rs:92-127 | sink plus buffer stays the concatenation of what was accepted, also on the direct path; what fits the buffer is accepted whole; the result is the flush's error, or on the direct path the inner writer's answer |
| BufWriter.BufWriter.Flush | crates/monoio/src/io/util/buf_writer.rs:140-143 | after success nothing is buffered and all that was accepted is written and flushed |
| StreamWrapper.Buf.BufToRead | crates/monoio-compat/src/buf.rs:119-122 | the first bytes of the data, at most max |
| StreamWrapper.Buf.AdvanceOffset | crates/monoio-compat/src/buf.rs:126-129 | the data without its first bytes; the debug assertion holds |
| StreamWrapper.Buf.SetInit | crates/monoio-compat/src/buf.rs:84-87 | the data starts over at the front |
| StreamWrapper.StreamWrapper.PollRead | crates/monoio-compat/src/safe_wrapper.rs:58-99 | delivers the next bytes of the source, all that are buffered or as many as the caller has room for; nothing only if the caller has no room, the buffer has none, or the source is at its end; with nothing buffered, the stream's one outcome decides between ready, pending and its error; unwrap_unchecked is safe |
| StreamWrapper.StreamWrapper.PollWrite | crates/monoio-compat/src/safe_wrapper.rs:103-161 | accepted bytes are the written ones plus the unsent rest in flight; pending or an error exactly as the stream's last outcome says; the slot is Some when it is taken unchecked |
| StreamWrapper.StreamWrapper.PollFlush | crates/monoio-compat/src/safe_wrapper.rs:165-188 | Ready(Ok) only with no write in flight and all accepted bytes written; all of them are flushed if and only if the flush was made in this call, or nothing was written since it was made, or all was flushed before; pending or an error exactly as the stream's last outcome says |
| StreamWrapper.FlushMissesLaterWrite | crates/monoio-compat/src/safe_wrapper.rs:165-188 | a run in which they are not: a pending flush, a write, and a ready flush that has not covered it |
| StreamWrapper.StreamWrapper.PollShutdown | crates/monoio-compat/src/safe_wrapper.rs:191-216 | Ready(Ok) only with no write in flight and all accepted bytes written, and then the stream is shut down, and only then; pending or an error exactly as the stream's last outcome says |
| StreamWrapper.StreamWrapper.PollWriteFuture | crates/monoio-compat/src/box_future.rs:27-35 | the buffer returns to its slot exactly when the future disarms |
| Interval.SkipIsNextGridPoint | crates/monoio/src/time/interval.rs:313-335 | a late Skip sets the first grid point after now, at most one period away; it panics exactly when the remainder exceeds u64::MAX |
| Interval.SkipPanicsOnlyForHugePeriods | crates/monoio/src/time/interval.rs:313-335 | the panic needs a period above u64::MAX nanoseconds |
| Interval.DelayLeavesTheGrid | crates/monoio/src/time/interval.rs:313-335 | a late Delay stays on the grid if and only if it is late by whole periods |
| Interval.TicksStayOnGrid | crates/monoio/src/time/interval.rs:407-434 | over any run with Burst and Skip every tick is start + k * period with k strictly increasing, by one under Burst |
| Interval.Interval.PollTick | crates/monoio/src/time/interval.rs:407-434 | returns the scheduled time; up to 5 ms late, or under Burst, the next deadline is one period on, later than that one period from now under Delay and the first multiple of the period after now under Skip, with the exact panic condition |

## Left out

- Weak memory orderings: every atomic access is one sequentially consistent step.
- Panics inside user futures and wakers, and `catch_unwind`; asynchronous reads and writes dropped half-way (their buffer is moved out during the await).
- Real rings, sockets, eventfds and mio: the kernel is a set of submissions answered once each, the eventfd and the mio waker a token that stays until consumed.
- The source of `reusable_box_future`, `flume`, `mio`, `io_uring` and `std` is not part of this model; an armed future is what it works on.
- Liveness of the threads themselves: theorems say that a wake is registered, pending or in transit, not that a thread is scheduled.
- TaskHarness.Harness.EndReady: the future's own code is not modelled; between BeginRun and EndReady or EndPending it is any moves of the other owners and calls on its waker.
- WakePath.SleeperIsWoken: the owner thread is taken to outlive the run (its queue and its channel are not dropped). It excepts the parks whose early reap took the only wake of the channel or woke the task; that these are all, and that they happen, is proved (`WakePath.BlockedWithWorkIff`, `Parking.EarlyReapLosesAWake`, `WakePath.EarlyReapStrandsATask`).
- WakePath.BlockedWithWorkIff: it is about one task cell; a task of another cell that the same tick wakes is that cell's case.
- TaskTheorems.NoLostWake: a Task thrown away with its run queue (TaskQueue::drop) and wakers sent to a closed channel are exempt, as in the source.
- The unpark handle and waker sender caches of the runtime context; a sender always reaches the owner's channel or finds it closed.
- Slab.Slab.Insert: success whenever any slot is free is not claimed, since pages before the write page are skipped until compaction; the "out of slot" panic is the result None.
- UringTable.StepKeepsInv: one completion per submission is assumed of the kernel; an AsyncCancel has no effect of its own beyond that.
- UringDriver.UringInner.PollOp: an Op is not polled again after it was ready (the source panics).
- The `poll-io` feature of the uring driver (with it, room may be needed in the submission queue for its poller too), and `poll_legacy_op`, which repeat the legacy paths.
- Parking.NoLostUnpark: for uring it excludes runs in which an early reap takes the only wake; the counterexample is proved.
- The uring submission queue has room after `flush_space`; a failed push is not modelled.
- LinkedList.DrainFilter.Next: the filter is a function of the node's value; it does not change it.
- LegacyDriver.LegacyInner.PollOperation: a lost resource (the source panics) is a precondition.
- BufReader.BufReader.Read: the inner reader is assumed to take nothing when it fails, and to read nothing only at its end.
- BufReader.ReadLine: UTF-8 validity is a parameter.
- BufWriter.BufWriter.Write: byte equality after a failed flush that had written a part; the state `resends` marks it.
- StreamWrapper.StreamWrapper.PollFlush: the wrapped stream's flush is taken to cover what had been written when its future was made.
- StreamWrapper.StreamWrapper.PollWrite: byte equality after a write error; the state `failed` marks it.
- Vectored reads and writes, `IoVecMeta`, Cursor, SharedFd, the timer wheel, file system and socket wrappers, Windows, and the web crates: foreign calls, or easy members.
- Interval.Interval.PollTick: overflow of Instant and Duration; instants are unbounded.
