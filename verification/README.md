# A verified model of the async-unsync semaphore and bounded channel

This project models two parts of the Rust crate async-unsync and proves properties of them:

* the FIFO semaphore of `src/semaphore.rs`: a pool of permits, a closed flag and an intrusive doubly
  linked list of waiters that live inside the `Acquire` futures;
* the bounded channel built on it: the queue of `src/queue.rs`, the sender mask of `src/mask.rs` and
  the handles and permits of `src/bounded.rs`.

Each part is modelled twice. The *value* level (`SemaphoreModel`, `MaskModel`, `ChannelModel`) says
what each operation does to an immutable state; on it the properties of operations and of whole runs
are proved. The *object* level (`SemaphoreHeap`, `MaskHeap`, `ChannelHeap`, `ChannelHandles`) has the
source's form: classes with mutable fields, `next`/`prev` pointers, loops. Every method there is
proved to change the objects exactly as the function of the same name changes the value that the
objects represent (`View`), and to keep the heap invariant (`Valid`).

| file | contents |
|---|---|
| `Basics.dfy` | machine words, sums, sequences |
| `SemaphoreModel.dfy`, `SemaphoreSafety.dfy` | the semaphore's state, operations and invariant; properties of single operations |
| `SemaphoreGrants.dfy`, `SemaphoreMerge.dfy` | what `add_permits` hands out, when it conserves permits, when calls can be merged or swapped |
| `SemaphoreRuns.dfy` | arbitrary interleavings of operations and the ledger of permits |
| `SemaphoreWaiting.dfy`, `SemaphoreStarving.dfy` | how long a future waits, and when it waits for ever |
| `SemaphoreHistory.dfy` | the order of grants, wake-ups, closing |
| `SemaphoreOutcomes.dfy` | the answer of every operation and all it changes; from a request to its permit |
| `SemaphoreCancel.dfy` | cancelling commutes with adding permits |
| `SemaphoreHeap.dfy` | the semaphore as objects |
| `Mask.dfy` | the packed sender count |
| `ChannelModel.dfy`, `ChannelSlots.dfy` | the queue's state and operations; where its capacity is |
| `ChannelWorld.dfy`, `ChannelSafety.dfy`, `ChannelEffects.dfy` | the channel with all handles, permits and pending futures; every call keeps the invariant; what each call changes |
| `ChannelRuns.dfy`, `ChannelReceiver.dfy`, `ChannelMissed.dfy`, `ChannelSenders.dfy`, `ChannelTrace.dfy`, `ChannelWaiting.dfy` | properties of all runs of a channel |
| `ChannelOutcomes.dfy` | the answer of every call on a channel, and who holds what after it |
| `ChannelHeap.dfy`, `ChannelHandles.dfy` | the queue, the handles and the permits as objects |

How the program's environment appears in the model: a waker is an identity and a call of it is an
entry in a log; a future is numbered in the order of creation, and dropping it marks it as not live; a
semaphore permit is its count. A run is a sequence of calls, each of which must be possible by the
rules of ownership (a future is polled while it exists, a handle is dropped once, the channel is split
while nothing borrows it). Every choice of calls, wakers, amounts and poll order is a run.

## Where the code and its documentation differ

The model follows the code.

* `src/semaphore.rs:316` stores `diff - n` as the amount a partly served waiter holds, where `permits + n`
  would be what it was given. `Misfit` is their difference and `Fits` says that it is zero: the
  request is twice the sum, in particular for all requests of one or two permits. Conservation
  (`AddPermitsConserves`), merging (`AddPermitsIsAdditive`), swapping (`AddsCommute`), cancelling
  (`CancelCommutesWithAdd`) and waiting (`ExactWaitingBound`, `MissingShrinksExactly`,
  `WaitingLedger`) are stated with it as equivalences or exact sums for every request size.
  `PartialGrant` and `PartialGrantOfThree` are runs on which a permit is created or lost. Adding n
  permits again and again never completes any waiter, if and only if n is zero or the waiter at the
  front holds at least one permit and that and n together are fewer than it wants
  (`StarvesExactly`, `RunStarvesExactly`): two such calls then undo each other
  (`TwiceIsNothingExactly`). Otherwise a waiter is completed by two calls for itself and two for each
  waiter ahead. The smallest cases are a request for three on a semaphore with one permit
  (`RequestForThreeStarves`) and one for four with two (`RequestForFourStarves`).
* `src/queue.rs:364` says that the subtraction in `reset` cannot underflow. It can: `SplitOverbooks` is a run in
  which a channel that holds elements is split, used, and split again when its handles are gone.
  `SplitUnits` states exactly when splitting succeeds and what exists afterwards; `CapacityConserved` is
  the exact sum for all runs, and `TidyRunsStayWithinCapacity` the case in which the queue is empty at
  every split. `SplitOverflowsExactly` says for every run that the subtraction underflows if and only if
  fewer elements are queued than at the last split.
* `src/mask.rs:13` says that `reset` clears the closed bit. In counted mode it does not; a channel that was
  closed stays closed when it is split.
* `src/bounded.rs:66` says that `from_iter` panics on a capacity of zero. It does not. Without elements it creates a
  channel on which no send or reserve ever succeeds (`ZeroCapacityServesNobody`) and on which senders
  wait without a cause (`ZeroCapacityWaitsInVain`); `BlockedSendersHaveCause` states that this is the only
  way to create such a channel.

## Model

| member | source | states |
|---|---|---|
| SemaphoreModel.AddKeepsInv | src/semaphore.rs:303-339 | permits are only in the pool while nobody waits, only the front waiter holds a part of its request, and the queue is exactly the live Waiting futures: handing out permits keeps all of it |
| SemaphoreModel.DetachKeepsInv | src/semaphore.rs:251-264 | removing a future from any place of the queue keeps the same invariant |
| SemaphoreSafety.PollKeepsInv | src/semaphore.rs:364-425 | so does polling, in every state of the future |
| SemaphoreSafety.CloseKeepsInv | src/semaphore.rs:286-294 | so does closing: no live future is left Waiting |
| SemaphoreSafety.NoBarging | src/semaphore.rs:343-425 | while anybody waits, every immediate acquisition fails and a newly polled future joins the tail and changes nothing else |
| SemaphoreSafety.ExactFulfilment | src/semaphore.rs:225-247 | the first Ok result of a future counts exactly what the future wants, however it was collected; on a closed semaphore no future resolves to Ok |
| SemaphoreOutcomes.StrictAcquireExactly | src/semaphore.rs:343-362 | try_acquire_many(n) succeeds if and only if the semaphore is open and the pool covers n, and then takes exactly n; otherwise nothing changes and the error is Closed if and only if the semaphore is |
| SemaphoreOutcomes.PartialAcquireExactly | src/semaphore.rs:343-362 | the acquisition inside a first poll takes what there is, and fails if and only if that is nothing or the semaphore is closed |
| SemaphoreOutcomes.ClosedPollExactly | src/semaphore.rs:231-243 | a refused poll takes no permit from the future or the pool, and changes no other future |
| SemaphoreOutcomes.FirstPollExactly | src/semaphore.rs:382-425 | the first poll resolves if and only if the pool covers the request; otherwise the future takes the whole pool, registers its waker and is queued last; no other future changes |
| SemaphoreOutcomes.DropExactly | src/semaphore.rs:250-271 | dropping a future deletes it from its place and hands what it held to the longest prefix of the others that it covers |
| SemaphoreOutcomes.RequestAtOnce | src/semaphore.rs:108-116 | on every state, acquire_many(w) and a first poll issue a permit of w if and only if the semaphore is open and the pool covers w, and take min(w, pool) permits if it is open |
| SemaphoreOutcomes.RequestIsHonoured | src/semaphore.rs:225-247 | over every run from acquire_many(w) on, the first Ready result of its future, if it is Ok, issues a permit of exactly w |
| SemaphoreGrants.PrefixUnique | src/semaphore.rs:303-339 | there is exactly one longest prefix of waiters whose needs n permits cover |
| SemaphoreGrants.AddPermitsIsGreedy | src/semaphore.rs:303-339 | the loop grants exactly that prefix in order, gives the rest to the next waiter, and fills the pool only if nobody is left |
| SemaphoreGrants.AddPermitsConserves | src/semaphore.rs:303-339 | a call neither creates nor loses permits if and only if its last permits fit and the pool does not overflow |
| SemaphoreRuns.PartialGrant | src/semaphore.rs:311-317 | on a new semaphore, a first future that is served in part ends up holding what it still misses, which is what exists if and only if it wants twice that |
| SemaphoreRuns.PartialGrantOfThree | src/semaphore.rs:314-317 | a run on which one added permit becomes two, and a run on which two become one |
| SemaphoreGrants.AddTwiceIsAddOnce | src/semaphore.rs:303-339 | adding a and then b is adding a + b: same waiters, queue, pool and wake-ups in the same order |
| SemaphoreGrants.AddPermitsIsAdditive | src/semaphore.rs:303-339 | it is so if and only if b is zero or the permits of the first call fit |
| SemaphoreMerge.TwiceIsOnce | src/semaphore.rs:303-339 | for every request size, where nobody has collected anything, two calls are one with the permits created by the first on top |
| SemaphoreMerge.AddsCommute | src/semaphore.rs:303-339 | two calls can be swapped if and only if one of them adds nothing or their misfits are equal |
| SemaphoreRuns.StepConserves | src/semaphore.rs:64-68 | every operation's change of the total is what was added less what was removed or forgotten, if and only if what it hands out fits |
| SemaphoreRuns.RunLedger | src/semaphore.rs:144-157 | the exact ledger of every run, for every mix of request sizes |
| SemaphoreRuns.RunConserves | src/semaphore.rs:225-270 | requests of at most two: pool, permits inside futures and issued permits are the initial ones plus added less removed and forgotten, on every run |
| SemaphoreRuns.NewRunConserves | src/semaphore.rs:23-25 | the same for a semaphore from its creation on |
| SemaphoreWaiting.ExactWaitingBound | src/semaphore.rs:303-339 | for every request size, n permits complete a queued future if and only if they reach what is missing for it and those ahead; otherwise what is missing falls by n and the permits the call creates, which is exactly n if and only if they fit |
| SemaphoreWaiting.MissingShrinksExactly | src/semaphore.rs:311-317 | adding permits leaves no more missing than before if and only if the future is completed or the part that is given helps |
| SemaphoreWaiting.CancelAhead | src/semaphore.rs:251-264 | cancelling a waiter ahead lowers what is missing by that waiter's need; cancelling another leaves it |
| SemaphoreWaiting.StepMissing | src/semaphore.rs:303-425 | for every operation and request size: the future is completed if and only if the operation hands out what is missing after a cancellation ahead, and otherwise exactly what is handed out or created is no longer missing |
| SemaphoreWaiting.NotQueuedAgain | src/semaphore.rs:382-425 | a future that has left the queue is in it in no later state of any run |
| SemaphoreWaiting.WaitingLedger | src/semaphore.rs:303-425 | on every run and for every mix of request sizes, what is missing for a future that is still queued is what was missing, less what was handed out, less the needs of those cancelled ahead, less the permits created |
| SemaphoreWaiting.BoundedWaiting | src/semaphore.rs:303-425 | for requests of at most two, a future is still queued after a run if and only if less was handed out and cancelled ahead than was missing for it |
| SemaphoreStarving.TwiceIsNothingExactly | src/semaphore.rs:311-317 | in every well-formed state two calls that add n permits undo each other if and only if the front waiter holds a permit and n more do not complete it |
| SemaphoreStarving.StarvesExactly | src/semaphore.rs:303-339 | for every queued waiter and request size: however often n permits are added, it is never completed, if and only if n is zero or that holds of the front waiter; otherwise two calls for it and for each waiter ahead complete it |
| SemaphoreStarving.RunStarvesExactly | src/semaphore.rs:303-339 | the same on runs |
| SemaphoreStarving.FirstRequestStarvesExactly | src/semaphore.rs:311-317 | a first request on a new semaphore with fewer permits is never woken by adding n again and again, if and only if n is zero, or there was a permit and that and n are fewer than it wants |
| SemaphoreStarving.RequestForThreeStarves | src/semaphore.rs:314-317 | a request for three with one permit is never completed by single permits, each of which is lost, but is by two at a time |
| SemaphoreStarving.RequestForFourStarves | src/semaphore.rs:314-317 | a request for four with two permits is never completed by single permits, the first of which increases what is missing and the second of which takes that back |
| SemaphoreHistory.FirstComeFirstServed | src/semaphore.rs:303-425 | on every run grants are in enqueueing order; every enqueued future is still queued, granted, dismissed by close or cancelled, exactly one of these; the waker calls are one call of the first waker of each granted and then each dismissed one, all in enqueueing order |
| SemaphoreHistory.ClosedMeansEmpty | src/semaphore.rs:286-294 | nobody is queued on a closed semaphore |
| SemaphoreHistory.ClosedStepConserves | src/semaphore.rs:251-270 | on a closed semaphore accounting is exact for every request size |
| SemaphoreHistory.ClosedForGood | src/semaphore.rs:286-294 | after close no call of any run issues a permit, and the semaphore stays closed and its queue empty |
| SemaphoreHistory.ClosedRunConserves | src/semaphore.rs:251-270 | after close no permit is created or lost on any run, for every mix of request sizes |
| SemaphoreHistory.CloseLosesNothing | src/semaphore.rs:152-157 | once every future and permit is dropped after a close, the pool holds everything that existed at the close |
| SemaphoreCancel.CancelCommutesWithAdd | src/semaphore.rs:251-270 | for every request size, adding n and then dropping a future leaves the pool, the queue and all others as dropping it first, if and only if the call does not touch the future or the misfit of the added permits equals that of the returned ones |
| SemaphoreCancel.CancelCommutesForSmall | src/semaphore.rs:251-270 | for requests of at most two it always does, whatever the future's place and partial or full grant |
| SemaphoreHeap.WaiterQueue.Len | src/semaphore.rs:450-462 | walking the list counts the represented sequence |
| SemaphoreHeap.WaiterQueue.PushBack | src/semaphore.rs:469-482 | the pointers represent the sequence with the waiter appended |
| SemaphoreHeap.WaiterQueue.TryRemove | src/semaphore.rs:490-506 | the pointers represent the sequence without the waiter, wherever it was; its own links stay as they were |
| SemaphoreHeap.WaiterQueue.PopFront | src/semaphore.rs:515-522 | the pointers represent the sequence without its first waiter |
| SemaphoreHeap.WaiterQueue.WakeAll | src/semaphore.rs:525-543 | every queued waiter becomes Woken and its waker is called, front first |
| SemaphoreHeap.BypassedIsLinked | src/semaphore.rs:490-506 | bypassing the k-th node in both directions leaves a well-formed list without it |
| SemaphoreHeap.Semaphore.AddPermits | src/semaphore.rs:303-339 | the loop over the objects is the greedy hand-out on the value |
| SemaphoreHeap.Semaphore.TryAcquire | src/semaphore.rs:343-362 | strict and non-strict acquisition on the objects |
| SemaphoreHeap.Semaphore.RemovePermits | src/semaphore.rs:64-68 | saturating removal on the objects |
| SemaphoreHeap.Semaphore.PollAcquireInitial | src/semaphore.rs:382-425 | the first poll on the objects, including the push onto the list |
| SemaphoreHeap.Semaphore.PollAcquire | src/semaphore.rs:225-247 | polling on the objects, in every state of the waiter |
| SemaphoreHeap.Semaphore.DropAcquire | src/semaphore.rs:250-271 | dropping a future unlinks it first and then hands its permits on |
| SemaphoreHeap.Semaphore.Close | src/semaphore.rs:286-294 | closing on the objects |
| SemaphoreHeap.Semaphore.Waiters | src/semaphore.rs:46-49 | the number of waiters reported is the length of the queue |
| MaskModel.PackedInjective | src/mask.rs:4-6 | the word determines the sender count and the closed flag |
| MaskModel.CountedMeaning | src/mask.rs:14-65 | what every operation on the word means for count and flag: the flag is never cleared, and exactly the decrement to zero reports the last sender |
| MaskHeap.Mask.DecreaseSenderCount | src/mask.rs:48-65 | the decrement on the object |
| MaskHeap.Mask.Close | src/mask.rs:32-38 | setting the closed bit on the object |
| ChannelSlots.TrySendUnits | src/queue.rs:146-164 | a send succeeds if and only if the channel is open and a slot is free; it moves one unit into the queue, and a failed one returns the element and changes nothing |
| ChannelOutcomes.TrySendExactly | src/queue.rs:146-164 | Closed if and only if the channel is closed, Full if and only if it is open without a free slot, with the element in either case |
| ChannelSlots.TryReserveUnits | src/queue.rs:187-203 | a reservation succeeds if and only if the channel is open and a slot is free, and moves one unit; otherwise nothing changes, and the error is Closed on a closed channel and Full on an open one |
| ChannelOutcomes.ReserveOutcome | src/bounded.rs:437-443 | a permit of the right kind exists afterwards if and only if it succeeded, and a failed owned reservation keeps its sender |
| ChannelOutcomes.PollOutcome | src/bounded.rs:510-516 | how a poll of a pending send, reserve or owned reserve ends, and which permit or sender it leaves, from the closed flag and its unit |
| ChannelOutcomes.CancelOutcome | src/bounded.rs:510-516 | a cancelled operation leaves no permit, and the sender of an owned reserve is gone |
| ChannelOutcomes.PermitOutcome | src/bounded.rs:924-938 | every use of a permit consumes exactly one of its kind, and only sending through an owned one gives a sender back |
| ChannelOutcomes.TryRecvExactly | src/queue.rs:377-393 | the first element, else Disconnected if and only if the channel is closed and nothing is reserved, else Empty |
| ChannelOutcomes.PollRecvExactly | src/queue.rs:317-334 | the first element, else finished under the same condition, else Pending |
| ChannelSlots.PollSlotUnits | src/queue.rs:167-185 | a pending send keeps its unit in the semaphore, a granted one takes exactly one, a refused one (if and only if closed) returns what it held |
| ChannelSlots.UnreserveUnits | src/queue.rs:225-232 | an unused reservation returns its unit |
| ChannelSlots.TryRecvUnits | src/queue.rs:377-393 | receiving returns the first element and its unit; failing changes nothing |
| ChannelSlots.SplitUnits | src/queue.rs:311-315 | splitting succeeds if and only if the pool is within the capacity, and leaves the capacity and the queued elements on top of it |
| ChannelSafety.PerformKeepsGood | src/bounded.rs:94-110 | every call keeps capacity, futures, reservations and handle counts consistent |
| ChannelSafety.PollKeepsGood | src/queue.rs:167-223 | so does polling a pending send, reserve or owned reserve |
| ChannelSafety.CancelKeepsGood | src/bounded.rs:510-516 | so does dropping it, with the sender it holds |
| ChannelEffects.GrantedWhen | src/queue.rs:167-223 | a pending send resolves to Ok if and only if the channel is open and it has been given a unit or finds a free one at its first poll |
| ChannelEffects.CallEffect | src/queue.rs:146-393 | each successful send and each consumed permit adds exactly its element, each successful receive removes exactly the first; nothing else touches the elements, and only reserves and permits change the reservations |
| ChannelRuns.NewIsCreated | src/queue.rs:98-104 | a channel created by its capacity alone is the one that the run theorems start from, and a capacity of zero panics |
| ChannelRuns.CreatedExactly | src/queue.rs:115-128 | a created channel is open, has the capacity asked for unless there are more elements, and has free what they do not take |
| ChannelRuns.CapacityConserved | src/queue.rs:115-232 | on every run, free permits, units of woken futures, queued elements and reservations add up to the capacity plus what was queued at the last split |
| ChannelRuns.TidyRunsStayWithinCapacity | src/queue.rs:363-368 | if nothing is queued at any split, they add up to the capacity, and splitting cannot overflow |
| ChannelRuns.SplitOverflowsExactly | src/queue.rs:363-368 | on every run, an unshared channel can be split without overflow if and only if at least as many elements are queued as at the last split |
| ChannelRuns.SplitOverbooks | src/queue.rs:363-368 | a run from creation to a state in which the channel may be split again, and in which that overflows |
| ChannelRuns.NothingIsLost | src/queue.rs:263-292 | initial elements followed by sent ones are the received ones followed by the queued ones, in order, on every run |
| ChannelEffects.HandleInUse | src/mask.rs:48-51 | whenever a handle is dropped the count in the mask is at least one, so the decrement never underflows |
| ChannelRuns.HandlesStep | src/bounded.rs:519-532 | the mask counts the handles, including those inside owned permits and pending owned reserves; the last one is reported exactly when the count becomes zero |
| ChannelRuns.LastSenderReportedOnce | src/mask.rs:48-65 | over every run there is exactly one report per split, as soon as no handle is left, and the closed flag is never cleared |
| ChannelReceiver.CallAlert | src/queue.rs:249-268 | the receiver's waker is called exactly when an element is pushed or the last sender goes, and which waker is registered afterwards |
| ChannelReceiver.MissedExactly | src/queue.rs:371-375 | a waiting receiver that could continue has been woken, except after exactly these calls: its own close when nothing is reserved, and giving back the last reservation of a closed channel without dropping its last sender |
| ChannelMissed.CloseMissesTheReceiver | src/queue.rs:371-375 | a run on which the receiver polls, closes the channel, and is not woken although the channel is disconnected |
| ChannelMissed.DropMissesTheReceiver | src/bounded.rs:898-902 | a run on which dropping the last permit of a closed channel does not wake the receiver |
| ChannelMissed.OwnedDropMissesTheReceiver | src/bounded.rs:932-938 | a run on which dropping the last owned permit does not, since another sender handle is left |
| ChannelReceiver.ReceiverMissesNothing | src/queue.rs:317-334 | unless the receiver closes the channel, a Pending poll that has not been woken since would still be Pending |
| ChannelReceiver.ReservationsAreBacked | src/bounded.rs:932-938 | without a sender handle there is no reservation and no pending send |
| ChannelReceiver.DrainingIsExact | src/queue.rs:371-393 | after a close what can be received is exactly the queued elements followed by those sent through the reservations of that moment |
| ChannelReceiver.DrainingIsBounded | src/bounded.rs:891-902 | together no more than the units that exist, and all of them have been received when Disconnected is reported |
| ChannelReceiver.DrainingWithinCapacity | src/queue.rs:371-393 | if nothing was queued at any split before the close, no more than the capacity is received after it |
| ChannelReceiver.DisconnectedForever | src/queue.rs:388-391 | once Disconnected is reported it stays so, and nothing is sent or received any more |
| ChannelSenders.BlockedSendersHaveCause | src/queue.rs:115-128 | on every run a sender waits only while there is an element to receive, an outstanding permit or a sender that was given a unit but has not been polled, if and only if the channel is created with a capacity or with elements |
| ChannelSenders.ZeroCapacityServesNobody | src/queue.rs:115-128 | on a channel created with neither, no call of any run sends or reserves anything |
| ChannelSenders.ZeroCapacityWaitsInVain | src/queue.rs:205-223 | a run on which a reserve waits without a cause |
| ChannelSenders.UnitGoesToHead | src/queue.rs:377-393 | whichever of these is released, the first waiting sender, and nobody else, is given the unit and woken |
| ChannelSenders.HolderTakesUnit | src/queue.rs:167-185 | a sender that was given a unit takes it at its next poll on an open channel |
| ChannelTrace.ChannelRunIsSemaphoreRun | src/queue.rs:146-232 | every run of a channel is, for its semaphore, a run of semaphore operations |
| ChannelTrace.SendersFirstComeFirstServed | src/queue.rs:167-223 | on every run of a channel, waiting senders are served in the order in which they started to wait, and the waker calls of the granted and then the dismissed ones are in that order, one each |
| ChannelWaiting.PlaceStep | src/queue.rs:225-232 | every call moves a waiting sender forward by exactly the units it gives up and the senders ahead that it cancels, and wakes it when that takes it off the queue |
| ChannelWaiting.SendersWaitExactly | src/queue.rs:167-232 | on every run, a sender at place k waits if and only if at most k units have been given up or senders ahead cancelled |
| ChannelWorld.TaskAwaitsSlot | src/queue.rs:167-223 | a poll of a pending send or reserve in a run is the poll that the objects perform |
| ChannelHeap.Queue.TrySend | src/queue.rs:146-164 | try_send on the objects |
| ChannelHeap.Queue.TryReserve | src/queue.rs:187-203 | try_reserve on the objects |
| ChannelHeap.Queue.Unreserve | src/queue.rs:225-232 | unreserve on the objects |
| ChannelHeap.Queue.PollSend | src/queue.rs:167-185 | one poll of a send on the objects, from creating its Acquire future to dropping it |
| ChannelHeap.Queue.PollReserve | src/queue.rs:205-223 | one poll of a reserve on the objects |
| ChannelHeap.Queue.CancelSlot | src/queue.rs:167-223 | dropping a pending send or reserve on the objects drops its Acquire future |
| ChannelHeap.Queue.TryRecv | src/queue.rs:377-393 | try_recv on the objects |
| ChannelHeap.Queue.PollRecv | src/queue.rs:317-334 | poll_recv on the objects |
| ChannelHeap.Queue.Close | src/queue.rs:371-375 | close on the objects |
| ChannelHeap.Queue.DecreaseSenderCount | src/queue.rs:249-255 | the last sender takes and calls the receiver's waker |
| ChannelHeap.Queue.SetCounted | src/queue.rs:311-315 | splitting on the objects, and when it panics |
| ChannelHandles.Sender.Clone | src/bounded.rs:519-525 | cloning counts one more handle or panics |
| ChannelHandles.Sender.TryReserveOwned | src/bounded.rs:437-443 | the sender moves into the permit, or comes back with the error |
| ChannelHandles.Permit.Send | src/bounded.rs:891-902 | sending through a permit consumes its reservation |
| ChannelHandles.OwnedPermit.Send | src/bounded.rs:924-930 | the sender is taken out of the permit and survives it |
| ChannelHandles.OwnedPermit.Drop | src/bounded.rs:932-938 | the unit is given back first and the sender dropped afterwards |

## Left out

- The one-shot channel (`src/oneshot.rs`), the unbounded channel (`src/unbounded.rs`) and the unbounded queue: they have no semaphore, and would add easier copies of the properties of the bounded one.
- `src/error.rs`, formatting, and the accessors `len`, `is_empty`, `capacity`, `same_channel`; `into_deque`.
- `SenderRef` and `ReceiverRef`: they do the same as `Sender` and `Receiver`, and one kind of handle stands for both. That the owning handles can outlive the channel value is not modelled; runs in which the channel is used again after its handles are gone are.
- `VecDeque` and `pop_count`: the queue is a sequence, since shrinking does not change its contents.
- `mem::forget` of futures and handles by the program: a forgotten future stays live for ever in the model.
- Wakers that panic or call back into the channel while they are called.
- `Pin`, `UnsafeCell`, `Rc`, lifetimes and the executor: ownership is the condition under which a call is possible (`Enabled`), and a future is an object that is not moved. How many permits and tasks borrow is counted, not which handle each borrows from, so a sender handle may be dropped while something borrows as long as another handle remains; this allows more runs than the program has.
- Memory limits: a channel is created with at most 2^64 - 1 elements, and runs in which a channel is split while capacity and queued elements together exceed that number are not considered.
- `Shared` and `Semaphore` are one class, the body of the `add_permits` loop is split into a method per branch, and building an `Acquire` future is part of the first poll of a send.
- CancelCommutesWithAdd: supposes that the added and the returned permits together fit a machine word, so that the pool does not saturate.
- RunConserves: for requests of at most two permits and totals within a machine word; RunLedger is the exact statement for the others.
- BoundedWaiting: for requests of at most two permits; WaitingLedger is the exact statement for the others, and StarvesExactly says when the bound fails for them if the same amount is added again and again.
