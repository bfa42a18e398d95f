# A verified model of the virtio GPIO driver's virtqueue and request protocol

The driver talks to a virtio device through a split virtqueue (VIRTIO 1.2, section 2.7): a descriptor table, an
available ring on which the driver publishes chains of descriptors, and a used ring on which the device returns
them. Both rings are indexed by 16-bit counters that run freely and wrap. Any number of threads send GPIO requests
over one queue; each fills two descriptors, publishes them, and sleeps on a semaphore in a context on its own stack.
An interrupt thread collects the completions, copies each response into the right context, posts its semaphore and
frees the two descriptors. The device may answer in any order.

The project proves that this works: nothing is lost, duplicated, delivered to the wrong caller, overwritten or
leaked, over runs of any length, for any interleaving, and through every wrap of the 16-bit indices.

## How it is built

Three layers, each proved against the one below it.

- **Classes.** `Fifo` is a ring of elements in one flat byte array. `Virtq` holds the table, the rings with their
  16-bit indices, and its free list as a `Fifo` of two-byte elements. `GpioDevice` sends requests and drains
  completions, `MmioDevice` acknowledges the interrupt and drains. Their methods use the loops of the source and are
  proved against functions on a queue value (`VirtqSpec`, `GpioSpec`).
- **Functions on the queue value**, with the laws that hold of uninterrupted calls: chain round trip, rollback of
  failed requests, what a whole drain delivers.
- **A step system** (`Protocol`) in which callers, the device and the interrupt thread interleave. A step is one
  access of the source; allocation, freeing, publishing and hand-over are taken apart. An access to unmapped
  memory, outside the table, to a context that is no longer on a stack, or against a descriptor's direction or
  length sets a fault flag. One inductive invariant (`Invariant`, kept by every step in `CallerSteps`,
  `DeviceSteps`, `HandlerSteps`) gives the safety theorems in `Safety`; a rank function bounds the length of every
  run in `Liveness`, `Delivery` bounds how long a completion can take to be handed over, and `Fairness` treats runs
  that never end.

`Refinement` connects them: the steps of one call, taken without interference from any reachable state, come to
exactly what the functions, and so the methods, compute. `InterruptedWait` shows what an interrupted semaphore wait
breaks. `Calls` takes the public calls end to end. `Layout`, `Polling`, `DeviceBus` and `DeviceQueues` treat the legacy
memory layout, the bounded polls, and the registers behind the device lock. `Wire` says byte by byte what the device
is to find in memory, and its literal bits and bytes are what the theorems about requests, descriptors and layout are
stated in.

| file | contents |
|---|---|
| `Words.dfy` | 16-bit indices; `idx % num` survives the wrap exactly for powers of two |
| `Wire.dfy` | the bytes of requests, responses, descriptors and rings |
| `Fifo.dfy` | `utils/fifo/fifo.c` |
| `VirtqSpec.dfy`, `Virtq.dfy` | `src/virtio/virtq.c` as functions, and as a class |
| `GpioSpec.dfy`, `Gpio.dfy` | requests and the drain loop of `src/gpio/gpio.c`, the callback of `src/virtio_mmio/virtio_mmio.c` |
| `Protocol.dfy` | the interleaved steps and their runs |
| `Invariant.dfy`, `Frames.dfy`, `CallerSteps.dfy`, `DeviceSteps.dfy`, `HandlerSteps.dfy`, `Reach.dfy` | the invariant and its proof |
| `Changes.dfy` | what each step changes outside the descriptor table |
| `Safety.dfy` | what holds in every reachable state |
| `Liveness.dfy`, `Delivery.dfy`, `Fairness.dfy` | that every call returns, how soon a completion is handed over, and endless runs under fairness |
| `Refinement.dfy` | uninterrupted runs of the steps equal the calls |
| `Calls.dfy` | the four public calls, end to end |
| `InterruptedWait.dfy` | an interrupted semaphore wait |
| `Layout.dfy`, `Polling.dfy` | legacy layout; reset polls |
| `DeviceBus.dfy`, `DeviceQueues.dfy` | status register, queue selector, start of notifications; what the queue registers hold and answer, and what the initialisation leaves |

## Assumptions about the environment

- The queue size is a power of two up to 32768, as `src/virtio/virtq.h:40` and section 2.7 of VIRTIO 1.2 demand;
  `SlotArithmeticExact` shows that the slot arithmetic needs the power of two.
- Driver and device use the same size. `SizesAgreeExactly` shows when the code ensures this.
- The queue memory starts zeroed; `virtq_create` does not set the used index. A legacy queue is one whose used ring
  fits its mapping (`UsedFitsExact`).
- The device publishes only heads it took from the available ring, each once, does not write the descriptor table,
  and writes a used element before the used index. It may otherwise answer what and when it likes.
- Memory is sequentially consistent. Taking a lock or waiting on a semaphore succeeds; `InterruptedWaitExact` shows
  that the code depends on the latter.
- The interrupt line stays asserted while its bit is set, so the thread's wait ends then. It may also end without.
- Obtaining a DMA buffer fails with some error, or gives a zeroed buffer at a new non-zero address. Unmapping a
  buffer obtained this way succeeds; unmapping what is not mapped, address 0 included, is refused with -1. A buffer has one address, for driver and device alike.
- `*count` passed to `virtq_get_desc_chain` is below 65536, since its loop counter has 16 bits.
- A fifo's buffer is allocated, and the product of its capacity and element size fits a size_t.
- `delay` called with a positive time leaves less of it.
- The device's status register is 0 after the reset and only the driver writes it.

## Where the code does not do what it says

Each of these is a lemma or method below with the exact condition.

- `virtq_create` with a size of 65536 or more loops until the fifo is full, then returns EOK without having made a
  queue: the error path returns the code of the last call that worked (`Create`, `FillFreeList`). No caller in the
  repository passes such a size: `virtio_create_queue` passes a 16-bit one.
- The legacy mapping sizes its tail from the available ring, so the used ring runs past the mapping for more than
  511 entries at 4096-byte pages (`UsedFitsAt4096`). With pages of 65536 bytes or more the mapping asked for has 0
  bytes (`UsedFitsExact`).
- `virtq_put_desc_chain` resets the tail's link but not its NEXT flag: the chain is right exactly when that flag was
  clear before (`LinkChainExact`). Freshly allocated descriptors satisfy this; putting a pair and then its first
  descriptor alone does not (`TailFlagSurvives`, `TailFlagWitness`).
- `virtio_reset_queue` tests a local that was never set; it may report EOK although the device never did, exactly
  when that local holds 0 (`QueueResetHonestExactly`).
- `virtio_create_queue` builds its queue with the requested size cut to the device's maximum but tells the device the
  requested size: they agree exactly when that lies between 1 and the maximum (`SizesAgreeExactly`); with 0, or one
  more than the maximum, they differ (`SizesDiffer`).
- The wait of a call is meant to be repeated when it is interrupted, but `sem_wait` then returns -1 and not EINTR, so
  the call returns and leaves its context recorded for a chain in flight. If the semaphore had been posted already,
  everything proved of the protocol goes on to hold on every run; if not, some run writes to the context that is
  gone. `InterruptedWaitExact` states both, `InterruptedWitness` gives a first request on which it happens.
- With an interval of 0 the reset poll does not end while the device stays busy (`EndsExactly`). The repository sets
  10 ms, `src/virtio/virtio.c:374-380`.
- An empty free list is reported as ENOENT, although `src/virtio/virtq.h:114` names ENOMEM. The model follows the code.

## Model

| member | source | states |
|---|---|---|
| Words.SlotArithmeticExact | src/virtio/virtq.c:504 | the slot computed from the 16-bit index is the slot of the unbounded count, for every count, if and only if the size is a power of two |
| Words.WrappedEquality | src/virtio/virtq.c:542 | within one lap of the 16-bit circle wrapped indices are equal exactly when the unbounded counts are, and their wrapped distance is the true one |
| Words.IncWraps | src/virtio/virtq.c:507 | an index counts up and wraps from 65535 to 0; only 65536 increments lead back to it |
| Wire.RequestRoundTrip | src/gpio/gpio.c:60-64 | a device that is shown all bytes of a request reads back exactly its type, line and value, and from any proper prefix of them no request |
| Wire.ResponseRoundTrip | src/gpio/gpio.c:50-53 | status and value come back from the two bytes of a response, and from fewer nothing |
| Wire.DescRoundTrip | src/virtio/virtq.c:32-37 | address, length, flags and next stand at offsets 0, 8, 12 and 14 of the 16 bytes of a descriptor and read back |
| Fifos.Fifo.constructor | utils/fifo/fifo.c:29-58 | an empty fifo of any capacity and element size, both 0 included |
| Fifos.Fifo.Full | utils/fifo/fifo.c:85-92 | full exactly when the queue of elements has as many as the capacity |
| Fifos.Fifo.Put | utils/fifo/fifo.c:94-120 | appends the element to the queue of elements and writes only the bytes of its own slot; a full fifo, capacity 0 included, is left alone with ENOMEM and the modulo is not reached |
| Fifos.Fifo.Get | utils/fifo/fifo.c:122-148 | returns the oldest element byte for byte and removes it; an empty fifo leaves everything alone with ENOENT |
| Fifos.Fifo.CopyIn | utils/fifo/fifo.c:24-27 | writing one slot leaves every other slot and every byte outside it as it was |
| VirtqSpec.LinkChainExact | src/virtio/virtq.c:488-497 | for distinct descriptors the loop builds exactly the chain asked for if and only if the tail's NEXT flag was clear |
| VirtqSpec.TailFlagSurvives | src/virtio/virtq.c:488-497 | on every well-formed queue, putting a pair and then its first descriptor alone leaves that descriptor's NEXT flag set and its chain wrong |
| VirtqSpec.TailFlagWitness | src/virtio/virtq.c:488-497 | a queue of two on which that happens |
| VirtqSpec.LinkChainFrame | src/virtio/virtq.c:491-497 | chaining touches no descriptor that is not listed |
| VirtqSpec.WalkOfChain | src/virtio/virtq.c:547-562 | reading a chain back gives its descriptors in order, cut to the room, and reaches the end exactly when the room suffices |
| VirtqSpec.AllocKeepsWF | src/virtio/virtq.c:364-407 | allocation keeps the queue well formed and touches no entry that is in use, neither descriptor nor address and context, also when mapping fails |
| VirtqSpec.FreeKeepsWF | src/virtio/virtq.c:409-426 | freeing keeps the queue well formed, succeeds exactly when a buffer is mapped for the descriptor, otherwise passes on the -1 of munmap, and never finds the free list full |
| VirtqSpec.PutKeepsWF | src/virtio/virtq.c:488-510 | publishing keeps the queue well formed and changes no other descriptor |
| VirtqSpec.StepKeepsChain | src/virtio/virtq.c:364-571 | any operation on other chains leaves a live chain's entries as they are and its descriptors off the free list |
| VirtqSpec.ChainRoundTrip | src/virtio/virtq.c:488-571 | put a chain, let any operations on other chains and any device activity follow, then get it: exactly that list in order if there is room for it, else ENOMEM with the queue unchanged and the output array filled |
| Wire.Unle16Le16 | src/virtio/virtq.c:292-302 | an index survives its way through the byte fifo |
| Virtqs.Virtq.constructor | src/virtio/virtq.c:310-313 | a new queue is the empty queue of its size |
| Virtqs.Virtq.TakeFree | src/virtio/virtq.c:374-377 | the oldest free index comes off the list, or ENOENT |
| Virtqs.Virtq.ReturnFree | src/virtio/virtq.c:405-425 | the index goes to the end of the list, or is dropped with ENOMEM if the list is full |
| Virtqs.Virtq.AllocDesc | src/virtio/virtq.c:364-407 | the whole new queue on each of the paths: empty list, mapping failed, success |
| Virtqs.Virtq.FreeDesc | src/virtio/virtq.c:409-426 | the whole new queue; refused without change unless a buffer is mapped |
| Virtqs.Virtq.PutDescChain | src/virtio/virtq.c:488-510 | the loops on the real table and ring come to the chain function proved above |
| Virtqs.Virtq.LinkDescs | src/virtio/virtq.c:491-497 | the loop over the array of indices comes to the chaining function |
| Virtqs.Virtq.WalkChain | src/virtio/virtq.c:547-557 | the loop with its 16-bit counter writes exactly the walk to the output array, leaves the rest of it alone, and runs out of room exactly when the chain does not end within it |
| Virtqs.Virtq.GetDescChain | src/virtio/virtq.c:527-571 | new queue, return code, count and output array on each of the paths |
| Virtqs.Virtq.SetDescContext | src/virtio/virtq.c:512-525 | records the context, or is refused without change |
| Virtqs.Virtq.GetDescVaddr | src/virtio/virtq.c:428-441 | the recorded address for every index of the table, EINVAL for others |
| Virtqs.Virtq.GetDescContext | src/virtio/virtq.c:473-486 | the recorded context for every index of the table, EINVAL for others |
| Virtqs.FillFreeList | src/virtio/virtq.c:298-302 | the free list becomes 0, 1, ..., size-1, if and only if size is below 65536; with a larger size the 16-bit counter wraps and the loop ends on a full fifo |
| Virtqs.Create | src/virtio/virtq.c:241-333 | an empty queue of that size; a size of 65536 or more returns EOK and no queue |
| GpioSpec.FailedRequestRollsBack | src/gpio/gpio.c:247-279 | a request that fails at whichever step leaves rings, buffers and every entry in use as they were, the free entries too when they are all zero, the free list at most rotated, and returns the error of the step that failed |
| GpioSpec.RequestPublishes | src/gpio/gpio.c:241-273 | a request that goes through moves exactly two descriptors from the free list to a new chain at the end of the available ring: the first shows the device all bytes of a request, flag bit 0 set and bit 1 clear, and carries the context; the second gives it room for all bytes of a response, bit 0 clear and bit 1 set; every field of both entries as stated; nothing else changes |
| GpioSpec.FrontReads | src/gpio/gpio.c:211-213 | the next completion reads back as the two descriptors of the first pending entry |
| GpioSpec.HandledQueue | src/gpio/gpio.c:213-222 | one round frees exactly the entry's two descriptors and buffers |
| GpioSpec.HandleKeepsReady | src/gpio/gpio.c:211-226 | after one round the remaining completions are pending, whole and in the same order |
| GpioSpec.DrainedQueue | src/gpio/gpio.c:211-228 | a drain ends with last_seen_used equal to the used index and returns the descriptors of every pending completion in publication order |
| GpioSpec.DrainedBuffers | src/gpio/gpio.c:221-222 | a drain unmaps exactly the buffers of the pending completions |
| GpioSpec.DrainedDelivers | src/gpio/gpio.c:152-175 | every pending completion is delivered once: its own status and value to its own context, one post |
| GpioSpec.DrainedOthers | src/gpio/gpio.c:152-175 | no other context changes |
| Gpios.GpioDevice.Request | src/gpio/gpio.c:241-280 | the calls of one request come to the request function, notify the device exactly on success, and touch no context |
| Gpios.GpioDevice.FillAndPut | src/gpio/gpio.c:259-270 | the request is written and tagged with its context before the chain is put |
| Gpios.GpioDevice.WriteAndTag | src/gpio/gpio.c:259-268 | the request goes to the first descriptor's buffer and the context to its entry |
| Gpios.GpioDevice.Fetch | src/gpio/gpio.c:211-212 | collects the next pending entry's two descriptors, or ENOENT |
| Gpios.GpioDevice.HandleRound | src/gpio/gpio.c:214-222 | the body of the drain loop comes to one round of the drain function |
| Gpios.GpioDevice.RunRound | src/gpio/gpio.c:214-222 | callback on the entry's own response and context, then both of its descriptors are freed |
| Gpios.GpioDevice.HandleCompletions | src/gpio/gpio.c:201-229 | the drain loop comes to the drain function and returns ENOENT with nothing pending |
| Gpios.GpioDevice.RunCallback | src/gpio/gpio.c:152-175 | status, value and one post go to that context only |
| Gpios.MmioDevice.VirtqCallback | src/virtio_mmio/virtio_mmio.c:487-515 | bit 0 of the interrupt status is acknowledged, all others are kept, and the loop drains everything pending |
| Reach.StepInv | src/virtio/virtq.c:364-571 | every step of every actor keeps the invariant |
| Reach.ReachableInv | src/gpio/gpio.c:201-280 | the invariant holds in every state any run reaches |
| Safety.OneOwner | src/virtio/virtq.c:364-426 | each descriptor has exactly one owner among free list, a caller building a request, one chain in flight and the handler; no index is twice on the free list |
| Safety.FourCounts | src/virtio/virtq.c:364-571 | the four holdings sum to the queue size |
| Safety.FreeListNeverFull | src/virtio/virtq.c:402-425 | no step that returns a descriptor ever finds the free list full or the descriptor already on it |
| Safety.NeverFaults | src/gpio/gpio.c:213-222 | no actor touches unmapped memory, an entry outside the table, or a context off the stack, and the device always finds, by the bits of the flags, a readable descriptor with room for all bytes of a request, followed by a writable one with room for all bytes of a response |
| Safety.NoClobber | src/virtio/virtq.c:374-425 | whoever changes a table entry owns that descriptor before and after the step, and it is not free |
| Safety.NoLeak | src/virtio/virtq.c:379-415 | every mapped buffer is recorded at a descriptor in use or with the caller that just mapped it |
| Safety.RestsClean | src/gpio/gpio.c:201-280 | with no call and no hand-over under way every descriptor is free, no buffer is mapped and every completion was delivered |
| Safety.AvailableRingRefines | src/virtio/virtq.c:504-507 | the 16-bit ring is a window on the unbounded queue of published chains: each slot not yet taken holds the head published at that count |
| Safety.PutOverwritesNothing | src/virtio/virtq.c:504 | publishing never overwrites a head the device has still to take |
| Safety.TakenInOrder | src/virtio/virtq.c:504-507 | the device takes chains in the order they were published, none skipped or repeated |
| Safety.EmptyIsExact | src/virtio/virtq.c:542 | the emptiness test holds exactly when no completion is uncollected, on runs of any length, and the wrapped distance is their number |
| Safety.CollectedInOrder | src/virtio/virtq.c:542-566 | the next chain collected is the oldest uncollected completion, both its descriptors, without overflow |
| Safety.DeliveredOnceInOrder | src/gpio/gpio.c:211-228 | chains are handed over once each in the order the device completed them: a chain is known by the descriptor that came out of the ring, the handler always works on the oldest completion not handed over, holds that chain's two descriptors, and writes to the context of the caller that published it |
| Safety.PostReachesOwner | src/gpio/gpio.c:152-222 | each post completes the oldest completion: the caller that published that chain and still waits for it gets the device's status and value and one post, nobody else's context changes, and that chain's two descriptors are freed next |
| Safety.RightCaller | src/gpio/gpio.c:341-369 | a call that returned got the status and value the device wrote for that call's own request; EOK exactly for the status byte 0, else EIO |
| Calls.SentBytes | src/gpio/gpio.c:312-428 | the eight bytes each of the four public calls sends |
| Calls.AnswerReturns | src/gpio/gpio.c:312-428 | from every state in which a call waits unanswered, and for every status and value, there is a run in which the device answers so and the call returns exactly that, EOK for status 0 and EIO for every other |
| Calls.CallOnNewQueue | src/gpio/gpio.c:241-428 | a whole run on a new queue, for every size from 2, public call, status and value: sent, answered with the device holding that call's own request, and returned |
| Safety.HistoryGrows | src/gpio/gpio.c:152-175 | what was published, completed, answered and delivered is never revised |
| Safety.ContextSafety | src/gpio/gpio.c:268-270 | the context recorded for a chain in flight or being handed over belongs to a caller still waiting for that chain, on a live stack, not yet posted |
| Safety.PostedIsFinal | src/gpio/gpio.c:174 | a posted context is touched by nobody but its own caller |
| Safety.NoLostCompletion | src/virtio_mmio/virtio_mmio.c:498-514 | while a completion is uncollected its interrupt bit is set, or the device is about to raise it, or the thread is past its wait and will look again |
| Liveness.StepLowersRank | src/virtio/virtio.c:42-47 | every step but a new call and a spurious wake-up lowers the rank |
| Liveness.RunsEnd | src/virtio/virtio.c:42-47 | every step of every run is paid for by the rank, the new calls and the spurious wake-ups |
| Liveness.Progress | src/gpio/gpio.c:141-150 | while some call is under way somebody can take such a step |
| Liveness.EveryCallReturns | src/gpio/gpio.c:341-369 | every run takes at most its rank in steps, 61 more per new call and 4 more per spurious wake-up; where nothing but those two can happen all calls returned, all completions were delivered, all descriptors are free |
| Delivery.DeliveredSoon | src/gpio/gpio.c:211-228 | a completion is handed over within 5 * num + 3 steps of the interrupt thread on every run, whatever new calls begin and whatever callers and device do in between; within 10 steps per completion ahead of it and 13 more |
| Fairness.EveryFairCallReturns | src/gpio/gpio.c:341-369 | on every endless run, with callers arriving for ever: if a caller is scheduled and gets the lock, the thread keeps running and the device completes every chain, each of that caller's calls ends |
| Fairness.EventuallyWaits | src/gpio/gpio.c:241-280 | a caller that is scheduled and gets the lock gets to its wait, or its call fails, whatever everybody else does |
| Fairness.EventuallyDelivered | src/gpio/gpio.c:211-228 | on every endless run on which the thread keeps running each completion is handed over |
| InterruptedWait.InterruptedWaitExact | src/gpio/gpio.c:141-150 | if and only if the caller's semaphore was posted already, a state with an interrupted wait still satisfies the invariant, has all contexts of chains in flight on live stacks, and has no run to a fault |
| InterruptedWait.NeverFaultsFrom | src/gpio/gpio.c:141-150 | from a state that satisfies the invariant no run faults or leaves a chain in flight with a dead context |
| InterruptedWait.RunToFault | src/gpio/gpio.c:141-175 | from every state in which a caller waits unposted, a run of device, thread and lock holder leads on to a write to the interrupted caller's context |
| InterruptedWait.InterruptedFaults | src/gpio/gpio.c:152-175 | when the handler is at the interrupted caller's chain, at whichever of its three accesses, that access is a fault |
| InterruptedWait.InterruptedWitness | src/gpio/gpio.c:341-369 | a first request whose wait is interrupted before the device answers: its context is dead, and some run goes on to write to it |
| Refinement.StartsFromCreated | src/virtio/virtq.c:298-313 | the protocol can start on a newly created queue of every allowed size, with any number of callers |
| Refinement.ReachableQueue | src/virtio/virtq.c:364-571 | every reachable queue is one the operations accept, its free entries all zero |
| Refinement.DrainStartsReady | src/gpio/gpio.c:211-213 | in every reachable state the uncollected completions are whole, in order, and share no descriptor, buffer or context |
| Refinement.RequestRefines | src/gpio/gpio.c:241-280 | from every reachable state, for every outcome of its mappings, steps of the caller alone come to the request function; on success the device has been notified |
| Refinement.RoundRuns | src/gpio/gpio.c:213-226 | ten steps of the thread alone come to one round of the drain function |
| Refinement.DrainRefines | src/gpio/gpio.c:201-229 | from every reachable state at the top of the drain loop the thread's steps alone come to the drain function and end in the wait |
| Layout.AlignIsLeastMultiple | src/virtio/virtq.c:74 | the mask expression is the least multiple of a power-of-two alignment not below its argument |
| Layout.AreasDisjoint | src/virtio/virtq.c:163-167 | the bytes of every table of num descriptors end at or before the available ring, those of every available ring of num at or before the used ring, which starts on the first page boundary after it; the available ring stands at a multiple of 16 |
| Layout.SizesOfAreas | src/virtio/virtq.c:39-72 | the sizes the code computes are the lengths of the bytes of descriptor table, available ring and used ring |
| Layout.UsedFitsExact | src/virtio/virtq.c:75-80 | the used ring lies in the mapping if and only if the page size fits the 16-bit parameter and 8*num+6 is at most the aligned 2*num+6; a page size that does not fit makes the mapping 0 bytes long |
| Layout.UsedFitsAt4096 | src/virtio/virtq.c:146-167 | with 4096-byte pages that is exactly up to 511 entries, among powers of two exactly up to 256 |
| Polling.ResetDevice | src/virtio/virtio.c:99-130 | whenever the loop ends at all: it ends at the first read that is 0 or fails or at the last one the timeout allows, with no underflow, and a whole interval was slept before each read after the first |
| Polling.EndsExactly | src/virtio/virtio.c:115-127 | the loop ends if and only if the interval is positive, the timeout is 0, or some read is not busy |
| Polling.AllowedIsCeiling | src/virtio/virtio.c:115-122 | with a positive interval it makes at most ceil(timeout/interval) reads after the first |
| Polling.ResetIsHonest | src/virtio/virtio.c:111-129 | EOK if and only if one of the reads it may make is 0 and none before it failed; the error of a read that failed after busy reads only; a timeout if all reads it may make are busy |
| Polling.ResetQueue | src/virtio/virtio.c:209-240 | the same loop started on an unset local, sleeping one interval and counting the other |
| Polling.QueueResetHonestExactly | src/virtio/virtio.c:225-239 | EOK means that the device answered 0 if and only if the unset local was not 0 |
| DeviceBus.StepInv | src/virtio/virtio.c:50-97 | every register access of every thread keeps the lock discipline and what the calls made of the registers |
| DeviceBus.StatusNeverLost | src/virtio/virtio.c:132-158 | under any interleaving the status register is the OR of the bits of all calls past their write |
| DeviceBus.StatusGrows | src/virtio/virtio.c:145-150 | no step clears a status bit |
| DeviceBus.SelectorPlaysNoPart | src/virtio/virtio.c:50-97 | under any interleaving the queues are what the operations make of them with the selector left out of account |
| DeviceQueues.ActsOnItsQueue | src/virtio/virtio.c:160-207 | under any interleaving, for each queue, from the record of calls that named it alone: it is ready as the last enable said, has the size last set, a reset is under way exactly if one was started since the device last finished one, its notifications are counted; and each caller was answered the maximum, or whether a reset was under way, of the queue it named |
| DeviceQueues.OneOperation | src/virtio/virtio.c:160-291 | an operation is recorded as its caller asked for it, the caller gets the recorded answer, and no other queue changes |
| DeviceBus.NotifyAfterDriverOk | src/gpio/gpio.c:465-485 | the device is notified only with DRIVER_OK in its status register (section 3.1.1 of VIRTIO 1.2) |
| DeviceBus.InitCallsOrderly | src/gpio/gpio.c:465-485 | the initialisation sequence notifies nobody and ends with DRIVER_OK |
| DeviceQueues.InitTakesEffect | src/gpio/gpio.c:465-482 | once the handle is out the status bits 1, 2 and 8 were written, then queue 0 was asked for its maximum, reset, polled, given its size and enabled, and after all of that bit 4 was written, in this order under any interleaving; all four are in the register |
| DeviceQueues.InitEnables | src/gpio/gpio.c:474-482 | if nobody else changes queue 0 it is then enabled with the size asked for |
| DeviceQueues.InitRuns | src/gpio/gpio.c:465-485 | such a run exists for every maximum, size and number of polls |
| DeviceQueues.SizesAgreeExactly | src/virtio/virtio.c:310-333 | after the initialisation the size told to the device is the size chosen for the queue if and only if the size asked for lies between 1 and the maximum the device answered |
| DeviceQueues.SizesDiffer | src/virtio/virtio.c:310-333 | a run of the initialisation in which they differ, for every maximum, with 0 and with one more than the maximum asked for |
| DeviceBus.InitCompletes | src/gpio/gpio.c:465-485 | the initialisation can run through from every point between its calls where nobody holds the lock |

## Left out

- Virtqs.Create: the memory mappings and address lookups before the loop are one outcome; a size of 0, which `src/virtio/virtio.c:314` rejects, is not covered.
- Fairness.EveryFairCallReturns: that the spinlock, the scheduler and the device are fair is its hypothesis.
- Fifos.Fifo.constructor: a failing allocation, and a capacity and element size whose product does not fit a size_t.
- Gpios.GpioDevice.RunCallback: the branch for line names, a request that no function of the repository sends.
- DeviceBus.InitCallsOrderly: the list, on which `DeviceQueues.InitTakesEffect` rests, holds the calls of a successful initialisation; the read of the configuration, the writing of the queue address and the ignored return codes are not in it.
- DeviceQueues.SizesAgreeExactly: assumes that nobody else sets another size for that queue.
- DeviceQueues.InitEnables: assumes that nobody else enables that queue or sets its size.
- Gpios.GpioDevice.Request: the contexts on the callers' stacks are a table keyed by their address, and their contents at the time of the call are the protocol's business.
- DeviceBus.StatusNeverLost: the reset, which writes the register without the lock, comes before the runs considered.
- Adjacent writes to one descriptor that its writer owns are one step of the protocol (filling, clearing, linking); `Safety.NoClobber` shows that nobody else writes there, and the device and the handler do not look at a descriptor that is not in flight or theirs.
- Reading the used ring under the queue lock is one step; the device writes it without the lock, and each of its writes is a step of its own.
- Physical addresses: a descriptor's address is the address of its buffer.
- How many notifications the device has seen: it is awake or asleep, and a notification wakes it.
- `virtio_set_queue_addr`, which selects no queue and takes no lock, and the feature words.
- Configuration-change interrupts: only the queue bit is acknowledged, so nothing is claimed about a quiet line while the configuration bit is set.
- The PCI transport, whose callback is the MMIO drain loop without the acknowledgement.
- Failing locks and semaphores; an interrupted wait is looked at in `InterruptedWait` and is not a step of the protocol.
- Null-argument checks, getters without effects, destruction of queues and fifos, printing, logging, the resource manager, options, and the emulator tests.
