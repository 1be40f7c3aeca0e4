# Verified model of the AI-deck examples' hard core

This project models the parts of the repository that are hardest to get right and proves what they
promise: the NanoCockpit runtime and its users (coroutines, queues, the CPX link, the streamer, the
UART parser, the camera crop), the camera hand-off of the Wi-Fi streamer example, and the kernels of
the face detection example. Code that updates fields or arrays in place is modelled by classes and
methods; each is proved against a specification on values, and the properties are proved about that
specification, for every input, every run or every reachable state.

Check it with `dafny verify dfyconfig.toml` (Dafny 4.11).

## How it is laid out

- `List.dfy`, `Coroutine.dfy`: intrusive lists; contexts, events and the scheduler's queue of tasks.
- `Queue.dfy`, `AsyncQueue.dfy`: the ring of three adjacent segments and its asynchronous layer.
- `EventGroup.dfy`, `CpxSpi.dfy`, `CpxTransfer.dfy`, `CpxSend.dfy`: event bits, the twelve-step SPI
  machine, the bytes of one transaction, and the senders that share the link.
- `Crc32.dfy`, `UartProtocol.dfy`: the CRC in all its forms, and the parser it guards.
- `StreamerHost.dfy`, `StreamerGap.dfy`: frames to the host and buffers back.
- `CameraPipeline.dfy`, `Camera.dfy`: the three-buffer hand-off and the in-place crop.
- `IntegralImage.dfy`, `SquareRoot.dfy`, `NonMax.dfy`: the vision kernels.

What several modules use is in `Prelude.dfy`.

## What the environment is taken to do

- Tasks run to completion, one at a time, in the order in which they were pushed. Interrupts only push
  tasks. A task's done flag is set when the scheduler dispatches it, together with its callback
  (`nanocockpit/lib/utils.h:49-51`); `pi_task_callback` clears it; the same task may be queued several
  times, as `nanocockpit/examples/queue_async/main.c:174-176` does.
- The waiter lists of module Coroutine are sequences; they stand for the contents of the lists of
  module IntrusiveList, whose operations are proved against the same sequences.
- A disciplined producer or consumer of an asynchronous queue asks again only after the done task of
  its previous request was dispatched, and does not discard while it waits for a slot.
- The SPI peripheral ends each transfer once; the camera fills queued buffers in the order in which
  they were queued, and interrupts after each; the UART is an endless stream of bytes.
- Cores of the cluster run a phase between barriers in any order; `size_t` is 32 bits.

## What came out differently from what the code or its comments say

- `nanocockpit/lib/queue.c:229-253`: the assertion "queue_free asserted but queue is full" is
  unreachable for disciplined callers, but from every state in which a poll (no done task) takes the
  last slot while queue_free is still queued, the next request that waits leads to it
  (`AsyncQueue.PollIsSafeIff`, `AsyncQueue.PollThenAskFaults`). The same holds of the pop side.
- `nanocockpit/lib/queue.c:260-262`: a discard frees a slot without telling a producer that waits
  (`AsyncQueue.DiscardIsSafeIff`, `AsyncQueue.DiscardStrands`).
- `nanocockpit/lib/queue.c:95-106`: overwriting while the consumer holds an element always ends in an
  assertion (`Queue.Queue.PushAcquire`).
- `nanocockpit/lib/coroutine.h:129`: the guard misses a context that is queued but has not run yet;
  it is then entered twice (`Coroutine.StartIsSafeIffNotLive`, `Coroutine.SecondStartMisfires`).
- `nanocockpit/lib/cpx/cpx.c:127`: the fear of a deadlock is unfounded (`CpxSend.NoDeadlock`). The
  order relied on in the next comment holds among those who already wait. A newcomer stays behind them
  if and only if the release of the link is not queued when it comes (`CpxSend.NewcomerStaysBehindIff`).
- `nanocockpit/lib/streamer.c:173-177`: the remapping of a zero checksum is not undone by the host,
  which refuses such a frame, and any bytes can be completed to one (`StreamerHost.RoundTrip`,
  `StreamerHost.RefusedFrame`).
- `nanocockpit/lib/streamer.c:281-295` and `nanocockpit/lib/streamer.c:339-343`: arming does not reset a
  buffer, and a BEGIN that is too big does not end a reception in progress. Both are harmless exactly
  when nothing has been received (`StreamerGap.RearmedIsFreshIff`, `StreamerGap.OversizedIsHarmlessIff`);
  otherwise a mixture of two buffers can be delivered (`StreamerGap.MixtureIsDelivered`). A following
  complete buffer is received intact all the same.
- `nanocockpit/lib/uart_protocol.c:130-136`: more bytes than one frame are never available, so that
  branch is dead (`UartProtocol.Protocol.Step`).
- `examples/image_processing/FaceDetection/faceDet.c:234`: size_x is tested twice and size_y never;
  the result is right nevertheless if and only if the product does not overflow
  (`NonMax.IntersectFindsOverlapIff`), as on the images of this camera.

## Model

| member | source | states |
|---|---|---|
| `IntrusiveList.ListHead.constructor` | nanocockpit/lib/list.h:51-53 | a new list is empty |
| `IntrusiveList.ListHead.Append` | nanocockpit/lib/list.h:55-67 | the element joins at the end, behind all that are there, and must not be on a list already |
| `IntrusiveList.ListHead.PopFront` | nanocockpit/lib/list.h:69-78 | the first element leaves and is unlinked; an empty list gives NULL |
| `IntrusiveList.ListHead.Clear` | nanocockpit/lib/list.h:80-86 | the list ends up empty and every element that was on it unlinked, so that it can join a list again |
| `Coroutine.Runtime.CoFnPushStart` | nanocockpit/lib/coroutine.h:128-141 | a context that is not started or over is queued from its start; any other meets the assertion and nothing changes |
| `Coroutine.Runtime.CoFnSuspend` | nanocockpit/lib/coroutine.h:107-110 | the resume point is stored and the body has ended its stretch |
| `Coroutine.Runtime.CoEventInit` | nanocockpit/lib/coroutine.h:158-162 | the event is not done and has no waiters |
| `Coroutine.Runtime.CoEventWait` | nanocockpit/lib/coroutine.h:174-194 | an event that is not done takes the context as its last waiter; one that is done has it queued at once |
| `Coroutine.Runtime.CoYield` | nanocockpit/lib/coroutine.h:247-250 | the context is suspended at its line and queued behind everything that is queued |
| `Coroutine.Runtime.CoEventCallback` | nanocockpit/lib/coroutine.h:143-155 | the draining loop queues all waiters, in the order in which they waited, and leaves none |
| `Coroutine.Runtime.CoReturn` | nanocockpit/lib/coroutine.h:259-266 | the context is over and its done task, if any, is queued once |
| `Coroutine.Runtime.TakeTask` | nanocockpit/lib/coroutine.h:207-226 | one turn of the scheduler: an event's done flag flips together with its callback, a context enters its body; one that runs or is over meets the assertion |
| `Coroutine.StepKeepsInv` | nanocockpit/lib/coroutine.h:107-194 | every legal step keeps each context in exactly one place (queued once, on one waiter list once, running, over or not started), keeps done events without waiters, and reaches no assertion |
| `Coroutine.EveryRunIsSafe` | nanocockpit/lib/coroutine.h:207-295 | the same over every run of any program that follows the discipline; so no context is resumed while running or finished |
| `Coroutine.JoinKeepsInv` | nanocockpit/lib/coroutine.h:174-194 | a context that waits on an event that is not done joins that one list behind the others, and is on no other list and not queued |
| `Coroutine.WaitKeepsInv` | nanocockpit/lib/coroutine.h:174-194 | a context that waits on an event that is done is queued once, and the clear drops nobody: every list stays as it was; otherwise it joins that one list |
| `Coroutine.FireKeepsInv` | nanocockpit/lib/coroutine.h:143-155 | firing an event empties its list and no other, and adds exactly one queued resume for each of its waiters, none of which was queued, and for nobody else |
| `Coroutine.NoLostWakeup` | nanocockpit/lib/coroutine.h:143-194 | a context waiting on an event that is queued at position i is queued by the time i + 1 tasks are dispatched, whatever else happens |
| `Coroutine.QueuedRuns` | nanocockpit/lib/coroutine.h:112-118 | a queued context gets the processor in its turn |
| `Coroutine.EverySuspensionIsResumedOnce` | nanocockpit/lib/coroutine.h:107-194 | over every legal run the starts and suspensions of a context equal its resumptions, up to the one wakeup that is still queued or on a list |
| `Coroutine.ResumesWhereSuspended` | nanocockpit/lib/coroutine.h:107-141 | over every legal run a context that is dispatched goes on at the line of its last suspension, or at its start if it was started since; nothing moves that point while its wakeup is to come |
| `Coroutine.StartIsSafeIffNotLive` | nanocockpit/lib/coroutine.h:128-141 | starting a context is safe if and only if it is not queued, listed or running; the guard in the code is weaker, it misses a context that is queued but has not run |
| `Coroutine.SecondStartMisfires` | nanocockpit/lib/coroutine.h:128-141 | what a second start of a queued context leads to, from the beginning: its body is entered twice and meets the assertion when it was over, or it is resumed without the event it waits on |
| `Coroutine.InitIsSafeIffNoWaiters` | nanocockpit/lib/coroutine.h:158-162 | re-arming an event is safe if and only if nobody waits on it |
| `Coroutine.DroppedWaiterNeverRuns` | nanocockpit/lib/coroutine.h:158-162 | a waiter dropped by re-arming is never queued again in any legal run, and stays suspended |
| `Queue.Queue.LiveSlotsNeverAlias` | nanocockpit/lib/queue.c:47-84 | consumed, ready and acquired slots form one run of distinct slots through the wraparound |
| `Queue.Queue.SlotPastTheLast` | nanocockpit/lib/queue.c:90-114 | with room left, the slot to be handed out next is in none of the segments |
| `Queue.Queue.PushAcquire` | nanocockpit/lib/queue.c:90-114 | a free slot is handed out; a full queue gives NULL, or with overwrite drops exactly its oldest ready element and hands that slot out; it faults if and only if overwriting meets elements the consumer still holds |
| `Queue.Queue.PushCommit` | nanocockpit/lib/queue.c:116-132 | the oldest acquired slot becomes the newest ready one; any other slot meets the assertion |
| `Queue.Queue.PushDiscard` | nanocockpit/lib/queue.c:134-150 | the newest acquired slot is given back; any other slot meets the assertion |
| `Queue.Queue.Peek` | nanocockpit/lib/queue.c:152-160 | the oldest ready slot, or NULL |
| `Queue.Queue.PopConsume` | nanocockpit/lib/queue.c:162-176 | the oldest ready slot goes to the consumer, or NULL and nothing changes |
| `Queue.Queue.PopRelease` | nanocockpit/lib/queue.c:178-193 | the oldest slot the consumer holds is free again; any other slot meets the assertion |
| `Queue.Queue.Write` | nanocockpit/lib/queue.h:59-64 | a producer fills, in place, only a slot it has acquired |
| `Queue.Fifo` | nanocockpit/lib/queue.c:90-193 | over any run without assertion failures, overwriting acquisitions and writes in place included: the contents committed leave the ready ones in their order, each once and as it was committed, consumed or overwritten, but for those still ready |
| `Queue.SlotsAreConserved` | nanocockpit/lib/queue.c:90-193 | over any run the assertions are met exactly by elements out of order, and otherwise the slots in use are those before, plus those taken, less those given back |
| `Queue.NothingIsDropped` | nanocockpit/lib/queue.c:90-114 | if no acquisition overwrites, all that leaves is consumed |
| `Queue.HeldStays` | nanocockpit/lib/queue.c:162-193 | what the consumer holds keeps its contents, whatever the producer does, until it is released |
| `Queue.StepKeepsValid` | nanocockpit/lib/queue.c:86-193 | no operation puts a slot into two segments, or twice into one |
| `AsyncQueue.QueueAsync.PushAcquire` | nanocockpit/lib/queue.c:229-253 | served at once with the done task queued, refused, or handed to the coroutine after queue_free is re-armed; a second waiting producer meets the assertion |
| `AsyncQueue.QueueAsync.PushCommit` | nanocockpit/lib/queue.c:255-258 | the ring commits and queue_ready is pushed |
| `AsyncQueue.QueueAsync.PushDiscard` | nanocockpit/lib/queue.c:260-262 | the ring discards and nobody is told |
| `AsyncQueue.QueueAsync.PopConsume` | nanocockpit/lib/queue.c:280-304 | the mirror image of the push side |
| `AsyncQueue.QueueAsync.PopRelease` | nanocockpit/lib/queue.c:306-309 | the ring releases and queue_free is pushed |
| `AsyncQueue.QueueAsync.PushTask` | nanocockpit/lib/queue.c:214-227 | the coroutine waits for queue_free, then takes a slot for the waiting producer and returns |
| `AsyncQueue.QueueAsync.PopTask` | nanocockpit/lib/queue.c:264-278 | the coroutine waits for queue_ready, then takes an element for the waiting consumer and returns |
| `AsyncQueue.InitialIsSafe` | nanocockpit/lib/queue.c:197-207 | a new queue satisfies the invariant |
| `AsyncQueue.CoroutineTurn` | nanocockpit/lib/queue.c:214-278 | the coroutine always suspends in its first turn and always finds a slot, or an element, in its second |
| `AsyncQueue.StepKeepsInv` | nanocockpit/lib/queue.c:197-309 | every action of a disciplined producer and consumer, of the scheduler and of the rest of the program keeps the invariant |
| `AsyncQueue.NothingIsLostInAnyRun` | nanocockpit/lib/queue.c:197-309 | in every run no assertion is reached, and a side that waits while there is something for it has its event or its coroutine queued |
| `AsyncQueue.EveryRequestIsAnsweredOnce` | nanocockpit/lib/queue.c:229-304 | over every run the done task of a side fires exactly once for each request, but for the one still outstanding |
| `AsyncQueue.SecondRequestFaults` | nanocockpit/lib/queue.c:229-304 | the assertion on a second waiting request is met exactly by one, and the first is left as it is; a poll never meets it |
| `AsyncQueue.DiscardIsSafeIff` | nanocockpit/lib/queue.c:260-262 | a discard is safe if and only if no producer waits or a free slot was there already |
| `AsyncQueue.DiscardStrands` | nanocockpit/lib/queue.c:229-262 | a run from the start that ends in the unsafe case: the slot is free, the producer waits for it, and no task is left to tell it |
| `AsyncQueue.PollIsSafeIff` | nanocockpit/lib/queue.c:242-245 | a push without a done task is safe if and only if it does not take the last slot while queue_free is still queued |
| `AsyncQueue.PopPollIsSafeIff` | nanocockpit/lib/queue.c:293-296 | the same for a pop without a done task |
| `AsyncQueue.StaleWakeupFaults` | nanocockpit/lib/queue.c:214-278 | a request that has to wait while its event is still queued leads, by the scheduler alone, to the assertion "asserted but queue is full", or empty |
| `AsyncQueue.PollThenAskFaults` | nanocockpit/lib/queue.c:229-304 | from every state in which a poll is unsafe, on either side, polling and then asking leads to that assertion |
| `AsyncQueue.PushPollFaults` | nanocockpit/lib/queue.c:197-253 | such a state is the one right after initialisation with one slot |
| `AsyncQueue.PopPollFaults` | nanocockpit/lib/queue.c:197-304 | and, for the pop side, the one after the first commit |
| `EventGroup.CoEventGroup.constructor` | nanocockpit/lib/event_group.h:67-72 | no bits, no waiter |
| `EventGroup.CoEventGroup.Update` | nanocockpit/lib/event_group.h:84-94 | a waiter whose condition holds is queued and no longer waits |
| `EventGroup.CoEventGroup.Set` | nanocockpit/lib/event_group.h:96-99 | the bits are set, then the waiter is looked at |
| `EventGroup.CoEventGroup.Clear` | nanocockpit/lib/event_group.h:107-111 | the bits under the mask are cleared and returned |
| `EventGroup.CoEventGroup.Wait` | nanocockpit/lib/event_group.h:113-143 | a context whose condition holds is queued at once, any other becomes the waiter; a second waiter meets the assertion |
| `EventGroup.StepWakes` | nanocockpit/lib/event_group.h:74-143 | no operation lets a context sleep whose condition holds; the assertion is reached exactly by a second waiter |
| `EventGroup.EveryWaiterIsResumedOnce` | nanocockpit/lib/event_group.h:84-143 | over any run with one waiter at a time the contexts that waited are queued once each, in their order, but for a last one whose condition is still false |
| `CpxSend.Cpx.constructor` | nanocockpit/lib/cpx/cpx.c:107-115 | send_done starts out pushed: the link is free |
| `CpxSend.Cpx.SendAsync` | nanocockpit/lib/cpx/cpx.c:117-121 | the sender's coroutine is started with its caller's done task |
| `CpxSend.Cpx.SpiSendAsync` | nanocockpit/lib/cpx/cpx_spi.c:234-242 | a second request in progress meets the assertion and the first stays |
| `CpxSend.Cpx.SendTask` | nanocockpit/lib/cpx/cpx.c:123-155 | one stretch of the sender: wait in the loop, take the link and re-arm send_done, or return |
| `CpxSend.StepKeepsInv` | nanocockpit/lib/cpx/cpx.c:123-155 | every step keeps one token for the link, so that at most one sender is inside the SPI layer; nobody who already waits changes places with another who does |
| `CpxSend.TakeKeepsInv` | nanocockpit/lib/cpx/cpx.c:131-139 | a sender that takes the link finds the SPI layer free and drops no waiter by re-arming |
| `CpxSend.ReturnKeepsInv` | nanocockpit/lib/cpx/cpx.c:140-155 | a sender returns only when its own transfer is over, and its caller is told |
| `CpxSend.NoDeadlock` | nanocockpit/lib/cpx/cpx.c:128-139 | for any senders and any interleaving the assertion is unreachable and nobody is stranded: when no task is queued and no transfer runs, every sender is over |
| `CpxSend.WaitersNeverOvertake` | nanocockpit/lib/cpx/cpx.c:130-134 | a sender waiting behind another stays behind it until that one has had the link |
| `CpxSend.NewcomerStaysBehindIff` | nanocockpit/lib/cpx/cpx.c:117-139 | a new sender stays behind one that already waits, in every run, if and only if the release of the link is not queued when it comes, which is when a transfer is running or send_done is done |
| `CpxSend.ContendedReleaseIsReachable` | nanocockpit/lib/cpx/cpx.c:107-139 | a run from the start that ends with a sender waiting, the release queued, and another free to start |
| `CpxSpi.Cpx.constructor` | nanocockpit/lib/cpx/cpx_spi.c:192-232 | no requests, the coroutine queued, and NINA_RTT set if and only if the peer is ready already |
| `CpxSpi.Cpx.SendAsync` | nanocockpit/lib/cpx/cpx_spi.c:234-242 | the request is kept and SEND set; a second request meets the assertion |
| `CpxSpi.Cpx.ReceiveAsync` | nanocockpit/lib/cpx/cpx_spi.c:244-258 | the request is kept and RECEIVE set; a second request meets the assertion |
| `CpxSpi.Cpx.NinaRttCallback` | nanocockpit/lib/cpx/cpx_spi.c:173-176 | NINA_RTT is set |
| `CpxSpi.Cpx.AwaitRtt` | nanocockpit/lib/cpx/cpx_spi.c:276-285 | steps 3 and 4 |
| `CpxSpi.Cpx.StartTransaction` | nanocockpit/lib/cpx/cpx_spi.c:288-302 | steps 5 and 6: the requests are latched together and the header goes out |
| `CpxSpi.Cpx.TransferHead` | nanocockpit/lib/cpx/cpx_spi.c:304-323 | steps 7 to 9 |
| `CpxSpi.Cpx.FinishSend` | nanocockpit/lib/cpx/cpx_spi.c:333-338 | step 11 |
| `CpxSpi.Cpx.FinishReceive` | nanocockpit/lib/cpx/cpx_spi.c:340-346 | step 12 |
| `CpxSpi.Cpx.SpiTask` | nanocockpit/lib/cpx/cpx_spi.c:260-349 | one stretch of the coroutine from any of its six waits to the next |
| `CpxSpi.Cpx.TakeTask` | nanocockpit/lib/cpx/cpx_spi.c:260-349 | one turn of the scheduler, as the specification takes it |
| `CpxSpi.StartedIsSafe` | nanocockpit/lib/cpx/cpx_spi.c:215-232 | the invariant holds at the start |
| `CpxSpi.StepKeepsInv` | nanocockpit/lib/cpx/cpx_spi.c:234-349 | every step keeps: a request bit is set exactly while its request is there; the coroutine is in exactly one place and asleep only while what it waits for has not happened; the log is a sequence of well-formed transactions; no assertion is reached |
| `CpxSpi.EveryRunIsSafe` | nanocockpit/lib/cpx/cpx_spi.c:234-349 | the same over all interleavings of edges, requests, transfers and other programs |
| `CpxSpi.StartTransactionKeepsInv` | nanocockpit/lib/cpx/cpx_spi.c:288-302 | a transfer starts only with NINA_RTT and RECEIVE set, for the requests that are there at that moment |
| `CpxSpi.Entering` | nanocockpit/lib/cpx/cpx_spi.c:266-346 | what holds at each resume point when the coroutine is dispatched, the two bits before step 5 among it |
| `CpxSpi.PeerIsTold` | nanocockpit/lib/cpx/cpx_spi.c:276-308 | step 3 raises GAP8_RTT if and only if there is something to send; steps 7 and 8 take it back and re-arm NINA_RTT |
| `CpxSpi.OwnersAreTold` | nanocockpit/lib/cpx/cpx_spi.c:333-346 | steps 11 and 12 queue the done tasks of exactly the requests that were served |
| `CpxSpi.DoneFollowsItsBlocks` | nanocockpit/lib/cpx/cpx_spi.c:296-346 | word of completion comes right after the header, head and tail of that very request, each started only when the one before had moved, and all moved |
| `CpxSpi.EveryRequestIsCompletedOnce` | nanocockpit/lib/cpx/cpx_spi.c:333-346 | over every run the accepted sends, and the accepted receives, are completed once each in their order, but for the one still pending |
| `CpxSpi.LateSendIsNext` | nanocockpit/lib/cpx/cpx_spi.c:266-346 | over every run: a send that the transaction under way does not serve, as one that comes after step 5, stays pending until the next header, and that header is for it |
| `CpxSpi.NeverStuck` | nanocockpit/lib/cpx/cpx_spi.c:266-331 | with the peer and a receiver ready the coroutine, or what it waits for, is queued or owed by the peripheral |
| `CpxSpi.EdgeIsNoticed` | nanocockpit/lib/cpx/cpx_spi.c:173-176 | an edge sets NINA_RTT, wakes a task that sleeps until the peer is ready, and with a receiver there a transaction is under way |
| `CpxSpi.TransactionEnds` | nanocockpit/lib/cpx/cpx_spi.c:266-346 | such a transaction ends, and completes both its requests, within thirteen steps of its own, whatever else happens |
| `CpxSpi.EdgeLeadsToTransaction` | nanocockpit/lib/cpx/cpx_spi.c:173-346 | from every state: a receiver that is there when the edge comes is told within thirteen steps of the task, and so is a sender that is not too late for the transaction |
| `CpxSpi.FirstTransactionEnds` | nanocockpit/lib/cpx/cpx_spi.c:215-346 | the same right from the start |
| `CpxSpi.SecondRequestFaults` | nanocockpit/lib/cpx/cpx_spi.c:234-258 | the two assertions are met exactly by a second request of a kind, and the first one stays |
| `CpxTransfer.SendReq.constructor` | nanocockpit/lib/cpx/cpx_spi.c:71-75 | a request is well formed if and only if both parts are aligned whole words and together fit the MTU; otherwise an assertion is met |
| `CpxTransfer.SendReq.SetHead` | nanocockpit/lib/cpx/cpx_spi.c:88-101 | the head is replaced, the length updated, and the assertions are met exactly for misaligned, odd or too long packets |
| `CpxTransfer.SendReq.SetTail` | nanocockpit/lib/cpx/cpx_spi.c:114-127 | the same for the tail |
| `CpxTransfer.SendReq.MaxTailLength` | nanocockpit/lib/cpx/cpx_spi.c:103-112 | an aligned tail is accepted if and only if it is whole words and no longer than this |
| `CpxTransfer.ReceiveReq.constructor` | nanocockpit/lib/cpx/cpx_spi.c:129-138 | a buffer of the full MTU |
| `CpxTransfer.Bus.Transfer` | nanocockpit/lib/cpx/cpx_spi.c:367-372 | the bytes of a full-duplex transfer, in both directions |
| `CpxTransfer.SpiTransfer` | nanocockpit/lib/cpx/cpx_spi.c:351-376 | the assertions on alignment, length and missing buffers are met exactly when they should be |
| `CpxTransfer.BlocksAreSound` | nanocockpit/lib/cpx/cpx_spi.c:391-486 | no transfer is empty, odd or longer than the MTU, and chip select is released by exactly the last one |
| `CpxTransfer.TransferHeader` | nanocockpit/lib/cpx/cpx_spi.c:378-389 | the header goes out, the peer's comes in, the peer stays selected |
| `CpxTransfer.RoutingRoundTrip` | nanocockpit/lib/cpx/cpx_types.h:56-63 | destination, source, flags, function and version, packed at one end, are what the other end reads from its bit fields, and only those two bytes say that |
| `CpxTransfer.StreamerRouting` | nanocockpit/lib/streamer.c:116 | the two bytes in front of every streamed frame |
| `CpxTransfer.TransferHead` | nanocockpit/lib/cpx/cpx_spi.c:391-437 | the head goes out while as much comes in; an empty head sends nothing, or the dummy block that releases the peer |
| `CpxTransfer.TransferTail` | nanocockpit/lib/cpx/cpx_spi.c:439-486 | the tail goes out while the rest of the longer packet comes in, rounded up to whole words inside the receive buffer |
| `CpxTransfer.TransferPayload` | nanocockpit/lib/cpx/cpx_spi.c:391-486 | both together: received bytes are contiguous in the buffer |
| `CpxTransfer.Transaction` | nanocockpit/lib/cpx/cpx_spi.c:296-331 | a whole transaction: no assertion is met, the peer reads exactly head and tail as the payload and the routing that was asked for, or an empty header; its own payload lies in one piece in the receive buffer, never past the MTU, and its routing is kept; without bidirectional mode the received length is zero |
| `Crc32.CrcByBit` | nanocockpit/lib/crc32.c:126-145 | the bit-wise loops compute Crc |
| `Crc32.CrcByByte` | nanocockpit/lib/crc32.c:147-160 | with an initialised table the byte-wise loop computes the same |
| `Crc32.CrcTableInit` | nanocockpit/lib/crc32.c:162-171 | the descending loop fills all 256 entries |
| `Crc32.Library.ContextInit` | nanocockpit/lib/crc32.c:93-103 | the table is filled at most once and the context is at its initial remainder |
| `Crc32.Library.Update` | nanocockpit/lib/crc32.c:105-108 | updates add up: the remainder is that of everything so far |
| `Crc32.Library.Out` | nanocockpit/lib/crc32.c:110-113 | the checksum of what was added |
| `Crc32.Library.CalculateBuffer` | nanocockpit/lib/crc32.c:115-122 | the checksum of the buffer |
| `Crc32.CrcSplit` | nanocockpit/lib/crc32.c:105-108 | updating over any split equals one pass over the whole |
| `Crc32.TableStep` | nanocockpit/lib/crc32.c:150-160 | one table step equals eight bit steps after XORing in a byte |
| `Crc32.CrcIsRemainder` | nanocockpit/lib/crc32.c:126-145 | for every message and starting remainder the CRC is the remainder of pencil-and-paper division over GF(2) by the CRC-32 polynomial, reflected (section 8 of RFC 1952) |
| `Crc32.ChecksumIsReference` | nanocockpit/lib/crc32.c:93-122 | for every message the checksum is, bit by bit, the complement of the remainder of dividing the message with its first 32 bits complemented (section 8 of RFC 1952) |
| `Crc32.Residue` | nanocockpit/lib/crc32.c:75-79 | a message with its checksum behind it leaves the residue 0xDEBB20E3, whatever it is |
| `Crc32.CheckValue` | nanocockpit/lib/crc32.c:75-79 | the checksum of the nine digits is 0xCBF43926 |
| `Crc32.ChecksumOfNothing` | nanocockpit/lib/crc32.c:110-113 | the checksum of the empty message is zero |
| `Crc32.CrcInjective` | nanocockpit/lib/crc32.c:126-145 | different remainders stay different over any message |
| `Crc32.CrcOfWord` | nanocockpit/lib/crc32.c:126-145 | up to four bytes act as one word XORed in at once |
| `Crc32.BurstIsDetected` | nanocockpit/lib/crc32.c:126-160 | messages of equal length that differ only within four consecutive bytes have different CRCs |
| `Crc32.ChecksumDetectsBurst` | nanocockpit/lib/crc32.c:110-145 | and different checksums |
| `Crc32.FourBytesReachAnyChecksum` | nanocockpit/lib/crc32.c:110-145 | behind any message exactly one choice of four bytes brings the checksum to a given value |
| `UartProtocol.Protocol.Read` | nanocockpit/lib/uart_protocol.c:56-57 | every read fits the 128-byte buffer |
| `UartProtocol.Protocol.Synchronise` | nanocockpit/lib/uart_protocol.c:60-89 | the inner loop stops at the first header within the buffer, with exactly the bytes read that it needed, rounded up to reads of four, or gives up with the buffer full |
| `UartProtocol.Protocol.Step` | nanocockpit/lib/uart_protocol.c:49-137 | one turn of the buffered parser consumes and delivers exactly what the pure parser does |
| `UartProtocol.PayloadsAreStructs` | nanocockpit/lib/uart_protocol.h:41-81 | the payload lengths are the sums of the field widths of the three packed structs, and each frame fits the buffer |
| `UartProtocol.HeadersAreSpelled` | nanocockpit/lib/uart_protocol.h:41-75 | the header bytes are the characters of the three names |
| `UartProtocol.FirstHeaderIsFirst` | nanocockpit/lib/uart_protocol.c:60-89 | the pure parser's header is the first one in the stream |
| `UartProtocol.GarbageThenFrame` | nanocockpit/lib/uart_protocol.c:97-123 | after garbage without a header a frame is delivered if and only if it fits the buffer with the garbage and its checksum is right; otherwise the bytes read are dropped |
| `UartProtocol.FramesAreDelivered` | nanocockpit/lib/uart_protocol.c:49-137 | back-to-back frames are delivered exactly and in order, one a turn; those with a wrong checksum are skipped and cost no other |
| `UartProtocol.MadeIsValid` | nanocockpit/lib/uart_protocol.c:117-118 | a frame with the little-endian checksum of its header and payload passes |
| `UartProtocol.DamageInvalidates` | nanocockpit/lib/uart_protocol.c:117-123 | a frame damaged in up to four consecutive payload bytes, or in its checksum, does not |
| `UartProtocol.DamagedFramesAreSkipped` | nanocockpit/lib/uart_protocol.c:49-137 | of a stream damaged like that exactly the undamaged frames are delivered |
| `StreamerHost.ChecksumAgreesIff` | nanocockpit/lib/streamer.c:170-180 | a checksum sent is never zero, which stands for none; the host accepts it if and only if the CRC is not zero |
| `StreamerPackets.HeadsAreStructs` | nanocockpit/client/aideck_cpx_streamer/aideck_cpx_streamer/cpx/streamer.py:150-173 | the heads of BEGIN and DATA are the sums of the field widths of their structs |
| `StreamerHost.PacketFits` | nanocockpit/lib/streamer.c:264-269 | every packet is whole words, within the MTU, and advances by whole words |
| `StreamerHost.PacketsAreFull` | nanocockpit/lib/streamer.c:264-269 | every packet of a frame but the last leaves no room for another word |
| `StreamerHost.SendTask` | nanocockpit/lib/streamer.c:227-279 | the loop sends the packets of the specification and meets no length or alignment assertion |
| `StreamerHost.StreamerClient.Receive` | nanocockpit/client/aideck_cpx_streamer/aideck_cpx_streamer/cpx/streamer.py:202-240 | one packet: resynchronise on BEGIN, then take the payload |
| `StreamerHost.StreamerClient.ReceiveChunk` | nanocockpit/client/aideck_cpx_streamer/aideck_cpx_streamer/cpx/streamer.py:239-265 | the payload up to what is missing; a complete buffer is checked and yielded |
| `StreamerHost.FrameIsReceived` | nanocockpit/client/aideck_cpx_streamer/aideck_cpx_streamer/cpx/streamer.py:195-265 | whatever the host has seen before, a frame that is sent to it is yielded once, intact and as an image, unless its checksum is refused |
| `StreamerHost.InterruptedFrameIsLost` | nanocockpit/client/aideck_cpx_streamer/aideck_cpx_streamer/cpx/streamer.py:211-222 | after a packet that is neither BEGIN nor DATA no data counts until the next BEGIN |
| `StreamerHost.ShortPacketEndsIt` | nanocockpit/client/aideck_cpx_streamer/aideck_cpx_streamer/cpx/streamer.py:204-238 | exactly a packet too short for the head it is read with ends the generator, and nothing more is yielded |
| `StreamerHost.RoundTrip` | nanocockpit/lib/streamer.c:227-279 | the round trip is exact if and only if checksums are off or the CRC is not zero; a frame with CRC zero is refused by the host |
| `StreamerHost.RefusedFrame` | nanocockpit/lib/streamer.c:170-180 | any bytes can be completed by four more to a frame that is sent and refused |
| `StreamerHost.FramesInOrder` | nanocockpit/client/aideck_cpx_streamer/aideck_cpx_streamer/cpx/streamer.py:195-265 | of frames of any sizes, with checksums or without, between packets that begin none, exactly those are yielded whose checksum is off or not zero, in order |
| `StreamerGap.SendBuffer` | nanocockpit/client/aideck_cpx_streamer/aideck_cpx_streamer/cpx/streamer.py:327-346 | the loop sends the packets of the specification, for every packet size above the BEGIN head |
| `StreamerGap.PacketsAreFull` | nanocockpit/client/aideck_cpx_streamer/aideck_cpx_streamer/cpx/streamer.py:327-346 | every packet but the last has the full size, and none more |
| `StreamerGap.StepKeepsInv` | nanocockpit/lib/streamer.c:281-406 | always received size <= size <= capacity, the stored prefix is what was accepted since the last accepted BEGIN, and the done task is pushed exactly when the streamer stops waiting |
| `StreamerGap.BufferArrives` | nanocockpit/lib/streamer.c:332-406 | after any history a complete buffer that fits is delivered intact to a waiting receiver, with one notification |
| `StreamerGap.OversizedIsDropped` | nanocockpit/lib/streamer.c:339-343 | a buffer that does not fit leaves a receiver without a reception in progress as it was |
| `StreamerGap.OversizedIsHarmlessIff` | nanocockpit/lib/streamer.c:332-406 | a buffer that does not fit leaves the receiver as it was if and only if it does not wait, has no reception in progress, or the buffer is over with its BEGIN |
| `StreamerGap.MixtureIsDelivered` | nanocockpit/lib/streamer.c:332-406 | otherwise, from a new buffer on: part of one buffer and then one that does not fit are delivered as a mixture, unless checksums are compared and tell them apart |
| `StreamerGap.RearmedIsFreshIff` | nanocockpit/lib/streamer.c:281-295 | a buffer armed again ignores DATA before its BEGIN if and only if it holds nothing |
| `StreamerGap.RearmedBufferIsStale` | nanocockpit/lib/streamer.c:281-406 | otherwise an empty DATA packet has the old content checked and delivered again, and any other drops it |
| `StreamerGap.CancelledIsFresh` | nanocockpit/lib/streamer.c:297-312 | a cancelled buffer has told its owner once, takes no more packets, and can be armed again like a new one |
| `StreamerGap.StreamerBuffer.Append` | nanocockpit/lib/streamer.c:383-384 | the segment is copied behind what was received, and nothing else changes |
| `StreamerGap.Streamer.ReceiveBufferAsync` | nanocockpit/lib/streamer.c:281-295 | the streamer waits for the buffer; either already in use meets the assertion |
| `StreamerGap.Streamer.CancelReceive` | nanocockpit/lib/streamer.c:297-312 | a buffer waited for is emptied and its done task pushed; one already received is left alone; any other meets the assertion |
| `StreamerGap.Streamer.BeginReceived` | nanocockpit/lib/streamer.c:332-354 | a BEGIN resets the buffer and its first segment is taken |
| `StreamerGap.Streamer.DataReceived` | nanocockpit/lib/streamer.c:356-406 | a segment that fits is stored, one that does not drops the buffer, the last one completes it |
| `StreamerGap.Streamer.Finish` | nanocockpit/lib/streamer.c:386-405 | a complete buffer is checked and delivered, or dropped |
| `StreamerGap.Streamer.CpxCallback` | nanocockpit/lib/streamer.c:314-330 | packets by command, the invariant kept |
| `CameraPipeline.Pipeline.ScheduleCapture` | examples/other/wifi-img-streamer/camera_pipeline.c:100-104 | one more queued, counted |
| `CameraPipeline.Pipeline.CaptureDone` | examples/other/wifi-img-streamer/camera_pipeline.c:59-87 | a completed capture is discarded, handed to a waiting consumer, or queued again |
| `CameraPipeline.Pipeline.BeginFrame` | examples/other/wifi-img-streamer/camera_pipeline.c:224-252 | a frame that is held is given again; otherwise streaming starts |
| `CameraPipeline.Pipeline.ContinueBegin` | examples/other/wifi-img-streamer/camera_pipeline.c:234-239 | the statements before the wait |
| `CameraPipeline.Pipeline.FinishBegin` | examples/other/wifi-img-streamer/camera_pipeline.c:240-244 | the statements behind it |
| `CameraPipeline.Pipeline.EndFrame` | examples/other/wifi-img-streamer/camera_pipeline.c:254-258 | the consumer begins to wait |
| `CameraPipeline.Pipeline.ContinueEnd` | examples/other/wifi-img-streamer/camera_pipeline.c:259-262 | the frame given back is queued and the ready one taken |
| `CameraPipeline.Pipeline.Disconnect` | examples/other/wifi-img-streamer/camera_pipeline.c:268-274 | captures are discarded from here on |
| `CameraPipeline.Pipeline.ContinueDisconnect` | examples/other/wifi-img-streamer/camera_pipeline.c:275-283 | and streaming ends when none is outstanding |
| `CameraPipeline.StepKeepsInv` | examples/other/wifi-img-streamer/camera_pipeline.c:54-285 | between any two statements, wherever an interrupt comes, no buffer is in two of: queued, ready, with the consumer; the counters' difference is the number queued, through their wraparound |
| `CameraPipeline.EveryRunIsSafe` | examples/other/wifi-img-streamer/camera_pipeline.c:54-285 | the same over every run |
| `CameraPipeline.WhatHoldingMeans` | examples/other/wifi-img-streamer/camera_pipeline.c:224-252 | while a frame is held the other two buffers are queued and only they; when idle nothing is outstanding |
| `CameraPipeline.HeldFrameIsNotWritten` | examples/other/wifi-img-streamer/camera_pipeline.c:59-98 | the camera never fills the frame the consumer holds |
| `CameraPipeline.FramesAreFresh` | examples/other/wifi-img-streamer/camera_pipeline.c:72-80 | every frame handed out was completed after the consumer began to wait |
| `CameraPipeline.NeverStuck` | examples/other/wifi-img-streamer/camera_pipeline.c:106-110 | a waiting consumer always has a capture to come, or its bit set |
| `CameraPipeline.CallsEnd` | examples/other/wifi-img-streamer/camera_pipeline.c:224-285 | every statement, and every capture waited for, brings a call nearer to its end |
| `CameraPipeline.CallCanEnd` | examples/other/wifi-img-streamer/camera_pipeline.c:106-110 | every call that was begun has a way to its end |
| `CameraPipeline.EndFrameHandsOutTheNext` | examples/other/wifi-img-streamer/camera_pipeline.c:254-264 | end_frame as a whole: exactly one more frame, in another buffer, waited for and completed in this call; the old buffer is with the camera again |
| `CameraPipeline.BeginFrameHandsOutAFrame` | examples/other/wifi-img-streamer/camera_pipeline.c:224-252 | begin_frame as a whole: one frame, and the camera has the other two buffers; within a session the frame held is handed out again |
| `CameraPipeline.DisconnectEndsTheSession` | examples/other/wifi-img-streamer/camera_pipeline.c:268-285 | disconnect as a whole: two captures discarded, nothing outstanding, no frame handed out; outside a session it does nothing |
| `CameraPipeline.DisconnectDrains` | examples/other/wifi-img-streamer/camera_pipeline.c:268-285 | disconnect ends with exactly zero outstanding, every queued capture discarded and no frame handed out |
| `CameraPipeline.EveryCaptureCounts` | examples/other/wifi-img-streamer/camera_pipeline.c:59-87 | every capture is served, dropped or discarded once; dropped_frames counts the dropped ones modulo 2^32 |
| `CameraCrop.CropTask` | nanocockpit/lib/camera.c:193-223 | line by line in place the buffer becomes the cropped image followed by its old bytes |
| `CameraCrop.CropIsExact` | nanocockpit/lib/camera.c:193-223 | each byte of the crop comes from its place in the capture, for all sizes that fit, and behind the crop nothing has changed |
| `IntegralImage.OwnerExists` | examples/image_processing/FaceDetection/FaceDetBasicKernels.c:25-35 | on 2^k cores every column, or line, has a core |
| `IntegralImage.OwnerIsUnique` | examples/image_processing/FaceDetection/FaceDetBasicKernels.c:25-35 | and only one |
| `IntegralImage.PrimePhase` | examples/image_processing/FaceDetection/FaceDetBasicKernels.c:84-98 | the carry buffer is cleared by all cores in any order |
| `IntegralImage.SumColumns` | examples/image_processing/FaceDetection/FaceDetBasicKernels.c:119-125 | one core sums its own columns on top of the carry and touches no other |
| `IntegralImage.SumPhase` | examples/image_processing/FaceDetection/FaceDetBasicKernels.c:119-126 | all of them, in any order |
| `IntegralImage.SavePhase` | examples/image_processing/FaceDetection/FaceDetBasicKernels.c:127-130 | the carry for the next tile |
| `IntegralImage.SumLines` | examples/image_processing/FaceDetection/FaceDetBasicKernels.c:133-137 | one core sums along its own lines and leaves the others in either state |
| `IntegralImage.LinePhase` | examples/image_processing/FaceDetection/FaceDetBasicKernels.c:132-138 | all of them, in any order |
| `IntegralImage.ProcessTile` | examples/image_processing/FaceDetection/FaceDetBasicKernels.c:100-138 | a tile of the two-dimensional prefix sum modulo 2^32, and the carry for the next |
| `IntegralImage.Process` | examples/image_processing/FaceDetection/FaceDetBasicKernels.c:84-179 | a whole image in tiles of any heights, on 2^k cores, each phase in any order, plain or squared, is the two-dimensional prefix sum modulo 2^32 |
| `IntegralImage.FourCorners` | examples/image_processing/FaceDetection/FaceDetBasicKernels.c:219-227 | the sum over a rectangle from the four prefix sums at its corners |
| `IntegralImage.OnePixel` | examples/image_processing/FaceDetection/FaceDetBasicKernels.c:219-227 | over one pixel it is that pixel, or its square |
| `IntegralImage.Lookup` | examples/image_processing/FaceDetection/FaceDetBasicKernels.c:219-227 | the lookup gives exactly the sum over lines y+1 to y+h and columns x+1 to x+w whenever an int can hold it, and that sum modulo 2^32 always |
| `SquareRoot.SquareRootRounded` | examples/image_processing/FaceDetection/FaceDetBasicKernels.c:186-216 | for every 32-bit input the nearest integer to the root, without overflow on the way |
| `SquareRoot.NearestIsUnique` | examples/image_processing/FaceDetection/FaceDetBasicKernels.c:209-213 | there is only one such integer |
| `SquareRoot.NearestHasLeastError` | examples/image_processing/FaceDetection/FaceDetBasicKernels.c:209-213 | every other integer is more than half away |
| `NonMax.IntersectFindsOverlapIff` | examples/image_processing/FaceDetection/faceDet.c:222-242 | in spite of the repeated test of size_x, the threshold is passed by exactly the boxes that share enough, if and only if the product fits an int |
| `NonMax.OverflowMisleads` | examples/image_processing/FaceDetection/faceDet.c:231-237 | boxes that share nothing and pass the threshold, and boxes that are the same and do not |
| `NonMax.RemovedMeetsNone` | examples/image_processing/FaceDetection/faceDet.c:254-261 | a box removed in the middle of the inner loop suppresses nothing more |
| `NonMax.NonMaxSuppress` | examples/image_processing/FaceDetection/faceDet.c:244-276 | no two survivors pass the threshold, every removed box passed it with one that is better, or as good and before it; it has its corner set to -1, entries are otherwise unchanged, and something is left of a nonempty input |
| `NonMax.SuppressAround` | examples/image_processing/FaceDetection/faceDet.c:254-274 | the inner loop separates one box from all others |
| `NonMax.SurvivorsShareLittle` | examples/image_processing/FaceDetection/faceDet.c:222-276 | two survivors whose product fits share less than the threshold |
| `NonMax.BestAroundStays` | examples/image_processing/FaceDetection/faceDet.c:263-273 | a detection stays if those that overlap it are worse, or as good and in a later place |
| `NonMax.LonelyStays` | examples/image_processing/FaceDetection/faceDet.c:263-273 | a detection that overlaps none stays |

## Left out

- SDK and hardware calls (SPI, UART, GPIO, DMA, allocation, FreeRTOS, printing, tracing): replaced by
  the assumptions above. The SDK and the ESP32 firmware are not part of this model.
- NINA edges raised between steps 6 and 8 of `cpx_spi_task`: they may come, but the model, like the
  code, does not promise that they are noticed.
- CpxSpi.Cpx.SpiTask: whether a payload transfer has anything to move is an input of the step; the
  lengths that decide it are in module CpxTransfer.
- CpxTransfer.TransferTail: what is sent past the end of the tail is arbitrary memory, as in the code;
  the compile-time choice of bidirectional mode is an argument of `Transaction`. Headers are taken to
  be aligned.
- UartProtocol.Protocol.Step: checksum and timestamp are decoded fields; their placement in the raw
  buffer (`nanocockpit/lib/uart_protocol.c:114-115`) is not modelled. Nor is the transmit direction.
- StreamerHost.SendTask: the metadata in front of a frame is part of its bytes; decoding it at the
  host, and statistics, are left out.
- StreamerGap.SendBuffer: needs a packet size above the BEGIN head; with less the loop of the source
  does not end.
- StreamerGap.Streamer.DataReceived: the storage is taken to be smaller than the address space by at
  least one head, so that the wrapped length of a packet shorter than its head never fits.
- CameraPipeline.Pipeline.CaptureDone: queue latency and tick counts are left out, as is start-stop
  mode; a schedule (count, then queue) is one step, since the interrupt reads neither half alone.
- CameraCrop.CropTask: the yield after each line is not a step of its own; nothing else writes the
  buffer meanwhile. The order of capture, crop and consumption in `camera_task`
  (`nanocockpit/lib/camera.c:128-185`) is left out: a small sibling of the camera pipeline.
- IntegralImage.Process: the bit tricks of `ChunkSize` (shift and mask by a power of two) are written
  as division and remainder; the generated code that moves tiles is replaced by `LoadTile` and
  `StoreTile`. Cores interleave between whole runs of a phase; their cells are disjoint.
- NonMax.NonMaxSuppress: boxes with x + w up to 65535, so that a removed one, converted, lies right of
  every other. An int that overflows is taken to wrap around, which the language does not promise.
- `KerResizeBilinear`, `ImageDraw.c` and `ImgIO.c`: loops with one-step invariants, easier than what is
  here. Cascade scoring, model data and windows in the last line or column.
- Floating point: Himax timing, network output, plotting.
- `lib/cpx/src/com.c`, `lib/cpx/src/cpx.c`, `cpx_stream.c`, `img_proc.c`, `rng.c` and
  `trace_buffer.c`: simpler siblings of what is modelled.
