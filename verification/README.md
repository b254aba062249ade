# Verification of the analytics collector

The collector takes events over HTTP, admits them to a bounded queue, and a batcher sends them in
batches to Elasticsearch's bulk endpoint, with retries, until a signal makes it shut down. This
project models that delivery pipeline in Dafny and proves what it promises; the limiter, the
payload limits, the GeoIP reader, admission and the string normalisers follow.

The pipeline is proved twice. The queue, the bulk client and the batcher are classes that work in
place, over arrays, as the original does (`Queue.dfy`, `Elastic.dfy`, `Batcher.dfy`). The same
operations, as functions on values, make up a state machine in which any number of handlers, the
batcher's goroutine, the shutdown goroutine and a server that applies requests in its own time
interleave (`Pipeline*.dfy`); its results, in `PipelineRuns.dfy`, hold after every sequence of
steps. Both share the specification functions for room, admission, drain size, restore capacity,
classification of a response, identifiers, and the decision after a response, and
`PipelineRefinement.dfy` proves that a flush, and each of the two flush loops, run by the class is a
sequence of steps of the state machine, with the same calls and the same effect on queue and counters.

How things are represented:

- An event is a `tag` and a document `id`. The tag stands for all other fields, none of which
  delivery reads or writes; in the state machine the n-th admitted event has tag n, so tags are also
  positions in the admission log.
- The network, the bulk server, the JSON decoder and the random source of the client are an oracle:
  any reply, and any non-empty identifier, may come at any call. In the state machine a request may be
  applied by the server at any time after it was sent, whether or not its response arrives.
- Cancellation may be seen at any look at a context, and stays. Timers, tickers and waits are steps
  that may happen at any time.
- The lock of the queue makes its operations single steps, except that a handler's append and its
  notification are two, between which the lock is held.
- Strings are ASCII, and their length is their number of bytes.
- URL parsing and the time zone database are parameters of which nothing is assumed.

The steps of the state machine, and where the original takes them:

- `Produce`, `Notify`: internal/queue/queue.go:26-52; `RunStart`, `Tick`, `ReceiveToken`, `WokenCheck`, `LoopReturns`,
  `RunStop`, `RunClose`: internal/batcher/batcher.go:47-69, the deferred calls in their order.
- `ReadLength`, `ReadContext`: internal/batcher/batcher.go:85-88 and 97-100; `EnterFlush`, `TakeBatch`: 109-116;
  `Request`, `FailToBuild`, `Respond`: 149-151; `Decision`: 152-169; `WaitOver`, `Interrupt`: 172-178; `Conclude`: 120-136.
- `Signal`, `StopBatcher`, `BeginDrain`, `GiveUpWaiting`, `Expire`: cmd/collector/main.go:98-118; `ServerApplies` is the
  bulk server's `create`, of which a second one for the same identifier has no effect.

Five places where the code does less than one might expect are stated as such:

- A whole-request status of 400 or more that is not retryable, or a payload that cannot be built,
  discards the batch without counting it anywhere. The ledger has a `discarded` bucket for it, and
  `CountedExactlyWhen` says that the two counters account for everything settled on exactly the runs in which
  no batch is given up so under a live context. No configuration excludes it (`DiscardedAndRequeuedAnyway`).
- `flush` looks at its context again after `sendWithRetry` has returned. If it was cancelled in
  between, the whole batch is put back, settled events included. `ConservationOverEveryRun` accounts
  for them (`requeued`), `RequeuedExactlyWhen` says which step does it, `ExactExactlyWhen` that the partition
  is exact on exactly the runs without such a step, and `RaceRequeuesSettledEvents` is a run with one.
- After a failed flush a full batch can wait without a token, until the ticker, cancellation or the next
  event; `WakeupOverEveryRun` therefore excepts a batcher whose last flush failed. Short of cancellation
  it can happen under exactly the configurations with 2 * MaxBatchSize <= MaxQueueSize
  (`WakeupLostExactlyWhen`), the default among them (`FailedFlushLosesWakeup`).
- The configuration check lets through a maximal backoff so large that adding jitter leaves 64 bits
  (`JitterCanOverflow`); `AllDelaysInRangeExactlyWhen` gives the exact condition on the configuration.
- A handler reads its clock before it waits for the limiter's lock. Calls out of order within a minute do no
  harm, but a call of a past minute after one of the next finds a fresh table. The limits per minute hold
  at exactly the call times that reopen no minute (`LimitsKeptExactlyWhen`).

## Model

| member | source | states |
|---|---|---|
| RingQueue.Queue.constructor | internal/queue/queue.go:18-24 | A new queue is empty, with the given capacity and no notification pending. |
| RingQueue.Queue.Enqueue | internal/queue/queue.go:26-35 | Admits the whole batch behind the rest and notifies, exactly when size and batch together do not exceed the capacity; otherwise nothing changes. |
| RingQueue.Queue.DropNewest | internal/queue/queue.go:37-52 | Admits exactly the longest prefix that fits and returns the size of the rest; notifies exactly when there was room. |
| RingQueue.Queue.Prepend | internal/queue/queue.go:54-67 | Puts the batch in front, in order, growing just enough when it does not fit; always notifies. |
| RingQueue.Queue.PutBack | internal/queue/queue.go:60-64 | The backward loop of Prepend leaves the batch in its own order in front of the old contents. |
| RingQueue.Queue.Grow | internal/queue/queue.go:69-77 | Reallocation leaves the contents as they were, wrapped or not. |
| RingQueue.Queue.Drain | internal/queue/queue.go:79-100 | Takes the first `max` events, or all for a non-positive `max`; what is taken followed by what is left is what there was. |
| RingQueue.Queue.MoveOut | internal/queue/queue.go:88-93 | The loop of Drain copies the first events out in order and clears exactly their slots. |
| RingQueue.Queue.Append | internal/queue/queue.go:112-118 | The contents grow by the batch at the end. |
| RingQueue.Queue.Len | internal/queue/queue.go:102-106 | The number of events waiting. |
| RingQueue.Wrap | internal/queue/queue.go:61-88 | Reducing modulo the capacity a position at most one turn ahead is one conditional subtraction. |
| RingQueue.WriteBeforeHead | internal/queue/queue.go:60-64 | Stepping the head back and writing there puts one event in front; every slot outside the live window stays zero. |
| RingQueue.ClearFromHead | internal/queue/queue.go:88-95 | Clearing live slots from the head and moving the head past them drops just these; every slot outside the live window is zero. |
| RingQueue.DrainedRing | internal/queue/queue.go:88-98 | What was drained and the ring left behind make up the old view, also when an emptied ring starts again at slot 0. |
| RingQueue.DrainOfferRestore | internal/batcher/batcher.go:113-128 | Drain, any offers by handlers under either policy, then a restore: the queue holds what was put back, the untouched rest, the arrivals; putting back everything undoes the drain, overflow and growth included. |
| Backoff.WithoutJitter | internal/elastic/client.go:312-329 | The early-exit doubling loop yields min(minimum * 2^attempt, maximum), after clamping, for every attempt; no step leaves 64 bits. |
| Backoff.Delay | internal/elastic/client.go:312-336 | The delay is the closed form plus a remainder below a quarter of it, with the last addition wrapping as 64-bit addition does. |
| Backoff.BaseRecurrence | internal/elastic/client.go:313-329 | Step by step: the delay without jitter starts at the minimum and doubles up to the maximum; senseless bounds and negative attempts are straightened first. |
| Backoff.DelayTakesDraw | internal/elastic/client.go:330-335 | Below four nanoseconds there is no jitter; else the jitter drawn is added as drawn, whatever its length, wrapping as 64-bit addition does. |
| Backoff.BaseNondecreasing | internal/elastic/client.go:322-329 | A later attempt never waits for less, jitter aside. |
| Backoff.BaseBounds | internal/elastic/client.go:313-329 | The delay without jitter lies between the clamped minimum and the clamped maximum. |
| Backoff.DelayInRangeExactlyWhen | internal/elastic/client.go:330-335 | Every draw gives a delay in [base, base + base/4) exactly when the largest such sum fits in 64 bits. |
| Backoff.AllDelaysInRangeExactlyWhen | internal/elastic/client.go:312-336 | Under an accepted configuration every delay, at every attempt and draw, is in that range exactly when its maximum leaves room for its own jitter. |
| Backoff.ConfiguredDelayBounds | internal/config/config.go:185-193 | With accepted bounds that leave room for jitter, a delay is never below the minimum nor above 1.25 times the maximum. |
| Backoff.JitterCanOverflow | internal/elastic/client.go:334-335 | A maximum the configuration check accepts can give a negative delay. |
| Elastic.Client.EnsureDocumentIDs | internal/elastic/client.go:146-149 | Identifiers are written through the caller's slice, only where there is none. |
| Elastic.Client.Send | internal/elastic/client.go:78-141 | Counts, retries and error are those of the classification of the reply; `Retry` is the caller's own slice or a fresh copy. |
| Elastic.Client.InspectItems | internal/elastic/client.go:125-140 | The item loop counts stored and refused items and keeps the retryable ones in order; a zero status anywhere gives an error, no counts, and the whole batch to retry. |
| Elastic.WholeBatchMeans | internal/elastic/client.go:79-121 | A transport error, a whole-request status of 408, 429 or at least 500, and an undecodable body leave the whole batch to retry; a payload failure and any other status of at least 400 give all of it up; a response without errors indexes all. |
| Elastic.ItemsMissing | internal/elastic/client.go:122-129 | A wrong number of items, or a zero status anywhere, leaves the whole batch to retry. |
| Elastic.ItemsMean | internal/elastic/client.go:125-139 | Otherwise, position by position and in order: 200 to 299 and 409 are indexed, 408, 429 and 500 or more are retried, all others have failed. |
| Elastic.ClassifyPartitions | internal/elastic/client.go:101-140 | Without error the batch is partitioned, as a multiset and by count; on any error both counts are zero and all or nothing is to be retried; buckets keep the batch order. |
| Elastic.ChosenIsFilter | internal/elastic/client.go:125-139 | A bucket is the batch picked at exactly the positions with that verdict. |
| Elastic.PositionsComplete | internal/elastic/client.go:125-139 | No position with the verdict is left out. |
| Elastic.ChosenPartitions | internal/elastic/client.go:130-138 | The three buckets of the item loop add up to the batch. |
| Elastic.GivenUpExactlyWhen | internal/elastic/client.go:79-111 | An error with nothing to retry comes exactly from a payload failure or a status of 400 to 499 other than 408 and 429 (or an empty batch). |
| Elastic.IdentifyOnce | internal/events/events.go:76-86 | Identifiers are written once, as drawn, to the events reached; none is replaced, and nothing else is touched. |
| Elastic.RetriesAreIdentified | internal/elastic/client.go:101-140 | Whatever a bulk call leaves to retry carries its identifier. |
| Retry.PendingShrinks | internal/batcher/batcher.go:146-168 | Each pending list of the retry loop is a subsequence of every earlier one. |
| Retry.SettledSoFar | internal/batcher/batcher.go:148-168 | After every call the batch is what was indexed, what failed, and what is left. |
| Retry.BatchConserved | internal/batcher/batcher.go:146-180 | However the loop ends, each event of the batch is indexed, failed, or pending in the outcome, as often as it was sent. |
| Retry.OutcomeKeepsOrder | internal/batcher/batcher.go:152-176 | What is given back keeps the batch order. |
| Retry.LastResponseDecides | internal/batcher/batcher.go:146-180 | An event's final bucket is the one the last response to a call carrying it gave. |
| Batching.Batcher.SendOnce | internal/batcher/batcher.go:149-151 | One call and its counters, as part of a history of calls. |
| Batching.Batcher.Attempt | internal/batcher/batcher.go:148-178 | One round of the retry loop: counters, how it ended in terms of the response, the error returned; under a context cancelled before it began nothing is given up. |
| Batching.Batcher.WaitForAttempt | internal/batcher/batcher.go:170-178 | A backoff wait is as long as the backoff after that attempt, and interrupted only by cancellation. |
| Batching.Batcher.SendWithRetry | internal/batcher/batcher.go:146-181 | The loop makes a history of calls that ends as it may; counters and retry attempts add up; the k-th wait is as long as the backoff after attempt k; the error says how it ended; under a context cancelled from the start the batch is finished or given back; the final return is unreachable. |
| Batching.FlushIsSound | internal/batcher/batcher.go:108-137 | A flush conserves its batch, puts back a subsequence of it, and calls at most MaxRetries + 1 times. |
| Batching.Batcher.Restore | internal/batcher/batcher.go:120-129 | Under a cancelled context what is pending goes back in front, or the whole batch if the retry loop had given up; otherwise nothing does. |
| Batching.Batcher.FlushDrained | internal/batcher/batcher.go:117-136 | The rest of a flush: calls, counters, and what is left in the queue. |
| Batching.Batcher.FlushBatch | internal/batcher/batcher.go:108-137 | A flush drains one batch, sends it, and leaves the queue as what it put back before the untouched rest; flushes and failed flushes are counted. |
| Batching.Batcher.FlushNext | internal/batcher/batcher.go:101-103 | One more flush extends a run of flushes whose drained chunks are a prefix of the queue. |
| Batching.Batcher.FlushAll | internal/batcher/batcher.go:96-106 | Terminates; chunks are full but for the last and are the queue in order; without error the queue is empty. |
| Batching.Batcher.FlushFullBatches | internal/batcher/batcher.go:84-94 | Terminates; every chunk is full; without error there were n / size of them and n % size events are left. |
| Batching.FullChunksAddUp | internal/batcher/batcher.go:84-94 | Full chunks drained add up to their number times the batch size. |
| PipelineLifecycle.OrderedKept | cmd/collector/main.go:95-119 | Readiness, closing of the done channel, cancellation and the final drain happen in order. |
| PipelineLifecycle.SingleConsumer | internal/batcher/batcher.go:47-52 | In an ordered state no two goroutines are in a flush loop. |
| PipelineLifecycle.ActKeepsBounded | internal/batcher/batcher.go:84-137 | Each step of a flush keeps sizes, attempts and capacity in bounds, restores at most once per context, and never shrinks the capacity. |
| PipelineLifecycle.BoundedKept | internal/queue/queue.go:54-77 | Every step of the collector keeps the bounds, and capacity never shrinks. |
| PipelineOrder.ActKeepsOrder | internal/batcher/batcher.go:108-180 | Each step of a flush keeps batch and queue in admission order. |
| PipelineOrder.LineIsSubsequenceOfLog | internal/batcher/batcher.go:120-128 | Increasing admission numbers mean that pending events and queue are a subsequence of the log. |
| PipelineLedger.ActMoves | internal/batcher/batcher.go:146-180 | Every step of a flush is one of a few moves between the buckets. |
| PipelineLedger.MoveBalances | internal/batcher/batcher.go:120-180 | No such move creates or loses an event, or makes a counter wrong. |
| PipelineLedger.NothingLost | internal/batcher/batcher.go:120-136 | Balanced books miss no admitted event; without requeueing each is in exactly one place. |
| PipelineDocuments.ActKeepsDocumented | internal/elastic/client.go:146-150 | Each step of a flush keeps names unique, copies consistent with them, and indexed events stored. |
| PipelineDocuments.NamingKeepsSound | internal/elastic/client.go:146-150 | Drawing identifiers for a batch names each event once; a retry draws nothing. |
| PipelineDocuments.IndexedIsStored | internal/elastic/client.go:113-132 | If a decoded response is truthful about its items, or about having no errors, every event the client counts as indexed is stored. |
| PipelineDocuments.OneDocumentEach | internal/elastic/client.go:151-156 | With sound names no event has two documents. |
| PipelineDocuments.IndexedHasDocument | internal/elastic/client.go:130-132 | What was counted as indexed is stored under the event's own identifier. |
| PipelineWakeup.WakeupKept | internal/batcher/batcher.go:53-68 | Every step keeps the token there, or about to be put there, while a quiet batcher has a full batch waiting. |
| PipelineWakeup.DoneMeansSeenSmall | internal/batcher/batcher.go:84-94 | A flush loop ends without error only on seeing less than a full batch. |
| PipelineWakeup.TokenExactlyWhen | internal/queue/queue.go:120-125 | The token is there exactly when something was notified or put back since Run last received it. |
| PipelineWakeup.StalledExactlyWhen | internal/batcher/batcher.go:56-67 | The state knows whether Run's last loop failed and it has not seen less than a full batch since. |
| PipelineWakeup.LoopModeOverEveryRun | internal/batcher/batcher.go:54-67 | A tick starts flushAll, a notification flushFullBatches. |
| PipelineWakeup.LoopEndsOverEveryRun | internal/batcher/batcher.go:84-106 | A loop started by a tick ends at its length check exactly on an empty queue, one started by a notification exactly on less than a full batch. |
| PipelineRuns.InvOverEveryRun | cmd/collector/main.go:69-119 | All invariants together hold after every run. |
| PipelineRuns.OrderOverEveryRun | internal/batcher/batcher.go:108-180 | After every run, pending events followed by the queue are a subsequence of the admission log, without duplicates. |
| PipelineRuns.ConservationOverEveryRun | internal/batcher/batcher.go:120-180 | After every run, the log and what was requeued equal indexed, failed, exhausted, discarded, in flight and queued together; both counters are the sizes of their buckets. |
| PipelineRuns.ExactExactlyWhen | internal/batcher/batcher.go:120-136 | Admitted events equal settled, in flight and queued ones exactly on the runs in which no flush is found cancelled after its retry loop gave up. |
| PipelineRuns.NothingRequeuedExactlyWhen | internal/batcher/batcher.go:120-129 | What was put back after settling never leaves the books, and there is none exactly on the runs free of that race. |
| PipelineRuns.RequeuedExactlyWhen | internal/batcher/batcher.go:120-129 | A step puts settled events back exactly when it ends a flush found cancelled after its retry loop gave up; none takes them off the books. |
| PipelineRuns.NothingLostOverEveryRun | internal/batcher/batcher.go:120-136 | Race or not, no admitted event is ever missing. |
| PipelineRuns.DocumentsOverEveryRun | internal/elastic/client.go:101-156 | After every run each event has at most one document, every indexed event has one, and none is stored that was not admitted. |
| PipelineRuns.WakeupOverEveryRun | internal/batcher/batcher.go:53-68 | A parked batcher with a full batch and no failed flush behind it has a token, or a handler is about to put it. |
| PipelineRuns.CapacityOverEveryRun | internal/queue/queue.go:57-77 | Capacity never exceeds MaxQueueSize + 2 * MaxBatchSize, nor falls below MaxQueueSize. |
| PipelineGrowth.CapacityBoundReached | internal/queue/queue.go:57-59 | With room for a batch in the queue, some run reaches that bound: it cannot be improved. |
| PipelineRuns.SingleConsumerOverEveryRun | cmd/collector/main.go:110-118 | The final drain has the queue to itself, after Run closed its channel and not-ready was reported. |
| PipelineRefinement.CallSteps | internal/batcher/batcher.go:149-151 | One bulk call is the steps of naming, sending and counting, or of failing to build. |
| PipelineRefinement.LoopSteps | internal/batcher/batcher.go:146-181 | Every history the retry loop can make, with its outcome, is a walk through the state machine. |
| PipelineRefinement.FlushSteps | internal/batcher/batcher.go:108-137 | Every flush is a walk from its start to its end, with the same calls, queue, capacity, token and counters. |
| PipelineRefinement.FlushRefines | internal/batcher/batcher.go:108-137 | Running a flush on an object that agrees with a state leaves it agreeing with the state these steps lead to, with the same calls. |
| PipelineRefinement.FlushLoopSteps | internal/batcher/batcher.go:84-106 | Every chain of flushes a flush loop can make, with its end, is a walk from the loop's first check to its return. |
| PipelineRefinement.FlushAllRefines | internal/batcher/batcher.go:96-106 | The same of a whole flushAll, which is also the final drain. |
| PipelineRefinement.FlushFullRefines | internal/batcher/batcher.go:84-94 | The same of a whole flushFullBatches. |
| PipelineSettling.DiscardedExactlyWhen | internal/batcher/batcher.go:152-157 | A step discards events exactly when a response with an error and nothing to retry is decided on under a context not seen cancelled. |
| PipelineSettling.CountedExactlyWhen | internal/batcher/batcher.go:149-166 | The two counters add up to everything settled exactly on the runs without such a step. |
| PipelineSettling.ExhaustedExactlyWhen | internal/batcher/batcher.go:161-166 | Events are counted as exhausted exactly at a decision with something to retry, no attempt left and a context not seen cancelled, and then just those left to retry. |
| PipelineSettling.DecisionMeans | internal/batcher/batcher.go:152-169 | What becomes of a response in each of the six cases; under a cancellation seen, nothing is exhausted or discarded. |
| PipelineSettling.DrainsAllOverEveryRun | cmd/collector/main.go:110-115 | The final drain flushes all and ends without error only on an empty queue, unless something was produced after the batcher was stopped. |
| PipelineSettling.CleanShutdownSettlesAll | cmd/collector/main.go:98-118 | A shutdown whose final drain ends without error leaves nothing queued or in flight: the log is what was settled, requeued events aside. |
| PipelineLostWakeup.LessThanABatchOverEveryRun | internal/batcher/batcher.go:53-68 | In a queue too small for two batches, less than a batch is left whenever Run is past looking and there is no token, before cancellation. |
| PipelineLostWakeup.WakeupCanBeLost | internal/batcher/batcher.go:61-66 | With room for two batches there is a run after which one waits, Run is parked, and there is no token. |
| PipelineLostWakeup.WakeupLostExactlyWhen | internal/batcher/batcher.go:53-94 | Short of cancellation a wakeup can be lost if and only if 2 * MaxBatchSize <= MaxQueueSize. |
| PipelineLostWakeup.FailedFlushLosesWakeup | internal/config/config.go:105-126 | So it can with the default sizes. |
| PipelineWitness.DiscardedAndRequeuedAnyway | internal/batcher/batcher.go:120-157 | Under every configuration some run discards an event uncounted and puts it back into the queue all the same. |
| PipelineWitness.RaceRequeuesSettledEvents | internal/batcher/batcher.go:120-129 | A run after which two settled events are back in the queue. |
| RateLimiting.RateLimiter.constructor | internal/httpapi/ratelimiter.go:21-30 | An empty table, with a default for a non-positive number of clients. |
| RateLimiting.RateLimiter.Allow | internal/httpapi/ratelimiter.go:32-59 | Allows exactly when the history of calls says so; the table holds just the clients let through in the window, each with its count between 1 and the limit. |
| RateLimiting.WindowIsMinute | internal/httpapi/ratelimiter.go:36-36 | Windows start on whole minutes, and every moment lies in its own sixty seconds. |
| RateLimiting.EraBounded | internal/httpapi/ratelimiter.go:46-58 | No client exceeds the limit, and no more than maxClients pass, in any stretch of calls in one window. |
| MinuteLimits.EraIsMinute | internal/httpapi/ratelimiter.go:36-44 | As long as no minute is reopened, the calls the table covers are exactly the calls of the minute. |
| MinuteLimits.EraIsSuffix | internal/httpapi/ratelimiter.go:41-44 | In any order of times, the table covers the tracked calls since the last one of another minute. |
| MinuteLimits.MayPassMeans | internal/httpapi/ratelimiter.go:46-58 | ... and a named client passes exactly when it has fewer than limit passes among them, and has one or finds room. |
| MinuteLimits.PassesUnasked | internal/httpapi/ratelimiter.go:33-35 | Without a limit or a name every call passes. |
| MinuteLimits.MayPassByMinute | internal/httpapi/ratelimiter.go:46-58 | ... so a call is allowed exactly when the client had fewer than limit passes this minute and is among the clients of the minute or finds room. |
| MinuteLimits.EraTotalBounded | internal/httpapi/ratelimiter.go:46-58 | At most limit * maxClients calls pass in any stretch of calls in one window. |
| MinuteLimits.MinuteBounds | internal/httpapi/ratelimiter.go:32-59 | At most `limit` passes per client and minute, at most limit * maxClients in all, when no minute is reopened. |
| MinuteLimits.ReopenedExceeds | internal/httpapi/ratelimiter.go:41-44 | At any call times that reopen a minute, limit 1 and two clients allow two passes of one client in it. |
| MinuteLimits.LimitsKeptExactlyWhen | internal/httpapi/ratelimiter.go:32-59 | For all call times: every log at them keeps the limits if and only if no minute is reopened. |
| MinuteLimits.MinutesInOrderNeverReopen | internal/httpapi/server.go:82-82 | Minutes in order, whatever the order of calls within them, reopen nothing. |
| MinuteLimits.LateCallExceedsLimit | internal/httpapi/server.go:82-82 | A call of a past minute after one of the next is such a case. |
| MinuteLimits.SixtySecondBound | internal/httpapi/ratelimiter.go:36-44 | At most twice the limit per client in any sixty seconds, when no minute is reopened. |
| GeoReader.AccountedKept | internal/geo/geo.go:90-117 | Each reader is current, held by one reload, or closed once, at every step. |
| GeoReader.InstallsKept | internal/geo/geo.go:108-112 | A reader not yet installed is in the hands of the reload that opened it. |
| GeoReader.LookupsSafeKept | internal/geo/geo.go:65-88 | Lookups use the current reader, and nobody swaps meanwhile. |
| GeoReader.InvOverEveryRun | internal/geo/geo.go:65-117 | These hold after every interleaving of lookups and reloads. |
| GeoReader.LookupsOverEveryRun | internal/geo/geo.go:65-88 | No lookup ever uses a closed reader. |
| GeoReader.ReadersOverEveryRun | internal/geo/geo.go:108-116 | Every installed reader is exactly one of: current, closed once, held by one reload about to close it. |
| GeoReader.FinalCloseClosesAll | internal/geo/geo.go:119-123 | With no reload under way, the final Close leaves every reader ever opened closed, once. |
| Admission.Collector.Screen | internal/httpapi/server.go:82-132 | Refuses for the first reason that applies, or finds the request passable. |
| Admission.Collector.Handle | internal/httpapi/server.go:136-169 | One round of the event loop: the fault found, or the event enriched, cut to length, found valid in that form, and located. |
| Admission.Collector.Prepare | internal/httpapi/server.go:135-170 | The first faulty event ends the loop; without one the whole batch is enriched, in order. |
| Admission.Collector.Admit | internal/httpapi/server.go:172-192 | All or nothing, or the longest prefix that fits, at the end of queue and log; counters are raised accordingly. |
| Admission.Collector.HandleBatch | internal/httpapi/server.go:135-193 | A batch with a faulty event leaves no trace; a sound one is admitted. |
| Admission.Collector.Collect | internal/httpapi/server.go:79-193 | The answer is the first that anything calls for; unless it is acceptance, queue, log and counters of admission are unchanged; accepted plus dropped is the batch size; the accepted counter is always the length of the log. Every admitted event was enriched, cut to length and then found valid; whatever holds of all such events, and is not undone by location, holds of it. |
| Admission.AcceptedExactlyWhen | internal/httpapi/server.go:79-193 | Acceptance if and only if not limited, with an origin if required, JSON, one to maxEvents events, domain allowed, every event sound, and room for all unless the newest may be dropped. |
| Admission.RefusedExactlyWhen | internal/httpapi/server.go:82-132 | For each earlier answer the exact conditions under which it is given. |
| Admission.HasMeans | internal/httpapi/server.go:142-160 | Which of the three faults an event has: the first in the order origin, URL, validity. |
| Admission.SoundMeans | internal/httpapi/server.go:142-160 | Sound means origin allowed, URL matching where required, and valid after the limits. |
| Admission.Collector.AdmittedAreChecked | internal/httpapi/server.go:136-169 | No event enters the queue that the checks would refuse. |
| Admission.HostAllowedExactlyWhen | internal/config/config.go:274-285 | When a site lists spellings of hosts, an origin spelled for a host is allowed exactly when the host is one of them. |
| Admission.SoundOrFirstBad | internal/httpapi/server.go:135-170 | A batch is sound or has a first faulty event. |
| Admission.OriginAllowedExactlyWhen | internal/httpapi/server.go:230-240 | With any mapping configured, an origin is allowed exactly when the last mapping for the site lists it, up to case, scheme, port and path. |
| AdmissionRuns.MoveKeepsCounted | internal/httpapi/server.go:172-192 | Each queue operation and each later counter update keeps the accounts of concurrent handlers. |
| AdmissionRuns.CountedOverEveryRun | internal/httpapi/server.go:172-192 | However handlers interleave, accepted plus what is yet to be counted is the length of the log, and once none is at work accepted, dropped and refused make up everything offered. |
| Payload.TruncateString | internal/events/events.go:364-369 | A string that fits is left alone; of one that does not, exactly the first max bytes are kept. |
| Payload.TruncateValue | internal/events/events.go:491-508 | Every string cut to length, whatever the order of keys. |
| Payload.TruncateCuts | internal/events/events.go:491-508 | Every string in a value is cut so, and nothing else changes. |
| Payload.CutIsDetermined | internal/events/events.go:491-508 | There is no other way to cut a value so, and one whose strings fit stays as it is. |
| Payload.FittingStays | internal/events/events.go:491-508 | Truncation leaves a fitting value alone. |
| Payload.TruncateFields | internal/events/events.go:481-489 | A missing payload stays missing; otherwise its values are truncated. |
| Payload.TruncateKeepsShape | internal/events/events.go:491-508 | Truncation keeps keys, nesting and all leaves but the tails of strings. |
| Payload.TruncateIdempotent | internal/events/events.go:491-508 | Truncating twice is truncating once. |
| Payload.AnyKeyFirst | internal/events/events.go:522-534 | The count of entries does not depend on the order of keys. |
| Payload.ValidatePayloadValue | internal/events/events.go:510-548 | Succeeds exactly when depth, keys, strings and types are legal, and then counts keys plus scalar leaves, for every order of keys. |
| Payload.ValidateObject | internal/events/events.go:522-534 | ... for an object. |
| Payload.ValidateList | internal/events/events.go:535-544 | ... for a list. |
| Payload.ValidatePayload | internal/events/events.go:467-479 | A missing payload passes; any other exactly when legal and not too large. |
| Payload.EntriesAdd | internal/events/events.go:514-544 | A scalar counts one, a list as many as its items together, an object one more for each key. |
| Payload.LegalLeaf | internal/events/events.go:511-521 | A leaf is legal when the depth allows it, it is of a JSON type, and a string fits. |
| Payload.ShapeKeepsMeasures | internal/events/events.go:510-548 | Depth, legality of keys, types and number of entries depend on the shape only. |
| Payload.TruncatedFits | internal/events/events.go:364-369 | After truncation no string is too long. |
| Payload.TruncatedPayloadPassesExactlyWhen | internal/events/events.go:467-548 | A truncated payload passes exactly when keys, depth, types and size of the original are in order. |
| EventValidation.TruncatedUrlFits | internal/events/events.go:388-422 | Whatever the URL library does, a truncated URL fits, a fitting one is untouched, and truncation is idempotent. |
| EventValidation.TruncatedUrlIs | internal/events/events.go:392-421 | An over-long URL becomes nothing if it cannot be parsed, its bare form if that fits, else scheme and host with as much of the path as fits, or nothing without room. |
| EventValidation.TruncationForgets | internal/events/events.go:396-405 | Over-long URLs that differ only in query, fragment or credentials truncate to the same string. |
| EventValidation.LimitedPassesExactlyWhen | internal/events/events.go:113-156 | After the limits no length check of Validate fires, and each check passes exactly when a condition on the event as it came in holds. |
| EventValidation.LimitedFields | internal/events/events.go:144-156 | Field by field: what fits is left alone, what does not keeps its first bytes. |
| EventValidation.FittingEventStays | internal/events/events.go:144-156 | An event that keeps to the limits is left as it is. |
| EventValidation.CheckOrder | internal/events/events.go:113-142 | The order in which the checks are made. |
| EventValidation.PassesMeans | internal/events/events.go:113-142 | What each check asks of which field. |
| EventValidation.IdentifierMeans | internal/events/events.go:92-92 | One to 128 letters, digits, underscores, dots, colons and dashes. |
| EventValidation.UrlFieldMeans | internal/events/events.go:371-386 | Empty, or not too long, parsable, and without scheme or with http or https. |
| EventValidation.LimitedIdempotent | internal/events/events.go:144-156 | Applying the limits twice changes nothing more. |
| EventValidation.Record.LimitStrings | internal/events/events.go:145-152 | Identifiers, user, path and title are cut to length in place. |
| EventValidation.Record.ApplyFieldLimits | internal/events/events.go:144-156 | The record becomes its limited form. |
| EventValidation.Record.ValidateStrings | internal/events/events.go:113-128 | The first failing check among those of the plain strings. |
| EventValidation.Record.Validate | internal/events/events.go:113-142 | No failure is reported exactly when every check passes; otherwise the first one that fails. |
| Text.JoinSplit | internal/events/request_metadata.go:91-97 | Joining what was split gives the string back. |
| Text.SplitJoin | internal/events/request_metadata.go:62-79 | Splitting what was joined gives the pieces back, if none contains the separator. |
| Text.DistinctFacts | internal/events/request_metadata.go:20-29 | The loop's list holds each non-empty entry once, in order of first appearance. |
| Text.TrimTakesBlanks | internal/config/config.go:275-284 | A string is spaces, what trimming leaves, and spaces. |
| Text.CaseOfChar | internal/config/config.go:275-275 | The 26 letters change case and nothing else does. |
| Text.TrimFacts | internal/config/config.go:275-284 | Trimming removes spaces at the ends only, and is idempotent. |
| Domains.NormalizeYieldsNormal | internal/config/config.go:274-285 | A normalised domain is trimmed and has no slash, colon or upper-case letter. |
| Domains.NormalizeIdempotent | internal/config/config.go:274-285 | Normalising is idempotent, and its fixed points are exactly the normal domains. |
| Domains.NormalizeFindsHost | internal/config/config.go:274-285 | A host spelled in any case, between spaces, with or without a scheme, a port or a path, normalises to the host. |
| Domains.HostsReadBack | internal/config/config.go:198-222 | A list of spellings is parsed to the hosts they name, each once. |
| Domains.ParseDomains | internal/config/config.go:198-222 | List and set agree; the error return is unreachable. |
| Domains.DomainsFacts | internal/config/config.go:198-222 | The list is duplicate-free, complete, in order of first appearance, and normal. |
| Domains.ParseMapping | internal/config/config.go:238-256 | One mapping is accepted exactly when it names a site and at least one origin. |
| Domains.ParseSiteOrigins | internal/config/config.go:228-260 | Succeeds exactly when every mapping is well formed, with the table they define. |
| Domains.MappingReadBack | internal/config/config.go:238-246 | A mapping written as site, colon and origins between bars is read back as that site and those origins. |
| Domains.MappingsReadBack | internal/config/config.go:233-237 | Mappings written between semicolons are read back trimmed, without the blank ones. |
| Domains.SiteTableFacts | internal/config/config.go:228-260 | A site is in the table exactly when some mapping names it, with the origins of the last one, at least one. |
| RequestMetadata.NormalizeLanguageTag | internal/events/request_metadata.go:49-80 | The loop over the segments computes the normal form, or nothing for a blank, starred or malformed tag. |
| RequestMetadata.NormalizeTagIdempotent | internal/events/request_metadata.go:49-80 | Normalising a tag is idempotent through split and join. |
| RequestMetadata.CaseOfSegment | internal/events/request_metadata.go:68-77 | Letter by letter, the case of a segment of each length and place. |
| RequestMetadata.TagReadBack | internal/events/request_metadata.go:49-80 | A tag written between spaces, with or without parameters, keeps its segments, cased. |
| RequestMetadata.RegionIsFirst | internal/events/request_metadata.go:41-46 | The region is the first segment of two or three letters, in upper case, if there is one. |
| RequestMetadata.ApplyAcceptLanguageDetails | internal/events/request_metadata.go:8-47 | Tags, primary tag, base and region are those of the header; nothing is set without a tag. |
| RequestMetadata.LanguageFacts | internal/events/request_metadata.go:19-39 | Tags are normal, duplicate-free and in header order; the base needs no lowering. |
| RequestMetadata.ApplyTimezoneDetails | internal/events/request_metadata.go:82-99 | Area, slash and location are the trimmed name exactly when it has a slash; otherwise the name is the area. |
| RequestMetadata.ZoneRebuildsName | internal/events/request_metadata.go:82-99 | Area, slash and location rebuild the trimmed name exactly when it has a slash; the area never has one. |

## Left out

- Batching.Batcher.FlushBatch: says nothing about handlers adding to the queue meanwhile; the state machine in Pipeline does, and PipelineRefinement ties a flush to its steps.
- PipelineRefinement.FlushRefines: that drawn identifiers are new and the server truthful is assumed of the steps only in the state machine.
- Batching.Batcher.SendWithRetry: the backoff wait is a choice between timer and cancellation; no time passes.
- PipelineRuns.DocumentsOverEveryRun: assumes that drawn identifiers are new, that a bulk response without errors means that all documents are there and an item with status 2xx or 409 that its document is, and a single backing index; rollover is not modelled.
- PipelineRuns.CapacityOverEveryRun: bounds the number of slots, not bytes.
- EventValidation.TruncatedUrlFits: does not say that a truncated URL still parses, since a percent escape may be cut.
- EventValidation.Record.Validate: names the check that failed; the error texts, of which both URL fields share three, are not modelled.
- RequestMetadata.LanguageFacts: quality weights of Accept-Language (section 12.5.4 of RFC 9110) are ignored by the code, and so here; nor is the casing of section 2.1.1 of RFC 5646 claimed, since three-letter segments are upper-cased like two-letter ones.
- GeoReader.InvOverEveryRun: holds up to the final Close; what a lookup does after it is not modelled.
- Admission.Collector.Collect: takes requests one at a time; AdmissionRuns interleaves them. Decoding, enrichment, the user-agent mark, URL host matching and geographic data are functions of the request and the event.
- The select loop of Run is a set of steps of the state machine, not a method.
- Payloads and request metadata are changed in place by the original and are values here, so sharing of nested maps is not modelled.
- HTTP, gzip, JSON, authentication, routing and CORS: any outcome of a call may occur.
- Documents beyond their identifier: field copying and promotion of payload fields.
- User-agent parsing and the device types derived from it.
- The rejected counter, whose unit differs between requests and events; queue depth, latency and batch size metrics; metrics rendering.
- Environment loading, GeoIP database contents, health endpoints, and the process exit after a timed-out shutdown.
- The cache of known time zones, which does not change an answer.
- Text outside ASCII.
