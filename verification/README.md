# Verified concurrency protocols

The handbook's value is in ten small hand-written Go protocols under `examples/`. This project models each
of them step by step and proves what they promise under every interleaving; what is not modelled is listed under
"Left out". To check the proofs, use `dafny verify dfyconfig.toml`. Nothing here executes the Go code.

## How the model is built

- A protocol is a `State` (shared variables plus the position and locals of every goroutine), an `Action` (which
  goroutine moves and which ready arm of its `select` it takes) and a function `Step` from a state and an action
  to the next state, or `None` when that step is not possible there. A sequence of actions is one interleaving;
  `Runs.Exec` follows it, and a theorem about every run is a theorem about every sequence of actions.
- An unbuffered channel is a hand-over, one step of both goroutines. A buffered channel is a sequence with a
  capacity and a closed flag. A send or a close on a closed channel, or a WaitGroup going below zero, is a step
  that sets `panicked`, and the invariants say that this never happens. A context is a flag that only goes up, or,
  where its value is not read, an arm that may be taken at any moment. A `sync.RWMutex` is a count of readers and
  at most one announced writer, who keeps new readers out.
- Results of callbacks (`quoteFn`, `scorer`, `engine`, `handler`, `loader`, `renderFn`, the warehouse lookups) are
  arbitrary values carried by the action of their return. History fields record what the callbacks returned and in
  which order things happened. No choice depends on them, except that a collector's first error is read off the log
  of what it received, and an actor's calls are stamped with the length of the log.
- For each protocol there is a class whose fields are the shared variables and whose methods run one goroutine
  from one blocking point to the next, taking any ready arm of its select. Each method ensures
  `Step(old(Abs()), a) == Some(Abs())` for the action `a` it reports, so every invariant of runs is one of the
  code. Deadlock freedom and progress need more, that no step is missed by the conditions under which a goroutine
  may go on. `SomeoneReady` and `GuardsMissNothing` say so for guards that do not count on any context ending: where
  they let nobody move, only a context could.
- Ten drivers put this together. `GenerateQuotes`, `RunAlertPipeline`, `RenderCatalog`, `CollectInventory`,
  `RunTee`, `RunBridge`, `RunProcessor`, `RunBroker`, `RunActor` and `RunService` run the goroutines in a loop in
  which the scheduler is free at every turn, are proved to end, and tie what they return to the run that was chosen.
  A parameter says whether contexts may end during the run. If not, the run has no such step, the loop ends all the
  same, and nobody is told of a context.
- The loops that are not concurrent (`validate`, `reserved`, `ReadFull`, `writeAll`, granting from the front of
  the semaphore's queue) are methods with loops, proved against functions or properties of their own.

| file | what it models |
|---|---|
| `Runs.dfy`, `Folds.dfy`, `Permutations.dfy`, `Ordering.dfy`, `Wrappers.dfy` | runs, totals over goroutines, reorderings, `sort.Slice` |
| `Outcomes.dfy` | what callbacks report, shared by the pools and the fan-in |
| `FanPool.dfy` | producer, workers, closer and collector, shared by the worker pool and the alert pipeline |
| `WorkerPool.dfy`, `Pipeline.dfy` | the two collectors and their results |
| `PipelineOrder.dfy` | when the order of the alerts is settled |
| `Broker.dfy`, `BrokerShutdown.dfy` | the request/reply broker and its shutdown |
| `Combinators.dfy`, `Bridge.dfy` | OrDone and Tee; Bridge and `MergeTenantFeeds` |
| `Processor.dfy`, `ProcessorDeadline.dfy` | the draining processor; when its shutdown misses a deadline |
| `Inventory.dfy`, `Actor.dfy` | the stock and its commands; the actor around them |
| `PriceCache.dfy`, `PriceFreshness.dfy` | the coalescing price cache; what `Invalidate` promises |
| `WeightedSemaphore.dfy` | weighted admission |
| `Framing.dfy`, `Session.dfy` | length-prefixed frames; client and server at the two ends of a connection |
| `FanIn.dfy`, `FanInOrder.dfy` | fan-in and ranking; when the best option is settled |

## What was found

Where the code does not do what its documentation or a reader expects, there is a run that shows it and a theorem
that says exactly when it happens.

- **The broker's shutdown can deadlock.** A `Run` told to stop leaves the queue alone and waits for the write lock,
  while a `Check` inside the read lock waits for a place in the full queue. `WedgeReachableExactly`: this can happen
  if and only if there are more calls than places in the queue. `WedgedForever` shows that only that caller's own
  context can end it, `MayFinish` and `MustFinish` say exactly when a broker already stopping can get through and
  when it must. The handbook asks that every blocked goroutine have an escape path
  (`docs/testing/leaks-and-shutdowns.md:27` and `:88`). The `done` arm of the admission select, meant as that path,
  is dead code for a single `Run` (`AdmissionArms`).
- **A price can be stale after `Invalidate`.** A call that begins after `Invalidate` has returned may get a price
  that was asked for before it began (`StaleAfterInvalidate`). `StaleExactly`: if and only if a flight of that key
  is loading or storing at the moment `Invalidate` deletes the entry, for it is forgotten but still stores.
- **Alerts are not always in a settled order.** `docs/patterns/pipeline.md:97` promises callers a deterministic
  order. `PipelineOrder.OrderSettledExactly`: with a sort that keeps equals in place, more than `sort.Slice`
  promises, the same scores give the same alerts in all runs if and only if there is one worker or no two different
  alerts are for one checkout. `TwoOrders` gives the two runs.
- **`Bridge` after cancellation** may still take and forward the next stream, so its output need not be a prefix of
  the concatenation. `PrefixHoldsExactly`: it is one in every run if and only if no two streams have anything in
  them, or all items are the same.
- **`Shutdown` can miss its deadline.** `docs/patterns/graceful-shutdown.md:16` and `:87` and
  `docs/testing/leaks-and-shutdowns.md:28` promise that it does not hang even if handlers are stuck. It reads its
  context only once it has the write lock, which it waits for behind every `Submit` inside the read lock.
  `DeadlineKeptExactly`: with handlers that do not return, a `Shutdown` at the lock can still return if and only if
  there are free places and free workers for all of those. `DeadlineMissedExactly`: it can come to that if and only
  if there are more events than workers and places together.
- **A later `Shutdown`** returns nil at once; only the nil of the call that closed the queue means drained.
  `LaterNilExactly`: it may come too early if and only if an event is queued or in a handler when that call begins.
- **The best option** is not always chosen deterministically (`docs/patterns/fan-out-fan-in.md:89`).
  `BestSettledExactly`: it is the same in all runs with the same answers if and only if no two different options are
  both such that none is better. `TwoBests` gives the runs: two lookups that report one name, delivery and quantity,
  checked at different times.
- **An exchange can hang** when it has no deadline. `CompletesExactly` says when both calls return, for any buffering
  of the connection; a request refused or failed by the server leaves the client waiting unless the server closes.
- **`ErrActorStopped`** does not mean that the command did not run. `RanExactlyWhenHandedOver`: it ran if and only
  if it had been handed over, that is, if the error is that of the second select. Told of its context there, a
  caller's command has run or is in hand.
- **The load bound of the price cache is exact**: `Invalidate` deletes before it forgets, and a flight started in
  between costs a second load (`BoundIsReached`).
- **Frames**: a stream cut just behind a header reads as the plain end of file, like one that ends between frames
  (`Truncated`), and a payload of 2^32 bytes or more is framed with its length modulo 2^32 (`DecodeFrame`).
- The pipeline reports the context's error even if every event was scored by then, the worker pool does not
  (`Pipeline.Conclude`, `WorkerPool.Conclude`).

## Assumptions

- Callbacks return.
- `singleflight`: at most one flight is registered for a key; it is unregistered after its function has returned,
  or by `Forget`; all who joined a flight get its result.
- `semaphore.Weighted`: waiters are granted first come, first served, and nobody overtakes a waiter
  (`docs/advanced/weighted-semaphore.md:75-80`); a request beyond the whole capacity waits for its context; a
  cancelled request leaves the queue, or gives back what it was granted.
- `errgroup`: the first error is kept and cancels the context, and `Wait` waits for every task.
- `sort.Slice` with a strict weak order gives a sorted permutation, and no more than that.

## Model

| member | source | states |
|---|---|---|
| FanPool.StepAccounted | examples/workerpool/workerpool.go:59-123 | every step keeps the partition: an index handed out is in exactly one place, with one worker, buffered, collected, or dropped after cancellation; one not handed out is in none |
| FanPool.StepFaithful | examples/workerpool/workerpool.go:66-79 | every step keeps that an item in flight, buffered or collected carries what the callback returned for its own index |
| FanPool.StepControlled | examples/workerpool/workerpool.go:84-123 | every step keeps that nothing is sent on or closed twice, the WaitGroup counts live workers, nothing is dropped without cancellation, and a seen failure cancels |
| FanPool.HolderIsUnique | examples/workerpool/workerpool.go:66-76 | no two workers ever hold the same index |
| FanPool.EveryRun | examples/workerpool/workerpool.go:53-123 | partition, fidelity and absence of panics after every run, for any number of inputs and workers |
| FanPool.Progress | examples/workerpool/workerpool.go:59-123 | until the batch is over, some goroutine can move without the parent context |
| FanPool.EveryRunEnds | examples/workerpool/workerpool.go:59-123 | no interleaving is longer than 6 steps an input, 1 a worker and 4; one that cannot be extended has returned, closed both channels and left no goroutine |
| FanPool.NobodyLeft | examples/workerpool/workerpool.go:89-104 | at return no worker is live, and a producer still there can leave at once |
| FanPool.ShortCountMeansCancelled | examples/workerpool/workerpool.go:125-135 | a collector that saw no cancellation has received an item for every input and no failure, so the miscount error is unreachable |
| FanPool.OnlyFailures | examples/workerpool/workerpool.go:110-131 | in a run without the parent's cancellation the batch is cancelled, and the context's error read, only if a callback failed |
| FanPool.FirstBadExactly | examples/workerpool/workerpool.go:110-118 | the failure that decides is the first in the order received: before it there is none |
| FanPool.CancelFrees | examples/workerpool/workerpool.go:59-99 | once the batch is cancelled the producer and every worker at a select can leave at once |
| FanPool.FullCountMeansEveryIndex | examples/workerpool/workerpool.go:110-137 | with a full count the collector has each index exactly once, with what its own call returned |
| FanPool.Pool.ProducerStep | examples/workerpool/workerpool.go:89-99 | the producer hands the next index to an idle worker, or closes `jobs` at the end or on cancellation |
| FanPool.Pool.WorkerStep | examples/workerpool/workerpool.go:59-82 | a worker at either select or returning from the callback takes exactly a step of the protocol; once started, an item is reported or dropped with a cancelled context |
| FanPool.Pool.CloserStep | examples/workerpool/workerpool.go:101-104 | `results` is closed once, when the WaitGroup is down to zero |
| FanPool.Pool.Receive | examples/workerpool/workerpool.go:110-118 | one receive takes the front item, logs it, and starts cancelling exactly on the first failure |
| FanPool.Pool.Cancel | examples/workerpool/workerpool.go:113-117 | the collector's `cancel()` |
| FanPool.Pool.FinishBatch | examples/workerpool/workerpool.go:125-133 | the loop ends on a closed, empty channel, and the context is read before the deferred cancel |
| FanPool.Pool.Background | examples/workerpool/workerpool.go:59-104 | any ready goroutine but the collector may take a turn; it is a step of the protocol, never the parent's cancellation, and lowers the measure |
| FanPool.Pool.SomeoneReady | examples/workerpool/workerpool.go:59-123 | the guards of the goroutines' selects miss no step: until the batch is over the producer, a worker, the closer or the collector is ready, whatever the parent context does |
| WorkerPool.FilledExtends | examples/workerpool/workerpool.go:120-122 | writing a collected quote at its own index keeps every earlier one |
| WorkerPool.CollectorTurn | examples/workerpool/workerpool.go:110-123 | the collector's count, first error and quotes stay what the log of received items says |
| WorkerPool.AnyTurn | examples/workerpool/workerpool.go:59-123 | as long as the batch is not over some goroutine takes a turn, and the parent's context only if it may end |
| WorkerPool.Conclude | examples/workerpool/workerpool.go:125-137 | the first collected failure decides; a full count without one gives order `i` the quote its own call returned, even if the context is over; a short count gives the context's error |
| WorkerPool.GenerateQuotes | examples/workerpool/workerpool.go:26-138 | for every order list, worker count and scheduler: rejected exactly below one worker, with that reason, else the call ends and its answer is the one that belongs to the interleaving that happened; with a parent context that never ends it ends all the same, with the quotes or a failed callback |
| WorkerPool.SameQuotes | examples/workerpool/workerpool.go:73-75 | callbacks that answer alike give the same quotes in the same order, whatever the interleavings and worker counts |
| Ordering.SortedUnique | examples/pipeline/pipeline.go:83-85 | sorted permutations of one list agree when only equal elements tie |
| Ordering.PrecedesExactly | examples/pipeline/pipeline.go:83-85 | the order on strings, by index: a proper prefix, or the smaller character at the first place where they differ |
| Ordering.SortSlice | examples/pipeline/pipeline.go:83-85 | the contract of the library sort: sorted, and a permutation |
| Pipeline.ByIdOrders | examples/pipeline/pipeline.go:83-85 | comparing checkout IDs is a strict weak order; which one, `AscendingExactly` says |
| Pipeline.AscendingExactly | examples/pipeline/pipeline.go:83-85 | sorting by that comparison is the same as ascending checkout IDs, prefix or smaller character first |
| Pipeline.InputOrderAt | examples/pipeline/pipeline.go:132 | one signal an event, in input order, is what the scorer returned for that event |
| Pipeline.ReceivedPermutes | examples/pipeline/pipeline.go:96-154 | what an uncancelled sink received is a permutation of the signals in input order |
| Pipeline.SortedMeaning | examples/pipeline/pipeline.go:83-87 | with distinct checkouts a sorted permutation of the sequential filter-map is that computation's result, the very same sequence |
| Pipeline.SinkTurn | examples/pipeline/pipeline.go:60-73 | as long as nothing failed, what the sink has appended is the sequential filter and map of what it received |
| Pipeline.Conclude | examples/pipeline/pipeline.go:75-87 | first failure, then context, then the sorted alerts of the sequential computation on the signals in input order, with ascending checkouts |
| Pipeline.RunAlertPipeline | examples/pipeline/pipeline.go:36-88 | for every event list, worker count, threshold and scheduler: rejected exactly below one worker or threshold 0, each with its reason, else the call ends and its answer belongs to the interleaving that happened; alerts ascend by checkout; with a parent context that never ends it ends all the same, with the alerts or a failed scorer |
| Pipeline.SameAlerts | examples/pipeline/pipeline.go:49-88 | scorers that answer alike and distinct checkouts give the same alerts in the same order, whatever the interleavings and worker counts |
| Pipeline.AlertsAscend | examples/pipeline/pipeline.go:83-87 | the alerts of any finished pipeline ascend by checkout ID, character by character |
| PipelineOrder.OrderSettledExactly | examples/pipeline/pipeline.go:49-87 | for any signals, threshold and number of workers: all runs with these scores return the same alerts if and only if there is one worker or no two different alerts are for one checkout, the sort keeping equals in place |
| PipelineOrder.TwoOrders | examples/pipeline/pipeline.go:49-87 | with two workers or more and two different alerts for one checkout, two runs with the same scores that return different sequences |
| PipelineOrder.OneWorkerInOrder | examples/pipeline/pipeline.go:96-154 | a single worker's signals arrive in input order, so its alerts are the sorted sequential filter-map |
| PipelineOrder.SortKeeps | examples/pipeline/pipeline.go:83-85 | a sort that keeps equals in place leaves the alerts for one checkout in the order they were received |
| Pipeline.AlertsAreGrounded | examples/pipeline/pipeline.go:156-168 | every alert returned is about one of the events' signals at or above the threshold, with its checkout, its score, severity critical exactly from 90 on, and a summary of all its reasons |
| Pipeline.AlertsAreComplete | examples/pipeline/pipeline.go:68-72 | every signal at or above the threshold has such an alert |
| Pipeline.JoinOneMore | examples/pipeline/pipeline.go:166 | each further reason stands at the end of the summary, behind one more separator |
| RequestReply.StepFifo | examples/requestreply/requestreply.go:77-84 | every step keeps that served, in-hand and queued requests are the admitted ones in order of admission, each caller at most once |
| RequestReply.StepRouted | examples/requestreply/requestreply.go:84-87 | every step keeps that a reply sent or received is the engine's outcome on that caller's own request |
| RequestReply.StepOwed | examples/requestreply/requestreply.go:95-113 | every step keeps that, while `Run` serves, a waiting caller's request is queued, in hand or answered |
| RequestReply.EveryRun | examples/requestreply/requestreply.go:66-129 | the broker's invariant after every run, for any calls, any buffer of at least one and any context endings |
| RequestReply.Routing | examples/requestreply/requestreply.go:77-128 | an answered `Check` got the engine's outcome on its own request; the engine serves in admission order, one at a time, each at most once |
| RequestReply.ErrorsAreHonest | examples/requestreply/requestreply.go:105-128 | a call told of its context has an ended context, and one told that the broker stopped has a closed broker whose `Run` was told to stop |
| RequestReply.ContextFrees | examples/requestreply/requestreply.go:110-128 | a call whose context has ended leaves either select at once, also a full queue and a busy `Run` |
| RequestReply.ReplyNeverBlocks | examples/requestreply/requestreply.go:96-98 | the one slot of a reply channel is free whenever `Run` replies, even if the caller has left |
| RequestReply.AdmissionArms | examples/requestreply/requestreply.go:110-120 | the `done` arm of the admission select can never be taken, and a closed broker admits nothing |
| RequestReply.NothingAfterClosed | examples/requestreply/requestreply.go:105-113 | once `closed` is set no request enters the queue in any continuation |
| RequestReply.WedgedForever | examples/requestreply/requestreply.go:66-75 | once `Run` waits for the lock behind a caller at a full queue, nothing but that caller's context ever sets `closed`, closes `done` or lets the caller go |
| RequestReply.OnlyDeadlock | examples/requestreply/requestreply.go:66-129 | when nothing can move, either every call has returned and `Run` is idle or stopped, or the broker is wedged |
| RequestReply.WedgeIsReachable | examples/requestreply/requestreply.go:66-75 | for any queue size below the number of calls, a run that ends wedged |
| RequestReply.WedgedNeedsCalls | examples/requestreply/requestreply.go:66-75 | a wedged broker has more calls than places, its queued callers being distinct and the blocked one not among them |
| RequestReply.WedgeReachableExactly | examples/requestreply/requestreply.go:66-75 | some run wedges the broker if and only if there are more calls than places in its queue |
| RequestReply.Broker.CheckStep | examples/requestreply/requestreply.go:95-129 | `Check`, from one blocking point to the next, is a caller's step of the protocol |
| RequestReply.Broker.SelectAdmission | examples/requestreply/requestreply.go:110-120 | the admission select sends the request or leaves the read lock with the error of the arm taken |
| RequestReply.Broker.SelectReply | examples/requestreply/requestreply.go:121-128 | the reply select returns the reply, or the error of the arm taken |
| RequestReply.Broker.RunStep | examples/requestreply/requestreply.go:66-93 | `Run` and its deferred shutdown, from one blocking point to the next, are steps of the protocol |
| RequestReply.Broker.SelectSend | examples/requestreply/requestreply.go:86-90 | the reply goes to the slot of the request's own caller, or `Run` stops |
| RequestReply.Broker.SelectRequest | examples/requestreply/requestreply.go:78-84 | `Run` takes the oldest request, or stops |
| RequestReply.Broker.GuardsMissNothing | examples/requestreply/requestreply.go:66-129 | where no goroutine's guard holds, no step is possible but a context that ends |
| RequestReply.RunBroker | examples/requestreply/requestreply.go:66-129 | for any calls, buffer and scheduler the broker comes to rest: every call returned, or wedged, and never wedged with a place for each call; every answer is the engine's on that caller's request; if no context ends every call is answered |
| BrokerShutdown.MayFinish | examples/requestreply/requestreply.go:66-75 | with no further context ending, a stopping `Run` can still close `done` if and only if the callers inside the lock with contexts that go on are no more than the free places |
| BrokerShutdown.NeverLocks | examples/requestreply/requestreply.go:66-69 | with more such callers than places the writer never gets the lock |
| BrokerShutdown.MustFinish | examples/requestreply/requestreply.go:66-75 | no schedule leads a stopping `Run` into the deadlock if and only if no caller inside the lock lacks another way out or there is a place for everyone inside |
| BrokerShutdown.SafeShutdownCompletes | examples/requestreply/requestreply.go:66-75 | in that case every run is finite, and one that cannot be extended has closed `done` and returned from every call |
| TeeCombinator.EveryRun | examples/ordoneteebridge/ordoneteebridge.go:43-69 | both outputs are prefixes of the input with lengths at most one apart, and both are the whole input if Tee ends uncancelled |
| TeeCombinator.Teardown | examples/ordoneteebridge/ordoneteebridge.go:13-69 | after cancellation OrDone and Tee end in at most two steps of their own, whether or not anyone reads |
| TeeCombinator.EveryRunEnds | examples/ordoneteebridge/ordoneteebridge.go:43-69 | no run is longer than 5 steps a value and 3; with both sides reading, one that cannot be extended has ended both goroutines |
| TeeCombinator.TeeGoroutines.OrDoneStep | examples/ordoneteebridge/ordoneteebridge.go:16-35 | OrDone's selects are steps of the protocol |
| TeeCombinator.TeeGoroutines.TeeStep | examples/ordoneteebridge/ordoneteebridge.go:47-66 | Tee's range and its inner select, serving each side once a value, are steps of the protocol |
| TeeCombinator.TeeGoroutines.GuardsMissNothing | examples/ordoneteebridge/ordoneteebridge.go:16-66 | where neither goroutine's guard holds, no step is possible but cancellation |
| TeeCombinator.RunTee | examples/ordoneteebridge/ordoneteebridge.go:43-69 | for any input and scheduler both goroutines end, with outputs that are prefixes at most one apart; if the context never ends they end all the same, with the whole input on both sides |
| BridgeCombinator.EveryRun | examples/ordoneteebridge/ordoneteebridge.go:73-103 | the output is a concatenation of prefixes of the streams taken, in order; uncancelled it is a prefix of the whole concatenation, and all of it when Bridge ends |
| BridgeCombinator.PrefixHoldsExactly | examples/ordoneteebridge/ordoneteebridge.go:73-103 | the output of every run, cancelled or not, is a prefix of the concatenation if and only if no two streams have anything in them or all items are the same |
| BridgeCombinator.PrefixExactlyWhenGapFree | examples/ordoneteebridge/ordoneteebridge.go:79-99 | run by run, for items that can be told apart: the output is a prefix if and only if nothing was emitted after a stream cut short |
| BridgeCombinator.GapFreeIsPrefix | examples/ordoneteebridge/ordoneteebridge.go:92-98 | prefixes of consecutive streams with nothing after a cut make a prefix of the concatenation |
| BridgeCombinator.PrefixCanFail | examples/ordoneteebridge/ordoneteebridge.go:82-98 | for any streams of which two have something in them and not all items are the same, a run, cancelled with a value in flight, whose output is not a prefix |
| BridgeCombinator.Teardown | examples/ordoneteebridge/ordoneteebridge.go:73-130 | after cancellation OrDone, Bridge and the feeder end in at most four steps of their own, whether or not anyone reads |
| BridgeCombinator.MergeTenantFeeds | examples/ordoneteebridge/ordoneteebridge.go:107-131 | uncancelled, runs are bounded, the output is always a prefix of the feeds' concatenation, and all of it when nothing is left to do |
| BridgeCombinator.BridgeGoroutines.FeederStep | examples/ordoneteebridge/ordoneteebridge.go:110-128 | the feeder closes its channel after the last feed or on cancellation |
| BridgeCombinator.BridgeGoroutines.OuterStep | examples/ordoneteebridge/ordoneteebridge.go:79-90 | the outer select takes the next stream and starts an OrDone on it, or ends |
| BridgeCombinator.BridgeGoroutines.InnerStep | examples/ordoneteebridge/ordoneteebridge.go:92-98 | the range over OrDone's output and the select that forwards a value are steps of the protocol |
| BridgeCombinator.BridgeGoroutines.OrDoneStep | examples/ordoneteebridge/ordoneteebridge.go:16-35 | the OrDone of the current stream reads it in order, up to its end or cancellation |
| BridgeCombinator.BridgeGoroutines.GuardsMissNothing | examples/ordoneteebridge/ordoneteebridge.go:16-130 | where no goroutine's guard holds, no step is possible but cancellation |
| BridgeCombinator.RunBridge | examples/ordoneteebridge/ordoneteebridge.go:73-130 | for any streams and scheduler every goroutine ends; if the context never ends they end all the same, with the whole concatenation |
| GracefulShutdown.EveryRun | examples/gracefulshutdown/gracefulshutdown.go:59-107 | after every run accepted is queued plus in handlers plus handled, no send or close hits a closed queue, and the lock and WaitGroup count right |
| GracefulShutdown.NilMeansAccepted | examples/gracefulshutdown/gracefulshutdown.go:67-81 | in every run the accepted events are those whose `Submit` returned nil, each as often as it did; ErrClosed and a later nil of `Shutdown` come only from a closed processor |
| GracefulShutdown.DrainedMeansHandled | examples/gracefulshutdown/gracefulshutdown.go:95-103 | when the `Shutdown` that closed the queue returns nil, handled equals accepted as a multiset and the queue is empty |
| GracefulShutdown.NothingAfterClosed | examples/gracefulshutdown/gracefulshutdown.go:71-74 | once closed, no continuation accepts an event |
| GracefulShutdown.DrainedIsFinal | examples/gracefulshutdown/gracefulshutdown.go:84-107 | and all this stays so in every continuation |
| GracefulShutdown.ReaderProgress | examples/gracefulshutdown/gracefulshutdown.go:67-81 | while a `Submit` holds the read lock, even at a full queue, somebody can move |
| GracefulShutdown.WriterProgress | examples/gracefulshutdown/gracefulshutdown.go:84-93 | a `Shutdown` at the write lock gets it or somebody else can move |
| GracefulShutdown.NoDeadlock | examples/gracefulshutdown/gracefulshutdown.go:67-107 | when nothing can move, every `Submit` and `Shutdown` has returned and the queue is empty |
| GracefulShutdown.EveryRunEnds | examples/gracefulshutdown/gracefulshutdown.go:59-107 | no run is longer than 8 steps a `Submit`, 5 a `Shutdown` and 1 a worker; one that cannot be extended has answered every call |
| GracefulShutdown.LaterNilExactly | examples/gracefulshutdown/gracefulshutdown.go:84-93 | in any closed state a `Shutdown` yet to begin can return nil with an accepted event not handled if and only if one is queued or in a handler |
| GracefulShutdown.LaterNilPromisesNothing | examples/gracefulshutdown/gracefulshutdown.go:86-89 | such a run from the start: a second `Shutdown` returns nil with the accepted event still queued |
| GracefulShutdown.AllDrained | examples/gracefulshutdown/gracefulshutdown.go:67-107 | a run without a context ending in which nothing can move any more: events were accepted or refused as closed, and one `Shutdown`, if there is any, saw the workers gone |
| GracefulShutdown.OneCloser | examples/gracefulshutdown/gracefulshutdown.go:84-107 | in every run exactly one `Shutdown` closes the queue, and that one is told drained or of its context, never that it was closed already |
| GracefulShutdown.SubmitToldOfContext | examples/gracefulshutdown/gracefulshutdown.go:76-81 | a `Submit` returns its context's error if and only if that arm ended its select |
| GracefulShutdown.ShutdownToldOfContext | examples/gracefulshutdown/gracefulshutdown.go:101-106 | a `Shutdown` likewise |
| GracefulShutdown.ContextFrees | examples/gracefulshutdown/gracefulshutdown.go:76-106 | whoever is at a select leaves it at once when its context ends |
| ShutdownDeadline.DeadlineKeptExactly | examples/gracefulshutdown/gracefulshutdown.go:67-107 | in any open state with a `Shutdown` at the lock: it can return with no handler returning and no `Submit` giving up if and only if the callers inside the read lock are no more than the free places and the free workers |
| ShutdownDeadline.HungStays | examples/gracefulshutdown/gracefulshutdown.go:67-93 | and otherwise no step but those changes it |
| ShutdownDeadline.RunCounted | examples/gracefulshutdown/gracefulshutdown.go:59-81 | in every run the accepted events and the callers inside the lock are those of different calls, and each worker of an open processor is free or has an event in hand |
| ShutdownDeadline.HungIsReachable | examples/gracefulshutdown/gracefulshutdown.go:67-93 | for any more events than workers and places, a run that leads there |
| ShutdownDeadline.DeadlineMissedExactly | examples/gracefulshutdown/gracefulshutdown.go:67-107 | some run leads to a `Shutdown` that only a handler or another caller can free if and only if there is a `Shutdown` and there are more events than workers and places together |
| GracefulShutdown.Processor.SubmitStep | examples/gracefulshutdown/gracefulshutdown.go:67-82 | `Submit`, up to its next blocking point, is a step of the protocol |
| GracefulShutdown.Processor.ShutdownStep | examples/gracefulshutdown/gracefulshutdown.go:84-107 | `Shutdown` likewise: lock, close once, wait |
| GracefulShutdown.Processor.WorkerStep | examples/gracefulshutdown/gracefulshutdown.go:59-65 | a worker takes from the front, handles, and leaves only a closed, empty queue |
| GracefulShutdown.Processor.GuardsMissNothing | examples/gracefulshutdown/gracefulshutdown.go:59-107 | where no goroutine's guard holds, whether or not it counts on contexts, no step is possible but a context that ends, and with contexts over not even that |
| GracefulShutdown.RunProcessor | examples/gracefulshutdown/gracefulshutdown.go:35-107 | for any events, calls, workers, queue and scheduler every `Submit` and `Shutdown` returns, accepted is what `Submit` said nil to, and a drained `Shutdown` means all of it handled; if no context ends all return all the same, nobody is told of a context, and one `Shutdown`, if there is any, is drained |
| Inventory.TakeKey | examples/actor/actor.go:214-221 | the sum over the reservation map does not depend on the order of the range |
| Inventory.RunSound | examples/actor/actor.go:149-208 | every command keeps reservations positive and their sum between 0 and the stock |
| Inventory.Books | examples/actor/actor.go:149-208 | after any serial log the stock is the initial one plus accepted restocks, and an order holds its accepted reserves less its accepted releases |
| Inventory.RunAnswersRight | examples/actor/actor.go:149-208 | a command is accepted exactly with an order, a positive quantity and enough of it; each refusal has its own reason and changes nothing; the snapshot shows on hand, the total held and the rest as they are then |
| Inventory.LogAnswersRight | examples/actor/actor.go:149-232 | every entry of a serial log is answered so, from the stock before it and showing the stock after it |
| Inventory.SnapshotsAddUp | examples/actor/actor.go:223-232 | every snapshot handed out has reserved equal to what all orders hold, available equal to on hand less that, none negative, and the stock of that point of the log |
| Inventory.InventoryState.Reserved | examples/actor/actor.go:214-221 | ranging over the map in any order computes the total |
| Inventory.InventoryState.Available | examples/actor/actor.go:210-212 | on hand less the total |
| Inventory.InventoryState.TakeSnapshot | examples/actor/actor.go:223-232 | the snapshot of the state it is taken in; what it shows is in `RunAnswersRight` |
| Inventory.InventoryState.RunReserve | examples/actor/actor.go:149-168 | reserve on the mutable state does what the command does in the serial replay, refusals included |
| Inventory.InventoryState.RunRelease | examples/actor/actor.go:170-194 | release likewise, dropping an entry that reaches zero |
| Inventory.InventoryState.RunRestock | examples/actor/actor.go:196-204 | restock likewise |
| Inventory.InventoryState.RunCommand | examples/actor/actor.go:149-208 | any command likewise |
| Actor.EveryRun | examples/actor/actor.go:103-147 | after every run each caller's position, slot and place in the log fit together and the stock is the replay of the log |
| Actor.Linearizable | examples/actor/actor.go:103-147 | one serial log from the initial stock explains every answer, each at a place between its call's start and return |
| Actor.AnswersAreRight | examples/actor/actor.go:118-147 | in every run each answer is accepted or refused as it should be at its place of the serial log, and shows the stock the log had led to there |
| Actor.RealTimeOrder | examples/actor/actor.go:124-147 | a call that returned its answer before another began comes before it in the log |
| Actor.AnsweredComesFirst | examples/actor/actor.go:124-147 | the same without time stamps, on a run in two parts: what was answered in the first is in the log by then, what begins in the second comes after |
| Actor.AtMostOnce | examples/actor/actor.go:124-147 | a command runs at most once, whatever its caller was told |
| Actor.Conservation | examples/actor/actor.go:149-232 | the books hold after every run of the actor, and every snapshot has reserved equal to the total held at its point of the log |
| Actor.NothingAfterStop | examples/actor/actor.go:103-122 | once any `Stop` has returned, no continuation runs a command |
| Actor.ReplyNeverBlocks | examples/actor/actor.go:118-125 | the owner's reply never blocks |
| Actor.NoDeadlock | examples/actor/actor.go:103-147 | when nothing can move, every request and every `Stop` has returned |
| Actor.RunsBounded | examples/actor/actor.go:103-147 | every run is finite |
| Actor.RanExactlyWhenHandedOver | examples/actor/actor.go:124-147 | in every run a command is carried out or in hand if and only if it was handed over; a request returns from its first select, never carried out, or from its second, handed over; told ErrActorStopped, it was carried out exactly if handed over |
| Actor.ToldOfContextExactly | examples/actor/actor.go:131-146 | a request returns its context's error if and only if that arm ended one of its selects |
| Actor.ContextFrees | examples/actor/actor.go:131-146 | whoever is at a select leaves it at once when its context ends |
| Actor.StoppedMayHaveRun | examples/actor/actor.go:139-147 | a run in which a command is carried out and its caller told ErrActorStopped |
| Actor.InventoryActor.RequestStep | examples/actor/actor.go:124-147 | `request`, up to its next blocking point, is a step of the protocol |
| Actor.InventoryActor.LoopStep | examples/actor/actor.go:114-121 | the loop's select accepts a command on offer or stops |
| Actor.InventoryActor.Serve | examples/actor/actor.go:118-119 | the command in hand runs on the owned state and its result goes to its own caller's slot |
| Actor.InventoryActor.StopStep | examples/actor/actor.go:103-109 | `Stop` closes `stop` and returns only after `done` |
| Actor.InventoryActor.GuardsMissNothing | examples/actor/actor.go:103-147 | where no goroutine's guard holds, the hand-over included, whether or not it counts on contexts, no step is possible but a context that ends, and with contexts over not even that |
| Actor.RunActor | examples/actor/actor.go:61-147 | for any name, stock, commands, stops and scheduler: rejected exactly without a name or below zero, else every request and `Stop` returns, every answer is right for its place of one serial log, and the stock is the replay of that log; if no context ends all return all the same, and without a `Stop` every request has its answer |
| Actor.StartInventoryActor | examples/actor/actor.go:61-85 | an actor starts exactly with a name and a stock that is not negative, and starts sound |
| PriceCache.StepRegistered | examples/singleflightcache/singleflightcache.go:50-65 | every step keeps that a key has at most one registered flight, and callers wait on flights of their own key |
| PriceCache.StepTruthful | examples/singleflightcache/singleflightcache.go:46-65 | every step keeps that what is cached, in flight or returned for a key was loaded for that key, errors included |
| PriceCache.StepPaid | examples/singleflightcache/singleflightcache.go:50-89 | every step keeps the account: loads are paid for by failures, deletions and forgotten flights, and one more while the key is cached or being loaded by its registered flight |
| PriceCache.LoadBound | examples/singleflightcache/singleflightcache.go:46-89 | in any run the loader is called for a key at most 1 + failed loads + 2 x invalidations times |
| PriceCache.BoundIsReached | examples/singleflightcache/singleflightcache.go:84-89 | for all numbers of failures and invalidations a run meets the bound |
| PriceCache.Transparent | examples/singleflightcache/singleflightcache.go:41-82 | a quote returned came from a successful load of that key, an error is that of a failed one, and exactly the empty key is rejected |
| PriceCache.CacheUnnoticed | examples/singleflightcache/singleflightcache.go:41-96 | with a deterministic loader every quote returned is the loader's price of that key |
| PriceCache.EveryRunEnds | examples/singleflightcache/singleflightcache.go:41-89 | a run has at most 7 steps a call and 2 an invalidation; when nothing is left to happen, every call has returned |
| PriceCache.NobodyStuck | examples/singleflightcache/singleflightcache.go:67-81 | and then every flight has landed and none is registered |
| PriceCache.ToldOfContextExactly | examples/singleflightcache/singleflightcache.go:67-69 | a call returns its context's error if and only if that arm ended its select |
| PriceCache.ContextFrees | examples/singleflightcache/singleflightcache.go:67-69 | a call that waits leaves at once when its context ends, and the flight goes on |
| PriceCache.PriceService.GetStep | examples/singleflightcache/singleflightcache.go:41-82 | `Get`, from one blocking point to the next, is a step of the protocol |
| PriceCache.PriceService.FlightStep | examples/singleflightcache/singleflightcache.go:50-65 | the flight's function looks up again, loads, stores only a success, and is unregistered after it |
| PriceCache.PriceService.InvalidateDelete | examples/singleflightcache/singleflightcache.go:84-87 | the first half of `Invalidate` |
| PriceCache.PriceService.InvalidateForget | examples/singleflightcache/singleflightcache.go:88 | the second half |
| PriceCache.PriceService.GuardsMissNothing | examples/singleflightcache/singleflightcache.go:41-89 | where no goroutine's guard holds, whether or not it counts on contexts, no step is possible but a new invalidation or a context that ends, and with contexts over only the former |
| PriceCache.RunService | examples/singleflightcache/singleflightcache.go:41-89 | for any calls, invalidations and scheduler every call returns, with a quote or the very error of a load of its key, every flight lands, and loads stay within 1 + failed loads + 2 x invalidations of their key; if no context ends all return all the same, none with the context's error |
| PriceFreshness.StampsAreHonest | examples/singleflightcache/singleflightcache.go:46-65 | in every run the place recorded for what is in flight, cached or given is that of a loader call for its own key |
| PriceFreshness.NeverStale | examples/singleflightcache/singleflightcache.go:84-89 | with no flight of the key loading or storing at the deletion, every price given to a call that begins after `Invalidate` was asked for after `Invalidate` began |
| PriceFreshness.StaleExactly | examples/singleflightcache/singleflightcache.go:50-89 | a call begun after `Invalidate` can be given a price asked for before it if and only if a flight of the key is loading or storing at the deletion |
| PriceFreshness.StaleAfterInvalidate | examples/singleflightcache/singleflightcache.go:84-89 | such a run from the start: the only loader call is before the `Invalidate`, and the call begun after it gets that price |
| WeightedSemaphore.Validate | examples/weightedsemaphore/weightedsemaphore.go:28-53 | no complaint exactly if the capacity is at least 1 and every job has a name and a weight between 1 and the capacity; else the first offending job and its own fault: no name, below 1, or above the capacity |
| WeightedSemaphore.GrantInv | examples/weightedsemaphore/weightedsemaphore.go:65-68 | granting from the front keeps the books of the semaphore and stops only at a waiter that does not fit |
| WeightedSemaphore.LeaveBase | examples/weightedsemaphore/weightedsemaphore.go:65-67 | a cancelled waiter leaves the queue without keeping anybody waiting who could go |
| WeightedSemaphore.StepInv | examples/weightedsemaphore/weightedsemaphore.go:64-77 | every step keeps that the weight in use is that of the holders and within capacity, each task holds what it has not released, and the front waiter does not fit |
| WeightedSemaphore.EveryRun | examples/weightedsemaphore/weightedsemaphore.go:55-82 | the same after every run, each task with its own job's weight |
| WeightedSemaphore.WithinCapacity | examples/weightedsemaphore/weightedsemaphore.go:65-70 | in every run the jobs inside `renderFn` together need no more than the capacity |
| WeightedSemaphore.ReleasedOnce | examples/weightedsemaphore/weightedsemaphore.go:65-76 | a task that is done has released exactly what it acquired, on every path, and without an error its artifact is the render of its own job |
| WeightedSemaphore.WaitersHaveHolder | examples/weightedsemaphore/weightedsemaphore.go:65-68 | whenever somebody waits, somebody holds, and the front really does not fit |
| WeightedSemaphore.NobodyOvertakes | examples/weightedsemaphore/weightedsemaphore.go:65-68 | whoever a step lets in was ahead, in the queue, of everyone who waited before it and still does |
| WeightedSemaphore.CancelFrees | examples/weightedsemaphore/weightedsemaphore.go:65-67 | once the group is cancelled a task that has not rendered can give up at once, without weight |
| WeightedSemaphore.FirstErrorKept | examples/weightedsemaphore/weightedsemaphore.go:58-82 | the group's first error stays, whatever is reported after it |
| WeightedSemaphore.EveryRunEnds | examples/weightedsemaphore/weightedsemaphore.go:41-82 | with validated weights every run is finite and one that cannot be extended has every task done and the whole capacity back |
| WeightedSemaphore.OversizedWaitsForever | examples/weightedsemaphore/weightedsemaphore.go:50-52 | without that validation a job heavier than the capacity waits until a context ends or a render fails |
| WeightedSemaphore.StepExplained | examples/weightedsemaphore/weightedsemaphore.go:70-73 | every step keeps that an error is a cancelled acquire or the failed render of the asset it names |
| WeightedSemaphore.ErrorIsARender | examples/weightedsemaphore/weightedsemaphore.go:58-82 | unless the parent context ended, the error returned is that of a failed render, never the group's own cancellation |
| WeightedSemaphore.Catalog.NotifyWaiters | examples/weightedsemaphore/weightedsemaphore.go:68 | the loop of a release lets in waiters from the front while they fit |
| WeightedSemaphore.Catalog.AcquireStep | examples/weightedsemaphore/weightedsemaphore.go:65-67 | an acquire takes, queues behind the waiters, or is doomed |
| WeightedSemaphore.Catalog.ReleaseWeight | examples/weightedsemaphore/weightedsemaphore.go:68 | the deferred release gives back its own weight and lets in who fits |
| WeightedSemaphore.Catalog.AbortWait | examples/weightedsemaphore/weightedsemaphore.go:65-67 | a queued acquire sees its context end and leaves the queue |
| WeightedSemaphore.Catalog.FinishRender | examples/weightedsemaphore/weightedsemaphore.go:70-76 | a success is written at its job's own index, a failure names its asset |
| WeightedSemaphore.Catalog.ReportToGroup | examples/weightedsemaphore/weightedsemaphore.go:58-82 | the group keeps the first error and cancels |
| WeightedSemaphore.Catalog.Turn | examples/weightedsemaphore/weightedsemaphore.go:64-77 | one turn of any task that is not blocked is a step of the protocol |
| WeightedSemaphore.RenderCatalog | examples/weightedsemaphore/weightedsemaphore.go:28-85 | for every catalog, capacity and scheduler: rejected exactly on a job that cannot be admitted, with the first such fault, else the call ends with every task done, the capacity back, and the first error or artifact `i` the render of job `i`; with a parent context that never ends it ends all the same, and an error is that of a render |
| Framing.HeaderBytes | examples/tcpprotocol/tcpprotocol.go:46 | the header is the four bytes of the 32-bit length, highest first |
| Framing.HeaderValue | examples/tcpprotocol/tcpprotocol.go:31-46 | reading back a header gives the length modulo 2^32 |
| Framing.ValueHeader | examples/tcpprotocol/tcpprotocol.go:31-46 | and every header is the one of the length it reads as |
| Framing.DecodeFrame | examples/tcpprotocol/tcpprotocol.go:21-50 | what any frame reads as, behind any later bytes, also when its payload is 2^32 bytes or more |
| Framing.RoundTrip | examples/tcpprotocol/tcpprotocol.go:21-50 | a frame reads back as its payload with later bytes untouched if and only if the payload is below 2^32 bytes and within the effective maximum |
| Framing.LimitExactly | examples/tcpprotocol/tcpprotocol.go:11-34 | the same in numbers: below 4294967296 bytes and within the limit, or within 1048576 when the limit is not positive; a frame over it is refused |
| Framing.RoundTripMany | examples/tcpprotocol/tcpprotocol.go:21-50 | a list of frames reads back as exactly its payloads, later bytes untouched, if and only if every payload fits |
| Framing.LaterBytesDoNotMatter | examples/tcpprotocol/tcpprotocol.go:26-42 | a frame read or refused as too large does not depend on the bytes that come later, and leaves them all |
| Framing.OnlyFrames | examples/tcpprotocol/tcpprotocol.go:21-42 | whatever reads as a payload was the frame of that payload |
| Framing.Oversized | examples/tcpprotocol/tcpprotocol.go:31-34 | a frame over the limit is refused after exactly its four header bytes |
| Framing.Truncated | examples/tcpprotocol/tcpprotocol.go:26-39 | every strict prefix of a frame is an error: on a clean end the plain EOF exactly at the start and just behind the header, on a broken connection its error |
| Framing.Source.ReadFull | examples/tcpprotocol/tcpprotocol.go:26-39 | `io.ReadFull` under any fragmentation, with reads that give nothing and a last part that comes with the end: the buffer is filled from the front of the stream, or the error says how it fell short |
| Framing.ReadFrame | examples/tcpprotocol/tcpprotocol.go:21-42 | reads exactly what decoding the stream says, and leaves exactly its rest, whatever the fragments |
| Framing.WriteAll | examples/tcpprotocol/tcpprotocol.go:90-102 | under any short writes success means every byte in order, and a failure leaves a prefix; it fails exactly when a write failed or took nothing, with that error |
| Framing.WriteFrame | examples/tcpprotocol/tcpprotocol.go:44-50 | writes the frame of the payload, or a prefix of it with exactly the error that the connection reported |
| Framing.SendAll | examples/tcpprotocol/tcpprotocol.go:44-50 | a list is written frame by frame, and fails exactly with the error that the connection reported |
| Framing.ReceiveMany | examples/tcpprotocol/tcpprotocol.go:21-42 | reading frame by frame up to the first error gives what decoding the stream frame by frame says, and leaves its rest |
| Framing.Relay | examples/tcpprotocol/tcpprotocol.go:21-50 | a list written frame by frame and read back under any short writes and fragments: unless a write fails, which on a reliable connection none does, exactly that list comes back with later bytes left, if and only if every payload fits |
| Framing.Exchange | examples/tcpprotocol/tcpprotocol.go:52-64 | a deadline that cannot be set ends the call with nothing written or read; else the request's frame goes out and one frame is read; the call cannot send exactly when the connection reported an error, with that error, leaving a prefix of the frame and reading nothing |
| Framing.ServeOne | examples/tcpprotocol/tcpprotocol.go:66-84 | a deadline that cannot be set ends the call with nothing read or written; else one frame is read and the handler's response to its payload is framed; a failed read or handler writes nothing; a write error is exactly the one the connection reported, behind a prefix |
| Framing.ExchangeWithServer | examples/tcpprotocol/tcpprotocol.go:52-84 | client and server one whole call after the other, each closing when through: on a reliable connection the client gets the handler's response to a request that fits, and otherwise each error is the one it should be; for every interleaving see the members of `Session` |
| Session.StepInv | examples/tcpprotocol/tcpprotocol.go:52-102 | every step, however few bytes it moves, keeps each frame in order between what is read, on its way and still to be written, and never lets a reader take a byte beyond its frame |
| Session.EveryRun | examples/tcpprotocol/tcpprotocol.go:52-102 | the same after every run |
| Session.RunsBounded | examples/tcpprotocol/tcpprotocol.go:52-102 | every run is finite |
| Session.CompletesExactly | examples/tcpprotocol/tcpprotocol.go:52-102 | for any buffering, closing or not, and no deadline: both calls always return if and only if a condition on the sizes and the handler's answer holds |
| Session.NeverBoth | examples/tcpprotocol/tcpprotocol.go:52-102 | and where it does not hold no run lets both return |
| Session.AnswersAreRight | examples/tcpprotocol/tcpprotocol.go:52-84 | in every run the client reads the response, the refusal of one too large, or without a response the end of the stream, unless it could not send what a server already gone left unread; the server likewise |
| Session.FittingExchange | examples/tcpprotocol/tcpprotocol.go:52-84 | a request and a response that fit: in every interleaving both calls return, the client with exactly the handler's response |
| FanIn.BetterOrders | examples/fanoutfanin/fanoutfanin.go:92-109 | the four-level comparison is a strict weak order; which one, `RankedExactly` says |
| FanIn.RankedExactly | examples/fanoutfanin/fanoutfanin.go:92-109 | sorting by the comparison is the same as: stock before none, then the shorter delivery, the larger quantity, the earlier name |
| FanIn.TiesExactly | examples/fanoutfanin/fanoutfanin.go:92-109 | options tie if and only if delivery, quantity and name agree |
| FanIn.BestOption | examples/fanoutfanin/fanoutfanin.go:26-32 | nothing exactly without options, else the first; of ranked options one that may stand before every other by stock, delivery, quantity and name |
| FanIn.EveryRun | examples/fanoutfanin/fanoutfanin.go:51-90 | after every run each lookup is in exactly one place with what it returned, and nothing panics |
| FanIn.ReportNeverBlocks | examples/fanoutfanin/fanoutfanin.go:49-68 | a lookup's report always has a place, read or unread |
| FanIn.Progress | examples/fanoutfanin/fanoutfanin.go:53-90 | until the range is over, some goroutine can move without the parent context |
| FanIn.CancelFrees | examples/fanoutfanin/fanoutfanin.go:65-68 | once the context has ended a lookup that has returned can leave without reporting |
| FanIn.LogIsWhole | examples/fanoutfanin/fanoutfanin.go:65-90 | without cancellation what the collector received is a permutation of what all lookups returned |
| FanIn.NothingLostOrDoubled | examples/fanoutfanin/fanoutfanin.go:77-90 | options and failures together are as many as the lookups |
| FanIn.EachInItsPlace | examples/fanoutfanin/fanoutfanin.go:60-90 | a found stock is an option as it is, or named after its lookup if it had no name, and no failure; a failed lookup is a failure with its own error |
| FanIn.CollectorTurn | examples/fanoutfanin/fanoutfanin.go:82-90 | options and failures stay what the items received so far say |
| FanIn.Conclude | examples/fanoutfanin/fanoutfanin.go:92-119 | ranked options; success exactly with an option, the context's error exactly without one and with an ended context |
| FanIn.CollectInventory | examples/fanoutfanin/fanoutfanin.go:34-120 | for every set of lookups and scheduler: rejected exactly without a SKU or lookups, else the call ends and its report belongs to the interleaving that happened, ranked, and whole unless cancelled; with a parent context that never ends it ends all the same, whole |
| FanIn.Lookups.LookupStep | examples/fanoutfanin/fanoutfanin.go:57-69 | a lookup returns, then reports or leaves with the context |
| FanIn.Lookups.Others | examples/fanoutfanin/fanoutfanin.go:53-75 | any ready goroutine but the collector may take a turn; it is a step of the protocol |
| FanIn.Lookups.Receive | examples/fanoutfanin/fanoutfanin.go:82-89 | one receive takes the front item, which is that of a known lookup |
| FanIn.Lookups.EndRange | examples/fanoutfanin/fanoutfanin.go:82-115 | the range ends on a closed, empty channel, and then the context is read |
| FanIn.Lookups.SomeoneReady | examples/fanoutfanin/fanoutfanin.go:53-90 | until the range is over a lookup, the closer or the collector is ready, whatever the parent context does |
| FanInOrder.SameReports | examples/fanoutfanin/fanoutfanin.go:77-109 | two whole reports on the same answers have the same options in the same order and the same failures if only equal options tie |
| FanInOrder.AnyTopCanBeBest | examples/fanoutfanin/fanoutfanin.go:26-32 | any option that no other is better than is the best of some run, the sort keeping equals in place |
| FanInOrder.BestSettledExactly | examples/fanoutfanin/fanoutfanin.go:26-109 | all uncancelled runs with the same answers choose the same best option if and only if no two different options are both such that none is better |
| FanInOrder.TwoBests | examples/fanoutfanin/fanoutfanin.go:92-109 | two lookups with one stock checked at different times, and two runs that choose differently |
| Outcomes.LogPermutes | examples/fanoutfanin/fanoutfanin.go:77-90 | a log with each index once, each with what its own call returned, is a permutation of the items in input order |

## Left out

- Nil callbacks and the size checks of the constructors (`buffer`, `workers`, `queue` below one): single branches; the models require what the checks establish.
- More than one `Run` on a broker: `AdmissionArms` is about a single one.
- Panics in callbacks, and the `singleflight` type assertion that cannot fail.
- Real time: `SetDeadline` may fail, a deadline that passes is a connection error like any other, and `Timeout` is not modelled; cancellation is a step that may happen at any moment.
- Fairness of the scheduler: progress is shown as "somebody can move" plus a bound on the length of runs.
- Machine integers: the stock, prices and scores are mathematical integers; only the 32-bit length of a frame is exact.
- `WeightKG` is carried as a real and never used; the text of wrapped errors is reduced to the ID and the cause.
- Mutexes that protect a single read or write (the price cache's `mu`) are an atomic step; releasing a lock goes with the step before it.
- `CheckedAt` is an uninterpreted number.
- Framing.ExchangeWithServer: client and server take turns as whole calls; `Session` models every interleaving of their reads and writes, on values and without deadlines.
- Strings are sequences of characters compared by character; UTF-8 bytes are not modelled.
- The other examples (HTTP, subprocesses, JSON, dialing, errgroup batches, background groups), all of `docs/` and the site: plumbing over libraries, or weaker repeats of the protocols above.
