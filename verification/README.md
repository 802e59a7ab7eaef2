# Order service: model and proofs

A Dafny model of the order service: its Kafka consumer, LRU cache, order store and deep-size calculator,
with proofs of what they keep over all inputs, all interleavings and all runs. `dafny verify dfyconfig.toml`
checks everything.

## What is modelled

**The consumer** (`pipeline*.dfy`, `worker*.dfy`, `consumer.dfy`, `health.dfy`). `Pipeline` is a step system:
one poll goroutine, a bounded channel, any number of workers, the health checker with its ping, load and store
as separate steps, the broker's pause and commits, the stored orders, and a log of every counter, dead-letter
send, commit and mark. A run starts with any orders already stored, and others may store orders beside it.
Every result of the broker, the store and the database is chosen by the step, so `Reachable` means: under any
schedule and any environment. Beside it stand the classes that do the work:
`Worker.Worker` (retry loop, classification, commit and dead-letter protocol, panic recovery),
`Consumer.KafkaConsumer` (poll loop, pause and resume) and `Health.DBHealthChecker`. Under every interleaving the
step system behaves as their contracts say: a finished message has the effects the worker's contract prescribes
(`PipelineTheorems.FinishedAsContracted`); the poll loop's contract, on the rounds read off a run, gives what the
poller sent, dropped and flagged (`Consumer.PollerIsLoop`); and the checker's contract, on the checks and marks read
off a run, gives the health flag (`Health.FlagIsChecked`).

**The store** (`queries.dfy`, `transactions.dfy`, `store_theorems.dfy`, `store.dfy`). Four tables, the INSERT
parameters and the JSON reassembly as functions over rows; a step system of interleaved transactions that share
the two id sequences, wait on the unique index, fail at any statement, and may fail at commit before or after it
took effect; and `Store.Insert` as the transaction code itself. `service.dfy` and `consumer_store.dfy` join the two
step systems: with every call a transaction of its own, statements interleaved with all others', each state of the
consumer is one that `Pipeline` reaches, so what is proved of `Pipeline` holds against the transactional store.

**The cache** (`recency*.dfy`, `evictlist.dfy`, `lru.dfy`, `cachingservice.dfy`, `cachemachine.dfy`). The
recency sequence and theorems over all traces; `container/list` as a heap of prev/next nodes in a ring and the
map-list-counter structure, both proved to implement that sequence; the caching decorator; and a step system of
readers, preload and transactions for transparency, whose reads and preload are the decorator's
(`caching_reads.dfy`).

**The deep-size calculator** (`sums.dfy`, `sizeof*.dfy`). The traversal with its shared visited set over a heap with
sharing and cycles, proved to return the root's size plus a sum over the reachable cells; and that sum in plain numbers
for each kind of value and for the orders the cache measures (`sizeof_values.dfy`).

## Where the code and its documentation disagree

- **The commit watermark can pass a lost order.** `docs/consumer.md:24` says Kafka resends a message left
  uncommitted after exhausted retries, and `docs/consumer.md:45` that no data is lost. A later message of the same
  partition that is already in the channel can be committed first. `PipelineWatermark.WatermarkSafety` gives the
  exact condition and `PipelineWitnesses.WatermarkCanPass` a reachable loss.
- **The memory limit of `docs/cache.md:19`** is not one of the cache itself, whose updates skip the size check:
  `RecencyTheorems.FitsThroughoutExactly` says that this is the only way to break the entry cap, and
  `RecencyTheorems.MemoryBoundCanFail` shows it for any caps. It does hold for the service, whose store never gives
  two orders for one uid: `CacheMachine.MemoryBoundHolds`.
- **`maxRetries` below one reports unprocessed messages valid** and commits them: `WorkerTheorems.ValidMeansAccepted`.
- **Preloading more rows than the cache holds evicts the newest orders**, because rows are inserted newest first: a
  row stays iff it fits and fewer fitting rows than the cap follow it, `RecencyTheorems.PreloadKeepsExactly`.
- **The poll goroutine can hang at shutdown.** Its channel send does not watch the context. Workers always leave, so
  `Run` returns, but with a full channel the goroutine may stay in its send and never close the channel:
  `PipelineShutdown.ChannelClosesExactly` says exactly when.
- **A ping from before a mark can restore the flag**, where `docs/consumer.md:51` has recovery wait for a new response:
  after a mark that flipped the flag this is possible iff, at the mark, a check was past its successful ping and
  before its load, `PipelineHealth.HealsUnpingedExactly`; such a state is reachable,
  `PipelineWitnesses.StalePingHappens`.
- **Exponential backoff is shorter than intended** exactly when its last product overflows 64 bits,
  `WorkerTheorems.TotalBackoff`; by then a worker has slept at least 2^62 nanoseconds, some 146 years, so in
  practice the promise is kept: `WorkerTheorems.OverflowIsFar`.
- **A raw commit error is not mapped to the connection sentinel** (`internal/store/store.go:107`), so an order may be
  both stored by its own call and dead-lettered: `PipelineWitnesses.StoredAndDeadLettered` reaches such a state. A
  finished job whose own call stored its order is dead-lettered iff it did not end in success,
  `PipelineOwner.StoredAndDeadLetteredExactly`, and then it ended in an error that is no sentinel or in a panic,
  `PipelineWitnesses.StoredFatesExactly`.

## Model

| member | source | states |
|---|---|---|
| `Worker.Worker.ProcessWithRetries` | internal/consumer/workers.go:109-135 | calls stop at the first result that is no connection failure or at maxRetries; the error is the last call's; the transient count grows by the number of calls that failed for want of a connection, and there is one sleep for each, the last included |
| `Worker.Worker.HandleProcessingResult` | internal/consumer/workers.go:138-185 | the exact counters, dead-letter send, commit or mark for each class of error, in order |
| `Worker.Worker.ProcessMessage` | internal/consumer/workers.go:66-105 | a message, decodable or not, panicking or not, has exactly the effects of its fate, and the fate is decided by decodability and the calls made |
| `Worker.Worker.Run` | internal/consumer/workers.go:55-86 | messages are handled in channel order, each with its own calls and effects, until the context is noticed or the channel ends |
| `WorkerTheorems.CallsAreDetermined` | internal/consumer/workers.go:111-133 | the contract of the retry loop leaves exactly one number of calls |
| `WorkerTheorems.CallsAreMinimum` | internal/consumer/workers.go:111-133 | that number is min(maxRetries, 1 + index of the first result that is no connection failure) |
| `WorkerTheorems.FailuresExactly` | internal/consumer/workers.go:111-133 | of the calls made every one but the last counts as a connection failure, and the last iff it is one, which takes maxRetries failures |
| `WorkerTheorems.EffectsByRoot` | internal/consumer/workers.go:138-185 | outward effects depend on the root of the error alone, through any wrapping |
| `WorkerTheorems.CountedByRoot` | internal/consumer/workers.go:78-181 | valid, invalid and error counts by the root of the error; a dead-letter count iff a send for the same reason |
| `WorkerTheorems.OutcomeExact` | internal/consumer/workers.go:109-185 | for maxRetries >= 1 exactly one of commit, dead-letter then commit, mark unhealthy, dead-letter without commit; the third iff all calls failed for want of a connection |
| `WorkerTheorems.HandledByLastResult` | internal/consumer/workers.go:109-185 | with maxRetries >= 1 a message is dead-lettered, committed or marked unhealthy by the root of the very error its last call returned; one that is no order is committed without a call |
| `WorkerTheorems.ValidMeansAccepted` | internal/consumer/workers.go:110-142 | counted valid means accepted by the service, for every service, iff maxRetries >= 1 |
| `WorkerTheorems.FateBalances` | internal/consumer/workers.go:70-185 | per message: counted once; dead-letter counts match sends; commits are the counted ones less the marks |
| `WorkerTheorems.SleepExact` | internal/consumer/workers.go:132 | one 64-bit sleep is at most backoff * 2^attempt, and equal iff that fits |
| `WorkerTheorems.TotalBackoff` | internal/consumer/workers.go:109-135 | total sleep is at most backoff * (2^f - 1) for f failures, and equal iff the last product does not overflow |
| `WorkerTheorems.OverflowIsFar` | internal/consumer/workers.go:132 | a total short of that is at least 2^62 nanoseconds |
| `Errors.IsRoot` | internal/consumer/workers.go:146-165 | errors.Is through any chain of wrapping asks about the root error |
| `Errors.ServiceIsTransparent` | internal/service/service.go:43-53 | through the service the worker sees the root error of validation, else of the store; success iff both succeeded |
| `ConsumerStore.StoreIsAsAssumed` | internal/consumer/workers.go:112 | with every call a transaction among all others, each state of the consumer is reachable in the step system, and the orders it has stored are exactly those committed |
| `ConsumerStore.JointStep` | internal/store/store.go:34-108 | every statement, commit, call and step of the consumer keeps the two in agreement |
| `ConsumerStore.CommitByWorker` | internal/store/store.go:107 | a commit that takes effect in a worker's call is the step system's storing step of that worker |
| `Service.CallsReturnAsAssumed` | internal/store/store.go:34-108 | whatever transactions ran, what a call returns is what the consumer's step system allows for it |
| `Service.ReportsAreTold` | internal/store/store.go:34-108 | each report reaches the worker as what it is: nil iff stored, retried iff a connection failure, the others by their root error |
| `Consumer.KafkaConsumer.ManageConsumerState` | internal/consumer/consumer.go:190-215 | the flag changes iff it was clear and the first load is unhealthy, or set and the second healthy, and some partition is assigned, and the broker accepts; then exactly the assigned partitions are paused or resumed |
| `Consumer.KafkaConsumer.Poll` | internal/consumer/consumer.go:150-182 | the loop sends or drops each polled message according to the flag, and closes the channel exactly when it finds the context done |
| `Consumer.EachMessageOnce` | internal/consumer/consumer.go:159-171 | over any rounds every polled message is sent or dropped, once |
| `Consumer.NothingSentWhilePaused` | internal/consumer/consumer.go:167-171 | until a round resumes, a paused loop drops all it polls |
| `Consumer.AllSentWhileHealthy` | internal/consumer/consumer.go:159-171 | while every load is healthy, a running loop sends all it polls |
| `Consumer.PausedMeansPartitions` | internal/consumer/consumer.go:190-215 | over any rounds with any assignments, empty ones too, a paused loop has paused some partition at the broker |
| `Consumer.FlagMatchesBroker` | internal/consumer/consumer.go:190-215 | with a fixed assignment the local flag is the broker's pause state |
| `Consumer.PollerIsLoop` | internal/consumer/consumer.go:146-182 | for every run: the loop's contract, on the flag values loaded, the broker's answers and the events polled in that run, gives what the poller sent and dropped, in order, and its flag |
| `Health.DBHealthChecker.MarkUnhealthy` | internal/pkg/health/dbhealth.go:66-71 | clears the flag; reported only when it was set |
| `Health.DBHealthChecker.CheckHealth` | internal/pkg/health/dbhealth.go:74-96 | among concurrent marks: a failed ping leaves the flag unset; a successful one sets it unless a mark cleared a set flag after the load |
| `Health.DBHealthChecker.Start` | internal/pkg/health/dbhealth.go:39-57 | a check at once and one a tick until the context ends |
| `Health.SteadyExactly` | internal/pkg/health/dbhealth.go:66-96 | the flag is found set after every check iff every ping succeeds and no mark clears it after a load |
| `Health.FlagIsChecked` | internal/pkg/health/dbhealth.go:60-96 | between any two states of a run with no check under way: the checker's contract, on the ping results and the marks before and after each load in that run, gives the flag |
| `PipelineInv.ConservedStep` | internal/consumer/consumer.go:123-184 | every step keeps each polled job in exactly one place |
| `PipelineInv.ShapeStep` | internal/consumer/consumer.go:123-214 | every step keeps the channel bound, no message at the send and no pause under way while paused, the channel open and all workers in place until cancellation (that the flag is true to the broker is `Consumer.FlagMatchesBroker`) |
| `PipelineInv.ProgressStep` | internal/consumer/workers.go:90-135 | every step keeps workers' results and fates within the worker's contract and the stored orders growing only |
| `PipelineInv.LoggedStep` | internal/consumer/workers.go:138-220 | every step keeps what is logged and what a worker still has to do together equal to the effects of its fate |
| `PipelineInv.OnlyAtWorker` | internal/consumer/workers.go:62-83 | a job held by a worker is nowhere else |
| `PipelineInv.ReachableInv` | internal/consumer/consumer.go:117-187 | all of these hold in every reachable state, whatever was stored before and is stored by others |
| `PipelineTheorems.EachJobInOnePlace` | internal/consumer/consumer.go:123-184 | each polled job is dropped, at the send, queued, held by one worker or finished, exactly once; pending jobs are at most jobBuffer + workerCount + 1 |
| `PipelineTheorems.FinishedAsContracted` | internal/consumer/workers.go:66-185 | under every interleaving a finished job's logged effects are those the worker's contract prescribes |
| `PipelineTheorems.FinishedByLastResult` | internal/consumer/workers.go:66-185 | under every interleaving what was done about a finished job is decided by the last result of its own calls |
| `PipelineTheorems.AcceptedOncePerUid` | internal/consumer/workers.go:139-163 | over all retries, redeliveries and workers, with any earlier or other writers, at most one job per uid is accepted, and it is the one whose call stored the order |
| `PipelineTheorems.StoredOrdersStay` | internal/store/store.go:51-66 | a stored order is never changed or removed |
| `PipelineTheorems.CountersConserved` | internal/consumer/workers.go:70-185 | in every reachable state, up to the workers causing effects just then: finished = valid + invalid + error + panicked; dead-letter counts = sends; valid + invalid + error = commits + marks |
| `PipelineWatermark.SettledOrNot` | internal/consumer/workers.go:90-185 | at any moment each polled job is settled, in flight or abandoned |
| `PipelineWatermark.AbandonedSettledExactly` | internal/consumer/workers.go:165-172 | an abandoned job was never dead-lettered; it is settled iff it is no order or its order is stored |
| `PipelineWatermark.BelowIsPassed` | internal/consumer/workers.go:188-197 | a job lies below the committed offset iff the last successful commit of its partition was for its offset or a later one |
| `PipelineWatermark.AckedExactly` | internal/consumer/workers.go:188-197 | over any run the commits on record are those the broker acknowledged, in order; a failed commit changes neither them nor the committed offsets |
| `PipelineWatermark.FifoStep` | internal/consumer/consumer.go:123-171 | every step keeps waiting messages in polling order, behind those held and committed |
| `PipelineWatermark.WatermarkSafety` | internal/consumer/workers.go:138-197 | when nothing is in flight, all below the committed offsets is settled iff no lost job (let go, decodable, its order stored by nobody) was passed by its partition's last successful commit; with none abandoned all is settled |
| `PipelineWatermark.WaitingNotPassed` | internal/consumer/consumer.go:146-184 | with polls in order per partition a message still in the channel or at the send is never below the committed offset |
| `PipelineWatermark.WatermarkAtShutdown` | internal/consumer/consumer.go:137-187 | so the same condition holds as soon as no worker holds a message, whatever a shutdown leaves in the channel |
| `PipelineOwner.OwnedStep` | internal/consumer/workers.go:109-135 | every step keeps each stored order with the worker or outcome that may own it |
| `PipelineOwner.StoredJobsEndSo` | internal/consumer/workers.go:138-185 | a finished job whose own call stored its order is never undecodable, invalid, a duplicate or given up |
| `PipelineOwner.StoredAndDeadLetteredExactly` | internal/consumer/workers.go:138-185 | a finished job whose own call stored its order was dead-lettered iff it did not end in success |
| `PipelineWitnesses.StoredFatesExactly` | internal/store/store.go:107 | a fate can go with the job's own order being stored iff it is success, an error that is no sentinel, or a panic |
| `PipelineWitnesses.StoredAndDeadLettered` | internal/consumer/workers.go:174-181 | a reachable state in which an order is stored by its own call and was sent to the dead-letter topic |
| `PipelineWitnesses.WatermarkCanPass` | internal/consumer/workers.go:165-197 | a reachable state in which a given-up order lies below the committed offset, unsettled, with nothing in flight |
| `PipelineHealth.PauseHolds` | internal/consumer/consumer.go:159-214 | from a successful pause to the next successful resume nothing enters the channel, it only drains, and polled messages are dropped |
| `PipelineHealth.HealthyOnlyByNewCheck` | internal/pkg/health/dbhealth.go:66-96 | after a mark that flipped the flag it is set again only by a check whose ping succeeded and whose load ran after the mark |
| `PipelineHealth.HealsUnpingedExactly` | internal/pkg/health/dbhealth.go:78-93 | it can be set again without a new successful ping iff, at the mark, a check was between its successful ping and its load |
| `PipelineHealth.StalePingRestores` | internal/pkg/health/dbhealth.go:78-93 | the run that does so: mark, load, store |
| `PipelineWitnesses.StalePingHappens` | internal/pkg/health/dbhealth.go:78-93 | a reachable state from which that happens |
| `PipelineShutdown.SystemStep` | internal/consumer/consumer.go:137-184 | after cancellation every poller or worker step lowers a measure |
| `PipelineShutdown.ShutdownTerminates` | internal/consumer/consumer.go:137-187 | after cancellation the number of poller and worker steps is bounded by configuration and queue under every schedule |
| `PipelineShutdown.MeasureIsEnough` | internal/consumer/consumer.go:137-187 | a run that uses up the measure has all workers gone and the poller closed or blocked |
| `PipelineShutdown.LiveWorkerCanStep` | internal/consumer/workers.go:57-84 | after cancellation a worker can step on its own iff it has not exited |
| `PipelineShutdown.TerminalExact` | internal/consumer/consumer.go:146-184 | nothing can move iff all workers are gone and the poller is closed or blocked at its send |
| `PipelineShutdown.TerminalForever` | internal/consumer/consumer.go:167-170 | a blocked poller stays blocked whatever context and health checker do |
| `PipelineShutdown.FewTakenAfterCancel` | internal/consumer/workers.go:57-66 | after cancellation workers take at most the queued messages and one more |
| `PipelineShutdown.ChannelClosesExactly` | internal/consumer/consumer.go:146-184 | every complete shutdown closes the channel iff it was not full with the poller holding, or still able to get, a message to send; no ping begun after the cancellation succeeds |
| `PipelineShutdown.PollerMayBlock` | internal/consumer/consumer.go:167-170 | a reachable state with all workers gone and the poll goroutine stuck |
| `Recency.ApplyGood` | internal/service/lru.go:35-84 | Get and Insert keep keys distinct and the count within its cap; untouched means unchanged |
| `Recency.RunGood` | internal/service/lru.go:35-84 | the same over any trace |
| `RecencyTheorems.Inclusion` | internal/service/lru.go:35-84 | on one trace the smaller cache is a subsequence of the larger, with equal values; its hits are hits there |
| `RecencyTheorems.GetExactly` | internal/service/lru.go:35-46 | by positions: a hit puts its entry in front and leaves the others in order; a miss changes nothing |
| `RecencyTheorems.InsertExactly` | internal/service/lru.go:48-73 | by positions: a known key goes in front with the new order, whatever its size; a new one goes in front, the last entry leaving a full cache, or is refused for its size |
| `RecencyTheorems.SurvivalWindow` | internal/service/lru.go:39-83 | an entry's index is the number of distinct other keys touched since its own touch; it is resident iff that is below the cap |
| `RecencyTheorems.LeastRecentlyTouchedFirstOut` | internal/service/lru.go:39-83 | entries stand by time of last touch; a lost key was touched before every resident |
| `RecencyTheorems.FitStep` | internal/service/lru.go:52-67 | an operation keeps all entries within the size cap iff it is not an oversized update |
| `RecencyTheorems.FitsThroughoutExactly` | internal/service/lru.go:52-67 | over a run every entry always fits iff no operation is an oversized update |
| `RecencyTheorems.MemoryBound` | docs/cache.md:15-19 | with one size per uid the cached sizes total at most count cap * size cap |
| `RecencyTheorems.MemoryBoundCanFail` | internal/service/lru.go:62-67 | with any caps, a too large order replacing a fitting one under its uid stays cached, and exceeds the bound when large enough |
| `RecencyTheorems.PreloadLeaves` | internal/service/cache.go:86-88 | preloading distinct rows leaves the last fitting ones within the cap, in reverse row order |
| `RecencyTheorems.PreloadKeepsExactly` | internal/service/cache.go:86-88 | a preloaded row stays iff it fits and fewer fitting rows than the cap follow it |
| `EvictList.List.PushFront` | internal/service/lru.go:58 | links a node behind the sentinel of a well-linked ring |
| `EvictList.List.MoveToFront` | internal/service/lru.go:41 | relinks a node to the front, the others in order |
| `EvictList.List.Back` | internal/service/lru.go:78 | the last node, none iff the list is empty |
| `EvictList.List.RemoveBack` | internal/service/lru.go:80 | unlinks the last node |
| `Lru.LRUCache.constructor` | internal/service/lru.go:26-33 | an empty cache with its caps |
| `Lru.LRUCache.Get` | internal/service/lru.go:35-46 | map, list and counter stay in agreement; result and new order are the recency sequence's |
| `Lru.LRUCache.Insert` | internal/service/lru.go:48-73 | the same for an insert: size check for new keys only, update, eviction |
| `Lru.LRUCache.RemoveOldest` | internal/service/lru.go:77-84 | drops the last entry from map, list and counter; an empty cache stays empty |
| `Lru.LRUCache.EvictExcess` | internal/service/lru.go:70-72 | the loop ends and leaves the most recent entries within the cap |
| `Lru.ItemsAreKeys` | internal/service/lru.go:17-24 | the map's keys are exactly the list's keys, each pointing at the node that carries it |
| `CachingService.CachingOrderService.GetOrder` | internal/service/cache.go:34-61 | a hit is the cached order; a miss is the next service's answer, errors passed on as they are, cached in front only when found and fitting; not-found and failures are never the cache's own; other goroutines may use the cache in between |
| `CachingService.CachingOrderService.ProcessNewOrder` | internal/service/cache.go:65-73 | nil iff validation and insert succeeded, else an error with the root of the first failure |
| `CachingService.CachingOrderService.Preload` | internal/service/cache.go:76-92 | inserts all rows in order; a lost connection is no error; failures leave the cache as it was |
| `CachingReads.EntriesRun` | internal/service/cache.go:34-91 | in every run the cache goes through exactly the gets and inserts of the run, in order |
| `CachingReads.HitIsGetOrder` | internal/service/cache.go:36-45 | a lookup that hits is GetOrder's hit: same answer, same cache |
| `CachingReads.LoadIsGetOrder` | internal/service/cache.go:47-60 | miss, fetch, fill and what others do in between are GetOrder with the store's order as the next service's answer |
| `CachingReads.NotFoundIsGetOrder` | internal/service/cache.go:47-52 | miss and a fetch that finds nothing are GetOrder with not-found, and nothing is cached |
| `CachingReads.FetchErrorIsGetOrder` | internal/service/cache.go:47-52 | miss and a fetch that fails are GetOrder with that error passed on, and nothing is cached |
| `CachingReads.InsertionsArePreload` | internal/service/cache.go:86-88 | inserting the queried rows leaves what Preload's contract says |
| `CacheMachine.StepInv` | internal/service/cache.go:34-91 | every step keeps cached entries, orders in flight, preload rows and answers true to the database |
| `CacheMachine.CacheIsTransparent` | internal/service/cache.go:34-91 | after any interleaving every cached or answered order is the database's for its uid, and not-found is answered only for a uid not stored when the read began |
| `CacheMachine.LookupIsUncached` | internal/service/cache.go:36-51 | at every moment a lookup answers what the uncached service would, or goes on to ask it |
| `CacheMachine.MemoryBoundHolds` | docs/cache.md:15-19 | with sizes that are a function of the order, no interleaving makes the cache exceed count cap * size cap |
| `Queries.AscendingUnique` | internal/store/queries.go:101 | ordering a group by id gives back its ids in the order they were drawn |
| `Queries.RowRoundTrip` | internal/store/queries.go:42-109 | reassembling the rows of an order gives the order, items in sequence |
| `Queries.RetrieveRoundTrip` | internal/store/queries.go:42-109 | with unique uids the retrieve query finds exactly that order |
| `Transactions.StepKeeps` | internal/store/store.go:41-107 | every statement, failure or commit of any transaction keeps tables sound and open transactions apart |
| `Transactions.RunKeeps` | internal/store/store.go:41-107 | so does every interleaved run |
| `StoreTheorems.CommittedReadsBack` | internal/store/store.go:114-136 | a committed order reads back as inserted |
| `StoreTheorems.GetOrderExact` | internal/store/store.go:114-136 | an order is found iff exactly it was committed under that uid |
| `StoreTheorems.NotFoundExact` | internal/store/store.go:124-126 | not found iff nothing was committed under the uid |
| `StoreTheorems.StepExtends` | internal/store/store.go:41-107 | the record only grows; only a commit that takes effect touches the tables |
| `StoreTheorems.WholeRun` | internal/store/store.go:34-108 | invariants and truthful reports over every run |
| `StoreTheorems.FirstCommitStays` | sql/001_initial_schema.sql:4 | a uid keeps reading back as the order first committed under it |
| `StoreTheorems.ReportsAreExact` | internal/store/store.go:34-108 | success means it reads back; AlreadyExists means another's order is there and nothing was added; a connection failure means nothing was added |
| `StoreTheorems.UidsAreUnique` | sql/001_initial_schema.sql:4 | in every reachable state no two committed orders share a uid |
| `StoreTheorems.CommittedOrdersAreWhole` | sql/001_initial_schema.sql:2-59 | in every reachable state each order has one delivery, one payment and precisely its items |
| `StoreTheorems.LatestAreCommitted` | internal/store/queries.go:139-207 | the latest rows are committed orders under distinct uids |
| `StoreTheorems.LatestAreNewest` | internal/store/queries.go:139-207 | as many as the limit and the stored orders allow, newest first, and no order left out was inserted later than one listed |
| `Store.OthersLeave` | internal/store/store.go:41-107 | the steps of other transactions leave an open transaction, its report and its order as they are |
| `Store.Exec` | internal/store/store.go:68-91 | a statement among others' steps: it fails iff there is a fault, a lost connection being mapped and anything else not; then the transaction is rolled back with nothing stored, else one statement further |
| `Store.ExecOrder` | internal/store/store.go:51-66 | the insert into orders passes iff there is no fault and the uid is neither locked nor taken; each way to fail has its own error and stores nothing |
| `Store.ExecCommit` | internal/store/store.go:107 | a commit without fault stores the order; a fault is passed on unmapped, and the order is stored iff the commit took effect first |
| `Store.Insert` | internal/store/store.go:34-108 | the first fault decides the report, a taken uid is AlreadyExists, a locked one times out; the order is stored iff every statement passes and the commit takes effect; without faults and others a free uid is stored; after success GetOrder returns exactly the order; a transaction that cannot begin leaves the database untouched; own statements are a prefix of the script and one last step |
| `Store.InsertDetails` | internal/store/store.go:68-107 | the same for the statements after the orders row: the first fault decides, and the order is stored iff there is none before a commit that takes effect |
| `Store.InsertItems` | internal/store/store.go:93-105 | the loop over the items, in sequence: it ends at the first fault, with nothing stored, or with all of them inserted |
| `Store.StoredReadsBack` | internal/store/store.go:34-136 | after an Insert that reported success GetOrder returns exactly the order |
| `Store.GetLatestOrders` | internal/store/store.go:141-173 | all rows in query order, or the first error met, mapped or not as the code does |
| `Sizeof.SizeOfValue` | internal/pkg/sizeof/calculator.go:18-35 | an addressable cell counts on its first visit only; newly marked cells are exactly those newly reached |
| `Sizeof.SizeOfHeapData` | internal/pkg/sizeof/calculator.go:39-77 | the local heap bytes plus the cost of each newly marked cell |
| `Sizeof.SizeOfAll` | internal/pkg/sizeof/calculator.go:54-64 | the same for slice elements and struct fields |
| `Sizeof.SizeOfEntries` | internal/pkg/sizeof/calculator.go:65-73 | the same for map entries, in any key order |
| `Sizeof.SizeOf` | internal/pkg/sizeof/calculator.go:12-16 | terminates on every heap and returns the root's cost plus the sum over all reachable cells |
| `Sizeof.ExploredAll` | internal/pkg/sizeof/calculator.go:14-27 | the visited set of a whole walk is the set of reachable cells |
| `SizeofLaws.SharedCellsCountOnce` | internal/pkg/sizeof/calculator.go:22-28 | two parts fall short of their sum by exactly what they share |
| `SizeofLaws.PointerSize` | internal/pkg/sizeof/calculator.go:45-48 | a pointer's size counts its cell once, also on a cycle |
| `SizeofLaws.MapSizeIndependentOfKeyOrder` | internal/pkg/sizeof/calculator.go:65-73 | the order of a map's keys does not matter |
| `SizeofValues.SimpleSizes` | internal/pkg/sizeof/calculator.go:30-54 | the bytes of each kind without parts: nothing, a width, 16 plus the length of a string, 8 for a nil pointer or map, 24 for a nil slice |
| `SizeofValues.CompoundSizes` | internal/pkg/sizeof/calculator.go:50-64 | a slice costs its whole capacity and the string bytes inside, a struct its width and the same |
| `SizeofValues.MapSize` | internal/pkg/sizeof/calculator.go:65-73 | a map costs 8 and every key and value whole; a key not found again adds no value |
| `SizeofValues.SharedSizes` | internal/pkg/sizeof/calculator.go:22-48 | a cell pointed to twice from a struct, a slice or a map costs its bytes once |
| `SizeofValues.CycleSize` | internal/pkg/sizeof/calculator.go:22-28 | a cell that points to itself costs its width once |
| `SizeofValues.FatherTest` | internal/pkg/sizeof/calculator_test.go:12-58 | 233 bytes for the value of the calculator's own test |
| `SizeofValues.OrderSize` | internal/pkg/sizeof/calculator.go:12-77 | a pointer to an order costs 8 + 432 bytes, the bytes of all strings of the order and its items, 128 times the capacity of its item slice, and the cells of its time zone if it has one |
| `SizeofValues.MeasureOrder` | internal/service/lru.go:55 | what the cache measures for an order in UTC is that number |

## Left out

- JSON decoding: a message is decodable to an order or it is not.
- Validation rules (`internal/domain/domain.go:21-32`): any error may come out of validation.
- The driver-code table of `isConnectionError` (`internal/store/errors.go:34-68`): a fault is a lost connection or something else.
- SQL types: columns hold values faithfully; ranges, NULL, time zones and timestamp precision are not modelled, and a value that does not fit is a failing statement. `created_at` is left out, `updated_at` is a given number.
- Real time: sleeps are added up, timeouts and contexts end whenever a step says so.
- The ended context inside a service call: in the step system a call made after the cancellation may still commit, where the code's would mostly fail; the states shown to be reachable do not need it.
- Partition rebalances in the step system: redelivery is an arbitrary poll, but assignment does not change; the poll loop's class takes any assignment in each round.
- The dead-letter topic beyond the attempt: a failed produce is only logged in the code, so sends are attempts.
- Panics outside the service call, for instance while causing the effects of a result.
- Restarts: a run is one life of the process, begun with any stored orders; redelivery appears as repeated polls of a message.
- The mutex of the cache: operations are atomic, interleaving happens between them.
- The cached size: what the calculator returned is a parameter of Insert and Preload, since an order does not determine the capacity of its item slice; for a given capacity it is `SizeofValues.OrderSize`. `cacheEntry` is part of the list node.
- Characters and bytes: the length of a string is its number of characters, as if each took one byte.
- `container/list` bookkeeping that is never read: a removed node keeps its links here, and each node belongs to one list.
- Negative `entryCountCap`: the eviction loop would not end, so the cap is a natural number.
- Pointers into the inside of a cell, two cells at one address, and slices or maps that contain themselves without a pointer: pointers target whole, distinct cells and the values between pointers are finite trees.
- Use of the closed Kafka handle by a poll goroutine that outlives `Run`.
- `qRetrieveOrder`, the HTTP server, templates, configuration, logging, metric registration, lag monitor, dead-letter report drain and the producer command.
