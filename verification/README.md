# OutboxNet delivery protocol: a Dafny model

OutboxNet writes messages to an outbox table inside the caller's transaction and delivers them to
webhook subscriptions from there. Any number of instances take time-limited leases on rows, POST to
the subscriptions, append to a delivery-attempt log, and write the row back. This project models that
protocol, and the store operations and loops inside it, and proves what they keep.

How it is built:

- `OutboxTypes`, `MessageTable`, `AttemptTable`, `Delivery` give the two tables, the meaning of every
  SQL statement (with SQL's three-valued logic), and the decision a pass takes.
- `Protocol` is the state machine: sixteen kinds of atomic step (insert, commit, rollback, hot lock by
  id, cold batch lock, release of expired locks, reading attempt states, one POST, save, write-back,
  crash, tick, purge and so on) that any number of passes may take in any order. A pass is in flight
  with the lease end and RetryCount it saw at lock time, the list it routed to, the states it read and
  the results so far. Saves may be refused, or applied and reported as failed. A crash may come after
  any step.
- `Conservation`, `AttemptInvariant`, `Soundness`, `Leases` hold the inductive invariants, `Reachability`
  the theorems over every run, `Idempotency` what receivers see, `Overruns` what a pass that outlives its
  lease can break, `Redelivery` and `DualDelivery` when and how often a delivery is repeated, `Partitions` the
  ordering clause, `Anomalies` the runs that go wrong.
- `Drain` shows what every run of cold batches comes to, `DrainBounds` that no run finishes more than its
  locks allow and that a drain can always be completed.
- `MessageStore`, `AttemptStore`, `ParallelDelivery`, `Pipeline` are the imperative stores and pipeline,
  proved against the set-level functions and column by column; `PassOutcome` says what an uninterrupted
  pass comes to, `PassRuns` that it is a run of the protocol.
- `RowHistory` proves what a row's columns say about its past (publication, back-off), `Transcript` that
  the history the theorems speak of is what the steps did.
- `Processor`, `Throttle`, `Backoff`, `Signals`, `DeliveryIds` are the hosted service's in-flight set, the
  compare-and-swap throttle, the retry policy, the hint queue and the derivation of delivery ids.

Assumptions: each SQL statement is atomic; there is one server clock and it does not run backwards; the
ids derived in one run do not collide (`DeliveryIds.IdsDistinctExactly` says what that asks of the
hash); subscription ids in one list are distinct; MaxRetries and the policy limit are fixed; attempt
rows disappear only with their message.

The attempt-log, idempotency, Delivered, DeadLettered, conservation, accounting and absorbing theorems
need no hypothesis. Mutual exclusion and the retry budget are not kept by every run of the code, and the
model says exactly when they are:

- A live pass (one whose lease has not ended) holds its row after a step if and only if the step is not a
  write-back that lands while another live pass is on the message (`Overruns.LiveStepExact`, over whole runs
  `Overruns.LiveRunExact`). Locks never break it. What the WHERE clause of the write-backs lacks is a test that
  LockedUntil is still the pass's own; comparing it with the clock would not do
  (`Overruns.GuardStopsClobbers`).
- The retry budget is kept by a step if and only if the step is not a retry that lands on a row with none
  left (`Overruns.BudgetStepExact`, `Overruns.BudgetRunExact`).
- Either of two conditions on a run is enough for both. One is that no write-back lands after its pass's
  lease has ended (`Overruns.InTimeTheorem`). The other is (H), `Leases.Exclusive`: an instance does not lock
  a message while a pass of its own on it is still active (`Reachability.MutualExclusionTheorem`,
  `Reachability.RetryBudgetTheorem`). The documented setting, a visibility timeout longer than the pass,
  implies both (`Overruns.LeasesSufficeTheorem`).
- While live passes hold their rows, a lock breaks (H) if and only if it is taken over a pass of the same
  instance on the same message that has overrun (`Overruns.OnlyOverrunsBreakH`). The service's skip set gives
  (H) to a cold batch exactly as far as its snapshot reaches (`Processor.SnapshotTheorem`).
- `Anomalies` gives a run that loses exclusion and one that overspends the budget.

Where the code and its own words differ, the model follows the code:

- README.md:47 promises causality within a partition. The ordering clause only keeps out rows whose
  partition already has another live lock, so one batch may take two rows of a partition
  (`Partitions.BatchOfTwoBreaksOrder`), and the hot path has no ordering check at all.
  `Partitions.OrderedBatchExact` and `Partitions.HotLockExact` say exactly on which tables a lock keeps one
  live lock per partition, `Partitions.OvertakingExact` when a row passes an older one.
- OutboxProcessingPipeline.cs:357 says every subscription was exhausted when a message is dead-lettered.
  One is enough if none failed in the pass: `Anomalies.DeadLetteredThoughDelivered` is a run that dead-letters
  a message one subscription received. The claim holds if and only if no subscription of the list was
  delivered to, before the pass or in it (`Delivery.AllExhaustedExactly`).
- docs/architecture.md:372 calls MaxDelay an upper bound on the delay. Jitter is added after the cap
  (`Backoff.MayExceedMaxDelay`): the default options stay below it (`Backoff.DefaultsStayBelow`), with two more
  retries they may not (`Backoff.SevenRetriesMayExceed`).
- EfCoreOutboxPublisher.cs:97-99 says the message is committed when the hint is sent. The hint comes before
  the caller commits; a hot lock is only possible on a committed row.
- EfCoreOutboxStore.cs:50-51 says the lock gate makes dual delivery impossible. Two passes can POST one id,
  also under (H), when the first outlives its lease: after its POST and before its save
  (`Anomalies.TwoInstancesDeliverTwice`), or before either has posted anything (`Anomalies.BothReadFirst`). Any
  two passes that post to a subscription post one id if and only if no row of the pair was stored between
  their reads (`DualDelivery.DualDeliveryTheorem`); `Redelivery.SingleDeliveryTheorem` gives runs on which none
  do.
- docs/architecture.md:329 gives two deliveries as the worst case. There is no such bound: for every k some run
  respecting (H) delivers one id k times (`Anomalies.NoWorstCase`). The bound is the number of locks taken on
  the message (`DualDelivery.PostsBoundTheorem`); the ids stay few (`Idempotency.IdempotencyTheorem`).

## Model

| member | source | states |
|---|---|---|
| Reachability.AttemptLogTheorem | src/OutboxNet.Processor/OutboxProcessingPipeline.cs:416-458 | On every run, with stale, duplicate and crashed passes, the stored attempt numbers of a (message, subscription) are exactly 1..COUNT(*), at most MaxRetries+1 of them, and a Success is unique and the last |
| Reachability.FrozenLogTheorem | src/OutboxNet.Processor/OutboxProcessingPipeline.cs:420-433 | Once a pair has a Success or has used up its retries, no continuation of the run changes its rows, until the message is purged with them |
| Reachability.DeliveredTheorem | src/OutboxNet.Processor/OutboxProcessingPipeline.cs:292-348 | A Delivered row's delivering pass used a list each of whose subscriptions has a stored Success whose POST the receiver accepted; `Transcript` ties list and POSTs to the steps that made them |
| Transcript.PostsOnRecord | src/OutboxNet.Processor/OutboxProcessingPipeline.cs:416-458 | A POST is on record as accepted or failed exactly when some step of the run made it with that outcome, by that pass, under the number after the count the pass had read |
| Transcript.FaultsOnRecord | src/OutboxNet.Processor/OutboxProcessingPipeline.cs:259-288 | A pass is on record with a fault exactly when it met one |
| Transcript.ListWasRouted | src/OutboxNet.Processor/OutboxProcessingPipeline.cs:185-195 | The list a Delivered row is on record with was given by routing to a pass over that message |
| Reachability.DeadLetteredTheorem | src/OutboxNet.Processor/OutboxProcessingPipeline.cs:349-374 | A DeadLettered row has its evidence: a subscription of spent retries without Success, or a pass that locked this very message with no retry left and itself met a failed POST of it or an error |
| Reachability.BudgetSpentTheorem | src/OutboxNet.Processor/OutboxProcessingPipeline.cs:534-571 | Under (H), a row dead-lettered by a pass with no retry left has RetryCount equal to that pass's snapshot and to the policy limit |
| Idempotency.IdempotencyTheorem | src/OutboxNet.Processor/OutboxProcessingPipeline.cs:435-441 | On every run, however many passes post at once, a pair is posted under at most MaxRetries+1 delivery ids, under none beyond the next free number, and once a Success is stored under none beyond that Success |
| Idempotency.PostsFollowStep | src/OutboxNet.Processor/OutboxProcessingPipeline.cs:416-441 | Every step keeps: each id ever posted follows a stored row that is not a Success, or is the first, within the retries |
| Reachability.ConservationTheorem | src/OutboxNet.EntityFrameworkCore/EfCoreOutboxPublisher.cs:89-100 | Committed ids are the table's plus the purged ones, purged rows were terminal, and no POST is ever made for a message rolled back |
| Reachability.AccountingTheorem | src/OutboxNet.EntityFrameworkCore/Stores/EfCoreOutboxStore.cs:193-273 | Locks taken = write-backs + expiry releases + takeovers + (1 while Processing); RetryCount = successful IncrementRetry calls; Processing iff LockedBy set iff LockedUntil set |
| Transcript.AccountsOnRecord | src/OutboxNet.EntityFrameworkCore/Stores/EfCoreOutboxStore.cs:193-273 | Those accounts are counts over the run: locks taken and takeovers, releases of expired locks, write-backs and retries that passed the owner check |
| Reachability.AbsorbingTheorem | src/OutboxNet.EntityFrameworkCore/Stores/EfCoreOutboxStore.cs:78-94 | From any state with the invariants, a terminal row stays exactly as it is against every later lock, late write-back and release, until purged |
| Reachability.MutualExclusionTheorem | src/OutboxNet.EntityFrameworkCore/Stores/EfCoreOutboxStore.cs:162-178 | Under (H), two passes never both hold an unexpired lease on a message, and one that does sees its LockedBy, LockedUntil and RetryCount in the row |
| Reachability.RetryBudgetTheorem | src/OutboxNet.Processor/OutboxProcessingPipeline.cs:527-573 | Under (H), RetryCount stays within the policy limit though decided on a snapshot; at most limit+1 write-backs, the last of them final; a message whose locks never expired takes at most limit+1 of them, and after the last is finished or still in that last pass |
| Reachability.InvStep | src/OutboxNet.Processor/OutboxProcessingPipeline.cs:235-381 | Every step of every pass keeps all six invariants that need no hypothesis |
| AttemptInvariant.LogStep | src/OutboxNet.SqlServer/Stores/DirectSqlDeliveryAttemptStore.cs:46-83 | Every step keeps the attempt log gapless, Success-last and bounded, and what every pass in flight read still true |
| AttemptInvariant.ContinuationKeepsLogOk | src/OutboxNet.EntityFrameworkCore/Configurations/DeliveryAttemptConfiguration.cs:13 | Rows that are new by primary key and each follow a stored non-Success keep the log's shape |
| AttemptInvariant.PassContinues | src/OutboxNet.Processor/OutboxProcessingPipeline.cs:435-455 | If a pass's rows can be inserted at all then each follows a stored row that is not a Success, or is the pair's first, however stale the counts it read: the primary key is the concurrency check |
| AttemptInvariant.PairStep | src/OutboxNet.Processor/OutboxProcessingPipeline.cs:416-458 | One step leaves a pair's rows alone, appends exactly the next number to an open pair, or removes them with their message |
| AttemptInvariant.ClosedForever | src/OutboxNet.Processor/OutboxProcessingPipeline.cs:420-433 | A closed pair (delivered or out of retries) is frozen on every run from a state with the invariants |
| AttemptInvariant.StatesAreSeen | src/OutboxNet.EntityFrameworkCore/Stores/EfCoreDeliveryAttemptStore.cs:66-73 | The COUNT and MAX aggregate reads off the highest row of each pair and whether it is a Success |
| AttemptTable.ExactNumbering | src/OutboxNet.EntityFrameworkCore/Stores/EfCoreDeliveryAttemptStore.cs:66-73 | In a gapless log a number is stored exactly when it is within 1..COUNT(*) |
| AttemptTable.HasSuccessIsTopRow | src/OutboxNet.EntityFrameworkCore/Stores/EfCoreDeliveryAttemptStore.cs:66-73 | HasSuccess holds exactly when the row numbered COUNT(*) is a Success |
| AttemptTable.LogIsBounded | src/OutboxNet.Processor/OutboxProcessingPipeline.cs:426-433 | COUNT(*) is zero or at most MaxRetries+1 |
| Soundness.EvidenceStep | src/OutboxNet.Processor/OutboxProcessingPipeline.cs:329-374 | Every step keeps evidence for every terminal row |
| Soundness.DeliverIsJustified | src/OutboxNet.Processor/OutboxProcessingPipeline.cs:329-336 | A pass about to mark Delivered has, for its whole list, stored Successes the receivers accepted, whatever mix of old, new and ambiguous saves it went through |
| Soundness.DeadLetterIsJustified | src/OutboxNet.Processor/OutboxProcessingPipeline.cs:355-366 | A pass about to dead-letter carries its evidence in the log, the POST history or its snapshot |
| Soundness.TerminalOrigin | src/OutboxNet.EntityFrameworkCore/Stores/EfCoreOutboxStore.cs:193-244 | A row becomes terminal only by a write-back of a pass on it with that verdict |
| Conservation.TxStep | src/OutboxNet.EntityFrameworkCore/Stores/EfCoreOutboxStore.cs:275-280 | Every step keeps committed ids accounted for and passes on committed messages only |
| Conservation.RowStep | src/OutboxNet.EntityFrameworkCore/Stores/EfCoreOutboxStore.cs:197-241 | Every step keeps every row's status and lock columns in agreement |
| Conservation.TerminalStep | src/OutboxNet.EntityFrameworkCore/Stores/EfCoreOutboxStore.cs:193-269 | No step changes a terminal row except to purge it |
| Conservation.AccountStep | src/OutboxNet.EntityFrameworkCore/Stores/EfCoreOutboxStore.cs:256-269 | Every step keeps every message's lock and retry account balanced; expiry spends no retry |
| Leases.LeaseStep | src/OutboxNet.EntityFrameworkCore/Stores/EfCoreOutboxStore.cs:78-115 | Under (H) every step keeps: an unexpired pass owns its row, and a row in a pass's name carries that pass's lock and snapshot |
| Leases.LeaseStepExact | src/OutboxNet.EntityFrameworkCore/Stores/EfCoreOutboxStore.cs:162-178 | With a visibility timeout that is not negative, every pass named by a row's LockedBy still reads its own LockedUntil and RetryCount off the row after a step if and only if the step respects (H): LockedBy does not tell an instance's passes apart |
| Overruns.LiveStepExact | src/OutboxNet.EntityFrameworkCore/Stores/EfCoreOutboxStore.cs:195-196 | After a step every unexpired pass still holds its row, alone, if and only if the step is not a write-back that lands while another unexpired pass is on the message |
| Overruns.LiveRunExact | src/OutboxNet.EntityFrameworkCore/Stores/EfCoreOutboxStore.cs:193-244 | Unexpired passes hold their rows throughout a run if and only if no step of it is such a write-back |
| Overruns.BudgetStepExact | src/OutboxNet.Processor/OutboxProcessingPipeline.cs:534-546 | The retry budget survives a step if and only if the step is not a retry landing on a row that has none left |
| Overruns.BudgetRunExact | src/OutboxNet.EntityFrameworkCore/Stores/EfCoreOutboxStore.cs:219-232 | The retry budget is kept throughout a run if and only if no step of it is such a retry |
| Overruns.GuardStopsClobbers | src/OutboxNet.EntityFrameworkCore/Stores/EfCoreOutboxStore.cs:195-196 | A landing write-back that frees another live pass's row finds a LockedUntil that is not its own and yet not past; a live pass always finds its own |
| Overruns.OnlyOverrunsBreakH | src/OutboxNet.EntityFrameworkCore/Stores/EfCoreOutboxStore.cs:82-84 | While unexpired passes hold their rows, a step breaks (H) if and only if it locks a message on which a pass of the same instance has outlived its lease |
| Overruns.InTimeTheorem | src/OutboxNet.EntityFrameworkCore/Stores/EfCoreOutboxStore.cs:195-196 | Without (H): on runs whose write-backs land within their leases, exclusion and the retry budget hold |
| Overruns.LeasesSufficeTheorem | src/OutboxNet.Core/Options/OutboxOptions.cs:8-14 | When no pass outlives its lease, (H), exclusion and the retry budget all hold |
| Processor.SnapshotTheorem | src/OutboxNet.Processor/OutboxProcessorService.cs:78-116 | On every run of the service its cold batch respects (H) if and only if it takes no message that a hot pass begun since the snapshot is working on |
| Processor.OutboxProcessorService.BeginHot | src/OutboxNet.Processor/OutboxProcessorService.cs:80-83 | Takes the hint, keeps every own pass covered, and makes every enabled lock of the message by id one the service may take |
| Processor.OutboxProcessorService.EndHot | src/OutboxNet.Processor/OutboxProcessorService.cs:89-92 | Drops the hint once its pass has ended, and keeps every other own pass covered |
| Processor.OutboxProcessorService.SkipIds | src/OutboxNet.Processor/OutboxProcessorService.cs:110-116 | Takes the snapshot: no set when nothing is in flight, else all that is; what is skipped covers every hot pass of the instance in flight at that moment |
| Leases.MutualExclusion | src/OutboxNet.EntityFrameworkCore/Stores/EfCoreOutboxStore.cs:174-177 | The lease invariant rules out two unexpired passes on one message |
| Leases.BudgetStep | src/OutboxNet.Processor/OutboxProcessingPipeline.cs:534-541 | With the lease invariant, no step takes the retries spent over the limit, although the decision uses the lock-time snapshot |
| Leases.PassesAreBounded | src/OutboxNet.Processor/OutboxProcessingPipeline.cs:534-573 | At most limit+1 write-backs land on a message, and the last ends it |
| Leases.UninterruptedPassesFinish | src/OutboxNet.Delivery/ExponentialBackoffRetryPolicy.cs:16-21 | With no lock expired, at most limit+1 locks are taken, and after the last the message is finished or still in its last pass |
| Anomalies.SharedInstanceLosesExclusion | src/OutboxNet.EntityFrameworkCore/Stores/EfCoreOutboxStore.cs:193-244 | A concrete run without (H) ends with two unexpired passes on one message |
| Anomalies.SharedInstanceOverspends | src/OutboxNet.Processor/OutboxProcessingPipeline.cs:534-541 | A concrete run without (H) ends with RetryCount above the policy limit |
| Anomalies.TwoInstancesDeliverTwice | src/OutboxNet.EntityFrameworkCore/Stores/EfCoreOutboxStore.cs:50-51 | A concrete run that respects (H) ends with one delivery id accepted from passes of two instances |
| Anomalies.BothReadFirst | src/OutboxNet.EntityFrameworkCore/Stores/EfCoreOutboxStore.cs:50-51 | Another, on which both passes read before either posts |
| Anomalies.NoWorstCase | docs/architecture.md:329 | For every k, a run that respects (H) on which k passes have one delivery id accepted |
| Anomalies.DeadLetteredThoughDelivered | src/OutboxNet.Processor/OutboxProcessingPipeline.cs:355-363 | A concrete run ends with a message dead-lettered though one of its two subscriptions has a stored Success |
| Redelivery.ReadsRepeatExactly | src/OutboxNet.Processor/OutboxProcessingPipeline.cs:416-439 | Reading the states makes a pass post an earlier id of the pair again if and only if its row is not in the log |
| Redelivery.RepeatTheorem | src/OutboxNet.Processor/OutboxProcessingPipeline.cs:255-277 | For ids posted before its read: on every run a pass still delivering posts such an id again if and only if its row was not in the log at the read |
| Redelivery.SameDebtExactly | src/OutboxNet.Processor/OutboxProcessingPipeline.cs:416-439 | Two reads of a pair make two passes post one id if and only if the pair was open at the first and no row was stored for it before the second |
| DualDelivery.SameIdOwedTheorem | src/OutboxNet.Processor/OutboxProcessingPipeline.cs:255-277 | On every run, two passes that read one message and are still delivering owe a subscription one id if and only if the pair was open at the first read and untouched until the second |
| DualDelivery.DualDeliveryTheorem | src/OutboxNet.EntityFrameworkCore/Stores/EfCoreOutboxStore.cs:48-52 | On every run, any two passes over a message have posted one id to a subscription if and only if both posted to it and no row of the pair was stored between their reads |
| DualDelivery.PostsBoundTheorem | src/OutboxNet.Processor/OutboxProcessingPipeline.cs:407-441 | On every run the POSTs made for a (message, subscription) number at most the locks ever taken on the message |
| Redelivery.SingleDeliveryTheorem | src/OutboxNet.Processor/OutboxProcessingPipeline.cs:435-441 | If states are read only when nobody else is delivering the message and every POST of it has its row, no id is posted by two passes |
| Redelivery.TwoPassesTheorem | src/OutboxNet.EntityFrameworkCore/Stores/EfCoreOutboxStore.cs:48-52 | Under (H), two passes on one message belong to different instances and one has outlived its lease |
| Redelivery.LeasesSufficeAlone | src/OutboxNet.Core/Options/OutboxOptions.cs:8-14 | When no pass outlives its lease there is never more than one on a message |
| MessageTable.SamePartitionIsEquality | src/OutboxNet.EntityFrameworkCore/Stores/EfCoreOutboxStore.cs:67-69 | The three-valued partition comparison is true exactly when the three columns are equal, NULLs included |
| Partitions.LockingExact | src/OutboxNet.EntityFrameworkCore/Stores/EfCoreOutboxStore.cs:57-74 | Locking a set of free rows keeps one live lock per partition exactly when no locked row has a live rival or a rival locked with it |
| Partitions.ColdBatchExact | src/OutboxNet.EntityFrameworkCore/Stores/EfCoreOutboxStore.cs:78-94 | A given ordered batch keeps one live lock per partition if and only if no two of its rows are rivals: the clause leaves no other way |
| Partitions.OrderedBatchExact | src/OutboxNet.EntityFrameworkCore/Stores/EfCoreOutboxStore.cs:57-88 | Before the call: every batch the table allows keeps one live lock per partition if and only if, for any two rival candidates, they and the candidates older than the younger exceed the batch size |
| Partitions.OvertakingExact | src/OutboxNet.EntityFrameworkCore/Stores/EfCoreOutboxStore.cs:82-88 | A row is locked ahead of an older unfinished rival if and only if that rival's NextRetryAt lies ahead, it is skipped, or it is exactly at the end of its lease |
| Partitions.HotLockExact | src/OutboxNet.EntityFrameworkCore/Stores/EfCoreOutboxStore.cs:174-177 | A hot lock keeps it exactly when the row has no partition or the partition is not busy, which the hot path does not check |
| Partitions.OrderingClauseExact | src/OutboxNet.EntityFrameworkCore/Stores/EfCoreOutboxStore.cs:57-74 | The ordering clause holds a row back exactly while another row equal in all three columns is locked, and never a row whose three columns are NULL |
| Partitions.BatchOfTwoBreaksOrder | README.md:47 | A concrete run after which one enabled ordered batch of two live-locks two rows of one partition |
| Partitions.PartitionStep | src/OutboxNet.EntityFrameworkCore/Stores/EfCoreOutboxStore.cs:59-74 | Every step of an ordered, cold-only, batch-of-one run keeps one live lock per keyed partition |
| Partitions.OrderedColdTheorem | src/OutboxNet.EntityFrameworkCore/Stores/EfCoreOutboxStore.cs:59-74 | No state such runs reach has two live locks on rows equal in TenantId, UserId and EntityId, unless all three are NULL |
| Delivery.DecisionMeaning | src/OutboxNet.Processor/OutboxProcessingPipeline.cs:303-374 | Abandon, Deliver, Retry and DeadLetter each hold if and only if a condition on the subscriptions, the save and the snapshot does |
| Delivery.AllExhaustedExactly | src/OutboxNet.Processor/OutboxProcessingPipeline.cs:355-363 | When exhaustion dead-letters, some subscription is exhausted, and all are if and only if none of the list was delivered to, before the pass or in it |
| Delivery.TalliesCoverAll | src/OutboxNet.Processor/OutboxProcessingPipeline.cs:400-402 | The three counters sum to the number of subscriptions |
| Delivery.NewRows | src/OutboxNet.Processor/OutboxProcessingPipeline.cs:443-458 | One row per result, under the number after the one read, with that result and no other row |
| ParallelDelivery.InterleavingIndependence | src/OutboxNet.Processor/OutboxProcessingPipeline.cs:407-475 | For every schedule of the per-subscription actions that finishes, the counters and the multiset of attempts are the sequential fold's |
| ParallelDelivery.AttemptsAreFailuresPlusFresh | src/OutboxNet.Processor/OutboxProcessingPipeline.cs:457-466 | New attempts = failures + fresh successes; old successes add none |
| ParallelDelivery.RunAction | src/OutboxNet.Processor/OutboxProcessingPipeline.cs:414-467 | One action of the delegate moves the shared counters and list as the interleaving model does, and comes closer to done |
| ParallelDelivery.DeliverToSubscriptions | src/OutboxNet.Processor/OutboxProcessingPipeline.cs:392-475 | The loop, in any order, ends with the sequential fold's counters and attempts |
| MessageStore.OutboxStore.SelectTop | src/OutboxNet.SqlServer/Stores/DirectSqlOutboxStore.cs:101-112 | TOP (n) ORDER BY CreatedAt: min(n, eligible) rows, none left out strictly older than one taken |
| MessageStore.OutboxStore.LockNextBatch | src/OutboxNet.SqlServer/Stores/DirectSqlOutboxStore.cs:63-137 | Column by column: a row is taken only if every clause of the WHERE lets it through, and one they let through is left only by a full batch of rows at least as old; exactly the taken rows are locked, and returned as locked |
| MessageStore.CandidateInColumns | src/OutboxNet.EntityFrameworkCore/Stores/EfCoreOutboxStore.cs:78-89 | The three-valued WHERE clause comes to conditions on the columns: status, lease, NextRetryAt, tenant filter, skip set, ordering |
| MessageStore.OutboxStore.TryLockById | src/OutboxNet.EntityFrameworkCore/Stores/EfCoreOutboxStore.cs:162-191 | Locks and returns the row exactly when it is Pending, LockedUntil is NULL or past, and NextRetryAt is NULL or not ahead; otherwise changes nothing |
| MessageStore.OutboxStore.MarkAsProcessed | src/OutboxNet.EntityFrameworkCore/Stores/EfCoreOutboxStore.cs:193-204 | Delivered, unlocked and stamped exactly when LockedBy matches, and no other column or row changes; LockedUntil is not looked at |
| MessageStore.OutboxStore.IncrementRetry | src/OutboxNet.EntityFrameworkCore/Stores/EfCoreOutboxStore.cs:219-232 | Pending, unlocked, RetryCount + 1 and NextRetryAt the given date exactly when LockedBy matches, and no other column or row changes |
| MessageStore.OutboxStore.MarkAsDeadLettered | src/OutboxNet.EntityFrameworkCore/Stores/EfCoreOutboxStore.cs:234-244 | DeadLettered and unlocked exactly when LockedBy matches, and no other column or row changes |
| MessageStore.OutboxStore.ReleaseExpiredLocks | src/OutboxNet.EntityFrameworkCore/Stores/EfCoreOutboxStore.cs:256-273 | Exactly the Processing rows past their lease become Pending, with RetryCount unchanged |
| MessageStore.OutboxStore.PurgeProcessedMessages | src/OutboxNet.EntityFrameworkCore/Stores/EfCoreOutboxStore.cs:275-286 | Exactly the Delivered and DeadLettered rows with CreatedAt before the cut-off go, and their number is returned |
| RowHistory.BackoffTheorem | src/OutboxNet.EntityFrameworkCore/Stores/EfCoreOutboxStore.cs:84 | On every run, after a retry with a date has landed nothing happens to the row, and no lock of either kind can take it, before that date; it stays as written until it is locked, and the lock by id can take it from that date on |
| RowHistory.PublicationTheorem | src/OutboxNet.EntityFrameworkCore/EfCoreOutboxPublisher.cs:74-88 | A message, open, stored or purged, still has the event type and key of the one insert that made it, and that insert's time as CreatedAt |
| RowHistory.HotLockIsStatement | src/OutboxNet.EntityFrameworkCore/Stores/EfCoreOutboxStore.cs:162-189 | The protocol's lock by id does to the table what the store's statement does, and its pass knows the lease and RetryCount of the row it got |
| RowHistory.ColdLockIsStatement | src/OutboxNet.EntityFrameworkCore/Stores/EfCoreOutboxStore.cs:90-113 | So does the protocol's cold batch, for each pass it starts |
| RowHistory.OthersAreStatements | src/OutboxNet.EntityFrameworkCore/Stores/EfCoreOutboxStore.cs:256-286 | Release and purge do what the store's statements do, a commit adds the inserted row, and no other step but a write-back touches the table |
| AttemptStore.DeliveryAttemptStore.SaveAttempts | src/OutboxNet.SqlServer/Stores/DirectSqlDeliveryAttemptStore.cs:46-83 | All rows or none: stored exactly when no key is repeated or taken and the messages exist |
| AttemptStore.DeliveryAttemptStore.GetDeliveryStates | src/OutboxNet.EntityFrameworkCore/Stores/EfCoreDeliveryAttemptStore.cs:54-107 | Count and success per subscription of the list that has attempts, and no other entry |
| AttemptStore.AttemptsAreNewRows | src/OutboxNet.Processor/OutboxProcessingPipeline.cs:443-458 | Whatever order the parallel tasks recorded their attempts in, they are distinct and are the rows the protocol saves |
| Pipeline.BuildSubscriptionCache | src/OutboxNet.Processor/OutboxProcessingPipeline.cs:145-161 | One entry and one lookup per distinct (EventType, TenantId) of the batch and no other; every message is handed the list looked up for the first message equal to it in both columns, which is its own list when the reader goes by those columns |
| Pipeline.TrySaveAttempts | src/OutboxNet.Processor/OutboxProcessingPipeline.cs:505-525 | True exactly for an empty list or a reported success; the log gains all rows or none, also when a save is applied but reported failed |
| Pipeline.HandleMessageFailure | src/OutboxNet.Processor/OutboxProcessingPipeline.cs:527-573 | With retries left by the snapshot: Pending, RetryCount + 1 and NextRetryAt = now plus the delay the policy grants for that snapshot; else DeadLettered; owner-guarded, and nothing else changes |
| Pipeline.RetryDateWithin | src/OutboxNet.Processor/OutboxProcessingPipeline.cs:534-543 | The date written lies ahead of now by the delay without jitter, less or more at most its jitter's share, to the tick |
| Pipeline.ProcessSingleMessage | src/OutboxNet.Processor/OutboxProcessingPipeline.cs:235-381 | The log and table after a pass, for every list, fault, save result and result of each POST |
| PassRuns.PassIsRun | src/OutboxNet.Processor/OutboxProcessingPipeline.cs:235-381 | What the imperative pass does to log and table is what some run of the protocol's steps of that pass does |
| PassOutcome.NoConflict | src/OutboxNet.Processor/OutboxProcessingPipeline.cs:439-448 | In a well-shaped log the rows of a pass that reads and saves undisturbed never hit a taken key |
| PassOutcome.PassLogExact | src/OutboxNet.Processor/OutboxProcessingPipeline.cs:416-458 | Such a pass adds exactly one row for each listed subscription with no Success and retries left, numbered after the rows it has and with its receiver's answer |
| PassOutcome.PassVerdictExact | src/OutboxNet.Processor/OutboxProcessingPipeline.cs:292-374 | Its verdict, as a condition on the stored rows, the answers, the save and the snapshot alone |
| Drain.WorkingPass | src/OutboxNet.Processor/OutboxProcessingPipeline.cs:235-381 | With working stores and succeeding receivers a pass ends Delivered, or DeadLettered exactly when its list has an exhausted subscription |
| Drain.EveryDrainTheorem | src/OutboxNet.Processor/OutboxProcessingPipeline.cs:62-89 | From any reachable idle state with everything due, every run of cold batches, whatever eligible rows they pick and however their passes interleave, finishes exactly its messages rightly, and drains the table if and only if batches times BatchSize reaches the number of unfinished messages |
| Drain.DrainStep | src/OutboxNet.Processor/OutboxProcessingPipeline.cs:171-195 | Each step of such a run keeps every message waiting untouched, in hand on course, or finished rightly, and only a batch shrinks what waits, by min(BatchSize, waiting) |
| DrainBounds.DrainTheorem | src/OutboxNet.Processor/OutboxProcessingPipeline.cs:62-89 | Such a run of k batches exists for every k |
| DrainBounds.DrainsCompleteTheorem | src/OutboxNet.Processor/OutboxProcessingPipeline.cs:235-381 | Every such run, stopped anywhere, can be continued without another batch until all its passes have ended |
| DrainBounds.LocksBoundTheorem | src/OutboxNet.EntityFrameworkCore/Stores/EfCoreOutboxStore.cs:78-89 | Any run from an idle state, crashes and all, finishes no more messages than its locks could take |
| DrainBounds.TooFewBatchesTheorem | src/OutboxNet.EntityFrameworkCore/Stores/EfCoreOutboxStore.cs:80 | Without hot locks, k batches of at most b leave some message unfinished when k * b is less than their number, whatever interleaves |
| Throttle.ReleaseThrottle.CompareExchange | src/OutboxNet.Processor/OutboxProcessingPipeline.cs:56-57 | Swaps exactly when the field equals the comparand and returns the old value |
| Throttle.ReleaseThrottle.TryClaim | src/OutboxNet.Processor/OutboxProcessingPipeline.cs:54-60 | An uninterrupted caller wins exactly when the interval has passed |
| Throttle.UninterruptedCall | src/OutboxNet.Processor/OutboxProcessingPipeline.cs:54-60 | The caller's three steps in a row, among any other callers, do what TryClaim does |
| Throttle.WinnersAreSpaced | src/OutboxNet.Processor/OutboxProcessingPipeline.cs:22-25 | In every interleaving of callers, winners i < j are at least (j - i) intervals apart, whatever their clocks |
| Throttle.WindowHoldsFew | src/OutboxNet.Processor/OutboxProcessingPipeline.cs:22-25 | A window of length T holds at most floor(T / interval) + 1 winners |
| Throttle.LosesExactly | src/OutboxNet.Processor/OutboxProcessingPipeline.cs:56-57 | A caller at its swap loses exactly when it is early or another won since it read the field |
| Backoff.DelaysExact | src/OutboxNet.Delivery/ExponentialBackoffRetryPolicy.cs:18-30 | The delays that can be granted are exactly [d(1-j), d(1+j)), d being the delay the policy grants without jitter, or d alone when d or j is zero |
| Backoff.SteadyDoubles | src/OutboxNet.Delivery/ExponentialBackoffRetryPolicy.cs:23-24 | Without jitter the first delay is min(base, max), each later one min(twice the one before, max) |
| Backoff.MayExceedMaxDelay | docs/architecture.md:372 | Some draw waits longer than MaxDelay exactly when the delay without jitter times (1+j) does |
| Backoff.DefaultsStayBelow | src/OutboxNet.Core/Options/RetryPolicyOptions.cs:5-8 | No delay the default options grant exceeds MaxDelay |
| Backoff.SevenRetriesMayExceed | src/OutboxNet.Delivery/ExponentialBackoffRetryPolicy.cs:23-27 | With seven retries and the other defaults some draw does |
| Backoff.CappedDelayGrows | src/OutboxNet.Delivery/ExponentialBackoffRetryPolicy.cs:23-24 | The delay before jitter never shrinks with the retry count and stays capped once capped |
| Backoff.WaitBeforeDeadLetter | src/OutboxNet.Delivery/ExponentialBackoffRetryPolicy.cs:18-30 | All delays granted before dead-letter sum to at most (1+j) * min(base * (2^N - 1), N * max) |
| Backoff.WaitAtLeast | src/OutboxNet.Delivery/ExponentialBackoffRetryPolicy.cs:18-30 | The first n of them sum to at least (1-j) * min(base * (2^n - 1), max) |
| Signals.ChannelOutboxSignal.Notify | src/OutboxNet.Core/Signals/ChannelOutboxSignal.cs:15-23 | Appends the hint, dropping the oldest when 10 000 wait |
| Signals.ChannelOutboxSignal.TryRead | src/OutboxNet.Core/Signals/ChannelOutboxSignal.cs:25 | Takes the oldest hint, if any |
| Signals.DroppedExactly | src/OutboxNet.Core/Signals/ChannelOutboxSignal.cs:7-11 | A hint not read is lost exactly when 10 000 newer ones followed it; otherwise it waits in its place |
| DeliveryIds.WriteInput | src/OutboxNet.Processor/OutboxProcessingPipeline.cs:485-489 | The buffer holds the message id, the subscription id and the attempt number, least significant byte first |
| DeliveryIds.InputRoundTrip | src/OutboxNet.Processor/OutboxProcessingPipeline.cs:485-489 | The triple can be read back from the 36 bytes, so distinct triples hash distinct inputs |
| DeliveryIds.StampInPlace | src/OutboxNet.Processor/OutboxProcessingPipeline.cs:494-498 | The first sixteen bytes are kept but for the high bits of bytes 6 and 8, which become version 5 and the RFC 4122 variant |
| DeliveryIds.StampKeeps | src/OutboxNet.Processor/OutboxProcessingPipeline.cs:494-498 | Two digests give one id exactly when they agree on the 122 bits kept |
| DeliveryIds.IdsDistinctExactly | src/OutboxNet.Processor/OutboxProcessingPipeline.cs:479-499 | Ids of the triples in use are distinct exactly when the hash keeps their inputs apart on those bits |

## Left out

- HTTP, HMAC signing, JSON, dependency injection, metrics, logging and EF migrations; a POST is an arbitrary accepted/reported outcome, where a reported success was accepted.
- Queue-mediated mode, the Azure queue publisher and Functions glue, tenant secrets, subscription CRUD and routing rules; a list of subscriptions is an arbitrary list of distinct ids.
- SQL Server lock hints, READPAST skipping and isolation: each statement is atomic, and a by-id lock on an uncommitted row is simply not yet possible.
- Clocks of different machines: EfCoreOutboxStore.cs:199 and 265 use the process clock where the SQL uses the server's; the model has one clock.
- PurgeOldAttemptsAsync: deleting attempt rows of live messages changes COUNT-based numbering and would invalidate the log theorems.
- MarkAsFailedAsync, IsLockHeldAsync, SaveMessageAsync and SaveAttemptAsync: the pipeline does not call them.
- Payload, headers, LastError, ResponseBody and similar columns; no decision reads them.
- The 32-bit width of RetryCount, AttemptNumber and the counters, which the retry limits keep far from overflow; instants and ticks are unbounded integers.
- An exception thrown after a write-back was applied is the write-back followed by nothing, and one thrown before it is a crash; both leave the lock to expire, as the catch clause at OutboxProcessingPipeline.cs:376-380 does.
- Hints and the in-flight set are not part of the protocol state but of `Processor`, which assumes that a message is hinted once, as PublishAsync does: a hot lock may be tried on any id at any time and a cold batch may skip any set, which covers every hint dropped, delayed or repeated.
- The Pending and other unused values of the attempt status: the pipeline stores only Success and Failed.
- Floating-point rounding in the back-off policy, and the random source: delays are reals, cut to whole ticks when they become a date, and a draw is any number in [0, 1).
- SHA-256 itself: an arbitrary function to 32 bytes; whether the Guid constructor's byte order yields a version-5 layout is not claimed.
- Pipeline.ProcessSingleMessage: a pass run to its end without interruption; interruptions, interleavings and expired leases are in the protocol, of which `PassRuns.PassIsRun` makes it a case.
- Drain.EveryDrainTheorem: between the batches of a draining run only its own passes work and time passes, with no tenant filter, working stores and succeeding receivers, which is the situation in which draining is promised; DrainBounds.TooFewBatchesTheorem allows everything but hot locks.
