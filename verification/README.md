# Coordination engines of the metric server, in Dafny

This project models the bounded, stateful engines of `crates/application` and proves what they keep over
whole runs: interleavings of threads, evictions, pages that shrink while they are read, failing storage calls,
crashes and restarts.

| file | engine |
|---|---|
| `Dispatcher.dfy` | offering threads, the dispatcher loop with its durable refill, handlers, shutdown; a step machine |
| `DispatcherDrain.dfy` | the shutdown drain of the dispatcher |
| `BacklogGuard.dfy` | the backlog guard with hysteresis |
| `RetentionPolicy.dfy`, `ArtifactRetention.dfy` | which artifact bindings are stale, and the paged pass that removes them |
| `LoginLimiter.dfy` | the login rate limiter |
| `DebugFileLocks.dfy` | weak per-file locks, debug file assembly and deletion |
| `MetricBatches.dfy`, `MetricWriter.dfy` | metric delta batches and the micro-batching writer |
| `ArchiveStorage.dfy`, `Archive.dfy` | the durable state of the cold archive, and its worker |
| `WorkRegistry.dfy` | the fence-and-drain protocol of project deletion |
| `ChannelWriter.dfy` | the chunking writer of capsule downloads |
| `Summary.dfy` | `normalize_summary` |
| `ExploreCost.dfy` | admission and cost of Explore queries |
| `Common.dfy` | what several of them share |

How the outside world enters. Where threads interleave freely (dispatcher, lock registry, work registry) the
model is a machine whose steps are the points between which another thread can run, and the theorems are about
every legal sequence of steps. Where one worker drives storage (retention, metric writer, archive, capsule
writer) it is a class whose calls consume an arbitrary script: what others do before the call, and how the call
ends. The theorems hold for every script. The archive is both: its worker is a class, and what it and the writers
of records do to the storage is proved to be a legal run of a machine about which the theorems are. Clocks, timers, query answers, the Parquet encoder and the digest are
parameters or part of the script.

## Where the code is not what one might expect

Each of these is a lemma of the project, with the exact condition where there is one.

- A login window below one millisecond and a limit of `u32::MAX` are accepted by `LoginRateLimiter::new`, and
  exactly these configurations never deny (`DenialIsPossibleExactly`).
- Refill never queues work that was completed, but a fresh offer may (`FreshOfferMayQueueFinishedWork`): what an offer
  queues is completed if and only if it was completed when the offer took its key and did not become due since
  (`QueuedFinishedExactlyIfInserted`), so an event still due at that moment is queued unfinished.
- The key of a task that ended in a join error is never released before a restart (`LostStaysLost`).
- A drain that saw no active work can rely on quiet until the next unfence if and only if the project is fenced at
  the moment of the look (`QuietExactlyIfFenced`); an unfence between the fence and the look opens it
  (`UnfenceBeforeTheLookReopens`).
- A debug file deletion whose blob removal, or an assembly whose publication, is given up while it may still take
  effect releases the lock too early and can leave metadata without a blob. Exactly these two do harm
  (`SafeExactlyIfSettled`). It happens when the request is dropped, which running them to the end apart from the
  request avoids, and when a call fails and lands later, which it does not avoid.
- The archive reads records, then claims them, and later gives whatever is under their ids an expiry. A session update
  or metric increment after the reading, even before there is a manifest, a metric increment after the marking, or
  another event under an expired id before the commit is lost (`LosingRun`). The exact condition for a change to be
  harmless is `Quiet` (`SafeExactlyIfQuiet`); a writer cannot check all of it, since what the worker has read before
  its claim is nowhere recorded.
- `normalize_summary` is idempotent except for limits of 1 to 10 bytes, which cut its own fallback text
  (`IdempotentExactlyWhen`).
- The saturating arithmetic of the Explore cost never saturates for a valid query (`NeverSaturates`), so its
  cost check is exact for every configured maximum.
- The age part of the backlog guard falls back to a fifth of the maximum, not four fifths, when four times the
  maximum overflows a duration; crossing and recovery stay disjoint (`CrossingExcludesRecovery`).

## Model

| member | source | states |
|---|---|---|
| `Dispatcher.StepIsSound` | crates/application/src/dispatcher.rs:224-446 | every step of every thread keeps: the scheduled keys are the disjoint union of queued, running, held and lost keys, queue and workers are within their bounds, and a refill under way is fresh |
| `Dispatcher.OfferSchedules` | crates/application/src/dispatcher.rs:224-258 | an offer's insert, send and release move its key between the four places and never into two, also when it bounces off a full or closed queue |
| `Dispatcher.OfferKeepsFresh` | crates/application/src/dispatcher.rs:224-258 | concurrent offers, successful or not, cannot make a refill under way queue completed work |
| `Dispatcher.SpawnSchedules` | crates/application/src/dispatcher.rs:334-340 | a received key moves from the queue to the workers |
| `Dispatcher.JoinSchedules` | crates/application/src/dispatcher.rs:377-395 | a joined key is released; after a join error it stays scheduled as lost |
| `Dispatcher.JoinReleases` | crates/application/src/dispatcher.rs:377-395 | a task that returned releases its key, completed or not; one that failed keeps it; nothing else changes |
| `Dispatcher.TaskKeepsFresh` | crates/application/src/dispatcher.rs:362-395 | a handler that completes during a refill completes nothing that the refill is about to queue |
| `Dispatcher.LoopKeepsFresh` | crates/application/src/dispatcher.rs:397-446 | measuring, the snapshot of excluded keys, loading and offering keep the refill fresh |
| `Dispatcher.LoopSchedules` | crates/application/src/dispatcher.rs:357-446 | refill and shutdown steps keep the partition; aborted tasks become lost |
| `Dispatcher.TaskIsBounded` | crates/application/src/dispatcher.rs:330-340 | never more running tasks than the worker concurrency |
| `Dispatcher.RunIsSound` | crates/application/src/dispatcher.rs:310-360 | the invariant holds after every legal sequence of steps |
| `Dispatcher.ReachableIsSound` | crates/application/src/dispatcher.rs:168-201 | and so in every state reachable from a start with any backlog |
| `Dispatcher.ScheduledKeysAreBounded` | crates/application/src/dispatcher.rs:224-395 | in every reachable state no key is queued or run twice, and the key set is exactly as large as queue, running tasks, holding offers and lost keys together, hence at most capacity + concurrency + offers + lost |
| `Dispatcher.RefillNeverQueuesFinishedWork` | crates/application/src/dispatcher.rs:341-446 | in every reachable state what refill sends, and what it has queued, was not completed by a handler of this dispatcher |
| `Dispatcher.OffersFollow` | crates/application/src/dispatcher.rs:440-443 | whatever other threads do, the loop offers what it loaded, each key once and in order, and stops early only if the dispatcher stops accepting |
| `Dispatcher.RefillOffersEverything` | crates/application/src/dispatcher.rs:440-445 | from the load to the end of the refill every loaded key is offered, in the loaded order |
| `Dispatcher.OwnRunKeepsOutcome` | crates/application/src/dispatcher.rs:224-258 | while only the loop acts each of its steps leads to the same queue and key set |
| `Dispatcher.SettleIs` | crates/application/src/dispatcher.rs:234-256 | offering keys one after the other queues, in order, as many of those not scheduled as there is room for |
| `Dispatcher.UndisturbedRefillQueues` | crates/application/src/dispatcher.rs:397-446 | an undisturbed refill leaves the old queue and, in order, as many of the loaded keys not yet scheduled as fit; the rest are refused and released |
| `Dispatcher.UndisturbedRefillQueuesAll` | crates/application/src/dispatcher.rs:397-446 | where nothing was scheduled since the snapshot and there is room, all that was loaded is queued |
| `Dispatcher.WantedFits` | crates/application/src/dispatcher.rs:404-411 | refill asks for no more than the target leaves room for, and for no less unless the batch is smaller |
| `Dispatcher.QueueIsFifo` | crates/application/src/dispatcher.rs:334-340 | over every run events start in exactly the order in which they were queued |
| `Dispatcher.ClosedQueueOnlyDrains` | crates/application/src/dispatcher.rs:357-359 | once the queue is closed what starts and what is left is what was queued then |
| `Dispatcher.ClosingCloses` | crates/application/src/dispatcher.rs:357-359 | the shutdown sequence closes it |
| `Dispatcher.StoppedAcceptsNothing` | crates/application/src/dispatcher.rs:203-206 | once the dispatcher stopped accepting no offer begins any more |
| `Dispatcher.LostStaysLost` | crates/application/src/dispatcher.rs:388-393 | the key of a failed task stays scheduled and is never queued or run again |
| `Dispatcher.FreshOfferMayQueueFinishedWork` | crates/application/src/dispatcher.rs:266-271 | a reachable state, for every usable configuration, where a fresh offer has queued a completed event |
| `Dispatcher.StepKeepsFinished` | crates/application/src/dispatcher.rs:224-395 | no step completes an event whose key is held by an offer or queued; only its becoming due changes its status |
| `Dispatcher.QueuedFinishedExactlyIfInserted` | crates/application/src/dispatcher.rs:234-245 | along every run in which a key stays held or queued its event is completed if and only if it was at the start and did not become due since |
| `Dispatcher.DueAtInsertIsQueuedUnfinished` | crates/application/src/dispatcher.rs:234-245 | an event still due when its offer takes the key is queued, and leaves the queue, unfinished |
| `DispatcherDrain.Drain.Fill` | crates/application/src/dispatcher.rs:483-490 | starts from the head of the queue until the workers are busy or the queue is empty, each event once |
| `DispatcherDrain.Drain.Join` | crates/application/src/dispatcher.rs:495-496 | one task ends; only a durable completion leaves the backlog, only a return releases the key |
| `DispatcherDrain.Drain.Abort` | crates/application/src/dispatcher.rs:497-504 | at the deadline no key is released, and of the running events exactly those that a handler had completed have left the backlog |
| `DispatcherDrain.Drain.Run` | crates/application/src/dispatcher.rs:474-507 | terminates; events start in queue order; every event queued or running at close is in exactly one of queued, aborted, joined, once; before the deadline all are joined; concurrency is never exceeded; the backlog is what it was less exactly the events that the ticks say a handler completed, all of them joined or aborted; what was not joined stays scheduled |
| `DispatcherDrain.SpawnKeepsPlaces` | crates/application/src/dispatcher.rs:483-486 | starting an event moves it from one place to another |
| `DispatcherDrain.JoinKeepsPlaces` | crates/application/src/dispatcher.rs:495-496 | joining does too |
| `DispatcherDrain.JoinAccounts` | crates/application/src/dispatcher.rs:377-395 | a join takes its event from the backlog exactly if it was completed, and releases at most its own key |
| `DispatcherDrain.AbortAccounts` | crates/application/src/dispatcher.rs:497-504 | the same accounts with the aborted events |
| `DispatcherDrain.CompletedMore` | crates/application/src/dispatcher.rs:495-496 | a join adds its event to the completed ones exactly if its tick says so |
| `DispatcherDrain.Shutdown` | crates/application/src/dispatcher.rs:474-507 | a client of the drain: an event has left the backlog only if the tick of its join or the deadline says that its handler completed it; what is still queued is in the backlog; without any completion the backlog is unchanged |
| `DispatcherDrain.ClosedDispatcherIsReady` | crates/application/src/dispatcher.rs:357-359 | where the dispatcher closes its queue every queued or running event is in exactly one place, as the drain needs it |
| `BacklogGuard.Guard.Observe` | crates/application/src/dispatcher.rs:97-137 | after any sequence of observations critical exactly if one crossed a limit and none since recovered |
| `BacklogGuard.CrossingExcludesRecovery` | crates/application/src/dispatcher.rs:115-127 | crossing and recovery exclude each other, under floor division and saturation, if and only if the limits are positive |
| `BacklogGuard.CriticalExactlySinceACrossing` | crates/application/src/dispatcher.rs:115-136 | the hysteresis as a statement about the whole history |
| `BacklogGuard.CappedCountDecidesTheSame` | crates/application/src/dispatcher.rs:454-470 | counting no further than the limit decides the same |
| `BacklogGuard.AgeIsCrossedInTime` | crates/application/src/dispatcher.rs:102-119 | an age limit is crossed exactly if the oldest pending event was received that long ago |
| `BacklogGuard.RecoveryIsFourFifths` | crates/application/src/dispatcher.rs:121-123 | the count recovers at four fifths of the maximum, up to saturation |
| `BacklogGuard.AgeRecoveryIsFourFifths` | crates/application/src/dispatcher.rs:124-127 | the age recovers at four fifths, or at one fifth where four times the maximum is no duration |
| `RetentionPolicy.StaleIsMonotone` | crates/application/src/artifact_retention.rs:193-216 | losing bindings never turns a kept binding stale |
| `RetentionPolicy.SweepConverges` | crates/application/src/artifact_retention.rs:187-288 | after the one-shot sweep nothing of the project is stale, and sweeping again changes nothing |
| `RetentionPolicy.OtherProjectsKeepTheirRanks` | crates/application/src/artifact_retention.rs:159-171 | sweeping some projects does not change what is stale for another |
| `RetentionPolicy.SweepOneMore` | crates/application/src/artifact_retention.rs:159-171 | visiting projects one by one is sweeping them at once, so their order does not matter |
| `RetentionPolicy.SweepOfAllConverges` | crates/application/src/artifact_retention.rs:146-185 | a second pass at the same cutoff finds nothing |
| `RetentionPolicy.SweepingAgainChangesNothing` | crates/application/src/artifact_retention.rs:146-185 | sweeping the projects still bound after a sweep counts nothing and changes nothing |
| `RetentionPolicy.StaleCountsAdd` | crates/application/src/artifact_retention.rs:257-261 | the stale counts of the projects add up |
| `ArtifactRetention.SelectPage` | crates/application/src/artifact_retention.rs:760-791 | the listing contract: the newest `limit` bundles bound to the project below the position, in descending order |
| `ArtifactRetention.ArtifactStore.ProjectBundles` | crates/application/src/artifact_retention.rs:760-791 | a page of the store as it is after others published |
| `ArtifactRetention.ArtifactStore.BoundProjects` | crates/application/src/artifact_retention.rs:738-758 | each bound project once |
| `ArtifactRetention.ArtifactStore.RemoveBinding` | crates/application/src/artifact_retention.rs:793-821 | removes exactly the binding, only while the upload time is the expected one |
| `ArtifactRetention.Retention.LoadRelease` | crates/application/src/artifact_retention.rs:290-313 | the cached or loaded release, absent when the store does not know it |
| `ArtifactRetention.Retention.StaleOf` | crates/application/src/artifact_retention.rs:228-256 | the project's bindings that no active release keeps |
| `ArtifactRetention.Retention.RemoveAll` | crates/application/src/artifact_retention.rs:265-286 | whatever others publish meanwhile, each removed binding is stale in the store at that moment, and the count is that of the removals, also when a call fails; undisturbed, exactly the stale ones go |
| `ArtifactRetention.Retention.RetainBundle` | crates/application/src/artifact_retention.rs:220-288 | the same for a bundle with its counts; only Enforce removes |
| `ArtifactRetention.Retention.RetainPage` | crates/application/src/artifact_retention.rs:201-210 | the same for a page |
| `ArtifactRetention.Retention.RetainProject` | crates/application/src/artifact_retention.rs:187-218 | terminates for every page size from 1 and every script, lists no bundle twice, removes only bindings that are stale at that moment and loses no other; ends with the error of the first call that failed and makes no call after it; undisturbed it equals the one-shot sweep in store and counts |
| `ArtifactRetention.Retention.RunOnce` | crates/application/src/artifact_retention.rs:146-185 | the same for all projects; for every script the pass fails exactly if listing the projects failed or some call failed with an error other than not found, with that error and no call after it; if it succeeds every listed project was visited; the reported removals are the removals; a report's stale count is what Enforce removes; Off changes nothing |
| `ArtifactRetention.FatalStep` | crates/application/src/artifact_retention.rs:162-170 | a project that is not there any more is passed over, any other error ends the pass |
| `ArtifactRetention.PassTwice` | crates/application/src/artifact_retention.rs:146-185 | two Enforce passes in a row with nobody else at work: the first leaves the one-shot sweep, the second removes nothing and changes nothing |
| `ArtifactRetention.RankedPage` | crates/application/src/artifact_retention.rs:193-216 | a bundle already listed is never listed again, however others republish |
| `ArtifactRetention.KeepersGuard` | crates/application/src/artifact_retention.rs:205-208 | the first `keep_latest` listed bundles are still bound and newer than any later one |
| `ArtifactRetention.GuardedIsStale` | crates/application/src/artifact_retention.rs:270-280 | the upload time condition of the removal makes the listed bundle stale now, not only when it was listed |
| `ArtifactRetention.CoveredPage` | crates/application/src/artifact_retention.rs:211-214 | the next page continues the original listing although handled bundles lost their bindings |
| `ArtifactRetention.RankIsCount` | crates/application/src/artifact_retention.rs:202-205 | the running rank is the number of newer bundles |
| `LoginLimiter.GenerationsAreUnique` | crates/application/src/auth.rs:1737-1738 | queued generations stay distinct across wrap-around |
| `LoginLimiter.QueuedExactlyOnce` | crates/application/src/auth.rs:1728-1769 | each live entry's pair is in the queue exactly once |
| `LoginLimiter.EntriesAreQueued` | crates/application/src/auth.rs:1751-1756 | there are never more entries than queued pairs, which is why the eviction loops end |
| `LoginLimiter.IncrementIsValid` | crates/application/src/auth.rs:1728-1758 | after an increment entries are within capacity and the queue within twice that, the invariant holds, and the key just counted is not evicted |
| `LoginLimiter.IncrementKeepsRecent` | crates/application/src/auth.rs:1751-1769 | a live key moves one place from the back and survives while within capacity of it |
| `LoginLimiter.RunIsValid` | crates/application/src/auth.rs:1679-1692 | the invariant after every sequence of attempts and resets |
| `LoginLimiter.RecentlyAttemptedIsLive` | crates/application/src/auth.rs:1751-1769 | eviction is a true FIFO: a key attempted within the last `capacity` attempts and not reset is still counted |
| `LoginLimiter.LiveEntriesAreOpened` | crates/application/src/auth.rs:1736-1749 | a live window was opened by an attempt of its key and counts only attempts since |
| `LoginLimiter.DeniedOnlyAfterTooMany` | crates/application/src/auth.rs:1679-1684 | a denial means more than `max_attempts` attempts of the key within the window that ends now |
| `LoginLimiter.SubMillisecondWindowNeverDenies` | crates/application/src/auth.rs:1668-1671 | a window below a millisecond never denies |
| `LoginLimiter.CappedGrowth` | crates/application/src/auth.rs:1747-1749 | within a window the counter, cut at the limit, grows exactly when an attempt is allowed |
| `LoginLimiter.HighestLimitNeverDenies` | crates/application/src/auth.rs:1747-1749 | with the limit `u32::MAX` every state allows every attempt |
| `LoginLimiter.CheckCounts` | crates/application/src/auth.rs:1679-1684 | one check counts its account once, and its network does not push the account out |
| `LoginLimiter.BurstCounts` | crates/application/src/auth.rs:1679-1684 | a burst of checks of one account and one network is counted one by one, without overflow |
| `LoginLimiter.DenialIsPossibleExactly` | crates/application/src/auth.rs:1668-1684 | for every configuration that is accepted: after some sequence of checks and successes, with a clock that does not go back, a check is denied if and only if the window is at least a millisecond and the limit is below `u32::MAX` |
| `LoginLimiter.CounterGrows` | crates/application/src/auth.rs:1728-1758 | within a window the number of allowed attempts is the growth of the counter cut at the limit |
| `LoginLimiter.OneWindowAllowsExactly` | crates/application/src/auth.rs:1728-1758 | for every configuration: while a key is neither evicted nor reset, exactly the first `max_attempts` attempts of its window are allowed, never more; a configuration that cannot deny allows all |
| `LoginLimiter.FollowsIdeal` | crates/application/src/auth.rs:1728-1758 | a key that is never evicted has exactly the window and count of the textbook fixed-window limiter |
| `LoginLimiter.AllowsIdeally` | crates/application/src/auth.rs:1747-1749 | and is allowed exactly when that limiter allows it |
| `LoginLimiter.WindowCounts` | crates/application/src/auth.rs:1736-1748 | the attempts less than a window after the one that began it are counted in it |
| `LoginLimiter.WindowAllowsTheFirst` | crates/application/src/auth.rs:1735-1749 | in times alone: of the attempts less than a window after the one that began it exactly the first `max_attempts` are allowed, and the first one a whole window later is allowed again |
| `LoginLimiter.BeginningIsAllowed` | crates/application/src/auth.rs:1743-1749 | the attempt that begins a window is allowed |
| `LoginLimiter.RateState.EvictOldest` | crates/application/src/auth.rs:1760-1769 | drops the head of the queue, and its entry only if the generation is current |
| `LoginLimiter.RateState.Count` | crates/application/src/auth.rs:1734-1750 | counts the attempt in its window, with saturation and the next generation |
| `LoginLimiter.RateState.Bump` | crates/application/src/auth.rs:1728-1758 | the loops terminate and compute the increment of the specification |
| `LoginLimiter.LoginRateLimiter.Check` | crates/application/src/auth.rs:1679-1684 | counts both keys whatever the first says, allows if both are, and both stay counted |
| `LoginLimiter.LoginRateLimiter.Succeed` | crates/application/src/auth.rs:1686-1692 | forgets the account and keeps the invariant |
| `DebugFileLocks.LockRegistry.Acquire` | crates/application/src/debug_files.rs:518-527 | forgets dead entries, then returns the live lock of the file or registers a new one |
| `DebugFileLocks.LockForIsSound` | crates/application/src/debug_files.rs:518-527 | taking a lock keeps: one live lock per file id, and the registry points to it |
| `DebugFileLocks.RegistryHoldsOnlyLive` | crates/application/src/debug_files.rs:518-527 | each call forgets the locks nobody has and keeps all others |
| `DebugFileLocks.HoldersAreOne` | crates/application/src/debug_files.rs:300-301 | two tasks that hold the lock of one file id are the same task |
| `DebugFileLocks.StorageIsSound` | crates/application/src/debug_files.rs:302-314 | no step of an assembly or deletion that abandons no publication or removal under way leaves metadata without its blob, nor does an abandoned commit or unlisting that lands late |
| `DebugFileLocks.UnknownFileIsNotTouched` | crates/application/src/debug_files.rs:302-309 | a deletion of a file that is not published leaves its blob alone |
| `DebugFileLocks.LocksAreSound` | crates/application/src/debug_files.rs:443-448 | no other step, abandoned or not, breaks the lock invariant |
| `DebugFileLocks.RunIsSound` | crates/application/src/debug_files.rs:443-463 | the invariant after every interleaving that runs publications and removals to their end |
| `DebugFileLocks.PublishedHasItsBlob` | crates/application/src/debug_files.rs:443-463 | across every such interleaving, with failures, cancellations and late effects elsewhere: published metadata has its blob, and users of a file id share the registered lock |
| `DebugFileLocks.AbandonedCallLoses` | crates/application/src/debug_files.rs:308-313 | in every such state, a removal or publication dropped under way can land after the file was assembled again, or assembled and deleted, and leave metadata without its blob |
| `DebugFileLocks.SafeExactlyIfSettled` | crates/application/src/debug_files.rs:300-314 | a step keeps metadata and blobs together in all later runs if and only if it abandons no publication or removal under way |
| `DebugFileLocks.AbandonedRun` | crates/application/src/debug_files.rs:443-463 | both losses happen from the empty store |
| `MetricBatches.MergeInto` | crates/domain/src/metrics.rs:245-256 | pushing the newer batch's deltas one by one is the merge per key |
| `MetricBatches.MergeSize` | crates/domain/src/metrics.rs:227-256 | a merge has at most as many deltas as both parts |
| `MetricBatches.MergeIsAssociative` | crates/domain/src/metrics.rs:119-256 | merging batches is associative, with saturating counts, last values and traces |
| `MetricBatches.MergeAllSplits` | crates/domain/src/metrics.rs:245-256 | merging parts first gives the merge of all |
| `MetricBatches.StandsForMore` | crates/domain/src/metrics.rs:119-186 | merging one more delta adds to the sum and the clipped count, keeps extremes that are attained, takes the newer last value, time and trace, and adds the bins |
| `MetricBatches.MergeAllTotals` | crates/domain/src/metrics.rs:119-256 | the merge of any batches, key by key and without the merge: the sum, the clipped count, the least and greatest values, each attained, the last value, time and trace, the bins added up, and the measurement counts |
| `MetricWriter.Writer.Submit` | crates/application/src/metric_writer.rs:93-110 | the exact outcome of a submission: empty, too large, refused, full or queued; the ledger stays in order |
| `MetricWriter.Writer.Flush` | crates/application/src/metric_writer.rs:212-224 | one store call for the commands, and its answer to each of their callers |
| `MetricWriter.Writer.Collect` | crates/application/src/metric_writer.rs:151-175 | the batch is the merge of the commands taken and within the limit; it ends only at shutdown, at the deadline or with a command that did not fit; it takes what is queued at every wait |
| `MetricWriter.Writer.Batches` | crates/application/src/metric_writer.rs:128-186 | the outer loop ends with nothing held; no more than three waits in a row pass over a queue that is not empty |
| `MetricWriter.Writer.StoreAlone` | crates/application/src/metric_writer.rs:195-208 | a store call of its own for a command left at shutdown, unless the deadline has passed |
| `MetricWriter.Writer.Drain` | crates/application/src/metric_writer.rs:188-210 | terminates although callers go on submitting; each command left gets a store call of its own, in order, and only a passed deadline leaves any without |
| `MetricWriter.Writer.RejectRemaining` | crates/application/src/metric_writer.rs:226-230 | every refused command gets its answer |
| `MetricWriter.Writer.Run` | crates/application/src/metric_writer.rs:128-186 | for every script the writer ends with nobody waiting, and what shutdown found queued was stored call by call unless the deadline passed |
| `MetricWriter.AnswerNewIsValid` | crates/application/src/metric_writer.rs:94-105 | an immediate answer keeps the ledger in order |
| `MetricWriter.EnqueueIsValid` | crates/application/src/metric_writer.rs:102-108 | so does queueing |
| `MetricWriter.FlushIsValid` | crates/application/src/metric_writer.rs:212-224 | so does a store call with the oldest waiting commands |
| `MetricWriter.RejectIsValid` | crates/application/src/metric_writer.rs:226-230 | so does refusing the oldest |
| `MetricWriter.EveryCallerIsAnsweredOnce` | crates/application/src/metric_writer.rs:93-110 | once nobody waits, every caller has one answer, each batch was in at most one store call, and success means nothing to store or a successful call with the caller's own batch, and the other way round |
| `MetricWriter.OrderedCommandsAreTheAccepted` | crates/application/src/metric_writer.rs:135-186 | commands in submission order whose callers are the accepted ones carry exactly the accepted batches |
| `MetricWriter.StoreReceivesExactlyTheAccepted` | crates/application/src/metric_writer.rs:135-224 | the successful store calls together wrote the merge of the batches of exactly the callers told so |
| `MetricWriter.StoreTotals` | crates/application/src/metric_writer.rs:135-224 | in numbers: under each key the store has the sum, count, extremes, last values and bins of what the accepted callers measured, and each store call those of its callers |
| `MetricWriter.Serve` | crates/application/src/metric_writer.rs:62-186 | all of this for a whole life of the writer under any script, for exactly the batches the script submitted until shutdown |
| `ArchiveStorage.ArchivedIsTheEncoding` | crates/application/src/archive.rs:261-265 | with a digest that does not collide the object is the encoding |
| `ArchiveStorage.ArchivedStays` | crates/blob/src/lib.rs:333-360 | what is archived stays archived while objects of complete manifests are neither replaced nor deleted |
| `ArchiveStorage.WritersKeepReserved` | crates/mongo/src/sessions.rs:115-130 | arrivals, rewrites in place and expiries leave what an open manifest lists in place and give it no expiry |
| `ArchiveStorage.ClaimKeepsReserved` | crates/mongo/src/archive.rs:314-348 | a manifest inserted for records that were read before leaves one open manifest per kind, with its records unmarked |
| `ArchiveStorage.MarkKeepsReserved` | crates/mongo/src/archive.rs:566-592 | marking one segment never touches what another open manifest lists |
| `ArchiveStorage.FlightStays` | crates/mongo/src/archive.rs:239-311 | while the worker collects a segment, before or after its claim, what it has read stays in hot storage without expiry |
| `ArchiveStorage.StepKeepsStructure` | crates/mongo/src/archive.rs:57-605 | every step, whatever is rewritten, keeps: complete manifests have an object of the size and checksum of what they were encoded from, one manifest per kind is open, what it lists is there |
| `ArchiveStorage.ArriveIsSound` | crates/mongo/src/event.rs:187-197 | a record that arrives, also with other content under a known id, keeps the promise if the arrival is quiet |
| `ArchiveStorage.RewriteIsSound` | crates/mongo/src/metrics.rs:122-171 | a record rewritten in place, with or without its mark, keeps the promise if the rewrite is quiet |
| `ArchiveStorage.ExpireIsSound` | crates/mongo/src/event.rs:874-879 | dropping a record with an expiry loses nothing |
| `ArchiveStorage.ReadIsSound` | crates/mongo/src/archive.rs:239-258 | reading one more record, before the claim of a new manifest or for one being resumed, keeps the promise |
| `ArchiveStorage.FinishHolds` | crates/mongo/src/archive.rs:487-529 | completion adds exactly the records that were read to what is held |
| `ArchiveStorage.FinishIsSound` | crates/application/src/archive.rs:257-275 | completion after the integrity check keeps the promise |
| `ArchiveStorage.MarkIsSound` | crates/mongo/src/archive.rs:578-592 | marking any part of the sources of a complete open manifest gives an expiry only to records that are held |
| `ArchiveStorage.OtherIsSound` | crates/application/src/archive.rs:187-231 | beginning, claiming, storing, giving up, committing and cleaning up keep the promise |
| `ArchiveStorage.StepIsSound` | crates/application/src/archive.rs:135-231 | every step of the worker and every quiet change keeps the promise |
| `ArchiveStorage.QuietRunsAreSafe` | crates/application/src/archive.rs:135-231 | in every state of every quiet run what was accepted last under each id is in hot storage without expiry or held by a referenced object |
| `ArchiveStorage.ReadRest` | crates/mongo/src/archive.rs:239-258 | whatever records a flight has not read yet, some quiet run lets it read any that it could be published with |
| `ArchiveStorage.LoudLoses` | crates/mongo/src/archive.rs:578-592 | after a change that is not quiet the worker, going on as usual, reaches a state in which the new record is neither in hot storage without expiry nor held |
| `ArchiveStorage.SafeExactlyIfQuiet` | crates/application/src/archive.rs:155-169 | a change keeps all later quiet runs safe if and only if it is quiet: some object holds the new record already, or it inherits no expiry, no complete open manifest lists the id, and the worker has not read the id for a segment that can still be published with the old record |
| `ArchiveStorage.UnlistedIsQuiet` | crates/mongo/src/archive.rs:62-77 | a change is quiet if no open manifest lists the id, the worker has not read it for the segment it is collecting, and no expiry is inherited |
| `ArchiveStorage.LosingRun` | crates/mongo/src/archive.rs:239-311 | for every record and every other one, from the empty store: a session updated after its record was read, while there is no manifest at all, while its segment is being written, or when it is complete; a metric bucket incremented after its marking; an event that arrives with other content after its expiry and before the commit of its segment; none of it needs a crash |
| `Archive.ArchiveService.Happens` | crates/mongo/src/metrics.rs:166-171 | arrivals, rewrites and expiries as steps of the run |
| `Archive.ArchiveService.Load` | crates/mongo/src/archive.rs:239-258 | the records of a segment, each as it is when the cursor comes to it, in any order and with writers in between; an error if one is missing |
| `Archive.ArchiveService.ClaimBatch` | crates/mongo/src/archive.rs:57-82 | resumes an open manifest before it claims anything new; undisturbed, with nothing open, it claims exactly the records that are due, or nothing if none are; the batch is what was read |
| `Archive.ArchiveService.Resume` | crates/mongo/src/archive.rs:350-485 | the records of a manifest still being written, none for a complete one |
| `Archive.ArchiveService.ClaimNew` | crates/mongo/src/archive.rs:239-348 | reads first and inserts the manifest for what was read afterwards |
| `Archive.ArchiveService.InsertManifest` | crates/mongo/src/archive.rs:314-348 | the manifest is there, being written, or the batch is given up |
| `Archive.ArchiveService.WriteChunks` | crates/application/src/archive.rs:246-256 | the chunks put together are the bytes |
| `Archive.ArchiveService.CommitObject` | crates/blob/src/lib.rs:312-372 | replaces no object and describes what is stored |
| `Archive.ArchiveService.Complete` | crates/mongo/src/archive.rs:487-529 | completes the manifest with the checked object; a repeated completion must agree |
| `Archive.ArchiveService.MarkSource` | crates/mongo/src/archive.rs:580-592 | one document of the update, with writers before it |
| `Archive.ArchiveService.MarkSources` | crates/mongo/src/archive.rs:562-592 | on success every source was at some moment of the call gone from hot storage or marked by the segment; undisturbed all are marked |
| `Archive.ArchiveService.CommitSources` | crates/mongo/src/archive.rs:531-605 | only a complete manifest; it becomes committed only after each source was at some moment of the call gone or marked by the segment |
| `Archive.ArchiveService.Publish` | crates/application/src/archive.rs:233-277 | on success the manifest is complete; undisturbed it stores the encoding and completes |
| `Archive.ArchiveService.ArchiveClaimed` | crates/application/src/archive.rs:155-169 | publishes what is still being written and commits its sources |
| `Archive.ArchiveService.RunKindOnce` | crates/application/src/archive.rs:135-185 | on success the claimed segment is archived and committed; undisturbed it performs exactly the effects that were still missing of an open segment, or archives, marks and commits what is due, or changes nothing; what is committed stays so |
| `Archive.StartedMarks` | crates/application/src/archive.rs:155-169 | after an undisturbed round every record that was due carries the mark of its segment |
| `Archive.OpenCanResume` | crates/application/src/archive.rs:155-169 | wherever the worker was stopped, an undisturbed round can bring the kind's open segment to its end; only the encoder or a foreign object can be in its way |
| `Archive.ArchiveService.CleanupObject` | crates/application/src/archive.rs:213-222 | deletes the object exactly if no manifest names it, also at the moment of the deletion |
| `Archive.ArchiveService.CleanupOrphansOnce` | crates/application/src/archive.rs:187-231 | only objects that no manifest names go, and if the pass succeeds those on its first page are gone; manifests are untouched |
| `Archive.ArchiveService.Round` | crates/application/src/archive.rs:304-331 | one tick: every kind and then the clean-up |
| `Archive.ArchiveService.Work` | crates/application/src/archive.rs:294-336 | over any number of rounds, failures with or without effect, stops and restarts, with records arriving and being rewritten at any time: what happens is a legal run, and if its changes are quiet every state on the way is safe; what the first undisturbed round finds due is archived, and what it finds orphaned is gone |
| `WorkRegistry.ProjectWorkRegistry.TryEnter` | crates/application/src/deletion.rs:193-204 | refused exactly if fenced, otherwise counted |
| `WorkRegistry.ProjectWorkRegistry.Fence` | crates/application/src/deletion.rs:206-210 | fences and keeps the counter |
| `WorkRegistry.ProjectWorkRegistry.IsDrained` | crates/application/src/deletion.rs:213-218 | an absent entry counts as drained |
| `WorkRegistry.ProjectWorkRegistry.Unfence` | crates/application/src/deletion.rs:225-230 | opens a known project |
| `WorkRegistry.ProjectWorkRegistry.Leave` | crates/application/src/deletion.rs:238-245 | a guard's drop counts down |
| `WorkRegistry.EnterCounts` | crates/application/src/deletion.rs:193-204 | entering keeps each counter equal to its number of live guards |
| `WorkRegistry.LeaveCounts` | crates/application/src/deletion.rs:238-245 | so does leaving |
| `WorkRegistry.CountersAreExact` | crates/application/src/deletion.rs:193-245 | in every interleaving the counter is the number of live guards, so saturation never occurs |
| `WorkRegistry.FenceHolds` | crates/application/src/deletion.rs:193-230 | a fence lasts, and an empty project stays empty, until the next unfence |
| `WorkRegistry.DrainedMeansQuiet` | crates/application/src/deletion.rs:206-273 | a drain that saw zero and was not unfenced since its fence: no persist is in progress and none begins until the next unfence |
| `WorkRegistry.QuietExactlyIfFenced` | crates/application/src/deletion.rs:206-223 | no persist begins between the look that saw zero and the next unfence if and only if the project is fenced at the look |
| `WorkRegistry.UnfenceOpens` | crates/application/src/deletion.rs:225-230 | after an unfence, whatever the registry was, an entry of the project succeeds; other projects are untouched |
| `WorkRegistry.UnfenceAdmits` | crates/application/src/deletion.rs:193-230 | in every state a persist enters right after an unfence |
| `WorkRegistry.FenceRefuses` | crates/application/src/deletion.rs:196-198 | a fenced project admits nobody |
| `WorkRegistry.UnfenceBeforeTheLookReopens` | crates/application/src/deletion.rs:225-230 | an unfence between the fence and the look lets a persist begin after the drain returned |
| `ChannelWriter.Writer.SendBuffer` | crates/application/src/incident_capsule.rs:1053-1092 | terminates; sends the whole buffer as one chunk or nothing, and after an error no send ever succeeds |
| `ChannelWriter.Writer.Deliver` | crates/application/src/incident_capsule.rs:1114-1116 | delivered bytes stay a prefix of the written ones |
| `ChannelWriter.Writer.WriteAll` | crates/application/src/incident_capsule.rs:1100-1112 | terminates also with a full buffer; on success delivered and buffered bytes are all that was written |
| `ChannelWriter.Writer.Finish` | crates/application/src/incident_capsule.rs:1094-1096 | delivers the rest; without a flush every chunk but the last has the chunk size |
| `ChannelWriter.Stream` | crates/application/src/incident_capsule.rs:987-1117 | for any sequence of writes and flushes, going on after errors too: what was delivered is a prefix of what was written, and all of it if every call succeeded; every call succeeds if nothing is in the way of the sends; chunks are neither empty nor too large |
| `Summary.NormalizeSummary` | crates/application/src/issues.rs:189-212 | the loop computes the longest prefix of the collapsed text that fits and does not end in a space, or the fallback |
| `Summary.CollapseIsClean` | crates/application/src/issues.rs:192-205 | collapsing leaves no blank but single inner spaces and keeps all other characters in order |
| `Summary.CleanIsCollapsed` | crates/application/src/issues.rs:192-205 | a clean text is its own collapse |
| `Summary.TrimIsLongest` | crates/application/src/issues.rs:197-200 | the kept prefix is the longest that fits and does not end in a space |
| `Summary.StopIsLongest` | crates/application/src/issues.rs:197-200 | where the loop stops nothing longer can be kept |
| `Summary.NormalizeIsClean` | crates/application/src/issues.rs:189-212 | no leading, trailing or double space; within the limit or the fallback |
| `Summary.KeepsSomething` | crates/application/src/issues.rs:207-211 | the fallback stands in exactly if the first character that is not blank does not fit |
| `Summary.FallbackIsCut` | crates/application/src/issues.rs:207-209 | the fallback survives a second pass if and only if the limit is 0 or at least 11 |
| `Summary.IdempotentExactlyWhen` | crates/application/src/issues.rs:189-212 | idempotent if and only if the limit is 0 or at least 11, or the first character that is not blank fits |
| `Summary.EncodeRoundTrips` | crates/application/src/issues.rs:197-197 | a character's UTF-8 bytes read back as the character, and are as many as the limit counts |
| `Summary.SizeIsEncodedLength` | crates/application/src/issues.rs:198-200 | the limit bounds the encoded length |
| `ExploreCost.CountsAreNodes` | crates/domain/src/explore.rs:253-283 | predicates and alternatives of an expression are bounded by its nodes |
| `ExploreCost.CountsAreFlat` | crates/domain/src/explore.rs:253-283 | over the flat list of all expressions in an expression: the predicates are its leaves, the alternatives the operands of its disjunctions |
| `ExploreCost.WellFormedIsBounded` | crates/application/src/explore.rs:91-117 | what a valid query cannot be, field by field |
| `ExploreCost.PlainQueryIsWellFormed` | crates/application/src/explore.rs:91-131 | every plain query within the bounds is valid |
| `ExploreCost.CoveringIsLeast` | crates/application/src/explore.rs:155-163 | the interval and hour counts are the least that cover the range |
| `ExploreCost.SatMulClips` | crates/application/src/explore.rs:177-183 | clipping factors first does not change a clipped product |
| `ExploreCost.GroupFanOut` | crates/application/src/explore.rs:177-183 | the saturating fold is the clipped product of the group cardinalities |
| `ExploreCost.Cost` | crates/application/src/explore.rs:164-198 | the chained saturating steps give the exact cost, clipped once |
| `ExploreCost.NeverSaturates` | crates/application/src/explore.rs:155-198 | for a valid query with at most 1000 intervals the exact cost is below the 32-bit limit |
| `ExploreCost.Plan` | crates/application/src/explore.rs:86-210 | invalid exactly if not well formed; too costly exactly if the true cost or the number of intervals is over the limit; otherwise admitted at the true cost |
| `ExploreCost.AllTimeCostsNoLess` | crates/application/src/explore.rs:151-158 | an all-time query over more than 30 days costs at least as much as the same query over any permitted bounded range |

## Left out

- Wake-ups, timers and select fairness: timeouts are arbitrary steps, and what is proved is safety, exact results and termination, not response times.
- Dispatcher is a machine of steps on values, because several threads change the same state between any two of its await points; the startup refill is the same refill taken as the first steps.
- Archive and ArtifactRetention take the effect of a failing call to happen before the worker goes on or not at all: both wait for their calls without a timeout of their own. So a marking that fails for the client and lands after the retry was committed, which would give a later session update an expiry too, is no run of the model, and neither is a completion or a claim that lands so late. For debug files, where callers are dropped, late effects are modelled.
- ArtifactRetention leaves out byte totals, orphan deadlines and garbage collection; a failing call of the pass has no effect, and releases do not change during a pass.
- LoginLimiter.Config is limited to capacities with 2 * capacity + 1 below 2^64, which memory implies; `DeniedOnlyAfterTooMany` assumes a clock that does not go back, as the limiter does.
- DebugFileLocks leaves out namespace cleanup, which takes no per-file lock, the upload states, and chunk assembly.
- MetricBatches.MergeIsAssociative: over real numbers, because rounded addition is not associative; counts, bins, last values and traces are exact. Series identities are taken to determine the kind, as their digest covers it.
- MetricBatches.MergeAllSplits: over real numbers, for the same reason.
- MetricWriter.StoreReceivesExactlyTheAccepted: over real numbers, for the same reason; which batches are in which call does not depend on it.
- MetricWriter.Serve: its merge clause is over real numbers and over batches whose sketches have the same number of bins, which is a constant of the source; ending because all senders are gone is left out, since the writer itself holds one.
- Archive takes any selection of records of a kind without expiry as a possible claim: due times, projects, days, byte targets and record limits are left out, records that the cursor passes without selecting them are not counted as read, and capacity reservations of the object store are left out.
- ArchiveStorage takes segment ids and object keys as unique per kind and list of sources, and expiries as given by this worker alone; project deletion and retention settings are left out.
- WorkRegistry.CountersAreExact assumes fewer live guards than a machine word can count; the deletion worker around the registry is left out.
- ChannelWriter takes cancellation, a passed deadline and a closed receiver as permanent, which they are; the zip format is left out.
- ExploreCost takes the typing of predicates and aggregate fields as given flags; planning beyond the cost, execution and concurrency permits are left out.
- MongoDB and PostgreSQL adapters beyond the archive store, the remaining blob back ends, Parquet, zip and JSON encoding, hashing and Argon2.
- The rest of `auth.rs`, source-bundle validation, dashboards, query promotion, metrics counters, tracing, error codes, scripts and the web UI, which would add only guarded calls and mappings.
