# Verified model of the log pipeline

Sentinel ingests log lines over HTTP, stores each in a database and pushes a message for it
through a Redis queue to a single alert worker. The worker rates the line with a rule engine, a
statistical engine and an isolation forest, and records an alert or keeps the line's feature
vector as training data. A shipping agent tails files and posts their lines; a connection
manager fans alerts out to dashboards. This project models the stateful parts of that system in
Dafny and proves what they guarantee, including what they guarantee only under a condition.

`dafny verify dfyconfig.toml` checks everything.

## How the model is organised

* **The pipeline.** `Pipeline.dfy` is a transition system of concurrent ingest requests and the
  worker: one step is one Redis command, one database statement or commit, or the code between
  two awaits. Every Redis command has three outcomes: answered, refused, or executed with its
  reply lost. The worker may crash, and a request may be abandoned, at any point. Its list
  operations are those of `QueueService.dfy`, where the methods of the queue are proved against
  the same functions. Five invariants (`PipelineAccounting`, `PipelineBound`, `PipelineRows`,
  `PipelineAlerts`, `PipelineRetries`) are kept by every step, a sixth (`PipelineHand`) while time
  stamps differ; `PipelineDraining` shows that the worker comes to an end. `PipelineTheorems` draws
  the conclusions for all runs from an empty start, with `PipelineWitnesses` for the runs that show
  bounds to be sharp and exceptions to occur. `PipelineRecovery`, `PipelineSweep` and
  `PipelineDelivery` show what an undisturbed recovery, startup sweep and delivery come to, command
  by command.
* **The detectors.** `SlidingWindow` proves that a bounded deque evicted from its front is a
  filter over the whole history. `ProfileStore`, `RuleEngine` and `StatisticalEngine` rest on
  it. `ScoringEngine`, `BaselineStore` and `IsolationEngine` follow, with `Rounding` for
  `round(x, 4)`. `AlertWorker` puts the real stores together into one evaluation.
* **The agent and the fan-out.** `Watcher`, `Sender` and `ConnectionManager`.

Objects whose methods update their fields are classes whose methods are proved against
functions of their state; the theorems are about those functions.

Assumptions: one clock that never runs backwards; the pipeline of two commands in `dequeue` is
sent as a Redis transaction, which is the client's default; JSON encoding is injective, and a
message is identified by the `log_id` it carries; log ids are never drawn twice; the database
session behaves as one table of rows and one of alerts with a unique `log_id`, deleting a row
deletes its alert, and IntegrityError is what the index or the foreign key answers; scores are
exact reals; the fitted model is any function from feature vectors to decision values; the task
that a retraining is started in runs up to its first await before the worker checks again.

## Where the code and its documents differ

The model follows the code.

* Architecture.md line 137 counts errors towards an address's burst. The code counts every line
  *but* the errors and keyword matches, which return before the tracker sees them
  (`HighSignalsNeverBurst`).
* Architecture.md line 160 raises the risk of a HIGH rule to 0.9. The code raises the severity
  and leaves the risk, which reaches 0.9 exactly when the other two engines contribute enough
  (`HighRuleReachesNineTenths`).
* `enqueue` says that it raises QueueFull when the depth *exceeds* the limit; it raises it when the
  depth reaches the limit. The queue can still outgrow it for two reasons: concurrent requests
  check before any of them pushes (`LimitCanBeExceeded`), and retries push without a check
  (`BoundIsAttained`).
* `retrain_async` says that it rejects a regression of more than 5%. On its holdout any
  regression at all is more than 5% (`ToleranceAdmitsNoRegression`).
* sentinel-agent/README.md line 24 says that remaining logs are flushed before exit. The flush
  after the stop event posts nothing (`LogSender.Run`). Line 174 says that delays grow up to
  `max_backoff`; they also never exceed 32 seconds (`DelaysGrowToTheCap`).
* sentinel-agent/README.md line 10 says that truncation is handled. It is when the file is found
  shorter than what was read. A file that has grown back to the old offset loses the lines before
  it and, as a rule, the beginning of the line that the offset lies in
  (`TruncationIsSeenWhenShorter`, `UnseenTruncationCutsALine`).

## Model

| member | source | states |
|---|---|---|
| `PipelineTheorems.EveryMessageIsAccountedFor` | app/services/queue_service.py:83-190 | After any run, for every payload: copies pushed, plus duplicates made by a retry, equal those in the three lists, in hand, acknowledged and lost. Lost plus duplicated messages never outnumber worker crashes and failed commands. In hand is at most one copy, or two once a command on it has failed. |
| `PipelineTheorems.AtMostOneInHand` | app/services/queue_service.py:101-109 | After any run whose taggings read increasing times, at most one copy is in hand, and the next step, whatever it is, loses at most one message. |
| `PipelineTheorems.TwoCopiesInHand` | app/services/queue_service.py:102-109 | That condition is needed: a run on a clock that stands still, so that two copies are tagged alike, ends with two in hand. |
| `PipelineTheorems.NothingLostWithoutFailure` | app/workers/alert_worker.py:311-327 | A run without crash and failed command neither loses nor duplicates anything. |
| `PipelineTheorems.LossOnlyFromTheHand` | app/services/queue_service.py:139-153 | A step loses a message only while it is between its LREM and its LPUSH. |
| `PipelineTheorems.CrashInBetweenLoses` | app/services/queue_service.py:140-150 | Such a loss happens: for every limit a failure-free run after which one crash loses the message of a flagged log that has no verdict and no other copy. |
| `PipelineTheorems.NoLogIsForgotten` | app/workers/alert_worker.py:94-124 | Every committed row of every run is unflagged (so the next sweep selects it), or its message is in a list or in hand, or its verdict is on record, or its message is one of the lost, which the failures bound. |
| `PipelineTheorems.RejectedIngestLeavesNothing` | app/services/log_service.py:69-92 | A request answered 429 pushed nothing and left neither row nor alert, whatever ran beside it. |
| `PipelineTheorems.AtMostOneAlertPerLog` | app/models/alert.py:42 | At most one alert per log; an acknowledged message's log has an alert, was scored NONE, or was deleted. |
| `PipelineTheorems.CopiesAfterTheAlertAreInert` | app/workers/alert_worker.py:155-162 | From the moment a log has its alert, no copy of its message reaches the engines again, over every continuation of the run. |
| `PipelineTheorems.IntegrityErrorMeansRowDeleted` | app/workers/alert_worker.py:236-243 | With one worker the alert's commit is refused if and only if the row was deleted meanwhile; a concurrent duplicate does not occur. |
| `PipelineTheorems.MainQueueBound` | app/services/queue_service.py:66-79 | Main queue, requests past the check, processing list and hand together stay within MAX_QUEUE_DEPTH plus the requests ever between check and push at once, plus the failures. |
| `PipelineTheorems.LimitCanBeExceeded` | app/services/queue_service.py:67-79 | For every limit and every k, k requests that check before any of them pushes take the queue k - 1 entries past the limit, with no worker running. |
| `PipelineTheorems.BoundIsAttained` | app/services/queue_service.py:149-150 | The bound is sharp: for every limit and every k a failure-free run with at most k requests past the check at once ends with exactly limit + k entries; the last one is a retry, which is never checked, so k = 1 shows that cause alone. |
| `PipelineTheorems.RetryLadder` | app/services/queue_service.py:137-151 | Every message in the main queue and the processing list has been retried at most twice, every one in the DLQ exactly three times. |
| `PipelineTheorems.BackoffIsNeverCutShort` | app/workers/alert_worker.py:142-145 | No message is evaluated before its process_after time: the 5 second cap of the sleep never bites. |
| `PipelineTheorems.RetriesAreSpaced` | app/services/queue_service.py:137-150 | Nor before its time: over every run, a message pushed again by its first retry is not loaded for evaluation within 2 seconds, nor one pushed by its second within 4. |
| `PipelineTheorems.RestartLeavesNoRowBehind` | app/workers/alert_worker.py:299-306 | From any stopped state with room in the queue, a start without failures flags every row and pushes a message for each that was not flagged, whatever order the SELECT returns. |
| `PipelineTheorems.DrainsWithinThreeRounds` | app/workers/alert_worker.py:312-324 | After any run, whatever a worker without arrivals and failures does: completed iterations plus the messages still live are at most three for each live message, its steps besides waiting at most 33, and nothing but idle steps is left if and only if nothing is waiting or being handled. |
| `PipelineTheorems.EverythingDrains` | app/workers/alert_worker.py:312-324 | From every reachable state of a running worker some such steps lead to an empty queue and an idle worker. |
| `PipelineRetries.NeverStuck` | app/workers/alert_worker.py:127-162 | While work is left its next step is enabled and brings the end nearer. |
| `PipelineRetries.EffortStep` | app/workers/alert_worker.py:312-324 | Every step of such a worker but waiting uses up some of a bounded effort. |
| `PipelineDraining.EffortRun` | app/workers/alert_worker.py:312-324 | Along every steady run the steps besides waiting plus the effort left at the end stay within the effort at the start. |
| `PipelineRetries.WorkRun` | app/services/queue_service.py:137-153 | The attempts left to all messages fall by at least one with each completed iteration. |
| `PipelineAccounting.SoundRun` | app/services/queue_service.py:125-190 | The conservation invariant holds along every run from any state that satisfies it. |
| `PipelineBound.BoundedRun` | app/services/queue_service.py:178-183 | So does the bound's invariant, with recovery and unchecked retries included. |
| `PipelineRows.RowsRun` | app/services/log_service.py:45-83 | A set flag stands for a push, and a log id for one request at one place, along every run. |
| `PipelineAlerts.OneAlertStep` | app/workers/alert_worker.py:155-269 | Every step keeps alerts unique, verdicts behind acknowledgements, and the worker's stage true. |
| `PipelineRecovery.StartRecoversExactly` | app/services/queue_service.py:163-190 | The recovery loop, run command by command on any lists, ends with exactly the fresh entries on the processing list and the stale ones reversed in front of the main queue. |
| `PipelineRecovery.RestartRecoversByAge` | app/services/queue_service.py:170-183 | In the entries' own fields: a restart moves all copies of an entry if it is unreadable or began more than 30 seconds ago (0 if untagged), and else none. |
| `PipelineRecovery.DequeuedThenRestarted` | app/services/queue_service.py:101-183 | A message dequeued at one time, whatever happened since, goes back to the main queue at the next start, if still on the processing list, if and only if more than 30 seconds have passed. |
| `PipelineSweep.StartupSweep` | app/workers/alert_worker.py:101-122 | The sweep pushes the selected rows in order as far as there is room and flags exactly those. |
| `PipelineDelivery.WithLogId` | app/workers/alert_worker.py:141-269 | A delivery without failure and exception: without a row the message is retried after its back-off, with an alert it is only acknowledged, otherwise its log is evaluated once and has an alert if and only if it was rated risky; the rest of the state stays. |
| `PipelineDelivery.WithoutLogId` | app/workers/alert_worker.py:133-139 | A message without log id is retried at once. |
| `QueueService.LogQueue.Enqueue` | app/services/queue_service.py:57-80 | Accepts if and only if the queue is below its limit, then pushes one new message at the head. |
| `QueueService.LogQueue.Dequeue` | app/services/queue_service.py:83-113 | Takes the oldest entry; a readable one ends up at the head of the processing list with the time of taking as its only change, an unreadable one as it is. |
| `QueueService.LogQueue.Acknowledge` | app/services/queue_service.py:116-122 | Removes one matching entry from the processing list and nothing else. |
| `QueueService.LogQueue.RetryOrDlq` | app/services/queue_service.py:125-153 | A message retried fewer than two times goes to the head of the main queue with process_after 2 seconds on after the first retry and 4 after the second; else to the DLQ with the time; nothing else of it changes. |
| `QueueService.LogQueue.RecoverProcessingQueue` | app/services/queue_service.py:156-190 | What stays is readable and began at most 30 seconds ago, in its old order; what is moved, reversed in front of the main queue and counted, is unreadable or began earlier; together they are what was there, duplicates included. |
| `QueueService.SweepSplitsByAge` | app/services/queue_service.py:170-183 | Of each entry all copies are moved or none, by its own fields. |
| `QueueService.FirstInFirstOut` | app/services/queue_service.py:79-96 | What waits, oldest first, grows at its end by an enqueue and loses its first message by a dequeue. |
| `QueueService.RecoveryAdvances` | app/services/queue_service.py:170-183 | One round of the recovery loop takes the partial recovery of i entries to that of i + 1. |
| `QueueService.OrphansAreStale` | app/services/queue_service.py:179-183 | Entries orphaned before they were tagged, and unreadable ones, are all recovered. |
| `LogService.LogService.IngestLog` | app/services/log_service.py:32-92 | Row, flag and queue after each way ingest can end: rejected without a trace, pushed and flagged, or left unflagged for the sweep. |
| `AlertWorker.AlertWorker.ProcessMessage` | app/workers/alert_worker.py:127-269 | Which of the four exits is taken, and the whole effect of each on queue, tables, stores and engine; a log with an alert touches the queue alone; an evaluated log's findings are functions of the histories that end with its line and of the model, and alert, baseline and retraining follow from them. |
| `AlertWorker.AlertWorker.RunEngines` | app/workers/alert_worker.py:164-193 | Rule severity, statistical and isolation score are functions of the histories including this line and of the model, and lie in [0, 1]. |
| `AlertWorker.AlertWorker.Conclude` | app/workers/alert_worker.py:224-267 | Alert, baseline and retraining follow from the findings. |
| `AlertWorker.AlertWorker.SweepUnenqueuedLogs` | app/workers/alert_worker.py:94-124 | Pushes the unflagged rows in order as far as there is room and flags exactly those. |
| `AlertWorker.AlertOrBaseline` | app/workers/alert_worker.py:224-262 | With LOW the lowest threshold an evaluation never both alerts and trains; one that does not alert trains if the quota admits it. |
| `SlidingWindow.WindowAdvances` | app/services/profile_store.py:62-74 | Append with maxlen and front-only eviction equals filter-then-take-last over the whole history. |
| `SlidingWindow.Evict` | app/services/profile_store.py:91-94 | The eviction loop drops exactly the stale front. |
| `ProfileStore.ProfileStore.Record` | app/services/profile_store.py:57-105 | After every record each address's deque and the global one equal that filter of the history, and the statistics are theirs. |
| `ProfileStore.AgreementAdvances` | app/services/profile_store.py:62-74 | One event keeps that agreement for every address, its own and all others. |
| `StatisticalEngine.NewestIsInBoth` | app/services/profile_store.py:62-74 | The event just recorded is the newest in its address's deque and in the global one, never evicted or cut off. |
| `StatisticalEngine.ScoreStaysBelowOne` | app/services/statistical_engine.py:29-46 | The unrounded score of every event of every history lies in [0, 1), even after a deque overflowed. |
| `StatisticalEngine.DeviationWithinTheRest` | app/services/statistical_engine.py:35-39 | Without overflow the error deviation is at most 1 - ip_rate / global_rate. |
| `StatisticalEngine.StatsCount` | app/services/profile_store.py:72-89 | The rates are the numbers of events of the address and of all addresses in the window, up to 10,000 and 50,000; below those the ratios are the shares of errors among them. |
| `StatisticalEngine.ContributionsAddUp` | app/services/statistical_engine.py:29-46 | Address rate, error ratios and global rate contribute independently. |
| `StatisticalEngine.AddressContribution` | app/services/statistical_engine.py:29-33 | The address's rate contributes in proportion, and 0.40 if and only if it reaches twice the threshold. |
| `StatisticalEngine.GlobalContribution` | app/services/statistical_engine.py:41-44 | The global rate contributes in proportion, and 0.25 if and only if it reaches six times the threshold. |
| `StatisticalEngine.ErrorContribution` | app/services/statistical_engine.py:35-39 | The error ratio contributes 0.35 times what it exceeds the global one by. |
| `StatisticalEngine.ScoreIsMonotone` | app/services/statistical_engine.py:29-47 | The score never falls as a rate or the deviation rises. |
| `StatisticalEngine.WithoutAddress` | app/services/profile_store.py:65-66 | An event without address is rated by the global rate alone, at most 0.25. |
| `StatisticalEngine.IpWithinGlobal` | app/services/profile_store.py:76-82 | An address's rate never exceeds the global one; nor do its errors, without overflow. |
| `StatisticalEngine.Score` | app/services/statistical_engine.py:15-47 | Records one event and rates the history including it, within [0, 1], and within 0.25 without an address. |
| `StatisticalEngine.FeaturesTell` | app/services/statistical_engine.py:50-75 | What each of the four features says about the line: level, length up to 1000, presence of an address, number of keywords present in any case. |
| `StatisticalEngine.ErrorLevelsCountMost` | app/services/statistical_engine.py:26-64 | The levels that count as errors for the rates are those numbered 3 or 4 in the features. |
| `RuleEngine.IpTracker.Record` | app/services/rule_engine.py:26-35 | The new bucket, the others unchanged, and the threshold test on it. |
| `RuleEngine.IpTracker.Evaluate` | app/services/rule_engine.py:58-87 | The verdict is a function of the whole log: ERROR, first matching keyword, or more than threshold counted lines of the address within the window. |
| `RuleEngine.TrackerAdvances` | app/services/rule_engine.py:66-78 | Only lines that no HIGH rule settles are counted, and only for their address. |
| `RuleEngine.BurstMeansManyLines` | app/services/rule_engine.py:77-85 | A line that no HIGH rule settles is MEDIUM if and only if more than threshold such lines of its address, itself included, lie within the window. |
| `RuleEngine.HighSignalsIgnoreCase` | app/services/rule_engine.py:63-75 | A HIGH rule settles a line if and only if its level is ERROR or it contains a keyword, in any case of the letters. |
| `RuleEngine.HighSignalsNeverBurst` | app/services/rule_engine.py:67-79 | However many ERROR and keyword lines an address sends, its burst count stays zero. |
| `ScoringEngine.AlertOrTrainingData` | app/workers/alert_worker.py:225-262 | A log is exactly one of alert and training data if and only if its risk does not lie below LOW yet at or above MEDIUM or HIGH. |
| `ScoringEngine.OrderedThresholdsPartition` | app/services/scoring_engine.py:48-61 | With LOW <= MEDIUM and LOW <= HIGH it is always exactly one. |
| `ScoringEngine.AlertFromLowOn` | app/workers/alert_worker.py:225-262 | Then an alert is created exactly for a rule hit or a risk from LOW on, and the rest is offered to the baseline. |
| `ScoringEngine.RiskIsTheWeightedSum` | app/services/scoring_engine.py:40-61 | The risk is within 0.00005 of the weighted sum kept in [0, 1], unless a rule hit raises it to MEDIUM. |
| `ScoringEngine.SeverityFollowsRisk` | app/services/scoring_engine.py:48-56 | Without a rule hit each severity stands for its range of risks, in both directions. |
| `ScoringEngine.RuleHitTakesTheHighest` | app/services/scoring_engine.py:58-65 | With one it is the highest of the rule's severity, MEDIUM, and HIGH from that threshold on. |
| `ScoringEngine.UnorderedThresholdsOverlap` | app/config.py:24-26 | With thresholds out of order a log can be both. |
| `ScoringEngine.MoreAlarmingScoresHigher` | app/services/scoring_engine.py:40-65 | Risk and severity are monotone in both scores, in the rule firing and in its severity. |
| `ScoringEngine.RuleSetsTheFloor` | app/services/scoring_engine.py:58-65 | A rule hit is never rated below MEDIUM or below the rule's severity. |
| `ScoringEngine.HighRuleReachesNineTenths` | app/services/scoring_engine.py:40-65 | With the default settings a HIGH rule is always HIGH, and its risk is at least 0.9 if and only if 0.3 of the statistical plus 0.2 of the isolation score is at least 0.39995. |
| `ScoringEngine.HighRuleAloneIsRatedHalf` | app/services/scoring_engine.py:40-46 | An instance: alone it is rated 0.5. |
| `ScoringEngine.HighNeedsARule` | app/config.py:24-30 | With the default settings nothing is HIGH without a rule hit. |
| `ScoringEngine.LabelsTellTheSource` | app/services/scoring_engine.py:82-90 | Two logs get the same label if and only if the same sources contributed. |
| `BaselineStore.BaselineStore.Add` | app/services/baseline_store.py:50-76 | Keeps the last max_size accepted additions, aligned with their sources; accepts exactly well-formed vectors whose address then has at most 5 percent of the buffer; what is dropped and what is an error. |
| `BaselineStore.FivePercentEach` | app/services/baseline_store.py:33-34 | No address ever has more than 5 percent of the buffer. |
| `BaselineStore.AddHolds` | app/services/baseline_store.py:67-76 | Addition and eviction together keep both deques and every address's quota. |
| `BaselineStore.Aligned` | app/services/baseline_store.py:43-45 | The two deques are equally long, and position by position hold the vector and the source of the same accepted addition. |
| `BaselineStore.KnownVectorsNeedManySources` | app/services/baseline_store.py:33-34 | n vectors of known origin come from at least ceil(n / quota) distinct addresses; with quota 0 there are none. |
| `BaselineStore.ManySlotsManySources` | app/services/baseline_store.py:69-73 | Any group of addresses fills at most quota slots per address. |
| `IsolationEngine.ScoreIsUnitAndAntitone` | app/services/isolation_engine.py:108-114 | Scores lie in [0, 1] and never fall as the decision value falls. |
| `IsolationEngine.ScoreShape` | app/services/isolation_engine.py:109-114 | 1 from a decision value of -0.5 down, 0 from 0.5 up, and within 0.00005 of 0.5 minus the decision value in between. |
| `IsolationEngine.ScoreGuards` | app/services/isolation_engine.py:98-107 | A malformed vector and an untrained engine score 0; otherwise the model is asked. |
| `IsolationEngine.DiscriminationScore` | app/services/isolation_engine.py:312-338 | The nested loops compute the share of (anomalous, normal) pairs that are ordered correctly. |
| `IsolationEngine.ScoresAreTwelfths` | app/services/isolation_engine.py:49-59 | At most 12 pairs are ordered, and 12 means every pair. |
| `IsolationEngine.ToleranceAdmitsNoRegression` | app/services/isolation_engine.py:196-206 | Against a recorded score of k pairs, also one rounded to four decimals, a model is acceptable if and only if it orders at least k. |
| `IsolationEngine.QualityNeverRegresses` | app/services/isolation_engine.py:196-284 | The accepted score never falls over any run, restarts included, in which accepted models are written and what is written is read back. |
| `IsolationEngine.UnsavedProvenanceRegresses` | app/services/isolation_engine.py:265-284 | For any two scores, a run from a first start in which the better model is accepted but not written, and the restart comes back with the older score. |
| `IsolationEngine.FiniteRetraining` | app/services/isolation_engine.py:146-172 | A process accepts at most BASELINE_BUFFER_MAX / MODEL_RETRAIN_INTERVAL models in any run. |
| `IsolationEngine.PacedRun` | app/services/isolation_engine.py:150-152 | Each acceptance raises the sample mark by the interval, and the recorded score stands for the accepted model. |
| `IsolationEngine.RetrainsAreSpaced` | app/services/isolation_engine.py:154-157 | Over every run without a restart, no retraining starts before the cooldown after the last accepted one is over. |
| `IsolationEngine.FullBufferEndsRetraining` | app/services/isolation_engine.py:150-152 | Once less than an interval is left above the sample mark, no run without a restart starts a retraining or accepts a model. |
| `IsolationEngine.IsolationEngine.ShouldRetrain` | app/services/isolation_engine.py:138-159 | Exactly when no retraining is under way, enough samples are new and the cooldown is over. |
| `IsolationEngine.IsolationEngine.BeginRetrain` | app/services/isolation_engine.py:169-172 | Never two retrainings at once. |
| `IsolationEngine.IsolationEngine.FinishRetrain` | app/services/isolation_engine.py:174-246 | The model and its record are replaced together if acceptable, else untouched; the guard is released either way. |
| `IsolationEngine.IsolationEngine.Restore` | app/services/isolation_engine.py:250-295 | What a restart restores, and that a failed one changes nothing. |
| `Watcher.FileState.Poll` | sentinel-agent/watcher.py:76-96 | Without a fault the lines and the handle that the disk determines; with one the same two, or no lines and a closed handle; the poll that opens the file returns nothing and is left at its end. |
| `Watcher.FileState.ReadAvailableLines` | sentinel-agent/watcher.py:47-61 | Returns exactly the complete lines ahead and stops just past the last newline. |
| `Watcher.LinesGiveBackTheText` | sentinel-agent/watcher.py:52-60 | Without carriage returns, the lines ended with newlines again are exactly the text between the offset and the last newline. |
| `Watcher.ChunksDoNotMatter` | sentinel-agent/watcher.py:52-60 | Reading a text as far as it was written, and on from there once it has grown, yields the lines and the offset of reading it at once. |
| `Watcher.TailingIsIndependentOfChunks` | sentinel-agent/watcher.py:76-92 | For every interleaving of writes, polls and rotations, with the file there from the start or not: what a poll has returned in all is the complete lines after the file's length at the first poll that found it, generation by generation, once and in order; before that poll nothing. |
| `Watcher.TailingFromTheFirstPoll` | sentinel-agent/watcher.py:41-92 | The same told from that poll: it returns nothing, and from then on come exactly the lines after the end that it found. |
| `Watcher.TailingOneFile` | sentinel-agent/watcher.py:47-61 | For one file: the newline-terminated lines after the opening offset, and the offset just past the last newline. |
| `Watcher.TailingOverOneRotation` | sentinel-agent/watcher.py:85-91 | Over one rotation: the old file's complete lines, then the new file's. |
| `Watcher.TruncationIsSeenWhenShorter` | sentinel-agent/watcher.py:72-91 | The poll of a file truncated in place returns exactly its lines from the start if and only if the file is shorter than the offset, the offset is 0, there is no complete line, or the offset lies in a first line of carriage returns only. |
| `Watcher.UnseenTruncationCutsALine` | sentinel-agent/watcher.py:47-61 | What a poll returns of a file that is not shorter: the lines before the offset are missing, the line that the offset lies in comes without its beginning, the rest is complete. |
| `Sender.LogSender.SendPending` | sentinel-agent/sender.py:87-114 | Posts a prefix of the batch in order, ending at the first answer that is neither 2xx nor one of 400, 401, 403, 404 and 422; succeeds exactly if there is none. |
| `Sender.LogSender.FlushBatch` | sentinel-agent/sender.py:62-85 | A series of such passes, all but the last interrupted, with the delays of the failures in a row; done unless stopped. |
| `Sender.LogSender.Run` | sentinel-agent/sender.py:35-60 | The batches flushed before the stop, and the rest, concatenate to what was taken from the queue. At each timeout all that arrived before it is flushed; a flush happens only at a timeout or with a full batch; fewer than batch_size items wait. Nothing is posted after the stop. |
| `Sender.DoneMeansDelivered` | sentinel-agent/sender.py:62-71 | Every payload of a finished flush was answered 2xx or refused for good in its last pass. |
| `Sender.RetriesStartOver` | sentinel-agent/sender.py:63-71 | Of an interrupted pass all posts but the last were finally answered, and each is posted again by every later pass that comes as far, in a finished flush by the last one. |
| `Sender.DelaysGrowToTheCap` | sentinel-agent/sender.py:72 | Delays never fall while failures go on and are bounded by max_backoff and by 32 seconds. |
| `Sender.DelaysDouble` | sentinel-agent/sender.py:72 | The delays are 2 seconds after the first failure, doubled with each further one up to 32, and cut to max_backoff. |
| `ConnectionManager.FanOutKeepsOrder` | app/realtime/connection_manager.py:53-91 | Under every interleaving, what a client was sent, is being sent and has queued is an increasing selection of the broadcasts since it registered, in a bounded queue; without a gap unless some broadcast found the queue full, and then complete while registered. |
| `ConnectionManager.BroadcastReaches` | app/realtime/connection_manager.py:58-62 | A broadcast gives the message to each registered client with room, marks those with a full queue and touches nobody else. |
| `ConnectionManager.StepFair` | app/realtime/connection_manager.py:26-91 | Every step keeps that for all clients at once. |
| `ConnectionManager.ConnectionManager.Fill` | app/realtime/connection_manager.py:54-62 | Each registered client with room gets the message, and exactly those whose queue holds queue_size messages are reported stale. |
| `ConnectionManager.ConnectionManager.Connect` | app/realtime/connection_manager.py:26-35 | The client is registered last, with an empty queue, from the next broadcast on. |
| `ConnectionManager.ConnectionManager.Disconnect` | app/realtime/connection_manager.py:37-51 | Exactly this client leaves the dictionary. |
| `ConnectionManager.ConnectionManager.Broadcast` | app/realtime/connection_manager.py:53-65 | Undisturbed, it disconnects exactly the clients that could not take the message. |
| `ConnectionManager.ConnectionManager.SendOne` | app/realtime/connection_manager.py:73-86 | One round of the sender delivers the oldest queued message, or unregisters the client. |

## Left out

- HTTP routes, authentication, rate limits, metrics counters, heartbeats, Pub/Sub, the front end
  and deployment: plumbing around the modelled state.
- SQL and the ORM beyond the two tables; closing a database session is taken never to fail.
- scikit-learn, numpy and joblib: fitting is an arbitrary outcome, an artifact loads or does not.
- Floating point: scores are exact reals, and `int(max_size * 0.05)` is the floor of max_size / 20.
- What a message carries besides log_id; two messages of one log count as copies of one payload.
- Case folding beyond ASCII letters, text encodings and lone carriage returns in tailed files.
- The agent's regular expressions and date parsing: easy or bound to a library.
- Several rotations between two polls, and a file that changes during one poll, are outside the
  tailing theorems; a file that cannot be reopened loses the lines read in that poll, as Poll says.
- Draining at shutdown: the agent posts nothing after its stop event, so there is none to prove.
- Registering one WebSocket twice: a socket in the model registers once.
- The write of the model store is folded into the end of a retraining; the stored artifact may be
  newer than the stored provenance, and the theorem is about the recorded score.
- A log scored NONE whose acknowledgement fails is evaluated again and may then get an alert, so
  the partition into alerts and training data is per evaluation and not per log.
- ProcessMessage: nothing interleaves with it; the interleavings are the transition system's.
- FiniteRetraining: the retraining task's first segment is taken to run before the next check, and
  the buffer is not cleared.
- IngestLog: nothing interleaves with it, and a failed deletion of the row is left to the
  transition system.
- LogSender.Run: the stop event is seen between two arrivals or two passes, not inside a post.
