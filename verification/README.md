# Verified model of the demand-forecast data plane

The system moves demand events and weather readings from Kafka into several stores: a raw Postgres table, an
hourly Parquet lake, Redis hashes and sorted sets with features, and a second, streamed lake.  Delivery is at
least once, processes crash, and each store has to agree with a simple specification over the event log all the
same.  A trainer, an auto-retrain job and a serving API share a model registry in a similar way.  This project
models those protocols in Dafny and proves what each of them keeps.

Run `dafny verify dfyconfig.toml` in this directory.

## How it is organised

| module | models |
|---|---|
| `Options` | a value that may be absent |
| `AtLeastOnce` | visits to the positions of a log: failures, partial work, crashes and resets |
| `Offsets` | places in a topic and the bookkeeping of offsets |
| `RouteHash`, `SlidingWindow` | the route hash and the sliding-window aggregates |
| `LakeQuery` | point-in-time reconstruction from the stream lake |
| `Ingestor`, `IngestorLoop`, `IngestorProgress` | the consume / insert / commit machine, the loop and replay tool as implemented, and how long a message waits |
| `StreamConsumer`, `StreamProgress`, `ParquetBuffer` | the stream feature consumer and its lake buffer |
| `StreamDelivery`, `RouteDelivery` | what the consumer's runs mean for Redis and for the stream lake, partition by partition and route by route |
| `LakeKeys`, `Exporter`, `Backfill` | partition keys, the hourly exporter, restoring from the lake |
| `FeatureRegistry`, `FeatureWriters` | the feature registry, and the three writers of a route hash |
| `NightlySync`, `SyncRuns`, `SyncFeatures` | the nightly sync, its sentinel over any sequence of runs, and which run each feature comes from |
| `Retrain` | retrain lock and cooldown |
| `ModelRegistry`, `ModelLifecycle`, `ModelServer`, `HotSwap` | registry stages, training jobs, the API's loads and hot swap |
| `FanOut` | WebSocket fan-out |
| `PsiTerms`, `PsiCategorical`, `PsiNumeric`, `DriftReport` | population stability index and the drift gate |

Code that updates state is modelled as classes with methods that follow the source's branches; each method is
proved against a specification function or states its result outright.  Protocols that can be interrupted are
also given as machines - a state, events, and the state after a list of events - in which a crash, or another
thread's step, may come between any two events.  Lemmas such as `IngestorLoop.ConsumerRunIsChain`,
`StreamConsumer.TurnIsEvents`, `ParquetBuffer.UploadsArePossible`, `SyncRuns.SyncIsARun` and
`ModelLifecycle.UndisturbedJob` connect the two.

Contracts taken for granted: Kafka delivers a partition in offset order from the committed position; a Postgres
transaction is all-or-nothing; one Redis command is atomic and a non-transactional pipeline may stop after any
command; an S3 put is atomic; the registry carries out a stage transition, archiving included, atomically; the
clock does not go backwards; a DLQ produce that does not raise is delivered, although the client only queues it;
the messages of one city are in one partition, as the producer keys them.

## Where the code and its documentation disagree

The model follows the code.

- The stream consumer's header and `docs/decisions.md:668-671` say that a message that hit a Redis error is
  re-delivered.  A later good message on its partition is noted, and the commit goes past the failed one
  (`StreamConsumer.CommitPassesAFailedMessage`, `StreamConsumer.CommitIsSafeIff`), and Redis then stays short of it
  (`RouteDelivery.OvertakenFailureDiverges`).
- The same header says that commits come after 500 messages; the code counts partitions
  (`StreamConsumer.SizeThresholdCountsPartitions`).
- `docs/decisions.md:668-671` rules out silent data loss.  Offsets are committed before the buffer is uploaded, so a crash
  loses committed rows (`StreamConsumer.CrashLosesACommittedRow`, `StreamConsumer.LakeAccounting`); and an upload error that is not a `ClientError` drops
  the batch in hand (`ParquetBuffer.ConservedIffNothingEscaped`).
- `docs/decisions.md:56` says that `_written` lives in memory only; the code rebuilds it from S3.
- The exporter's comment says that a failed write will be retried.  Within a process it is not
  (`Exporter.NoRetryWithinALife`), and a start-up across an hour boundary leaves an hour out
  (`Exporter.LifeAttemptsExactly`).
- `ON CONFLICT (event_id) DO NOTHING` is described as idempotent.  The column is nullable and unique, and a
  message with a null id passes validation, so such rows are inserted on every delivery
  (`Ingestor.ReinsertIsNoOpIff`, `Backfill.SecondBackfillAddsNothingIff`).
- The replay tool moves a partition without a late enough message to its end, which skips what was not yet
  consumed (`IngestorLoop.ReplayIsSafeIff`).
- The key pattern is searched for, not matched from the start, so a copied key below another prefix counts as the
  original (`LakeKeys.CopiesParseAsOriginals`, `Exporter.ListingIsHonestIff`).
- The sync's docstring ties the sentinel to confirmed-complete routes.  A value that is null in the mart stays
  as an older run wrote it (`SyncFeatures.SentinelOverAStaleFeature`, `SyncFeatures.SentinelVouchesForAllIff`).
- The comment on the retrain stamp says that a racing run would fail at the lock; it may get the lock after the
  first run has ended (`Retrain.CooldownCanBeOutrun`).
- The promote endpoint says that 409 means there is no Staging version. A ValueError from the load is answered 409
  too, with the version already in Production (`ModelServer.ConflictAfterTheMove`).
- The reload lock does not cover the startup retry's load, only its store (`HotSwap.RetryCanUndoAPromote`).
- The numeric PSI's docstring asks for ten values on both sides; the code asks for five on the validation side.

## Model

| member | source | states |
|---|---|---|
| `SlidingWindow.RouteStore.UpdateDemandFeatures` | services/worker/app/stream_features/redis_ops.py:68-141 | One demand event: conditional ZADD, both trims, four counts, one HSET, in this order. States both sorted sets and the hash after the connection has died at any command; after a whole call, that the hash shows the window counts and the bookings per search of the sets, in plain figures, and leaves every other field alone |
| `SlidingWindow.UpdatePublishes` | services/worker/app/stream_features/redis_ops.py:116-141 | What the hash shows after a whole update: distinct ids of the last 300 s and 900 s, and a ratio r with r * searches = bookings of the last 3600 s, or r = bookings without a search |
| `SlidingWindow.EffectOnMember` | services/worker/app/stream_features/redis_ops.py:103-113 | A whole update member by member: a search joins one set, a booking the other, anything else neither, and whatever is 3601 s or more behind leaves |
| `SlidingWindow.VisitIsTheCall` | services/worker/app/stream_features/redis_ops.py:101-132 | A visit stands for a call whose connection lasts for so many commands |
| `SlidingWindow.RouteStore.UpdateWeatherFeatures` | services/worker/app/stream_features/redis_ops.py:152-185 | One weather reading: each value is in its own field, values that are missing leave theirs as it was, the freshness field always moves, no other field changes |
| `SlidingWindow.Retention` | services/worker/app/stream_features/redis_ops.py:103-119 | Retention law over any visits in any order, partial pipelines included: an id is in a sorted set with a score if and only if its last addition had that score and nothing handled since is 3601 s or more ahead of it |
| `SlidingWindow.KeptIsKeptByLog` | services/worker/app/stream_features/redis_ops.py:103-119 | The same law read off the event log alone once a run has caught up |
| `SlidingWindow.Convergence` | services/worker/app/stream_features/redis_ops.py:103-128 | Replay convergence: once the last visit of every event was whole and was followed by later events only, the set is the one an uninterrupted pass leaves, whatever failures, half-executed pipelines, crashes and resets came before |
| `SlidingWindow.AggregatesConverge` | services/worker/app/stream_features/redis_ops.py:121-141 | The three published aggregates converge too |
| `SlidingWindow.ReplayingASuffixChangesNothing` | services/worker/app/stream_features/redis_ops.py:103-128 | Re-processing any suffix of any history, in order or not, changes neither the sets nor the aggregates |
| `SlidingWindow.NeverOvercounts` | services/worker/app/stream_features/redis_ops.py:121-128 | For any history in any order, a window count never exceeds the number of distinct matching ids |
| `SlidingWindow.CountDeficit` | services/worker/app/stream_features/redis_ops.py:103-128 | A window count is short by exactly the ids of the window that an earlier, more advanced event has trimmed |
| `SlidingWindow.ExactIffNothingTrimmed` | services/worker/app/stream_features/redis_ops.py:103-128 | A window count is right in every run if and only if no id of its window was trimmed early |
| `SlidingWindow.ToleranceIsExact` | services/worker/app/stream_features/redis_ops.py:98-128 | Disorder bound, exact: a window of width W is counted right on every history whose events stay less than d ahead of the last one if and only if d <= 3601 - W |
| `SlidingWindow.TolerancesInUse` | services/worker/app/stream_features/redis_ops.py:98-128 | The bound for the widths in use: 3301 s, 2701 s and 1 s |
| `SlidingWindow.OvershootUndercounts` | services/worker/app/stream_features/redis_ops.py:115-128 | A concrete history at the bound that is undercounted, for each width |
| `StreamDelivery.DeliveryHolds` | services/worker/app/stream_features/consumer.py:105-228 | Invariant over every run of the consumer with Redis failures, crashes and backward resets: the visits to a partition come back in order, and what is committed, noted or read without a failure was last visited whole, unless a failure was overtaken |
| `StreamDelivery.ReadMeansCaughtUp` | services/worker/app/stream_features/consumer.py:105-228 | Every run without an overtaken failure that has read a partition to its end has caught up, whatever it went through |
| `StreamDelivery.CaughtUpIffNothingMissed` | services/worker/app/stream_features/consumer.py:105-228 | Overtaken or not: a run that has read a partition to its end has caught up if and only if no message's last handling failed |
| `StreamDelivery.PassedFailureIsFinal` | services/worker/app/stream_features/consumer.py:186-207 | Once a commit has passed a failed message, no continuation without an offset reset ever catches up |
| `RouteDelivery.ProjectCaughtUp` | services/worker/app/stream_features/redis_ops.py:68-141 | A run that has caught up with a partition has caught up with the events of each route in it |
| `RouteDelivery.RedisIsSetAfter` | services/worker/app/stream_features/consumer.py:156-162 | The sorted set that the consumer machine leaves for a route is the one its visits produce |
| `RouteDelivery.RedisConverges` | services/worker/app/stream_features/consumer.py:105-228 | So Redis converges over the runs of the machine: with no overtaken failure and the partition read to its end, every route has the sets and the aggregates of one uninterrupted pass |
| `RouteDelivery.OvertakenFailureDiverges` | services/worker/app/stream_features/consumer.py:186-207 | Witness: a failed search, a good one and a commit leave the first search out of the set, and no continuation without a reset catches up |
| `RouteDelivery.LakeMirrorsRoute` | services/worker/app/stream_features/consumer.py:166-171 | With no overtaken failure, nothing lost in a crash and an empty buffer, the stream lake holds exactly the route's events |
| `RouteDelivery.StoresAgree` | tools/reconstruct.py:193-278 | Then the lake query answers with the aggregates that Redis holds, for routes whose events come in time order |
| `LakeQuery.WindowSlots` | tools/reconstruct.py:150-162 | The loop over hours yields exactly the hours from the window start to its end |
| `LakeQuery.OneHourTakesTwoSlots` | tools/reconstruct.py:150-162 | A window of 3600 s always touches exactly two hour slots, also at a full hour |
| `LakeQuery.ListStreamPaths` | tools/reconstruct.py:165-176 | The files of the slots, in order |
| `LakeQuery.Reconstruct` | tools/reconstruct.py:193-278 | No answer if and only if the two slots hold no file; otherwise the answer is that of a scan of the whole lake: the four distinct counts in plain figures, bookings per search, and the number of files in the two slots |
| `LakeQuery.AnswerAnswers` | tools/reconstruct.py:225-278 | The answer spelled out over the rows: distinct ids by kind and window, and r * searches = bookings |
| `LakeQuery.SlotScanFindsAll` | tools/reconstruct.py:205-264 | Partition pruning is lossless: the two slots give the same distinct ids as the whole lake, if every event sits in its own hour |
| `LakeQuery.LakeAgreesWithRedis` | tools/reconstruct.py:225-278 | For histories with non-decreasing times the lake query gives the aggregates and the four counts that Redis has, whatever crashes and duplicates happened on either side |
| `LakeQuery.LakeMinusRedis` | tools/reconstruct.py:225-264 | For any history the lake has exactly the ids Redis has and those disorder trimmed; the counts agree if and only if none was |
| `Offsets.CommitMovesPastNoted` | services/ingestor/app/consumers.py:136-138 | A commit moves each noted partition to the offset after the noted one, and no other |
| `Offsets.NotesTheGreatest` | services/ingestor/app/consumers.py:131-133 | The noted offset of a partition is the greatest one seen |
| `Ingestor.ValidationIsByKeys` | services/ingestor/app/consumers.py:100-128 | A body is accepted, with its own id and payload, if and only if the three envelope keys are there, the version is the known one and every required field is in the payload; rejected otherwise |
| `Ingestor.DemandIsAcceptedIff` | services/ingestor/app/consumers.py:115-120 | The demand topic: version 1, city, event_type, sim_ts, quantity |
| `Ingestor.WeatherIsAcceptedIff` | services/ingestor/app/consumers.py:123-128 | The weather topic: version 1, city, polled_at |
| `Ingestor.RowIsTheMessage` | services/ingestor/app/db.py:48-62 | The row of an accepted message carries its id and payload |
| `Ingestor.InsertAllKeeps` | services/ingestor/app/db.py:63-72 | ON CONFLICT DO NOTHING: the table only grows and never gets two rows of one event id |
| `Ingestor.InsertAllStores` | services/ingestor/app/db.py:63-72 | After an insert every row of the batch, or an earlier one with its id, is in the table |
| `Ingestor.ReinsertIsNoOpIff` | services/ingestor/app/db.py:63-72 | Inserting stored rows again is a no-op if and only if each carries an event id: the unique constraint ignores NULL |
| `Ingestor.InvHolds` | services/ingestor/app/consumers.py:192-260 | Protocol invariant over every run with a crash between any two steps: everything read since the last commit is in the batch or dead-lettered, the noted offsets are exactly how far each partition was read, and nothing committed is missing |
| `Ingestor.CommittedMeansSettled` | services/ingestor/app/consumers.py:145-172 | Safety: a message below a committed offset has its event id in the raw table or its value in the DLQ, unless the DLQ produce itself raised (a produce that does not raise is taken to be delivered); at the loop head the batch holds fewer than 500, all covered by the noted offsets |
| `Ingestor.CommittedIsStoredOrDeadLettered` | services/ingestor/app/consumers.py:145-172 | With every produce succeeding: below a committed offset each message has its id in the raw table or its value in the DLQ |
| `Ingestor.OnlyRejectedAreDeadLettered` | services/ingestor/app/consumers.py:224-241 | While no insert has failed, nothing but rejected messages goes to the DLQ |
| `Ingestor.ResetIsSafeIff` | tools/replay.py:108-137 | Moving the committed offsets keeps safety if and only if no message skipped over is unsettled |
| `Ingestor.BatchAddsOnlyNewPositions` | services/ingestor/app/db.py:63-72 | A batch inserted into the table that earlier positions made adds only the positions not met before |
| `Ingestor.ExactlyOnceEffect` | services/ingestor/app/consumers.py:131-172 | Exactly-once effect: after any crashes, failed commits and backward resets with no failed insert, the table is the one that an uninterrupted consumer builds, partition by partition, if event ids are never null |
| `Ingestor.RowsArePermanent` | services/ingestor/app/db.py:63-72 | In every run whatsoever: at most one row per event id, and a row once inserted is never changed, moved or removed |
| `IngestorLoop.Consumer.HandleMessage` | services/ingestor/app/consumers.py:192-242 | One message: buffered if and only if it is well-formed, dead-lettered if not, its offset noted and the position moved; a body the code does not expect ends the loop with nothing noted |
| `IngestorLoop.Consumer.FlushBatch` | services/ingestor/app/consumers.py:145-172 | Insert or dead-letter every item, then commit; if the commit fails the offsets stay noted |
| `IngestorLoop.Consumer.Turn` | services/ingestor/app/consumers.py:192-255 | One turn of the loop with its two flush conditions |
| `IngestorLoop.Consumer.ConsumerLoop` | services/ingestor/app/consumers.py:175-268 | A process from start to stop, with the final flush |
| `IngestorLoop.ConsumerRunIsChain` | services/ingestor/app/consumers.py:175-268 | Every execution of the loop is a run of the protocol machine, so the safety results hold of the code as written |
| `IngestorLoop.ConsumerRunIsSafe` | services/ingestor/app/consumers.py:175-268 | A process that starts where nothing committed is missing ends there too |
| `IngestorProgress.FlushSettles` | services/ingestor/app/consumers.py:145-172 | A flush stores every buffered message, or leaves the table alone and offers each to the DLQ; with the commit going through, everything read is committed |
| `IngestorProgress.TurnFlushesIffDue` | services/ingestor/app/consumers.py:244-255 | A turn flushes exactly when 500 are buffered or two seconds have passed since the last flush, and only then does the timer start anew |
| `IngestorProgress.TurnTakesTheMessage` | services/ingestor/app/consumers.py:192-242 | A turn that receives a message moves past it |
| `IngestorProgress.NoMessageWaitsLonger` | services/ingestor/app/consumers.py:244-255 | Over any number of turns: what has been read is committed by the first turn that comes two seconds later, however few messages there are |
| `IngestorProgress.ClosingSettles` | services/ingestor/app/consumers.py:258-268 | A normal stop puts the buffered rows into the table, or into the DLQ if the insert fails, and commits everything read if the commit goes through |
| `IngestorProgress.CleanProcessHandlesAll` | services/ingestor/app/consumers.py:175-268 | A whole process when nothing fails: every message it is offered is committed and in the table or the DLQ when it has stopped |
| `IngestorLoop.Replay` | tools/replay.py:108-129 | Per partition the first message at or after the time, or the end if there is none |
| `IngestorLoop.ReplayIsSafeIff` | tools/replay.py:108-137 | The replay tool keeps safety if and only if every message it leaves behind is settled: moving to the partition end is a skip |
| `StreamConsumer.CommitRule` | services/worker/app/stream_features/consumer.py:136-207 | In every run in which a Redis failure on a partition is not followed by another handled message on it in the same process, everything below a committed offset was applied to Redis or was invalid |
| `StreamConsumer.CommitIsSafeIff` | services/worker/app/stream_features/consumer.py:91-98 | A single commit keeps the rule if and only if no noted offset lies beyond a skipped message |
| `StreamConsumer.ResetIsSafeIff` | tools/replay.py:108-137 | An offset reset of the stream group keeps the rule if and only if what it leaves behind was applied or invalid; one that goes back always does |
| `StreamConsumer.CommitPassesAFailedMessage` | services/worker/app/stream_features/consumer.py:186-207 | Witness that the rule fails in general: a Redis failure on offset 0, a good message on offset 1, a commit, and offset 0 is committed but never applied |
| `StreamConsumer.SizeThresholdCountsPartitions` | services/worker/app/stream_features/consumer.py:201-207 | The size threshold counts partitions: on fewer than 500 partitions it never fires and only the timer commits |
| `StreamConsumer.LakeAccounting` | services/worker/app/stream_features/consumer.py:201-212 | What a crash costs the lake: a committed valid message is missing from lake and buffer if and only if it sat in the buffer at a crash after its commit and no reset has gone back to it |
| `StreamConsumer.CrashLosesACommittedRow` | services/worker/app/stream_features/consumer.py:201-212 | Witness: one message applied, committed and not yet uploaded when the process dies is in no store but Redis |
| `StreamConsumer.GoneUntilReset` | services/worker/app/stream_features/consumer.py:201-212 | A lost row stays lost until the offsets are reset to it or to before it |
| `StreamConsumer.StreamLoop.HandleMessage` | services/worker/app/stream_features/consumer.py:128-196 | One message: applied, buffered and noted; only noted if invalid; nothing noted if Redis fails |
| `StreamConsumer.StreamLoop.Turn` | services/worker/app/stream_features/consumer.py:125-212 | One turn with its independent commit and flush timers, a commit or a flush that raises leaving the loop |
| `StreamConsumer.StreamLoop.ConsumerLoop` | services/worker/app/stream_features/consumer.py:105-228 | A process from start to stop keeps the commit rule as long as no failure is overtaken |
| `StreamConsumer.TurnIsEvents` | services/worker/app/stream_features/consumer.py:125-212 | Each turn is a few events of the machine, so the rules hold of the loop |
| `StreamConsumer.HandlingOneMessage` | services/worker/app/stream_features/consumer.py:128-196 | The three cases of a message: applied, buffered and noted; noted only; passed over |
| `StreamProgress.TurnTakesTheMessage` | services/worker/app/stream_features/consumer.py:125-196 | A turn that receives a message moves past it, and a valid one that Redis takes is applied |
| `StreamProgress.TurnUploadsIffDue` | services/worker/app/stream_features/consumer.py:209-212 | When the interval is over every row in memory whose upload succeeds is in the lake and out of the buffer, also one applied in this turn, and the timer starts anew; before that nothing is uploaded |
| `StreamProgress.TurnCommitsIffDue` | services/worker/app/stream_features/consumer.py:201-207 | When two seconds are over, or 500 partitions noted, and the broker answers, every noted offset is committed; before that nothing is; a commit that fails ends the loop |
| `StreamProgress.NoRowWaitsLonger` | services/worker/app/stream_features/consumer.py:209-212 | Over any number of turns: no row stays in memory longer than the interval while uploads succeed |
| `StreamProgress.NoOffsetWaitsLonger` | services/worker/app/stream_features/consumer.py:201-207 | Over any number of turns: no noted offset waits longer than two seconds while commits succeed |
| `StreamProgress.ClosingSavesEverything` | services/worker/app/stream_features/consumer.py:214-227 | A stop with an answering broker and succeeding uploads commits every noted offset and loses no row |
| `StreamProgress.TurnRaisesIff` | services/worker/app/stream_features/consumer.py:125-212 | A turn raises exactly on a message that raises, a due commit that fails or a due flush that raises, and only the last gives up the rows in memory |
| `StreamProgress.EscapedFlushKeepsUploads` | services/worker/app/stream_features/consumer.py:209-226 | A flush that raises keeps what it uploaded before and nothing else |
| `StreamProgress.StopAfterEscape` | services/worker/app/stream_features/consumer.py:214-227 | The stop uploads the buffered rows that can be uploaded, and none after a flush that raised |
| `StreamProgress.CleanProcessHandlesAll` | services/worker/app/stream_features/consumer.py:105-228 | A whole process when nothing fails: each valid message it is offered is in Redis and in the lake when it has stopped, and all are committed |
| `ParquetBuffer.GroupKeeps` | services/worker/app/stream_features/parquet_buffer.py:95-99 | Grouping by (dt, hour) keeps every record, in order, and gives each partition one non-empty part |
| `ParquetBuffer.ParquetBuffer.Append` | services/worker/app/stream_features/parquet_buffer.py:71-79 | Append puts the record last |
| `ParquetBuffer.ParquetBuffer.Flush` | services/worker/app/stream_features/parquet_buffer.py:81-116 | A flush uploads the parts in order, puts refused records back in front, raises exactly if an upload raises, and then loses what it had taken |
| `ParquetBuffer.InvHolds` | services/worker/app/stream_features/parquet_buffer.py:71-116 | Under any interleaving of appends with one flusher: for each partition uploaded, in-hand and pending records concatenate to the appended ones, as long as nothing escaped |
| `ParquetBuffer.ConservedIffNothingEscaped` | services/worker/app/stream_features/parquet_buffer.py:81-116 | Order and content are kept for every partition if and only if no exception other than ClientError escaped a flush |
| `ParquetBuffer.UploadsArePossible` | services/worker/app/stream_features/parquet_buffer.py:104-116 | A flush is a run of that machine |
| `ParquetBuffer.FlushBySlot` | services/worker/app/stream_features/parquet_buffer.py:81-116 | A flush partition by partition: with the upload succeeding all buffered records are in the lake, in order, and none is left; refused, they stay as they were |
| `LakeKeys.DateOfIsGregorian` | services/ingestor/app/parquet_writer.py:216-235 | The naming of days is the Gregorian calendar: the n-th date is a day of it, with a closed day number n more than that of 1 January 1000 |
| `LakeKeys.DayNumberIsInjective` | services/ingestor/app/parquet_writer.py:235 | A day number names one day |
| `LakeKeys.KeySpelledOut` | services/ingestor/app/parquet_writer.py:289-291 | The key of 1 March 2025, seven hours, in full |
| `LakeKeys.ParseOfRawKey` | services/ingestor/app/parquet_writer.py:64-101 | Parsing a printed raw key gives back table, date and hour, for every slash-free table name and every date of four-digit year |
| `LakeKeys.ParseIsSound` | services/ingestor/app/parquet_writer.py:64-101 | A key that parses ends in the canonical form of what it parses to, a final newline aside |
| `LakeKeys.ParseIsEndsIn` | services/ingestor/app/parquet_writer.py:64-101 | And the converse: a key parses to a partition if and only if it ends in its canonical form, whatever stands before it |
| `LakeKeys.RawKeyInjective` | services/ingestor/app/parquet_writer.py:291 | No two partitions share a key |
| `LakeKeys.CopiesParseAsOriginals` | services/ingestor/app/parquet_writer.py:64-101 | The search is not anchored: a copy of a key below another prefix parses as the original |
| `LakeKeys.HourPartOrder` | tools/reconstruct.py:458-461 | The zero-padded dt=/hour= part sorts as time does, over every calendar date of four-digit year |
| `LakeKeys.LastKeyIsInLatestHour` | tools/reconstruct.py:458-461 | The key that sorts last lies in the latest hour that has a file |
| `Exporter.KeyOfIsFaithful` | services/ingestor/app/parquet_writer.py:235-239 | Distinct partitions have distinct names, and the object key is the one whose parse is the name |
| `Exporter.KeyOfNamesTheHour` | services/ingestor/app/parquet_writer.py:233-239 | A name says which hour it stands for: its date text prints a day of the calendar, 24 times its day number plus its hour is the hour |
| `Exporter.ParquetWriter.SyncWrittenSetFromS3` | services/ingestor/app/parquet_writer.py:170-196 | The written-set after a listing, complete or cut short |
| `Exporter.ParquetWriter.MaybeWrite` | services/ingestor/app/parquet_writer.py:233-241 | A partition in the written-set is left alone; otherwise it is attempted, and remembered only if it was uploaded |
| `Exporter.OneAttempt` | services/ingestor/app/parquet_writer.py:233-241 | An attempt uploads and remembers exactly what is not written yet, has rows and whose upload succeeds |
| `Exporter.ParquetWriter.CatchUp` | services/ingestor/app/parquet_writer.py:198-214 | The 25 completed hours before the reading, newest first, both tables |
| `Exporter.CatchUpGoesBack` | services/ingestor/app/parquet_writer.py:206-214 | Its j-th pair of attempts is the j-th hour before the reading, both tables by name |
| `Exporter.ParquetWriter.FlushRolledHours` | services/ingestor/app/parquet_writer.py:216-231 | Every hour of [from, up_to), both tables |
| `Exporter.ParquetWriter.Run` | services/ingestor/app/parquet_writer.py:128-162 | A process: listing, catch-up, steady loop, shutdown pass |
| `Exporter.LifeAttemptsExactly` | services/ingestor/app/parquet_writer.py:128-162 | The hours a process attempts are exactly the 25 before its catch-up reading and those from its tracked hour to its last reading; hours between the two readings are left out |
| `Exporter.BothTablesADayBack` | services/ingestor/app/parquet_writer.py:61-86 | The same in figures, for the two tables by name |
| `Exporter.TrackedIsLatest` | services/ingestor/app/parquet_writer.py:145-162 | The tracked hour ends at the latest reading |
| `Exporter.NoLiveHour` | services/ingestor/app/parquet_writer.py:198-231 | No live hour is ever uploaded |
| `Exporter.NoRetryWithinALife` | services/ingestor/app/parquet_writer.py:151-153 | A process attempts each partition at most once, so a failed write waits for the next start-up |
| `Exporter.AttemptsStayHonest` | services/ingestor/app/parquet_writer.py:233-241 | The written-set stays a subset of the S3 objects |
| `Exporter.OwnListingIsHonest` | services/ingestor/app/parquet_writer.py:93-101 | Starting from a listing of nothing but the exporter's own keys makes it such a subset |
| `Exporter.ListingIsHonestIff` | services/ingestor/app/parquet_writer.py:93-101 | Starting from a listing makes it such a subset if and only if, whatever a listed key ends in, the canonical key it ends in is itself in the bucket |
| `Exporter.CopyMakesListingDishonest` | services/ingestor/app/parquet_writer.py:93-101 | Witness: a bucket with nothing but a copy of a key below another prefix |
| `Exporter.Coverage` | services/ingestor/app/parquet_writer.py:128-241 | Coverage over any sequence of processes, each crashing anywhere: if each starts with at most 25 completed hours behind and not across an hour boundary, every hour up to the frontier was attempted or is in S3, for both tables |
| `Exporter.FrontierIsTrackedHour` | services/ingestor/app/parquet_writer.py:145-160 | For a process that finished its passes the frontier has reached its last clock reading |
| `Backfill.HourFileHas` | services/ingestor/app/parquet_writer.py:256-270 | Hour files partition the raw rows by ingested_at: a row is in the file of its own hour and in no other |
| `Backfill.HourFilesAddUp` | services/ingestor/app/parquet_writer.py:256-270 | The sizes of the hour files add up to the table |
| `Backfill.InsertStampedIsInsertAll` | tools/backfill.py:156-162 | Apart from the time stamps a restored file is inserted as the ingestor inserts; what is added is stamped anew |
| `Backfill.Restorer.InsertPartition` | tools/backfill.py:136-162 | The reported count is what the table grew by; a dry run changes nothing |
| `Backfill.Restorer.Backfill` | tools/backfill.py:183-229 | The totals reported are the non-empty files of the range and the growth of the tables |
| `Backfill.CountsAddUp` | tools/backfill.py:200-211 | The reported counts add up file by file |
| `Backfill.JobsHas` | tools/backfill.py:170-211 | A range stands for every hour of every day in it, both ends included, and for nothing else |
| `Backfill.BackfillRestores` | tools/backfill.py:136-211 | Backfilling into any part of the original adds exactly the missing event ids of the written hours in range, keeps the rows that were there, never doubles an id, and every row added is a row of the original |
| `Backfill.SecondBackfillAddsNothingIff` | tools/backfill.py:136-211 | A second backfill adds nothing if and only if no file of the range holds a null event id |
| `Backfill.RepeatAfterFailure` | tools/backfill.py:183-211 | A backfill that died part-way can be repeated: the rows end up as after one undisturbed run |
| `FeatureRegistry.BuildRegistry` | libs/common/common/features/registry.py:85-95 | Construction fails exactly on duplicate names, and then names the repeated ones |
| `FeatureRegistry.AllNamesCountIffDistinct` | libs/common/common/features/registry.py:86-94 | The length comparison is right: fewer names than features if and only if some name repeats |
| `FeatureRegistry.RepeatsOf` | libs/common/common/features/registry.py:88-94 | Each name is reported once for each time it occurs again |
| `FeatureRegistry.SourcesSplitTheNames` | libs/common/common/features/registry.py:131-133 | by_source splits the names of a registry into two disjoint sets that cover it |
| `FeatureRegistry.RouteFeaturesSuitable` | libs/common/common/features/registry.py:182-336 | The registry in use has unique names, lists the stream writers' fields as stream features and neither freshness field |
| `FeatureRegistry.RouteFeaturesBySource` | libs/common/common/features/registry.py:182-336 | The features in use, by name: twelve of the batch and six of the stream writers |
| `FeatureWriters.FieldIsLastWrite` | services/worker/app/feature_store.py:222-235 | After any interleaving of HSETs a field holds the last non-null value written to it |
| `FeatureWriters.IndependentIffDisjoint` | services/worker/app/feature_store.py:222-235 | Batch and stream leave each other's fields as if the other never ran, in every interleaving, if and only if no field is on both sides |
| `FeatureWriters.SuitableIsIndependent` | libs/common/common/features/registry.py:85-133 | Unique names and the source split give that disjointness |
| `FeatureWriters.RouteWritersAreIndependent` | services/worker/app/stream_features/redis_ops.py:132-185 | So the three writers of the route hash are independent, batch against stream |
| `FeatureWriters.StreamWritersKeepApart` | services/worker/app/stream_features/redis_ops.py:132-185 | Demand and weather leave each other's features alone |
| `FeatureWriters.StreamFreshnessIsShared` | services/worker/app/stream_features/redis_ops.py:132-176 | But stream_computed_at tells when either of them last wrote |
| `NightlySync.BuildMapping` | services/worker/app/feature_store.py:220-229 | The mapping of one row: non-null batch features and the freshness stamp |
| `NightlySync.FeatureStore.SendBatch` | services/worker/app/feature_store.py:211-238 | One pipeline: the rows before the point of failure are written, in order |
| `NightlySync.FeatureStore.Sync` | services/worker/app/feature_store.py:157-266 | The whole sync when the connection dies after any command: which rows are written, whether the sentinel is, and what the caller sees; the batching shows nowhere. A negative batch size writes no row and still sets the sentinel |
| `NightlySync.CommandsReached` | services/worker/app/feature_store.py:207-266 | Rows go out one command each and the sentinel is the command after the last; with a negative batch size it is the first |
| `SyncRuns.InvHolds` | services/worker/app/feature_store.py:207-266 | Invariant over any nightly runs, each dying anywhere, among stream writes: the sentinel is the stamp of the last completed run, and every route's batch fields come from the last run that wrote it |
| `SyncRuns.SentinelNamesACompleteRun` | services/worker/app/feature_store.py:247-266 | The sentinel names a run all of whose rows were written, and every route of it is at least as fresh |
| `SyncRuns.EqualToSentinelIff` | services/worker/app/feature_store.py:247-266 | A route equals the sentinel exactly when the completed run wrote it last, and then its hash carries every value of that row |
| `SyncRuns.NewerThanSentinelIff` | services/worker/app/feature_store.py:247-266 | A route is newer than the sentinel exactly when a later run wrote it, which has not completed |
| `SyncRuns.StampWithoutSentinel` | services/worker/app/feature_store.py:247-266 | Before any run completes, every batch stamp comes from a run that has not |
| `SyncRuns.SyncIsARun` | services/worker/app/feature_store.py:207-266 | The sync as implemented is such a run |
| `SyncRuns.NullsKeepOlderValues` | services/worker/app/feature_store.py:225-229 | A list of row writes leaves alone a feature that is null in every row of the route |
| `SyncFeatures.FeaturesHold` | services/worker/app/feature_store.py:220-235 | Over any runs and stream writes, a batch feature holds the last value any run gave it, and is absent if none did |
| `SyncFeatures.SentinelVouchesForAllIff` | services/worker/app/feature_store.py:247-266 | For a route as fresh as the sentinel, all its batch features come from the run the sentinel names if and only if no feature that an earlier run gave the route is null in that run |
| `SyncFeatures.SentinelOverAStaleFeature` | services/worker/app/feature_store.py:220-266 | Witness, for every batch feature: two nights, the feature null on the second, and the route equals the sentinel with the first night's value |
| `SyncFeatures.OneRowGives` | services/worker/app/feature_store.py:225-226 | A run with one row per route gives exactly the features present in that row |
| `Retrain.Retrainer.MaybeTrigger` | services/worker/app/auto_retrain.py:427-482 | A run is launched if and only if the switch is on, some feature exceeds the threshold or is flagged, and the cooldown is over |
| `Retrain.WhatExceeds` | services/worker/app/auto_retrain.py:444-450 | A score above the threshold counts, a missing one is zero, a detection flag counts whatever the score |
| `Retrain.Retrainer.RunAutoRetrain` | services/worker/app/auto_retrain.py:364-424 | Undisturbed, the lock is back where it was on every exit path, and the stamp moved exactly if the lock was obtained |
| `Retrain.InvHolds` | services/worker/app/auto_retrain.py:364-482 | Invariant over all interleavings of drift checks, weekly jobs and spawned threads, one shared access at a time |
| `Retrain.AtMostOneActive` | services/worker/app/auto_retrain.py:377-424 | At most one run is active, and when none is the lock is free |
| `Retrain.HolderReleases` | services/worker/app/auto_retrain.py:388-424 | From any reachable state the lock holder's own next steps release the lock, and no other job's step interferes |
| `Retrain.DriftStartsKeepTheCooldown` | services/worker/app/auto_retrain.py:452-482 | A drift-triggered start comes within the cooldown of an earlier start only if that one was stamped between the drift job's own check and its lock acquisition |
| `Retrain.CooldownCanBeOutrun` | services/worker/app/auto_retrain.py:452-482 | Witness for any cooldown: a weekly run that ends between a drift check and its thread's attempt at the lock is followed by the drift run at once |
| `Retrain.UndisturbedDrift` | services/worker/app/auto_retrain.py:452-482 | Undisturbed with the lock free, a drift check starts a run at once if none has started or the cooldown is over, and none within it |
| `Retrain.WeeklyKnowsNoCooldown` | services/worker/app/auto_retrain.py:364-390 | The weekly job starts whenever the lock is free and gives up when it is held |
| `Retrain.CooldownEnds` | services/worker/app/auto_retrain.py:452-482 | Once the cooldown is over a drift check with the lock free starts a run again |
| `ModelRegistry.Registry.MaybePromote` | services/worker/app/auto_retrain.py:261-356 | The holdout gate: each verdict with its condition, and the version's stage and tags after it |
| `ModelRegistry.Registry.RegisterAndMaybePromote` | services/trainer/app/promote.py:221-358 | The trainer's two gates: each verdict with its condition, and the registry after it |
| `ModelLifecycle.UndisturbedJob` | services/trainer/app/promote.py:221-358 | Step by step and undisturbed, a training job leaves the registry as the one-call form does |
| `ModelLifecycle.JobStepKeeps` | services/trainer/app/promote.py:261-358 | Each registry access of a training job, with others in between, keeps the registry invariant: a rejected version is never staged, and one staged with a compared error beat Production |
| `ModelLifecycle.PromoteKeeps` | services/api/app/main.py:985-994 | A promotion keeps it, and leaves exactly the promoted version in Production |
| `HotSwap.InvHolds` | services/api/app/main.py:245-255 | Invariant over every interleaving of training jobs, promotes, reloads, startup retries and predictions |
| `HotSwap.OneProduction` | services/api/app/main.py:985-994 | At most one version is in Production, the one promoted last; a rejected version is in no stage |
| `HotSwap.StagesMoveForward` | services/api/app/main.py:985-994 | Production is entered only from Staging, Staging only on registration, and rejection is final |
| `HotSwap.FieldsComeFromOneLoad` | services/api/app/main.py:251-255 | At every moment the four model fields come from one load; no await lies between the four assignments, so storing them is one step |
| `HotSwap.PromotedVersionIsServed` | services/api/app/main.py:974-1005 | When promote returns, the API serves and reports the version it promoted, and the registry has it in Production |
| `HotSwap.LockedLoadsAreCurrent` | services/api/app/main.py:1291-1300 | A load made under the reload lock is current when stored and reports the version it serves |
| `HotSwap.StagingFieldsWereStaged` | services/api/app/main.py:217-242 | The Staging model and its label are both there or both missing, and both were staged |
| `HotSwap.LockedStagingIsCurrent` | services/api/app/main.py:217-242 | A load under the lock stores versions that are in Staging at that moment, and never reports a newer one than it serves |
| `HotSwap.UndisturbedLoad` | services/api/app/main.py:153-242 | Left alone a load yields the Production version and the highest Staging one, each under its own name |
| `HotSwap.FailedCallStoresNothing` | services/api/app/main.py:1007-1012 | A call that raises stores nothing and frees the lock |
| `HotSwap.PredictionReportsLater` | services/api/app/main.py:570-577 | A prediction uses the model served when it starts and reports the version served when it answers |
| `HotSwap.ServedIsCurrentIff` | services/api/app/main.py:245-255 | The served model is the Production version if and only if no promotion came after the stored load fetched it; label and model agree if and only if none came inside the load |
| `HotSwap.PredictionIsLabelledRightIff` | services/api/app/main.py:569-577 | A prediction reports the version it used if and only if no promotion lies between that model's fetch and the version search of the load current at the answer |
| `HotSwap.RetryCanUndoAPromote` | services/api/app/main.py:245-255 | Witness: a startup retry that loaded before a promote and stores after it puts the old version back |
| `HotSwap.Drive` | services/api/app/main.py:974-1005 | Left alone, a promote with a staged version always goes through, and the highest staged version is served |
| `ModelServer.LatestInStage` | services/api/app/main.py:188-191 | The highest version number in a stage |
| `ModelServer.DoLoadModels` | services/api/app/main.py:153-242 | A load fails exactly when the version search or the Production fetch raises or there is no Production version, with a ValueError exactly when one of the two raised it; a failed Staging fetch is tolerated |
| `ModelServer.AppState.AdminReload` | services/api/app/main.py:1284-1316 | All four fields from the new load, or none changed |
| `ModelServer.AppState.AdminPromote` | services/api/app/main.py:963-1025 | The registry moves exactly when the search, a staged version and the transition are there; 409 exactly without a staged version or when any call raised a ValueError, also one in the load, after the move; 200 serves the promoted version, any failure leaves the served fields alone |
| `ModelServer.ConflictAfterTheMove` | services/api/app/main.py:985-1008 | Witness: a ValueError in the load answers 409 with the version already in Production |
| `FanOut.QueueTakesFifty` | services/api/app/main.py:902 | A queue takes fifty messages in order and refuses the next |
| `FanOut.WhatEventsDo` | services/api/app/main.py:287-296 | A connection hears of what is broadcast from then on; a broadcast is queued for every subscriber with room and ends the subscription of every other |
| `FanOut.Hub.Broadcast` | services/api/app/main.py:287-296 | Every subscriber with room gets the message, every full one is dropped, and nothing else changes |
| `FanOut.SegmentIsGapFree` | services/api/app/main.py:894-913 | For each subscriber, sent, in hand and queued form one gap-free segment of the broadcasts from its subscription on, with at most 50 queued |
| `FanOut.DroppedIffBehind` | services/api/app/main.py:287-296 | A subscriber is dropped exactly when its queue holds the 50 broadcasts before this one |
| `FanOut.NothingAfterTheEnd` | services/api/app/main.py:287-296 | Once dropped or gone, a subscriber hears of no later broadcast |
| `FanOut.DrainedClientHasItsSegment` | services/api/app/main.py:903-913 | What was sent is a prefix of the segment, and all of it exactly when nothing is queued or in hand |
| `FanOut.OneSend` | services/api/app/main.py:903-912 | A send moves the message in hand to the sent ones, or ends the connection with nothing more sent |
| `FanOut.WorkStaysPossible` | services/api/app/main.py:903-909 | A connection with anything left to send can always go on, and nothing that happens elsewhere stops it |
| `FanOut.Drains` | services/api/app/main.py:903-909 | By its own steps alone a connection that stays up is sent its whole segment |
| `PsiTerms.TermIsNonNegative` | services/trainer/app/promote.py:146 | No PSI term is negative, and a term is zero only where the proportions agree |
| `PsiTerms.TermIsSymmetric` | services/trainer/app/promote.py:171 | A term is symmetric in its two sides |
| `PsiTerms.TermIsBothEntropies` | services/trainer/app/promote.py:171 | A term is q ln(q/p) + p ln(p/q) |
| `PsiCategorical.ComputePsi` | services/trainer/app/promote.py:149-173 | The loop over the set of categories computes, whatever order the set is iterated in, the relative entropy of the validation shares against the training ones plus the converse, with the shares written out from counts and sizes |
| `PsiCategorical.PsiIsBothEntropies` | services/trainer/app/promote.py:158-173 | The index is the sum of the two relative entropies between the smoothed samples |
| `PsiCategorical.SharesSumToOne` | services/trainer/app/promote.py:168-170 | The smoothed proportions are positive and sum to one over the observed categories |
| `PsiCategorical.PsiIsNonNegative` | services/trainer/app/promote.py:149-173 | Never negative, and zero if and only if the smoothed proportions agree in every category |
| `PsiCategorical.ZeroIffSameSample` | services/trainer/app/promote.py:149-173 | On samples of one size, zero if and only if they are the same sample up to row order |
| `PsiCategorical.PsiIsSymmetric` | services/trainer/app/promote.py:149-173 | Symmetric in training and validation |
| `PsiCategorical.PsiIgnoresRowOrder` | services/trainer/app/promote.py:158-166 | Independent of the order of the rows |
| `PsiNumeric.EdgesSpanTrain` | services/trainer/app/promote.py:132-137 | The bin edges increase strictly and span the training values |
| `PsiNumeric.PercentileIsLinear` | services/trainer/app/promote.py:134 | The k-th percentile stands k tenths along the sorted values, in proportion between its neighbours |
| `PsiNumeric.EdgesArePercentiles` | services/trainer/app/promote.py:134 | The edges are the eleven percentiles, each once |
| `PsiNumeric.EdgeOpensItsBin` | services/trainer/app/promote.py:139-140 | A value on an edge counts in the bin it opens, on the last edge in the last bin |
| `PsiNumeric.HistogramCountsRange` | services/trainer/app/promote.py:139-140 | The histogram counts every value in range once, the greatest in the last bin, and no value out of range |
| `PsiNumeric.SharesSum` | services/trainer/app/promote.py:142-144 | Smoothed proportions sum to at most one, and to one if and only if no value is outside the training range |
| `PsiNumeric.TrainSharesSumToOne` | services/trainer/app/promote.py:142-144 | For the training side they sum to one |
| `PsiNumeric.PsiIsNonNegative` | services/trainer/app/promote.py:112-146 | Never negative, and with enough data zero if and only if every bin has the same smoothed share |
| `PsiNumeric.PsiIsBothEntropies` | services/trainer/app/promote.py:139-146 | The index is the sum of the two relative entropies between the smoothed histograms |
| `PsiNumeric.SparseMeansNoDrift` | services/trainer/app/promote.py:128-137 | Below ten training values, five validation values or two bins the index is zero |
| `PsiNumeric.ZeroIffSameHistogram` | services/trainer/app/promote.py:139-146 | On samples of one size and with enough data, zero if and only if both fill every bin alike |
| `PsiTerms.SampleIsLog` | services/trainer/app/promote.py:146 | The two laws used of the logarithm have a model |
| `DriftReport.ComputeDrift` | services/trainer/app/promote.py:180-214 | The gate passes exactly when no PSI is above the threshold, which the reported maximum decides; the worst feature is the first one with it |
| `DriftReport.DriftedOfParts` | services/trainer/app/promote.py:203 | The drifted list names the features above the threshold and no others, in their order |

## Left out

- Kafka, Postgres, Redis, S3, MLflow, Evidently and scikit-learn internals: only the contracts above are used.
- Offsets: they are taken to be consecutive from 0 in each partition; gaps left by transactions or compaction,
  retention, partition reassignment and consumer-group rebalances are not modelled.
- A multi-partition offset commit is taken to be all-or-nothing.
- JSON, Parquet and Arrow bytes: a message body is a decoded envelope, a body on which the code raises an
  exception it does not catch, or no JSON; all such exceptions are one case.
- Payload values are strings, since the protocols never look at them; the numeric range errors a database raises
  are failed inserts.
- Floating point: times, ratios, errors and PSI are exact reals. The rounding of `look_to_book_1h` to six digits,
  `str(float(...))` and the microsecond rounding of `datetime.fromtimestamp` are not modelled.
- The logarithm is a parameter with two laws; only those are used of it.
- Dates outside the years 1000 to 9999, and `\d` matching Unicode digits, are not modelled in the key patterns.
- Part-file names: successive flushes are taken to see distinct milliseconds, so no part overwrites another.
- `rows_scanned` of the reconstruction, counters, metrics and log lines.
- `_coerce_row`, column lists and the exporter's query text: a row is exported as it is.
- The mart, staging and feature-store SQL files are not part of this model, nor is anything that depends on them.
- One worker runs the nightly sync, and its runs have strictly increasing stamps; two syncs at once are not modelled.
- One API process is modelled; several replicas do not share the reload lock.
- A transition request whose reply is lost after it took effect, manual stage changes and version deletion.
- The time-based train / validation split and model fitting: a training job ends in one of the outcomes the code
  distinguishes, with an error on its holdout.
- `drift_report.json`, MLflow tags other than the rejection and the compared error.
- Prediction features, horizons and shadow scoring: a prediction is the model it used and the label it reported.
- The React UI, Prometheus proxy endpoints, alerting, benchmarks, demos, migrations, the lake command line, the
  weather generator and the chaos transforms.
- The weather twins of the ingestor and stream loops have the demand loops' control flow; one model stands for both,
  with the topic's schema version and required fields as a parameter in the ingestor.
- ParquetBuffer.ParquetBuffer.Flush: appends by another thread during a flush are in the machine, not in the
  method, which runs alone; the lock is the atomicity of the machine's events.
- Ingestor.CommittedMeansSettled: the DLQ producer's local queue, which a crash can empty, is not modelled.
- Retrain.Retrainer.RunAutoRetrain: one call that nothing interrupts; other threads are in the machine.
