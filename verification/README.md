# Verification of AlertSnitch's alert pipeline

AlertSnitch receives alert groups from AlertManager and stores them in Loki or in a SQL database. This
project models the parts of it that must not lose, duplicate or mix up alerts, and proves what they
promise:

- **The Loki write-ahead log.** An append-only file of length-prefixed frames, a checkpoint file, recovery,
  contiguous acknowledgement and compaction. `WriteAheadLog.Wal` is the log as a class over a directory
  (`Directory.Dir`) whose ghost field lists every disk state a crash could leave behind. Its methods are
  proved against the functions of `WalSpec`, which the run-level theorems use as their transitions.
- **The batch pipeline.** Producers and the replay goroutine, a bounded queue, the accumulator, a bounded
  channel of batches and the flusher form a transition system (`Pipeline`), one event for each choice of a
  `select` or each call. Joined with the log it gives `Durability`: every history of enqueues, steps,
  acknowledgements, compactions, crashes and restarts.
- **The stream transformations.** Label building, grouping by status, conversion, de-collision of timestamps,
  canonical stream keys, merging, and the flush that ties the metrics to the payload.
- **The MySQL save.** Deduplicated, hash-sorted pairs, the id cache, the order of row locks, the rows a save
  leaves and what they read back as, and the bounded retry of a transaction.

Files are named after the module they hold. `*Proofs` modules prove what the module before them defines.

## Hypotheses

The theorems name their hypotheses instead of idealising the code:

- JSON is an abstract codec. `Framing.RoundTrips` says that what is encoded decodes to itself and is not
  empty. `TornTail.JsonLike` adds three facts about JSON text, needed only for what is read behind a torn
  frame: it holds no NUL byte, text of at most three bytes leaves every field at its zero value, and text that
  ends in the beginning of an encoded record is that whole record after blanks.
- `Durability.Allowed` admits a write only to a log that can take it (`CanTakeRecord`): the file ends with a
  whole frame, the last number is not below the checkpoint, and numbers have not run out. Writes and syncs
  that are made succeed; everything else may fail, and a crash may come anywhere.
- `Streams` and `KvPairs` take the JSON encoder of a line, the metadata of an alert, the printable characters
  and the MD5 digest as functions. Where a result needs hashes to differ it says so (`NoCollisions`,
  `NoneTaken`).

## Where the code and its documentation part

- `internal/storage/loki/wal.go:20-25` says that every accepted alert is only forgotten once its outcome is
  terminal. That fails in three situations, each proved in `Hazards`: behind a torn tail nothing that is
  appended is ever read again; after a compaction that empties the log and a restart, numbering starts below
  the checkpoint; and a record whose sync failed shares its number with the next one, which is then lost
  (`Hazards.AcceptedRecordIsLost`).
  `Hazards.AppendedRecordComesBack` gives the exact condition for one append.
- `internal/storage/loki/batch.go:128-130` says that a shutdown waits for the replay to finish. The goroutine
  returns as soon as it sees the stop channel, which leaves its records in the log. Its `select` may also still
  pick the queue after the accumulator has looked at it for the last time and gone, and so may a producer that
  is still in `enqueue`: the item is then stranded (`Drain.ReplayCanStrandAnItem`). `Drain.DrainEnds` says that
  this is the only way, for every schedule of a shutdown.
- `internal/storage/loki/batch.go:220-223` acknowledges a batch even when delivery was aborted by shutdown, so
  "terminal" means that an outcome was recorded, not that Loki has the alerts.
- `internal/storage/loki/wal.go:30-32` wants a replay to reproduce the entry timestamps. It does for each group
  whose receive time was logged and for a whole batch of such groups, but another batch can nudge colliding
  entries differently: `Merge.MergeKeepsTimesUnlessTheyCollide`.
- `internal/storage/sqlstore/kv.go:17` separates key and value by SOH. Keys that contain it can run into the
  value (`KvPairs.PreimagesClash`), and two such pairs share one row (`KvStore.PairsCanShareARow`). In one map
  they make the save fail on the unique key of the link table (`database/mysql/0.2.0-labelkv.sql:41-90`); in two
  maps, or in two saves, one of them reads back as the other (`SqlTransaction.Tx.Save`).

## Main results

- Log: `TruncationKeepsWholeFrames`, `TornTailHidesLaterRecords`, `AcksCommute`, `CompactionIsInvisible`, `LogAfterAck`, `CompactedLogTakesRecords`, `LargeLogsAreCompacted`.
- Pipeline: `EveryRunIsSound`, `BatchesStayWithinLimit`, `DispatchedBatchesAreFull`, `FirstInFirstOut`, `DrainIsBounded`, `DrainEnds`, `SavedMeansPushed`, `FailsAfterAllAttempts`, `DeliverIsARun`.
- Both together: `AcceptedRecordsAreSafe`, `AcceptedOver` and `TerminalOver`, `CleanDrainLeavesNothing`, `CanceledEnqueueIsReplayed`, and the exact limits in `AppendedRecordComesBack`, `EmptiedLogForgetsNextRecords` and `AcceptedRecordIsLost`.
- Streams: `EnsureMonotonicIsOptimal`, `KeyIdentifiesLabels`, `LabelNames` and `LabelValues`, `ConversionKeepsEveryAlert`, `MergeConserves`, `FlushBatch`, `FlushAcknowledgesItsBatch`, `PayloadIsReproducible`.
- SQL: `LockOrderIsDetermined`, `ConcurrentSavesFinish`, `Tx.Save`, `EarlierSavesAreKept`.

## Model

| member | source | states |
|---|---|---|
| `Framing.PrefixRoundTrip` | internal/storage/loki/wal.go:145-147 | the big-endian length prefix is read back as written |
| `Framing.PrefixKeepsOrder` | internal/storage/loki/wal.go:145-147 | prefixes are ordered byte by byte like the numbers they stand for, so the most significant byte comes first |
| `Framing.ReadRecords` | internal/storage/loki/wal.go:309-346 | the reading loop returns the records and byte count of `Parse`, for all bytes |
| `FramingProofs.ParseOfLog` | internal/storage/loki/wal.go:287-346 | a log of whole frames is read back as exactly its records, to the last byte |
| `FramingProofs.ParseSplit` | internal/storage/loki/wal.go:320-345 | bytes added to any log are read in the context of what the reader could not take before them |
| `FramingProofs.WholeFramesIsMaximal` | internal/storage/loki/wal.go:306-308 | the number of frames wholly before a cut is the greatest that fits |
| `FramingProofs.TruncationKeepsWholeFrames` | internal/storage/loki/wal.go:306-346 | cutting a log at any byte keeps exactly the records whose frames lie before the cut, and `consumed` is their total |
| `FramingProofs.PrefixReadsPrefix` | internal/storage/loki/wal.go:309-346 | for arbitrary bytes, a prefix yields a prefix of the records |
| `FramingProofs.RereadingConsumedBytes` | internal/storage/loki/wal.go:309-346 | reading only the consumed bytes again gives the same result |
| `TornTail.TornTailHidesLaterRecords` | internal/storage/loki/wal.go:84-92 | whatever is appended after any torn frame, no record that carries a number is read from the tear on |
| `Checkpoint.CheckpointRoundTrip` | internal/storage/loki/wal.go:348-374 | every 64-bit checkpoint that was written is the one that is read |
| `AckProofs.RunEndIsLongest` | internal/storage/loki/wal.go:181-186 | the advance ends at the end of the longest contiguous run |
| `AckProofs.AckAddsToAccount` | internal/storage/loki/wal.go:169-201 | one `ack` adds exactly its numbers to the account, in normal form |
| `AckProofs.AckCoversExactly` | internal/storage/loki/wal.go:176-186 | what was acknowledged stays so and nothing else becomes so |
| `AckProofs.AcksKeepTheAccount` | internal/storage/loki/wal.go:165-201 | after any calls since open the checkpoint ends the longest run in their union, `acked` is the remainder above it |
| `AckProofs.AcksCommute` | internal/storage/loki/wal.go:165-201 | order, batching and repetition of acknowledgements make no difference |
| `WalProofs.CompactionIsInvisible` | internal/storage/loki/wal.go:203-264 | a compacted log recovers the same pending records in the same order, and the same last number unless none survived |
| `WalProofs.CompactionCleansTail` | internal/storage/loki/wal.go:203-264 | a compacted log ends with a whole frame |
| `WalProofs.AckSettles` | internal/storage/loki/wal.go:181-186 | after every `ack` the number right above the checkpoint is not acknowledged |
| `WalProofs.AboveKeepsOrder` | internal/storage/loki/wal.go:101-108 | recovery and compaction keep exactly the records past the checkpoint, in the order of the log |
| `WalProofs.LogAfterAck` | internal/storage/loki/wal.go:169-264 | after an `ack` of an open log: the handle is gone exactly when the rename or the reopen failed behind a completed copy, stale exactly when the close did; the log is rewritten exactly when it was past 8 MiB, the advance was persisted and the copy took its place; the size follows it |
| `WalProofs.CheckpointAfterAck` | internal/storage/loki/wal.go:187-193 | the checkpoint an open reads is the new one exactly when it advanced and the write succeeded |
| `WalProofs.CompactedLogTakesRecords` | internal/storage/loki/wal.go:253-263 | after a successful compaction the next record is accepted, and an open recovers the old pending records followed by it |
| `LogSize.SizedThroughout` | internal/storage/loki/wal.go:94-98 | in every history a usable log counts as its size exactly the bytes a reader takes in |
| `LogSize.LargeLogsAreCompacted` | internal/storage/loki/wal.go:194-199 | in every history a persisted advance rewrites the log exactly when more than 8 MiB of it can be read, and then to the records past the checkpoint |
| `WriteAheadLog.Wal.OpenWal` | internal/storage/loki/wal.go:70-110 | opening comes up with what the disk recovers to, numbering from the log alone; it fails exactly on a failed call or an unreadable checkpoint, and a crash then finds the files as they were or with an empty log created |
| `WriteAheadLog.Wal.Load` | internal/storage/loki/wal.go:101-108 | the loop finds the greatest number and the records above the checkpoint, in order |
| `WriteAheadLog.Wal.Append` | internal/storage/loki/wal.go:123-163 | result, memory, bytes written and crash states for every answer of the operating system; a rejected append leaves the memory as it was |
| `WriteAheadLog.Wal.Ack` | internal/storage/loki/wal.go:165-201 | the whole new state is `WalSpec.Ack` of the set of numbers; a crash leaves one of the disks of `WalSpec.AckCrashes` |
| `WriteAheadLog.Wal.Persist` | internal/storage/loki/wal.go:191-200 | checkpoint first, then compaction, each visible only when complete |
| `WriteAheadLog.Wal.MarkAcked` | internal/storage/loki/wal.go:176-180 | exactly the given numbers above the checkpoint are added |
| `WriteAheadLog.Wal.AdvanceCheckpoint` | internal/storage/loki/wal.go:181-189 | the loop terminates at the end of the run and keeps exactly the remainder |
| `WriteAheadLog.Wal.WriteCheckpoint` | internal/storage/loki/wal.go:363-374 | the checkpoint on disk changes only by the rename |
| `WriteAheadLog.Wal.Compact` | internal/storage/loki/wal.go:203-264 | whichever call fails and wherever a crash comes, the disk recovers like before |
| `WriteAheadLog.Wal.Rewrite` | internal/storage/loki/wal.go:205-264 | handle, size and disk after each possible failure |
| `WriteAheadLog.Wal.CopySurvivors` | internal/storage/loki/wal.go:221-234 | the copy holds exactly the frames of the records above the checkpoint |
| `WriteAheadLog.Wal.Close` | internal/storage/loki/wal.go:266-284 | the handle is dropped and the size zeroed, once, whatever fails; the error of the sync comes before that of the close |
| `PipelineProofs.ConservesAfter` | internal/storage/loki/batch.go:96-246 | every event keeps the balance: entered = without outcome + outcomes + left in the log |
| `PipelineProofs.ShapedAfter` | internal/storage/loki/batch.go:62-76 | both channels stay within capacity and no empty batch is dispatched |
| `PipelineProofs.TruthfulAfter` | internal/storage/loki/batch.go:225-245 | a group that failed conversion never takes a sibling's delivery result |
| `PipelineProofs.EveryRunIsSound` | internal/storage/loki/batch.go:96-246 | the three invariants hold in every state of every run |
| `PipelineProofs.ExactlyOnePlaceOrOutcome` | internal/storage/loki/batch.go:96-246 | an item that came in once is in exactly one place, or has exactly one outcome, or was left in the log |
| `PipelineProofs.HeldAfter` | internal/storage/loki/batch.go:96-246 | every event accounts for what it takes in and what it releases |
| `Batching.BatchesStayWithinLimit` | internal/storage/loki/batch.go:197-201 | in every reachable state the open batch is below the batch size, and one being dispatched has at most reached it |
| `Batching.DispatchedBatchesAreFull` | internal/storage/loki/batch.go:197-203 | without a tick or a stop every dispatched batch has exactly the batch size |
| `Batching.FirstInFirstOut` | internal/storage/loki/batch.go:104-213 | in every run, what has been acknowledged followed by what is still inside is what entered the queue, in that order |
| `Drain.DrainStepsTakeWorkOff` | internal/storage/loki/batch.go:96-282 | after the stop every step of the accumulator, the flusher, the replay and the producers already inside, but an empty tick, lowers the measure of work |
| `Drain.DrainIsNeverStuck` | internal/storage/loki/batch.go:127-213 | until all of them have ended some step is enabled, full channels or not |
| `Drain.DrainIsBounded` | internal/storage/loki/batch.go:96-282 | no drain takes more steps than there was work |
| `Drain.DrainEnds` | internal/storage/loki/batch.go:310-328 | a drain that can go no further has ended accumulator, flusher and replay; then everything has its outcome or was left in the log, if and only if nothing was sent to the queue behind the last look at it |
| `Drain.StrandedAfter` | internal/storage/loki/batch.go:104-146 | one step strands an item exactly when it is a send behind the accumulator's last look |
| `Drain.ReplayCanStrandAnItem` | internal/storage/loki/batch.go:127-146 | a run in which the replay goroutine strands its item behind the accumulator |
| `Delivery.Deliver` | internal/storage/loki/batch.go:248-282 | success exactly when an attempt within the limit is reached and accepted, or none is made; at most limit + 1 pushes |
| `Delivery.DeliverIsARun` | internal/storage/loki/batch.go:248-282 | for all answers of the world, result and number of pushes of the loop are those of a run of the flusher, which records that outcome |
| `Delivery.AttemptsAreRejections` | internal/storage/loki/batch.go:258-279 | in every run the attempt number counts the pushes rejected since the conversion |
| `Delivery.FailsAfterAllAttempts` | internal/storage/loki/batch.go:258-282 | in every run an item is recorded as not delivered exactly when it converted and the last of limit + 1 pushes was rejected, or the deadline aborted the delivery |
| `Delivery.ProducerHasItsWay` | internal/storage/loki/batch.go:107-125 | a producer can always be canceled, is let in exactly when there is room, and turned away otherwise |
| `Delivery.NothingIsLeftBehind` | internal/storage/loki/batch.go:107-146 | in every run before the stop, nothing is left in the log without an outcome but what was canceled |
| `Delivery.DropsNeedAFullQueue` | internal/storage/loki/batch.go:120-124 | an item is recorded as dropped exactly when its producer found the queue filled to ten batches, at least a thousand |
| `Delivery.SavedArePushedThroughout` | internal/storage/loki/batch.go:215-282 | with a limit of at least zero every step, and so every run, keeps delivered outcomes and accepted pushes equal |
| `Delivery.NegativeLimitSavesUnpushed` | internal/storage/loki/batch.go:256-282 | with a negative limit, which the program never configures, the loop makes no push and its groups count as delivered |
| `Delivery.SavedMeansPushed` | main.go:164-175 | with the limit the program configures for any requested one, every run counts as delivered exactly what was in an accepted payload |
| `DurabilityProofs.HappeningHolds` | internal/storage/loki/batch.go:96-246 | whatever happens to log, disk and pipeline keeps the joint invariant |
| `DurabilityProofs.EveryHistoryHolds` | internal/storage/loki/wal.go:20-32 | so it holds after every history |
| `DurabilityProofs.AckHolds` | internal/storage/loki/batch.go:148-164 | acknowledging a flushed batch releases only records with an outcome |
| `DurabilityProofs.CrashInAppendHolds` | internal/storage/loki/wal.go:149-160 | dying at any byte of an append loses no record that was logged before |
| `DurabilityProofs.StartupHolds` | internal/storage/loki/wal.go:70-110 | a restart queues exactly the records that are still owed |
| `DurabilityProofs.AppendCrashesAreHistories` | internal/storage/loki/wal.go:149-160 | every disk an `append` exposes is one that a crash in the histories leaves |
| `DurabilityProofs.AckCrashesAreHistories` | internal/storage/loki/wal.go:191-200 | every disk an `ack` exposes is one that a crash in the histories leaves |
| `DurabilityProofs.HistoriesCrashesAreExposed` | internal/storage/loki/wal.go:149-200 | and the other way around: the histories crash only where the calls can die |
| `Histories.AcceptedAfter` | internal/storage/loki/batch.go:96-105 | a number is newly accepted exactly when an `append` on an open log wrote, synced and returned it |
| `Histories.TerminalAfter` | internal/storage/loki/batch.go:107-125 | a number newly has an outcome exactly when the pipeline recorded one for an item that carries it |
| `Histories.AcceptedOver` | internal/storage/loki/wal.go:123-163 | over a whole history the accepted numbers are those of the records whose `append` returned in it |
| `Histories.TerminalOver` | internal/storage/loki/batch.go:215-246 | over a whole history the numbers with an outcome are those of the items it recorded one for |
| `Histories.OutcomesSinceStartup` | internal/storage/loki/batch.go:215-246 | from its start on a process gives an outcome to exactly the numbers it accounts for |
| `AtLeastOnce.AcceptedRecordsAreSafe` | internal/storage/loki/wal.go:20-32 | at-least-once: in every history from an empty directory, for each record whose `append` returned an outcome was recorded, or the next open hands it out, contents included |
| `AtLeastOnce.RestartIsAlwaysPossible` | internal/storage/loki/wal.go:70-110 | wherever the process died, the log can be opened again |
| `AtLeastOnce.CurrentAfter` | internal/storage/loki/wal.go:181-193 | the checkpoint on disk is the one in memory after a start, and from then on exactly as long as the last advance was persisted |
| `AtLeastOnce.CurrentThroughout` | internal/storage/loki/wal.go:181-193 | so it is at the end of every run in which each write of the checkpoint succeeds |
| `AtLeastOnce.CleanStopLeavesNothing` | internal/storage/loki/wal.go:181-193 | nothing is left to replay if and only if the pipeline is empty and nothing was left behind |
| `AtLeastOnce.CleanDrainLeavesNothing` | internal/storage/loki/batch.go:310-328 | after a clean drain the durable checkpoint is the last number and the next open replays nothing |
| `AtLeastOnce.CheckpointNeverGoesBack` | internal/storage/loki/wal.go:181-193 | the checkpoint on disk never decreases and never exceeds the one in memory |
| `AtLeastOnce.PinnedThroughout` | internal/storage/loki/batch.go:90-95 | a canceled enqueue stays pinned for the rest of the process |
| `AtLeastOnce.CanceledEnqueueIsReplayed` | internal/storage/loki/batch.go:90-119 | and whenever that process ends, the next open hands the record out |
| `Hazards.AppendedRecordComesBack` | internal/storage/loki/wal.go:84-109 | an appended record is recovered if and only if the log ended with a whole frame and its number is above the durable checkpoint |
| `Hazards.NothingAfterTearComesBack` | internal/storage/loki/wal.go:149-152 | after a partial write nothing appended later is ever recovered |
| `Hazards.EmptiedLogForgetsNextRecords` | internal/storage/loki/wal.go:101-108 | after a compaction that empties the log, however many records are appended they are all accepted, and every later open hands out only those numbered above the checkpoint |
| `Hazards.OneAppendKeepsNumbering` | internal/storage/loki/wal.go:101-108 | one append before the restart avoids that |
| `Hazards.FailedSyncSharesNumber` | internal/storage/loki/wal.go:153-160 | after a failed sync the rejected and the next, accepted record carry one number and both are replayed |
| `Hazards.AckOfRejectedForgetsAccepted` | internal/storage/loki/wal.go:153-201 | in the process that replays them, acknowledging a batch with the rejected one but not the accepted one makes every later open forget the accepted one |
| `Hazards.AcceptedRecordIsLost` | internal/storage/loki/wal.go:153-201 | a run of that process in which the accepted record is lost before it has an outcome |
| `Timestamps.SliceStable` | internal/storage/loki/timestamps.go:24-26 | the slice becomes its stable sort, in place |
| `Timestamps.Nudge` | internal/storage/loki/timestamps.go:28-32 | the loop overwrites exactly the times that are not past the one before |
| `Timestamps.EnsureMonotonic` | internal/storage/loki/timestamps.go:18-34 | both steps, in place, short slices included |
| `Timestamps.StableSortIsStable` | internal/storage/loki/timestamps.go:24-26 | the sort is in time order and keeps the order of equal times |
| `Timestamps.StableSortIsUnique` | internal/storage/loki/timestamps.go:24-26 | a sequence has one stable sort |
| `Timestamps.StableSortPermutes` | internal/storage/loki/timestamps.go:24-26 | a stable sort is a permutation |
| `TimestampProofs.NudgedIsLeast` | internal/storage/loki/timestamps.go:28-32 | no strictly increasing times at or above the sorted ones are below the result anywhere |
| `TimestampProofs.NudgedIsMaximum` | internal/storage/loki/timestamps.go:28-32 | each result is the maximum of sorted[j] + (i - j) |
| `TimestampProofs.DriftIsBounded` | internal/storage/loki/timestamps.go:15-16 | no entry drifts by more than one nanosecond for each equal pair before it |
| `TimestampProofs.ShiftsOnlyCollisions` | internal/storage/loki/timestamps.go:15-16 | nothing is shifted if and only if all times differ |
| `TimestampProofs.MonotonicIsIdempotent` | internal/storage/loki/timestamps.go:19-34 | a second pass changes nothing |
| `TimestampProofs.EnsureMonotonicIsOptimal` | internal/storage/loki/timestamps.go:7-34 | lines and metadata of the stable sort, times strictly increasing, never earlier, and least among all such times |
| `TimestampProofs.MonotonicConserves` | internal/storage/loki/timestamps.go:19-34 | no entry is lost or invented |
| `Quoting.QuoteIsSelfDelimiting` | internal/storage/loki/stream.go:167-170 | a quoted value followed by anything is read back with exactly the rest left over |
| `Quoting.PlainQuote` | internal/storage/loki/stream.go:167-170 | plain printable text is only put between quotes |
| `StreamKeys.StreamKey` | internal/storage/loki/stream.go:146-174 | the key is a function of the label set, whatever order the map yields |
| `StreamKeys.CollectNames` | internal/storage/loki/stream.go:153-157 | every name once, and its sort is the one ascending listing |
| `StreamKeys.WriteEntries` | internal/storage/loki/stream.go:159-172 | the loop writes the comma-separated entries |
| `StreamKeys.ParseEntriesRoundTrip` | internal/storage/loki/stream.go:146-174 | a parser recovers names and values from the key |
| `StreamKeys.KeyIdentifiesLabels` | internal/storage/loki/stream.go:146-174 | keys are equal if and only if the label sets are |
| `Streams.PutAll` | internal/storage/loki/stream.go:110-122 | the usable, permitted labels of a source go over what is there, in any order |
| `Streams.BuildStreamLabels` | internal/storage/loki/stream.go:103-130 | which of the clashing sources each label takes its value from |
| `Streams.LabelNames` | internal/storage/loki/stream.go:103-144 | told from the maps alone: a name appears exactly if it is fixed, or valid and given a non-empty value by an allowed group or common label or by a query label |
| `Streams.LabelValues` | internal/storage/loki/stream.go:103-130 | and its value: fixed ones win, a group label hides a common label, and that one a query label |
| `Streams.AlertLabelsAreValid` | internal/storage/loki/stream.go:132-144 | whatever the webhook sent, every label name is one Loki accepts |
| `Streams.GroupAlertsByStatus` | internal/storage/loki/stream.go:24-30 | each status maps to its alerts, in order, and no status is missing |
| `Streams.WithStatusKeepsOrder` | internal/storage/loki/stream.go:26-28 | the alerts of a status are exactly those that carry it, in their order |
| `Streams.CreateStreamForStatus` | internal/storage/loki/stream.go:58-101 | the stream of a status, or an error exactly when a line cannot be encoded |
| `Streams.RowCarriesAlert` | internal/storage/loki/stream.go:68-90 | a line stands for the alert with every field of its group, and the metadata goes along exactly when switched on |
| `Streams.DataToStream` | internal/storage/loki/stream.go:32-56 | one stream per status; an error exactly without alerts or with an unencodable line |
| `Entries.StreamHoldsItsAlerts` | internal/storage/loki/stream.go:58-101 | a stream holds one entry for each alert of its status |
| `Entries.AllEntriesCount` | internal/storage/loki/batch.go:284-308 | an entry occurs in a payload as often as its row among the rows gathered for its labels |
| `Entries.ConversionKeepsEveryAlert` | internal/storage/loki/stream.go:36-101 | all streams of a group together hold exactly one entry for each alert |
| `Merge.MergeStreams` | internal/storage/loki/batch.go:284-308 | one stream per label set with all its rows normalised; the inputs' slices are unchanged |
| `Merge.AddStream` | internal/storage/loki/batch.go:287-296 | one stream goes to the entry of its key, in a slice of its own |
| `Merge.Normalise` | internal/storage/loki/batch.go:299-307 | each merged stream is normalised in place, in any order |
| `Merge.MergeConserves` | internal/storage/loki/batch.go:284-308 | labels, lines and metadata are conserved with multiplicity |
| `Merge.GatheringKeepsOrder` | internal/storage/loki/batch.go:287-296 | the rows under one label set are those of its streams, one stream after the other |
| `Merge.MergedStreamsIncrease` | internal/storage/loki/batch.go:301-305 | every merged stream is strictly increasing in time |
| `Merge.MergeKeepsTimesUnlessTheyCollide` | internal/storage/loki/batch.go:301-305 | merging keeps every time if and only if no two gathered rows share one |
| `Flush.Metrics.RecordSaveOutcome` | internal/metrics/metrics.go:69-82 | one counter of one key grows by the count, no other changes |
| `Flush.ConvertBatch` | internal/storage/loki/batch.go:225-238 | groups that fail are counted at once, the others' streams are collected in order |
| `Flush.MatchingKeepsOrder` | internal/storage/loki/batch.go:228-237 | the groups that convert, and those that do not, are exactly those, in the order of the batch |
| `Flush.FlushBatch` | internal/storage/loki/batch.go:215-246 | under every receiver and status, the saved or failed increment of converted groups is the number of payload rows with those labels; failed groups are counted apart; all logged numbers are released |
| `Flush.BatchStreamsHoldBatchEntries` | internal/storage/loki/batch.go:225-238 | the streams of a batch hold one entry for each alert of its converted groups |
| `Flush.EntryIsUnderItsGroup` | internal/storage/loki/stream.go:124-129 | no other label can displace the group's receiver and status |
| `Flush.PayloadMatchesAlerts` | internal/storage/loki/batch.go:242-245 | the merged payload has as many rows under a key as there were alerts |
| `Flush.PayloadNotEmpty` | internal/storage/loki/batch.go:252-254 | a converted group always makes a non-empty payload |
| `Flush.BatchNumbers` | internal/storage/loki/batch.go:155-160 | a number is acknowledged exactly when it is not zero and an item of the batch carries it |
| `Flush.LoggedNumbersKeepOrder` | internal/storage/loki/batch.go:155-160 | one number for each logged item, in the order of the batch |
| `Flush.FlushAcknowledgesItsBatch` | internal/storage/loki/batch.go:148-164 | handing these numbers to the log is the acknowledgement of the whole batch that the histories make |
| `Replay.EntryIsStamped` | internal/storage/loki/stream.go:32-35 | the i-th alert of a status is stamped exactly i nanoseconds after the receive time |
| `Replay.RecordIsStamped` | internal/storage/loki/stream.go:40-42 | a record without a receive time is stamped with the time of its conversion, any other with its own |
| `Replay.ReproducibleWhenStamped` | internal/storage/loki/stream.go:40-42 | converting a record again gives the same streams if and only if its receive time was logged |
| `Replay.ReplayReproducesEntries` | internal/storage/loki/wal.go:27-32 | what is read back from the log converts to the same entries as before the crash |
| `Replay.PayloadIsReproducible` | internal/storage/loki/batch.go:284-308 | a batch of stamped records gives the same payload whatever the clock and map orders |
| `EntryCodec.IntRoundTrip` | internal/storage/loki/encoding.go:33-33 | every 64-bit timestamp is parsed back from its decimal form, sign included |
| `EntryCodec.RowRoundTrip` | internal/storage/loki/encoding.go:32-73 | the tuple holds the timestamp, the line and, unless it is empty, the metadata, and is read back as the entry |
| `KvPairs.PreimagesClash` | internal/storage/sqlstore/kv.go:17-21 | different pairs share a digest input exactly when one key runs into the other's value |
| `KvPairs.PlainKeysNeverClash` | internal/storage/sqlstore/kv.go:17-21 | keys without the separator never clash |
| `KvPairs.UniqueSortedKVPairs` | internal/storage/sqlstore/kv.go:34-54 | strictly ascending hashes, only pairs of the maps, a pair for every hash |
| `KvPairs.CollectMap` | internal/storage/sqlstore/kv.go:41-49 | the inner loop adds one pair for each hash not seen |
| `KvPairs.LockOrderIsDetermined` | internal/storage/sqlstore/kv.go:34-54 | the hashes in order depend on the maps alone, collisions or not |
| `KvPairs.LockListIsDetermined` | internal/storage/sqlstore/kv.go:34-54 | without collisions the list is determined and holds exactly the pairs of the maps |
| `KvPairs.CollisionsAreWithinOrAcross` | internal/storage/sqlstore/kv.go:34-54 | a collision is within one map or between two |
| `KvStore.Store.Upsert` | internal/storage/sqlstore/kv.go:106-129 | the row under the pair's hash, found or inserted, is locked and its id returned |
| `KvStore.ResolveCache` | internal/storage/sqlstore/kv.go:56-80 | locks in hash order, a cached id for every hash, no row changed |
| `KvStore.LookupsHit` | internal/storage/sqlstore/kv.go:82-84 | every lookup of a resolved pair hits, never the zero default |
| `KvStore.LookupsAreRightUnlessHashesCollide` | internal/storage/sqlstore/kv.go:82-84 | every lookup gives the id of that same pair if and only if no two pairs share a hash |
| `KvStore.PairsCanShareARow` | internal/storage/sqlstore/kv.go:17-21 | two labels that no table can store both, and a map whose links clash |
| `Locks.MoveKeepsExclusive` | internal/storage/sqlstore/mysql.go:41-64 | no row is ever locked by two transactions, failures included |
| `Locks.NoCyclicWait` | internal/storage/sqlstore/kv.go:34-36 | with ascending plans a chain of waits never closes |
| `Locks.SomeSaveCanStep` | internal/storage/sqlstore/mysql.go:54-64 | with ascending plans some unfinished transaction can go on |
| `Locks.SavesNeverDeadlock` | internal/storage/sqlstore/mysql.go:54-64 | under every schedule and every failure, until all are done one can go on, and runs are bounded |
| `Locks.UnorderedSavesCanDeadlock` | internal/storage/sqlstore/kv.go:34-36 | without the order two transactions can wait for each other |
| `SqlSave.InsertLinks` | internal/storage/sqlstore/mysql.go:130-183 | one link row for each pair of the map, with the cached id, and nothing else; it succeeds exactly when no insert fails by itself and no two pairs share an id, which the unique key would reject |
| `SqlSave.ReadsBackWhatWasSaved` | internal/storage/sqlstore/mysql.go:130-183 | joining the links with the pair table returns the saved map if and only if each pair has a row of its own |
| `SqlSave.LockPlanAscends` | internal/storage/sqlstore/mysql.go:41-64 | every save takes its locks in strictly ascending order |
| `SqlSave.ConcurrentSavesFinish` | internal/storage/sqlstore/mysql.go:31-90 | any number of concurrent saves of any groups: one can always go on and runs are bounded |
| `SqlTransaction.UpsertName` | internal/storage/sqlstore/kv.go:158-174 | finds or inserts the name and locks its row; ids stay different |
| `SqlTransaction.NameTables.ResolveNames` | internal/storage/sqlstore/mysql.go:41-52 | receiver, external URL and group key, in that lock order |
| `SqlTransaction.GroupTables.InsertGroup` | internal/storage/sqlstore/mysql.go:66-86 | one group row and exactly its links, unless a map holds two pairs with one id |
| `SqlTransaction.AlertTables.InsertOne` | internal/storage/sqlstore/mysql.go:96-126 | one alert row, without an end before its start, and exactly its links, or no change |
| `SqlTransaction.AlertTables.InsertAlerts` | internal/storage/sqlstore/mysql.go:95-128 | one row for each alert and exactly its links; without other failures it succeeds exactly when no alert's map holds two pairs with one id |
| `SqlTransaction.Tx.ResolveAll` | internal/storage/sqlstore/mysql.go:41-64 | all shared rows are locked by the plan before the first insert, and nothing else has changed |
| `SqlTransaction.Tx.InsertAll` | internal/storage/sqlstore/mysql.go:66-88 | the own rows of the group and of its alerts, and nothing else; without other failures it succeeds exactly when no map holds two pairs with one id |
| `SqlTransaction.Tx.Save` | internal/storage/sqlstore/mysql.go:31-91 | lock order; one group row that reads back by join as the given receiver, URL and key alone, one alert row for each alert with all its fields, every earlier group and alert as before; without other failures it succeeds if and only if no single map holds two pairs with one hash, and then labels and annotations read back as given if and only if no pairs of two maps or two saves share one |
| `SqlTransaction.NewGroupIsNamed` | internal/storage/sqlstore/mysql.go:66-88 | the names of the new row are the group's own and no others, each in its column, and each alert row carries its alert |
| `SqlTransaction.EarlierSavesAreKept` | internal/storage/sqlstore/mysql.go:31-91 | growing tables change nothing that an earlier save reads back |
| `SqlTransaction.KnownAfter` | internal/storage/sqlstore/mysql.go:31-91 | every save leaves rows and links that refer only to what is there |
| `SqlTransaction.PairsReadBackUnlessShared` | internal/storage/sqlstore/mysql.go:31-91 | a save that inserted its rows had no hash twice in a map, and reads back as given if and only if none is shared |
| `SqlTransaction.SaveClashes` | database/mysql/0.2.0-labelkv.sql:41-90 | the unique keys of the link tables reject a save exactly when a map of the group or of an alert holds two pairs with one hash |
| `SqlTransaction.LabelsReadBackUnlessHashesCollide` | internal/storage/sqlstore/mysql.go:31-91 | the label side of the read-back |
| `SqlTransaction.AnnotationsReadBackUnlessHashesCollide` | internal/storage/sqlstore/mysql.go:31-91 | the annotation side |
| `UnitOfWork.Run` | internal/storage/sqlstore/sqlstore.go:61-111 | one to five attempts, another only after a deadlock; success exactly when an attempt commits; never two effects |

## Left out

- HTTP, compression, TLS, authentication, probes and configuration: input and output, and easy members. A push is a step that Loki accepts or not.
- The synchronous save path of the Loki client (`internal/storage/loki/client.go`): it shares conversion with the batch path and has no state of its own.
- JSON text: an abstract codec with the laws listed under Hypotheses; `EntryCodec` starts from JSON values.
- Power loss: crashes are crashes of the process, and renames are atomic. What a power cut does to the checkpoint file, which is not synced, is not modelled.
- Go compares two times of one process by their monotonic reading, while the wire carries the wall clock: `Row.at` is one integer for both.
- Wall-clock time, tickers and backoff durations: a tick, a timeout and a cancellation are steps that may come at any time.
- `Sscanf` skips more kinds of blanks than space and tab; nothing writes them to a checkpoint.
- `sort.SliceStable`, `sort.Strings` and `slices.SortFunc` are given by their result; the library's algorithms are not modelled.
- `append` to a slice with spare capacity may write into its own backing array: a merged stream's array is always a new one here.
- Strings are sequences of characters: `strconv.Quote` on bytes that are not UTF-8 is not modelled, nor is the case folding of a database collation.
- `buildAlertMetadata`, MD5 and the set of printable characters are parameters.
- `Durability.Allowed`: histories in which a write or sync fails, a second tear follows the first, or numbering has fallen behind the checkpoint are covered by `Hazards`, not by the at-least-once theorem, which is false of them.
- InnoDB gap and insert-intention locks, foreign-key locks, SQL text, gaps in auto-increment ids and the Postgres backend, which keeps no sorted order.
- `SqlTransaction.Tx.Save`: says nothing of the tables after a failed statement, because the transaction is then rolled back; when statements fail for reasons of their own, it does not say which of them stops the save.
- Migrations, dashboards, Helm charts, load tests, command line and environment.
