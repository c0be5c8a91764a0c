# Verification of the telemetry buffering pipeline

A Dafny model of how the collector moves decoded telemetry to the database, with proofs of what the code
keeps under every interleaving of its goroutines. `dafny verify dfyconfig.toml` checks everything.

The collector parses a message into records. An `Add` call merges each record into one of 16 lock-striped
shards, under a key built in a pooled byte buffer. A flush drains the shards one after the other, cuts the
drained slice into batches, and sends each batch to a bounded channel, or writes it directly when the channel
is full. Writers receive batches and retry with timeouts; a timed-out attempt keeps running and may commit
later. `Stop` closes a channel and flushes once more.

## How the model is built

| file | what it holds |
|---|---|
| Sequences, Decimal | sums over sequences, unique splitting at a separator, decimal printing and parsing |
| Keys, TableKeys, KeyPool | aggregation keys, when they collide, and the pooled buffers that build them in place |
| Sharding, ShardedMaps | FNV-1a, the 16-way mask, and the sharded map as objects over a flat view |
| FlatBuffer, Metrics | the specification: one flat map with merging; the record types and their merges |
| PlatformBuffer | the platform buffer on the heap: structs pointing to sub-structures, merged in place |
| Retry, Batching | the retry loop as a machine and as a method; the dispatch loop |
| PlatformSchedule, PlatformHistory | Add loops, drains and every schedule of single Adds and single-shard drains over that heap; what such a schedule makes of its records |
| Pipeline | the state machine of one table: one action per critical section, channel or database event |
| PipelineRows, PipelineInputs, PipelineControl, PipelineDispatch | what each action keeps |
| PipelineTheorems, PipelineIntake, PipelineDelivery, RowMixing | the main results over all runs |
| PipelineRest, PipelineLosses | runs that come to rest, and runs in which the admitted losses occur |
| PipelineSystem, PipelineSystemStop | the five tables side by side, over the counters and the stop channel that they share |
| Router, DecodeLoops, Formatting, Registry | sensor-path routing, decode loops, printed texts and times, connections |

The five tables of the buffer manager are one generic table: a key, a merge, and whether a later record simply
overwrites. `PipelineTheorems.TablesUsable` shows that all of them are instances. Every accepted record is an
input with a history id, and every row remembers which inputs it absorbed; no action reads the history.

The values of the machine's rows stand for structs whose sub-structures later merges write in place. That
this is sound is proved on the heap, at the same granularity: `PlatformSchedule.PlaySchedule` runs any schedule
of single-record Adds and single-shard drains beside the flat run that `PipelineTheorems.FlatRefinement`
describes. Each table of `PipelineSystem` is one such machine; its own counters are its share of the common ones.

The database is an oracle: an attempt commits, refuses, or is not in time. Protobuf decoding is an oracle too.
Clock readings, timers and the flush threshold are nondeterministic: a flush may begin at any time.

## Where the code differs from what is said of it

- The route table is introduced as sorted by descending prefix length (`internal/parser/telemetry_parser.go:202`).
  It is not, since the shortest platform entry comes first. That is harmless, because this entry is exact; the
  condition that matters is the one in `Router.FirstIsLongestIff`.
- Platform, interface and subinterface keys are not injective for every system id: an id followed by an
  underscore may begin another. `Keys.PlatformKeysInjectiveIff` and `Keys.SubinterfaceKeysInjectiveIff` say
  exactly when they are, and RowMixing that exactly otherwise two subjects share a row in some run.
- `Stop` looks at the stop channel and closes it in two steps, so overlapping calls can close it twice, which
  panics. It is closed at most once exactly when no calls overlap (`PipelineTheorems.ClosedOnce`). The machine
  goes on after a second close; the program does not.
- The dispatch loop ends only when `MaxBatchSize` is positive (`Batching.TerminatesIff`), and the connection
  count is exact only when no registration collided (`Registry.CountExactIff`).

## Model

| member | source | states |
|---|---|---|
| `PipelineTheorems.ExactlyOnePlace` | internal/buffer/buffer_manager.go:199-310 | Conservation over every interleaving, from acceptance on (that all records given are accepted is IntakeExact): each accepted input is in exactly one of the seven places (buffered, undispatched, queued, being written, written, failed, abandoned), exactly once, and nothing else is anywhere |
| `PipelineIntake.AddTakesAll` | internal/buffer/buffer_manager.go:199-218 | However the run goes on after an Add call began: once the call has nothing left to do, every record it was given has been accepted since then, one by one and in the order given |
| `PipelineIntake.CountAddsAll` | internal/buffer/buffer_manager.go:217 | An Add call counts when it is through, and then adds exactly the number of records it was given |
| `PipelineIntake.AddProgress` | internal/buffer/buffer_manager.go:199-218 | At every moment an Add call has taken in order a prefix of what it was given, and has exactly the rest to do |
| `PipelineIntake.IntakeExact` | internal/buffer/buffer_manager.go:199-310 | In every run of a new manager the records given to all Add calls are, as a multiset, the accepted ones and those still to be absorbed; when all calls are through, exactly the accepted ones |
| `PipelineIntake.ProcessedIsGiven` | internal/buffer/buffer_manager.go:217 | Once all Add calls are through and have counted, the processed counter is the number of records given to them |
| `PipelineTheorems.PlacesConserve` | internal/buffer/buffer_manager.go:404-492 | The accepted inputs are, as a multiset, the sum of the inputs of the seven places |
| `PipelineTheorems.AllRowsByPlace` | internal/buffer/buffer_manager.go:591-615 | The rows buffered or ever drained are exactly the rows of the seven places |
| `PipelineTheorems.RowsAreFolds` | internal/buffer/buffer_manager.go:199-224 | Every row in any place lies under the key of its value and is the fold of its own accepted inputs in acceptance order |
| `PipelineTheorems.PlatformRowMeaning` | internal/buffer/buffer_manager.go:312-345 | Every platform row carries, field by field, the last set value of its inputs, the greatest timestamp, and the first input's unmerged fields |
| `PipelineTheorems.OverwrittenByLast` | internal/buffer/buffer_manager.go:280-310 | In the alarm and notification tables a row is its last input; the earlier ones were overwritten by it |
| `PipelineTheorems.DrainedFrozen` | internal/buffer/sharded_map.go:121-134 | Whatever runs after a reachable state, the rows drained so far stay in the drain history and in the places outside the buffer; rows are values here, and that no merge in place reaches a drained struct is PlaySchedule |
| `PlatformSchedule.PlaySchedule` | internal/buffer/sharded_map.go:121-134 | Drained structs are frozen, on the heap and under every schedule of single-record Adds and single-shard drains: the entries denote the buffer of the flat run, every struct drained so far denotes exactly what was drained, and shares no sub-structure with an entry or a record still to come |
| `PlatformSchedule.TakeTurn` | internal/buffer/buffer_manager.go:202-215 | One Add of one record, or one drain of one shard, is one turn of the flat run and keeps all of that |
| `PlatformSchedule.PlayAppends` | internal/buffer/sharded_map.go:121-134 | A flat run only appends to what has been drained |
| `PlatformHistory.PlayFoldsArrivals` | internal/buffer/sharded_map.go:121-134 | Whatever the schedule of single Adds and shard drains from the empty buffer, nothing is lost and nothing changes its key: key by key, the records drained and still buffered fold to what the arrivals so far fold to |
| `PlatformHistory.DrainKeepsRows` | internal/buffer/sharded_map.go:123-131 | A drain moves the record of a key from the buffer to the end of what was drained, and changes no other |
| `PlatformSchedule.DrainOne` | internal/buffer/sharded_map.go:123-131 | Draining one shard copies out its entries once; the entries left own nothing that the copies point to |
| `PlatformSchedule.AddNext` | internal/buffer/buffer_manager.go:201-216 | One record of an Add call is absorbed, and the records still to come keep their meaning and stay unowned |
| `PipelineTheorems.FlatRefinement` | internal/buffer/sharded_map.go:82-134 | The shards refine one flat map: absorbing a record is absorbing it there, draining a shard removes exactly that shard's keys, and no other step changes it |
| `PipelineTheorems.LenBounds` | internal/buffer/sharded_map.go:110-118 | A finished Len call is between size(start) minus what was drained meanwhile and size(start) plus what was inserted meanwhile |
| `PipelineTheorems.NothingOldBuffered` | internal/buffer/sharded_map.go:121-134 | Once a flush has swapped all shards, no input accepted before it began is buffered, whoever drained it |
| `PipelineTheorems.OldInputNotBuffered` | internal/buffer/sharded_map.go:121-134 | The same for the inputs of all buffered rows |
| `PipelineTheorems.SoleDrainerTakesAll` | internal/buffer/sharded_map.go:121-134 | A flush that alone drained since its start took out every input accepted before it that was not already drained |
| `PipelineTheorems.FlushKeysDistinct` | internal/buffer/sharded_map.go:121-134 | No flush ever holds two rows of one key, although its shards are drained at different times |
| `PipelineIntake.FlushTakesAll` | internal/buffer/sharded_map.go:121-134 | A flush that begins now, once it has passed the last shard, has left nothing buffered that was accepted before, however the run goes on |
| `PipelineTheorems.DispatchFollowsLoop` | internal/buffer/buffer_manager.go:591-615 | In every reachable state what a flush has dispatched are the first batches of exactly the slice it drained, its remaining rows are the other batches, and it returns nil only with all of them dispatched |
| `PipelineTheorems.ErrorIffDirectFailed` | internal/buffer/buffer_manager.go:604-612 | A flush that is not inside a direct write has ended with an error if and only if one of its direct writes failed; until it ends with an error every direct write that it has left behind has succeeded. Inside, between the verdict and the return of the write call, the failed write and the running flush coexist |
| `PipelineTheorems.AbandonedBehindFailure` | internal/buffer/buffer_manager.go:604-612 | An input is abandoned only behind a failed direct write of the flush that holds it |
| `PipelineTheorems.ChannelInOrder` | internal/buffer/buffer_manager.go:404-406 | The channel is first in, first out: writers have received the batches in the order in which they were sent, and the others wait in that order |
| `PipelineTheorems.WritersRunUntilStop` | internal/buffer/buffer_manager.go:404-420 | No writer has exited before the stop channel is closed |
| `PipelineTheorems.WriterChooses` | internal/buffer/buffer_manager.go:404-420 | In every reachable state an idle writer can receive exactly if the channel holds a batch, also after the close, and can exit exactly if the stop channel is closed, also with batches queued |
| `PipelineTheorems.CounterAccounting` | internal/buffer/buffer_manager.go:205-217 | For the share of one table in the counters, in every reachable state: accepted = collisions + buffered entries + drained entries (merging tables); processed + uncounted = accepted; written and errors are the sums over reported batches; written <= processed + uncounted |
| `PipelineSystem.SystemCounters` | internal/buffer/buffer_manager.go:205-217 | The same for the counters that all tables share, in every state of every interleaving of the five tables: KeyCollisions over the three merging tables; TotalRecordsProcessed, TotalRecordsWritten and TotalErrors over all five |
| `PipelineSystem.ReachableSystemInv` | internal/buffer/buffer_manager.go:102-129 | In a reachable system each table is in a reachable state of its own machine, the counters are the sums of the tables' shares, and all tables see the one stop channel alike |
| `PipelineSystemStop.OneTableEvent` | internal/buffer/buffer_manager.go:199-310 | An event of one table is a step of that table's own machine, charged to the shared counters, and leaves the other four tables as they were |
| `PipelineSystemStop.AllTablesEvent` | internal/buffer/buffer_manager.go:739-748 | The two events of a Stop call are steps of all five tables and count nothing; closing begins one flush in every table |
| `PipelineSystemStop.SystemLeadsTables` | internal/buffer/buffer_manager.go:102-129 | A run of the whole manager is, for each table, a run of its own machine |
| `PipelineSystemStop.SystemStopFlushes` | internal/buffer/buffer_manager.go:528-589 | One Stop flushes all five tables: whatever comes after its close, when everything is at rest nothing that any table had accepted before is still buffered |
| `PipelineSystem.SystemClosedOnce` | internal/buffer/buffer_manager.go:739-748 | With no Stop call under way the stop channel of the whole manager was closed at most once if and only if no two calls overlapped |
| `PipelineTheorems.BatchDelivery` | internal/buffer/buffer_manager.go:494-526 | The delivery bounds of Retry.DeliveryBounds for every batch in every reachable state, by a writer or directly, also long after its call returned |
| `PipelineDelivery.WrittenInputCommitted` | internal/buffer/buffer_manager.go:404-415 | Every written input is held by one write only, and was committed at least once and at most once more than attempts of that write timed out |
| `PipelineDelivery.FailedInputCommitted` | internal/buffer/buffer_manager.go:404-415 | Every failed input was committed at most as often as attempts of its write timed out |
| `PipelineDelivery.UnwrittenNotCommitted` | internal/buffer/buffer_manager.go:404-415 | An input that no write holds was never committed |
| `PipelineTheorems.ShutdownBound` | internal/buffer/buffer_manager.go:739-748 | When Stop has been called and everything is at rest, each accepted input is written, failed, abandoned, queued or buffered; at most 100 * MaxBatchSize rows are queued; an abandoned input is held by a flush behind one of its direct writes that failed; a buffered input was accepted after the last drain of its own shard, and no flush began after that drain |
| `PipelineIntake.StopFlushes` | internal/buffer/buffer_manager.go:739-748 | Stop flushes: whatever comes after a Stop call has closed its channel, when everything is at rest nothing accepted before is still buffered |
| `PipelineIntake.StopFlushesInRun` | internal/buffer/buffer_manager.go:739-748 | The same about the actions of any run that goes on from the close |
| `PipelineTheorems.BufferedSinceLastDrain` | internal/buffer/sharded_map.go:121-134 | In every reachable state a buffered input was accepted after its own shard was last drained |
| `PipelineTheorems.AtRestPlaces` | internal/buffer/buffer_manager.go:739-748 | At rest no input is undispatched or being written |
| `PipelineTheorems.ChannelBound` | internal/buffer/buffer_manager.go:117-121 | A channel of at most 100 batches of at most MaxBatchSize rows holds at most 100 * MaxBatchSize rows |
| `PipelineTheorems.ClosedOnce` | internal/buffer/buffer_manager.go:739-748 | Whenever no Stop call is between its look and its close, the stop channel was closed at most once if and only if no two calls overlapped; once closed, a further Stop changes nothing |
| `PipelineTheorems.OverlapClosesTwice` | internal/buffer/buffer_manager.go:739-748 | From every reachable state the pending Stop calls can go on to close, and then there were two closes if and only if calls overlapped |
| `PipelineTheorems.DoubleCloseReachable` | internal/buffer/buffer_manager.go:739-748 | Overlapping calls happen: a run closes the stop channel twice |
| `PipelineLosses.StrandedReachable` | internal/buffer/buffer_manager.go:404-420 | The shutdown loss is real: any records with distinct keys, up to 100 * MaxBatchSize of them, can end up in the channel with everything at rest |
| `PipelineLosses.StrandingBoundAttained` | internal/buffer/buffer_manager.go:117-121 | The bound is attained: a run strands exactly 100 * MaxBatchSize platform rows |
| `PipelineLosses.LateAddReachable` | internal/collector/simple_collector.go:120-125 | And a run ends at rest with records accepted after the final drain still buffered |
| `PipelineRest.RestReachable` | internal/buffer/buffer_manager.go:739-748 | No deadlock in shutdown: from every reachable stopped state some interleaving leads to rest |
| `PipelineRest.DrainRest` | internal/buffer/sharded_map.go:121-134 | From any reachable state a flush can go on to empty all shards it has left, gaining exactly their entries |
| `PipelineRest.FinishFlush` | internal/buffer/buffer_manager.go:591-615 | From any reachable state any flush can be led to its end; how it ends is decided by ErrorIffDirectFailed |
| `PipelineRest.EndWrite` | internal/buffer/buffer_manager.go:494-526 | From any reachable state any running write can be led to its end |
| `PipelineRest.FinishWriters` | internal/buffer/buffer_manager.go:404-420 | Once the stop channel is closed all writers can finish and exit, even with batches queued |
| `RowMixing.NeverMixesIff` | internal/buffer/buffer_manager.go:141-196 | For any table and any set of records: over all runs no row mixes different subjects if and only if the keys of these records tell the subjects apart |
| `RowMixing.PlatformNeverMixesIff` | internal/buffer/buffer_manager.go:141-150 | Platform records from a set of systems are never merged across seconds, systems or components, in any run, if and only if no system id followed by an underscore begins another |
| `RowMixing.InterfaceNeverMixesIff` | internal/buffer/buffer_manager.go:152-161 | The same for interface records, across seconds, systems or interfaces |
| `RowMixing.SubinterfaceNeverMixesIff` | internal/buffer/buffer_manager.go:163-174 | Subinterface records are never merged across seconds, systems, interfaces or subinterfaces if and only if the ids are prefix free and the subinterface names suffix free |
| `RowMixing.ReportsNeverMix` | internal/buffer/buffer_manager.go:176-196 | Reports only ever replace reports of the same system, flow and time stamp, whatever reports arrive |
| `RowMixing.SharedRowReachable` | internal/buffer/buffer_manager.go:205-214 | In any table two records with equal keys share a row in some reachable state |
| `PipelineTheorems.TablesUsable` | internal/buffer/buffer_manager.go:102-129 | The three merging tables and the report table, with the 16-way FNV-1a mask, are instances of the machine for every MaxBatchSize >= 1 and RetryAttempts |
| `PipelineTheorems.ReachableInv` | internal/buffer/buffer_manager.go:199-310 | The whole invariant holds in every state that some interleaving reaches |
| `PipelineTheorems.StepInv` | internal/buffer/buffer_manager.go:199-310 | Every enabled action keeps the invariant |
| `PipelineTheorems.InitInv` | internal/buffer/buffer_manager.go:102-129 | A new buffer manager satisfies the invariant |
| `PipelineRows.StepKeepsOut` | internal/buffer/buffer_manager.go:591-615 | Every action keeps the rows outside the buffer equal to the rows ever drained: none is lost, doubled or altered between drain and write |
| `PipelineRows.SendKeepsOut` | internal/buffer/buffer_manager.go:597-605 | Sending a batch moves exactly its rows from the flush to the channel |
| `PipelineRows.ReceiveKeepsOut` | internal/buffer/buffer_manager.go:404-409 | Receiving a batch moves exactly its rows from the channel to the write |
| `PipelineInputs.StepKeepsInputsSafe` | internal/buffer/buffer_manager.go:199-224 | Every action keeps placement, conservation of inputs and goodness of every row |
| `PipelineInputs.AbsorbRows` | internal/buffer/buffer_manager.go:205-214 | Absorbing replaces one buffered row by its merge, or adds one row; every other row stays |
| `PipelineInputs.AbsorbKeepsRowsGood` | internal/buffer/buffer_manager.go:205-214 | Absorbing keeps every row under its key and equal to the fold of its inputs |
| `PipelineInputs.AbsorbKeepsPlaced` | internal/buffer/sharded_map.go:82-84 | Absorbing keeps every key in the shard its hash names, and in no other |
| `PipelineControl.StepKeepsCounters` | internal/buffer/buffer_manager.go:205-217 | Every action keeps the counter equations |
| `PipelineControl.StepKeepsMarks` | internal/buffer/sharded_map.go:121-134 | Every action keeps: a shard holds only inputs accepted since it was last drained |
| `PipelineControl.EnumerationKeys` | internal/buffer/sharded_map.go:125-128 | The rows copied out of one shard have distinct keys, all of that shard |
| `PipelineControl.StepKeepsFlushKeys` | internal/buffer/sharded_map.go:121-134 | Every action keeps the rows of a flush free of repeated keys, and of keys of shards not yet drained |
| `PipelineControl.StepKeepsBatchesFit` | internal/buffer/buffer_manager.go:597-605 | Every action keeps batches between 1 and MaxBatchSize rows, the channel within its capacity, and a flush that returned nil without rows |
| `PipelineControl.StepKeepsLedger` | internal/buffer/buffer_manager.go:404-420 | Every action keeps: an unfinished write is held by its writer or flush, and the counters are the sums over reported writes |
| `PipelineControl.StepKeepsReaders` | internal/buffer/sharded_map.go:110-118 | Every action keeps the bounds of every running Len call |
| `PipelineControl.StepKeepsStop` | internal/buffer/buffer_manager.go:739-748 | Every action keeps the stop channel's close count |
| `Retry.DeliveryBounds` | internal/buffer/buffer_manager.go:494-526 | Retry bounds at every moment of every run: at most RetryAttempts writes start, and commits <= timed out + 1 in flight + 1 if successful; a returned nil means at least one and at most 1 + timed-out commits, an error at most timed-out commits; without timeouts a returned nil is exactly one commit and an error none |
| `Retry.UnseenCommit` | internal/buffer/buffer_manager.go:505-511 | A running call can have committed although nothing timed out: the loop has not received the nil yet |
| `Retry.FailureCommitsAttained` | internal/buffer/buffer_manager.go:494-526 | The bound for errors is attained: a failed call can have committed its batch n times |
| `Retry.DuplicatesAttained` | internal/buffer/buffer_manager.go:494-526 | The upper bound is attained: one successful call with n attempts can commit its batch n times |
| `Retry.StepAccounted` | internal/buffer/buffer_manager.go:494-526 | Every event keeps the account of attempts and commits |
| `Retry.WriteWithRetry` | internal/buffer/buffer_manager.go:494-526 | The loop returns nil exactly when some allowed attempt commits in time, stops at the first such attempt, otherwise uses up all attempts, and is a run of the write machine; the timeouts, the commits and the attempts of open fate are those of the outcomes of the attempts started |
| `Batching.BatchesPartition` | internal/buffer/buffer_manager.go:597-602 | Batches are non-empty, within MaxBatchSize, and concatenate to the drained slice |
| `Batching.BatchesCount` | internal/buffer/buffer_manager.go:597-602 | There are ceil(n / MaxBatchSize) of them |
| `Batching.Dispatch` | internal/buffer/buffer_manager.go:591-615 | nil means every batch was queued or directly written; an error at batch j means exactly the batches before j were |
| `Batching.TerminatesIff` | internal/buffer/buffer_manager.go:597-602 | On a non-empty slice the loop ends normally if and only if MaxBatchSize >= 1 |
| `FlatBuffer.AbsorbAllConcat` | internal/buffer/buffer_manager.go:199-224 | Batch split: Add(xs ++ ys) leaves the same buffer and collision count as Add(xs); Add(ys) |
| `FlatBuffer.CollisionAccounting` | internal/buffer/buffer_manager.go:205-214 | Entries + collisions = entries before + arrivals |
| `FlatBuffer.PerKeyFold` | internal/buffer/buffer_manager.go:205-214 | The buffer is, key by key, the fold of that key's arrivals in order |
| `FlatBuffer.OrderIndependence` | internal/buffer/buffer_manager.go:199-224 | Any interleaving that keeps each key's order gives the same buffer and the same collision count |
| `FlatBuffer.SamePerKeyOrderSameLength` | internal/buffer/buffer_manager.go:199-224 | Arrival orders that agree key by key have the same length |
| `FlatBuffer.FoldRegroup` | internal/buffer/buffer_manager.go:312-345 | One key's arrivals may be folded in groups |
| `FlatBuffer.OverwriteKeepsLast` | internal/buffer/buffer_manager.go:280-310 | An overwriting table keeps the last arrival |
| `Metrics.PlatformFoldMeaning` | internal/buffer/buffer_manager.go:312-345 | Folding any platform records gives per merged field the last set value, the greatest timestamp, and the first record's unmerged fields (unset inside a sub-structure the merge created) |
| `Metrics.PlatformLaws` | internal/buffer/buffer_manager.go:312-345 | A merge never moves a platform entry off its key, although it may advance the timestamp; merge is associative and idempotent |
| `Metrics.InterfaceLaws` | internal/buffer/buffer_manager.go:347-366 | The same for interface records; what their key tells apart is TableKeys.InterfaceKeysEqualIff |
| `Metrics.SubinterfaceLaws` | internal/buffer/buffer_manager.go:368-384 | The same for subinterface records |
| `Metrics.ReportLaws` | internal/buffer/buffer_manager.go:280-310 | Alarm and notification reports overwrite |
| `Metrics.FoldLastSet` | internal/buffer/buffer_manager.go:312-384 | A field that a merge overwrites when set ends as the last set value in arrival order |
| `Metrics.FoldLatest` | internal/buffer/buffer_manager.go:342-344 | The timestamp ends as the greatest one |
| `Metrics.FoldKeepsFirst` | internal/buffer/buffer_manager.go:347-384 | A field no merge touches keeps the first record's value |
| `Metrics.InterfaceFoldMeaning` | internal/buffer/buffer_manager.go:347-366 | The fold specification of interface records, field by field |
| `Metrics.SubinterfaceFoldMeaning` | internal/buffer/buffer_manager.go:368-384 | The fold specification of subinterface records, field by field |
| `Metrics.AppendUnmergedFields` | internal/buffer/buffer_manager.go:312-345 | One more merge keeps the first record's unmerged fields |
| `Keys.PlatformKeyCollision` | internal/buffer/buffer_manager.go:141-161 | Two platform or interface keys are equal exactly when the second and the rest after the first underscore are |
| `Keys.PlatformKeysInjectiveIff` | internal/buffer/buffer_manager.go:141-161 | Platform and interface keys tell all records apart over a set of system ids if and only if no id followed by an underscore begins another |
| `Keys.PlainIdsPrefixFree` | internal/buffer/buffer_manager.go:141-161 | Ids without an underscore satisfy that condition |
| `Keys.SubinterfaceKeysInjectiveIff` | internal/buffer/buffer_manager.go:163-174 | The exact condition for subinterface keys: prefix-free system ids and suffix-free subinterface names |
| `Keys.DecimalSubsSuffixFree` | internal/parser/telemetry_parser.go:1150 | Decimal subinterface names, as the parser prints them, satisfy it |
| `Keys.AlarmKeyInjective` | internal/buffer/buffer_manager.go:176-196 | Alarm and notification keys are injective for every system id, also one with colons |
| `Keys.UnixSecondsFloor` | internal/buffer/buffer_manager.go:144 | The second of an instant is the one whose 1,000,000,000 nanoseconds contain it, also before 1970 |
| `TableKeys.PlatformKeysEqualIff` | internal/buffer/buffer_manager.go:141-150 | Two platform records share a key exactly when their seconds and their joined system and component names agree |
| `TableKeys.InterfaceKeysEqualIff` | internal/buffer/buffer_manager.go:152-161 | Two interface records share a key exactly when their seconds and their joined system and interface names agree |
| `TableKeys.SubinterfaceKeysEqualIff` | internal/buffer/buffer_manager.go:163-174 | Two subinterface records share a key exactly when their seconds and their joined system, interface and subinterface names agree |
| `TableKeys.ReportKeysEqualIff` | internal/buffer/buffer_manager.go:176-196 | Two reports share a key exactly when system, flow and time stamp agree |
| `TableKeys.KeysAreBuilt` | internal/buffer/buffer_manager.go:141-196 | The keys of all tables are those that the pooled builders write for the fields of the record |
| `TableKeys.SampleKeys` | internal/buffer/buffer_manager.go:141-196 | Sample keys byte for byte, one also for an instant before 1970 |
| `Decimal.ParsePrint` | internal/buffer/buffer_manager.go:86-88 | Parsing a printed integer gives it back, for every integer and any alphabet |
| `Decimal.PrintInjective` | internal/buffer/buffer_manager.go:86-88 | Printed integers are equal exactly when the integers are |
| `Decimal.PrintNatUnique` | internal/buffer/buffer_manager.go:86-88 | The printed form of a natural number is the only digit string without leading zeros that reads as that number |
| `Decimal.DigitsAreAscii` | internal/buffer/buffer_manager.go:86-88 | The digits are those of ASCII |
| `KeyPool.Pool.GenerateKey` | internal/buffer/buffer_manager.go:141-196 | For any pool history the key is plain concatenation, a fresh value; every pooled buffer is empty again, none is lost and at most one is new |
| `KeyPool.Pool.Acquire` | internal/buffer/buffer_manager.go:131-133 | A borrowed buffer is empty and shares no storage with any pooled one; it is taken out of the pool or is new |
| `KeyPool.Pool.Release` | internal/buffer/buffer_manager.go:135-138 | The buffer goes back to the pool, emptied, and the pool stays valid |
| `KeyPool.KeyBuffer.WriteString` | internal/buffer/buffer_manager.go:94-96 | Appends in place, growing the storage when needed |
| `KeyPool.KeyBuffer.WritePlatformKey` | internal/buffer/buffer_manager.go:141-161 | The writes build the platform or interface key |
| `KeyPool.KeyBuffer.WriteSubinterfaceKey` | internal/buffer/buffer_manager.go:163-174 | The writes build the subinterface key |
| `KeyPool.KeyBuffer.WriteReportKey` | internal/buffer/buffer_manager.go:176-196 | The writes build the alarm or notification key |
| `Sharding.MaskedHashIsNibbleHash` | internal/buffer/sharded_map.go:67-84 | The masked hash equals the four-bit recurrence s' = ((s xor low nibble) * 3) mod 16 from 5 |
| `Sharding.EvenSpread` | internal/buffer/sharded_map.go:82-84 | For every prefix, exactly 16 of the 256 one-byte extensions go to each shard |
| `Sharding.ShardIndexMasks` | internal/buffer/sharded_map.go:82-84 | The masked hash always names one of the 16 shards |
| `Sharding.FnvVectors` | internal/buffer/sharded_map.go:67-84 | The hash agrees with published 32-bit FNV-1a test vectors |
| `ShardedMaps.ShardedMap.constructor` | internal/buffer/sharded_map.go:73-80 | Sixteen distinct empty shards |
| `ShardedMaps.ShardedMap.Get` | internal/buffer/sharded_map.go:86-92 | Looks a key up in the flat contents |
| `ShardedMaps.ShardedMap.Set` | internal/buffer/sharded_map.go:94-99 | Changes the flat contents at one key only |
| `ShardedMaps.ShardedMap.Swap` | internal/buffer/sharded_map.go:101-108 | Removes one key and returns its former entry |
| `ShardedMaps.ShardedMap.Len` | internal/buffer/sharded_map.go:110-118 | Is the size of the flat contents when nothing interferes |
| `ShardedMaps.ShardedMap.DrainShard` | internal/buffer/sharded_map.go:124-131 | Copies out exactly the keys of one shard, each once, and keeps the rest |
| `ShardedMaps.ShardedMap.SwapAll` | internal/buffer/sharded_map.go:121-134 | Returns every entry of the flat contents exactly once and leaves the map empty |
| `PlatformBuffer.MergePlatformMetric` | internal/buffer/buffer_manager.go:312-345 | The field-by-field merge in place computes the value-level merge and adopts no sub-structure of the new record |
| `PlatformBuffer.MergeInPlace` | internal/buffer/buffer_manager.go:205-209 | A merge changes what the buffer denotes at its key only, and no struct outside the entry |
| `PlatformBuffer.AddKeyed` | internal/buffer/buffer_manager.go:203-215 | The critical section of one record: the denoted flat buffer absorbs it, a new entry is a shallow copy, and structs no entry owns keep their meaning |
| `PlatformBuffer.AddOne` | internal/buffer/buffer_manager.go:202-215 | The loop body of an Add call: the key is built in the shared pool, and the denoted flat buffer absorbs the record under it |
| `PlatformBuffer.KeyBesideBuffer` | internal/buffer/buffer_manager.go:202 | Building a key in the shared pool leaves the buffer, and what it denotes, as it was |
| `PlatformBuffer.AddBesidePool` | internal/buffer/buffer_manager.go:203-215 | Buffering a record leaves the shared pool of key buffers valid |
| `PlatformSchedule.AddAll` | internal/buffer/buffer_manager.go:199-217 | One Add call absorbs all its records in order and counts exactly their collisions; it takes over only their sub-structures; structs beside that share none with the entries or the records keep their meaning and stay out of reach |
| `PlatformSchedule.Drain` | internal/buffer/sharded_map.go:121-134 | An uninterrupted drain copies out what every entry denotes, once, and leaves the buffer owning nothing |
| `PlatformSchedule.AddAfterDrain` | internal/buffer/buffer_manager.go:199-217 | After an uninterrupted drain and one Add call the slice still denotes what the buffer held, and stays out of reach of whatever comes next |
| `PlatformSchedule.SharedSubStructureLeaks` | internal/buffer/buffer_manager.go:312-329 | The proviso that records own their sub-structures is needed: add a record, drain it, add a second that shares its common data, merge a third; the drained copy has changed |
| `PlatformBuffer.DenotesAfterMerge` | internal/buffer/buffer_manager.go:205-209 | A merge keeps all entries apart |
| `PlatformBuffer.DenotesAfterInsert` | internal/buffer/buffer_manager.go:211-213 | Storing a copy keeps all entries apart |
| `Router.FirstMatch` | internal/parser/telemetry_parser.go:233-240 | The loop returns the first matching entry, or none exactly when nothing matches |
| `Router.FirstIsLongestIff` | internal/parser/telemetry_parser.go:202-240 | For a table without duplicate prefixes: first match is longest match for every path if and only if no prefix entry stands before a longer entry it begins |
| `Router.AllLiveIff` | internal/parser/telemetry_parser.go:202-240 | The same condition decides whether every entry of a table receives its own path |
| `Router.ParserRoutesLongest` | internal/parser/telemetry_parser.go:209-230 | The parser's table always dispatches to the longest matching entry, and its exact entry gets its own path only |
| `Router.ParserRoutesLive` | internal/parser/telemetry_parser.go:209-230 | Each of the sixteen entries of the parser's table receives its own path |
| `Router.OrderIrrelevant` | internal/parser/telemetry_parser.go:202-240 | Two orders of the same entries that meet the condition dispatch every path alike |
| `Router.SwapIrrelevant` | internal/parser/telemetry_parser.go:202-240 | Swapping neighbours neither of which begins the other changes no dispatch, in any table |
| `Router.NotSortedByLength` | internal/parser/telemetry_parser.go:202-212 | The table is not sorted by descending length, contrary to its comment |
| `DecodeLoops.ParseSkipping` | internal/parser/telemetry_parser.go:263-308 | Returns the filter-map of the payloads whatever the pool held; every message taken is given back exactly once, and a pooled message is untouched, reset, or left over from a payload that did not decode |
| `DecodeLoops.ParseFailFast` | internal/parser/telemetry_parser.go:616-650 | The same, with an error as soon as one payload fails, also on that path |
| `DecodeLoops.FilterMapSelects` | internal/parser/telemetry_parser.go:271-306 | The metrics are, in order, those carried by what the kept payloads decode to; every other payload does not decode or decodes to something without a metric |
| `DecodeLoops.FilterMapConcat` | internal/parser/telemetry_parser.go:271-306 | Splitting a message into two splits the metrics |
| `DecodeLoops.CostOfOneFailure` | internal/parser/telemetry_parser.go:272-277 | One undecodable payload costs the skipping parser that payload and the fail-fast parser the whole message |
| `DecodeLoops.StylesCompared` | internal/parser/telemetry_parser.go:616-628 | The fail-fast parser errs exactly on an empty or partly undecodable message; otherwise both styles agree |
| `DecodeLoops.Message.Unmarshal` | internal/parser/telemetry_parser.go:272-277 | Replaces the contents of the message, also on failure |
| `DecodeLoops.MessagePool.Get` | internal/parser/telemetry_parser.go:272 | Any pooled message or a new one, which no one else holds |
| `DecodeLoops.MessagePool.Put` | internal/parser/telemetry_parser.go:302-303 | Only a message that is out can be given back |
| `Formatting.UptimeRoundTrip` | internal/parser/helpers.go:9-20 | Parsing the printed uptime gives the seconds back for every uint32 |
| `Formatting.UptimesAgree` | internal/models/models.go:453-459 | The parser's and the models' formatters print the same text |
| `Formatting.UptimeNormal` | internal/parser/helpers.go:9-20 | The printed fields have hours below 24, minutes and seconds below 60 and add up to the seconds; the text has eleven characters exactly for uptimes below 100 days |
| `Formatting.TwoDigitsWide` | internal/parser/helpers.go:19 | Every field has at least two digits, and exactly two below 100 |
| `Formatting.StatusesInjective` | internal/parser/telemetry_parser.go:22-115 | Each of the six status conversions is injective over int32 |
| `Formatting.AlarmStatusNames` | internal/parser/telemetry_parser.go:22-33 | The texts of the alarm status, for every int32 |
| `Formatting.AdminStatusNames` | internal/parser/telemetry_parser.go:36-49 | The texts of the admin status, for every int32 |
| `Formatting.OperStatusNames` | internal/parser/telemetry_parser.go:52-73 | The texts of the operational status, for every int32 |
| `Formatting.Ipv4OperStatusNames` | internal/parser/telemetry_parser.go:76-87 | The texts of the IPv4 status, for every int32 |
| `Formatting.Ipv6OperStatusNames` | internal/parser/telemetry_parser.go:90-101 | The texts of the IPv6 status, for every int32 |
| `Formatting.PhyStatusNames` | internal/parser/telemetry_parser.go:104-115 | The texts of the physical status, for every int32 |
| `Formatting.ConvertInjective` | internal/parser/telemetry_parser.go:22-115 | So is every such switch with distinct names none of which looks like an unknown value |
| `Formatting.TimestampsAgreeIff` | internal/models/models.go:467-469 | The parser's timestamp conversion is exact for every uint64; the models' one denotes the same instant if and only if ns < 2^63 |
| `Formatting.Unix` | internal/parser/helpers.go:44-48 | An instant made of seconds and any number of nanoseconds is normal and adds up |
| `Registry.Collector.RegisterConnection` | internal/collector/simple_collector.go:277-292 | Adds or overwrites the entry of its id and counts one up |
| `Registry.Collector.UnregisterConnection` | internal/collector/simple_collector.go:295-307 | Removes a known id and counts one down; an unknown id changes nothing |
| `Registry.Collector.UpdateActivity` | internal/collector/simple_collector.go:310-318 | Stamps and counts a known connection only |
| `Registry.Collector.ComputeSnapshot` | internal/collector/simple_collector.go:355-371 | active + stale = total = number of connections; active is the number within the timeout; the data counts are summed |
| `Registry.ActivityKeepsAlive` | internal/collector/simple_collector.go:310-318 | A known connection counts as active from an activity on until the timeout has passed, and the activity adds one to the summed data counts; nothing else changes, and an unknown id changes nothing |
| `Registry.EntriesTellHistory` | internal/collector/simple_collector.go:277-318 | After any run an entry tells the history of its connection: the last registration of its id, the number of activities since, and the time of the last one |
| `Registry.AliveHasEntry` | internal/collector/simple_collector.go:277-307 | A connection that was registered and not unregistered since has an entry |
| `Registry.CountIsSizePlusCollisions` | internal/collector/simple_collector.go:277-307 | After any run activeConnCount exceeds the number of connections by the number of colliding registrations |
| `Registry.CountExactIff` | internal/collector/simple_collector.go:277-307 | The count is exact if and only if no registration collided |
| `Registry.TwinsCollide` | internal/collector/simple_collector.go:277-307 | The failing input: two registrations of one address in the same nanosecond count two with one entry, and one with none after both have been unregistered |
| `Registry.DistinctRegistrationsNeverCollide` | internal/collector/simple_collector.go:277-292 | Registrations from different addresses or nanoseconds never collide |
| `Registry.ConnectionIdInjective` | internal/collector/simple_collector.go:281 | An id determines its address and time |

## Left out

- gRPC streaming, keepalive, the per-stream timeout goroutine and the JSON branch: network plumbing.
- The pgx pool, COPY, SQL and row or column lists: the database is the commit, refuse or slow oracle.
- Protobuf wire decoding and the alarm payload fallback: decoding is a function from bytes to an optional value.
- ALARM messages never reach the router; their handler and all field-by-field copying in the parsers are not modelled.
- Floating-point values and their formatting; the second set of status texts in internal/parser/helpers.go, which nothing calls.
- Prometheus, logging, configuration loading, status reporters and deployment.
- Go data races: each counter update and each look at the stop channel is one atomic step; integer counters do not overflow.
- FlushAll's collection of errors and flush times; that one Stop starts a flush in every table is the CloseAndFlush event of PipelineSystem.
- The heap model covers the platform table; the other tables have no sub-structures and appear as values.
- Fields that no merge touches are kept together as one map from field name to value; a timestamp is one unbounded number of nanoseconds.
- PlatformSchedule.AddAll: returns its collisions instead of adding them to a shared field; the shared counters are those of PipelineSystem.
- PlatformSchedule.PlaySchedule: requires that new records share no sub-structure with each other or with the buffer, which holds because the parser allocates one per record (internal/parser/telemetry_parser.go:281-286); SharedSubStructureLeaks shows that it is needed.
- ShardedMaps.ShardedMap.Set: requires a cell that is not yet in the map, which holds because every caller passes a new copy.
- PipelineTheorems.ShutdownBound: bounds the stranded rows; one row may stand for many merged inputs.
- PipelineTheorems.BatchDelivery: assumes that a write call that returns an error committed nothing.
- Real time: timeouts, retry delays and flush intervals are steps that may happen at any moment.
