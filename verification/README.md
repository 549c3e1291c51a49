# A verified model of the streaming pipeline's workers

The repository runs four analytical queries as a pipeline of replicated workers. Queues
deliver at least once, a worker acks only after its state is durable, and a crashed worker
is rebuilt from a snapshot and a log. This project models the parts that make the answers
right in spite of that, and proves what they promise. `dafny verify dfyconfig.toml` checks
everything.

| files | part of the system |
|---|---|
| `IntervalSets` | sequence numbers already seen, as merged ranges updated in place |
| `Bytes`, `Wal` | integers on disk and wire; the append-only log, byte by byte |
| `DeltaStrategies`, `ClientRuntime`, `ExactlyOnce`, `LoggedStages` | one client of a worker: batches, checkpoints, crashes at any disk write, recovery |
| `AckLedger`, `Worker`, `HandlerRuns` | the worker's handlers on its per-client maps, its books on unacked deliveries, and the handlers as steps of the runs above |
| `CheckpointMaps` | a strategy's map written to a checkpoint under text keys and read back |
| `RingCoordinator`, `RingSystem`, `RingNumbers` | the token ring that detects the end of a stage, over all interleavings, and its sequence numbers |
| `JoinerAccumulate`, `FanInSystem`, `UsdJoiner` | fan-in by counts: the barrier with retries, and the joiner that completes on whatever comes last |
| `AccountKeys`, `SortedKeys`, `Sharding`, `AccountGraph`, `SharderQ4`, `SuspiciousFilter`, `PathFinder`, `PairCounter`, `ScatterGather` | query 4, stage by stage and end to end |
| `BankOutputs`, `MaxQ2`, `BankAggregator` | query 2's per-bank stages and their logs |
| `Q3Buffer`, `FilterQ3`, `Q3Runs` | query 3's filter with its buffer file, and its payments over runs with crashes |
| `InnerCodec`, `TransactionCodec`, `Emission` | the wire formats, and what a worker publishes for a batch |
| `TwoStages` | two stages in a row that both crash |
| `StreamFilters` | the filters that pass transactions on, and what their EOFs declare |

Classes carry the fields the source updates in place; each of their methods is proved to
do what a function on values says, and the theorems over runs are about those functions.
A run is a list of steps, so a statement about every run ranges over every interleaving and
every crash point.

## What the model assumes

- A disk maps names to contents, an atomic file write is one step, and opening a segment
  (which deletes stale ones) is one step. A segment may be cut at any byte in `Wal`; in runs
  with several crashes (`ExactlyOnce`) an append is cut at a record boundary, because a
  torn tail would hide later records (`Wal.AppendsSurviveIffClean`).
- JSON, the textual form of client ids and the text of ring keys are lossless, and names are
  valid UTF-8. The keys a strategy makes itself for its checkpoint and log are modelled with
  their texts. Id spaces are raw bytes, of which JSON text keeps those below 0x80 only, in the
  log's records and in the checkpoint's dedup map: stage types, replica numbers and output
  numbers are taken to be so small that no byte of an id space reaches 0x80. Checksums and hashes are arbitrary functions with the right range. Amounts are
  ordered values, or 64-bit patterns in codecs; not-a-number does not occur.
- What a state comes back as from a checkpoint file is a function of the state; the theorems
  hold for every such function that some order of writing and reading the file allows.
- Per-client maps of a worker are grouped: strategy state, dedup set and item count form a
  `Core`; coordinator state, coordination dedup, cached EOF and output sequence form an
  opaque `C`. The dedup set is a set of keys; `IntervalSets` shows that the ranges kept for
  each id space are that set. The same key always stands for the same batch.
- `ExactlyOnce` and the end-of-stream systems follow one client. In `Worker` each handler
  is shown to leave every other client as it was.
- The ring, the barrier and the joiners run without crashes, with one upstream EOF per
  sender, and with declared totals below 2^32, the width they are compared in.
- The per-client states of the suspicious filter and the path finder are the same code up
  to names, and share one class.

## Where the code and its promises part

Each of these is a lemma: either an exact condition or a concrete run.

- Bytes left by a torn append hide every record appended after them, since a segment is
  reopened without being cut back (`Wal.TornHeaderHidesNextRecord`).
- In log mode an acked EOF or token is not durable until the next snapshot, for log records
  carry strategy data only (`ExactlyOnce.CoordinatorDurableIff`, `ExactlyOnce.AckedEofForgotten`);
  the output sequence goes back with it, and what is numbered again is dropped by its receiver
  (`TwoStages.NextTokensAreDropped`).
- Completing a client writes a snapshot without starting a new log generation; a crash
  before the log is removed counts the segment's items twice (`ExactlyOnce.CompletionRecounts`,
  `ExactlyOnce.BatchRecounted`).
- Bank names overwrite, so replaying their log over a newer state can bring an old name
  back (`BankAggregators.NewerStateKeptIff`); the same crash can make that happen
  (`LoggedStages.NamesKeptAtCompletionIff`, `LoggedStages.OldNameAtCompletion`).
- A counter's checkpoint keys pairs by a text that is not injective. With an arrow in the name
  of a source account the pair never comes back, and another pair may be lost with it or come
  back with its middle accounts (`PairCounters.PairsReturnIff`, `AccountKeys.PairTextsCollide`,
  `PairCounters.CollidingPairsMix`). A worker that crashes then has less than it acked
  (`LoggedStages.ArrowPairsAreForgotten`, `LoggedStages.ArrowPairsKeepTheLogOnly`).
- Query 4's pruning is right only while the suspicious threshold does not exceed the
  minimum of intermediates; the configuration does not require that (`ScatterGather.PruningIsSafeIff`).
- Query 3 declares to the next stage the rows it drained, not those it had filtered online
  (`FilterQ3.DeclaredMatchesTrafficIff`, `FilterQ3.LateRowUndeclared`); an averages EOF that
  comes early is acked and never retried (`FilterQ3.EarlyAveragesEofIsLost`,
  `FilterQ3.EarlyEofRun`); and after a crash before the client's first checkpoint the buffer
  file is appended to a second time (`FilterQ3.NoCheckpointBuffersTwice`,
  `FilterQ3.OnePaymentTwice`, `Q3Runs.UnshelteredBuffersTwice`). A checkpoint of the older format can undercount
  (`FilterQ3.OldCheckpointCountsIff`).
- Two kinds of items for one destination get the same id, and the second message would be
  dropped as a duplicate (`Emission.OneBatchApartIff`, `Emission.TwoKindsOneId`).
- A header comment promises that every message has a sequence number; the parser lets an
  abort announcement through without one, and the model follows the parser
  (`InnerCodec.DecodeEncodeIff`).

## Model

| member | source | states |
|---|---|---|
| IntervalSets.IntervalSet.Contains | src/common/dedup/intervalset.go:17-20 | The answer is membership of the id in the set the ranges stand for. |
| IntervalSets.IntervalSet.Add | src/common/dedup/intervalset.go:22-43 | The set gains exactly the id, the answer says whether it was absent, and the ranges stay sorted, disjoint and non-adjacent, at 0 and the last number too. |
| IntervalSets.InsertMeans | src/common/dedup/intervalset.go:22-43 | The specification of an add keeps the canonical form and denotes the old set with the id. |
| IntervalSets.SpliceIsInsert | src/common/dedup/intervalset.go:27-41 | Each of the four in-place cases, merging left, right, both or neither, yields the specified list. |
| IntervalSets.SameIdsSameRanges | src/common/dedup/intervalset.go:8-15 | Two canonical lists of the same ids are the same list. |
| IntervalSets.OrderOfAddsIsInvisible | src/common/dedup/intervalset.go:22-43 | Two sequences of adds over the same ids leave the same ranges, whatever their order and repetitions. |
| Wal.Log.Open | src/common/wal/wal.go:29-54 | Other generations are deleted, the segment of this one is kept as it is, and its size is known. |
| Wal.Log.AppendBatch | src/common/wal/wal.go:91-111 | The segment grows by exactly the framed records; nothing else changes; an empty batch writes nothing. |
| Wal.Log.Rotate | src/common/wal/wal.go:113-134 | The next generation starts empty and the old segment is gone. |
| Wal.Replay | src/common/wal/wal.go:56-85 | The readable records, up to the first short or damaged one, are handed over in order until the callback fails on one. |
| Wal.ReplayOfAppended | src/common/wal/wal.go:56-85 | An uncut segment gives back every appended payload, in order, for any checksum function. |
| Wal.ReplayOfCut | src/common/wal/wal.go:66-84 | A segment cut at any byte gives back exactly the records that lie wholly before the cut. |
| Wal.WholeBeforeIsGreatest | src/common/wal/wal.go:66-84 | The number of records so delivered is the greatest whose bytes fit before the cut. |
| Wal.DeliveredIsPrefix | src/common/wal/wal.go:56-85 | Whatever the bytes, they begin with the frames of the payloads delivered. |
| Wal.AppendsSurviveIffClean | src/common/wal/wal.go:38-38 | Records appended after the bytes found at Open are all delivered later exactly when those bytes are whole records only. |
| Wal.TornHeaderHidesNextRecord | src/common/wal/wal.go:38-38 | A concrete torn tail behind which the next appended record is never delivered. |
| DeltaStrategies.LogRebuildsState | src/worker/runtime/runtime.go:1181-1194 | For a lawful strategy, replaying the deltas of any batches over the state they started from gives the state they led to. |
| DeltaStrategies.ReplayIsIdempotent | src/worker/runtime/runtime.go:1256-1275 | For an absorbing strategy, replaying a whole log over the state it led to, or any later one, changes nothing. |
| ExactlyOnce.CrashPoint | src/worker/runtime/runtime.go:1128-1151 | Wherever a checkpoint is cut, between any two writes or records of an append, the disk holds the acked batches plus a prefix of the pending ones. |
| ExactlyOnce.CompactionIsAtomic | src/worker/runtime/runtime.go:1248-1254 | A crash before, between or after the three writes of a compaction recovers the same state, dedup sets and item count, iff nothing was written yet or the strategy's state survives its checkpoint text. |
| ExactlyOnce.EveryRunIsExplained | src/worker/runtime/runtime.go:519-558 | After every run of publish, deliver, checkpoint and crash steps, one duplicate-free list of batches explains memory, disk and broker. |
| ExactlyOnce.ExactlyOnceOnDisk | src/worker/runtime/runtime.go:1403-1459 | In every reachable state a restart rebuilds the fold over distinct published batches with their item sum, and every other published batch is still unacked. |
| ExactlyOnce.ExactlyOnceInMemory | src/worker/runtime/runtime.go:537-558 | The same for memory: each batch counts once, and is durable or has its delivery pending. |
| ExactlyOnce.CoordinatorDurableIff | src/worker/runtime/runtime.go:1140-1149 | A finished checkpoint has made the coordinator state durable iff it wrote a snapshot or the state had not changed since the last one. |
| ExactlyOnce.AckedEofForgotten | src/worker/runtime/runtime.go:77-82 | A run in which a worker in log mode acks an EOF and has forgotten it after a crash. |
| ExactlyOnce.NoAckedEofForgotten | src/worker/runtime/runtime.go:1128-1151 | In full-checkpoint mode, over every run with crashes, a restart knows every EOF and token that was acked, and memory knows these and the unacked ones it was given, in order. |
| ExactlyOnce.CoordinatorIsLastSaved | src/worker/runtime/runtime.go:1128-1151 | In full-checkpoint mode, whatever the coordinator is, a restart after any run with crashes finds coordinator state, coordination dedup and output sequence as at the last finished checkpoint, and without unacked deliveries memory has just that. |
| ExactlyOnce.CompletionWindow | src/worker/runtime/runtime.go:1313-1320 | For absorbing strategies the data survives that crash too, and the whole core does iff the segment records no items. |
| ExactlyOnce.CompletionRecounts | src/worker/runtime/runtime.go:1313-1320 | A crash right after the snapshot of completeClient, in any reachable state and for any lawful strategy: dedup is right, the item count is too high by the items of the current segment, and the data is the final state with the segment's deltas applied once more. |
| ExactlyOnce.BatchRecounted | src/worker/runtime/runtime.go:1313-1320 | A run of a worker in log mode after which that crash counts a batch twice. |
| LoggedStages.AllPublishedOnce | src/worker/runtime/runtime.go:1403-1459 | Once everything is acked, the disk holds the fold over all published batches, each once, whatever crashed. |
| LoggedStages.GraphSurvivesCrashes | src/worker/strategy/suspicious_filter/suspicious_filter.go:347-370 | After any run with crashes the recovered graph holds exactly the transfers received. |
| LoggedStages.CounterSurvivesCrashes | src/worker/strategy/counter/counter.go:255-303 | After any run with crashes, if no source account received has an arrow in its name, a pair qualifies iff enough distinct middle accounts were received. |
| LoggedStages.ArrowPairsKeepTheLogOnly | src/worker/strategy/counter/counter.go:276-303 | From any disk, a pair with an arrow in its source name gets back exactly what the current log segment says of it, as if there had been no checkpoint. |
| LoggedStages.ArrowPairsAreForgotten | src/worker/strategy/counter/counter.go:255-303 | A run of one batch, checkpointed and acked, and a crash: the state is right iff no source account of the batch has an arrow in its name; the pairs of the others are gone. |
| LoggedStages.MaximaSurviveCrashes | src/worker/strategy/max_q2/max_q2.go:114-127 | After any run with crashes the recovered maxima are those of the payments received. |
| LoggedStages.NamesSurviveCrashes | src/worker/strategy/bank_aggregator/bank_aggregator.go:102-116 | After any run with crashes each bank has the last name received for it, in some order of the batches. |
| LoggedStages.NamesKeptAtCompletionIff | src/worker/runtime/runtime.go:1313-1320 | A crash right after the snapshot of completeClient, in any reachable state: the bank names are right iff no bank named in the current segment is renamed by a batch still pending. |
| LoggedStages.OldNameAtCompletion | src/worker/runtime/runtime.go:1313-1320 | A run after which that crash brings an old name back. |
| TwoStages.NextTokensAreDropped | src/worker/runtime/runtime.go:1097-1112 | A run in log mode after which a worker numbers its next EOFs and tokens as it numbered those it had sent, so that a receiver that has seen these drops them. |
| TwoStages.SettledMeansProcessed | src/worker/runtime/runtime.go:537-558 | Once everything is acked, every published batch was processed in full, whatever crashed. |
| TwoStages.IdMeansItems | src/worker/runtime/runtime.go:937-956 | At one queue an id stands for one list of items, whichever batches are processed and however often. |
| TwoStages.EachMessageCountsOnce | src/worker/runtime/runtime.go:519-558 | Two stages in a row, both with crashes: once all is acked the second holds the fold over exactly the messages of all batches published to the first, each once, however often they were published again. |
| WorkerRuntime.Worker.Load | src/worker/runtime/runtime.go:1403-1459 | Every client is rebuilt from its snapshot and segment as the recovery function says; a dead client starts empty and has its checkpoint file removed. |
| WorkerRuntime.Worker.ReplayWAL | src/worker/runtime/runtime.go:1256-1275 | Every record of the segment is applied, marked as seen and counted, in order. |
| WorkerRuntime.Worker.WalFor | src/worker/runtime/runtime.go:1196-1207 | The segment is opened on first use only. |
| WorkerRuntime.Worker.WriteWALSnapshot | src/worker/runtime/runtime.go:1232-1246 | The snapshot written is the client's whole state with the given generation, which becomes the current one. |
| WorkerRuntime.Worker.CompactWAL | src/worker/runtime/runtime.go:1248-1254 | Snapshot for the next generation, new segment, old segment removed: these writes in this order. |
| WorkerRuntime.Worker.CompactIfGrown | src/worker/runtime/runtime.go:1223-1229 | Compacts exactly when the size counted for the segment has reached factor times the last snapshot and the floor. |
| WorkerRuntime.Worker.WalCheckpoint | src/worker/runtime/runtime.go:1209-1230 | The writes and the new bookkeeping are those the crash theorems are about; told from the disk alone, a client with a snapshot moves on to the next generation exactly when the records of its segment, those appended now included, have reached factor times that snapshot and the floor. |
| WorkerRuntime.Worker.SizeIsFramedLength | src/common/wal/wal.go:87-111 | The size counted for a log is the length of its segment in bytes, whatever the payloads: the sum of their frames. |
| WorkerRuntime.Worker.EnqueuePending | src/worker/runtime/runtime.go:1114-1120 | One delivery joins its client's list; counter, clocks and lists stay balanced. |
| WorkerRuntime.Worker.AckAllPending | src/worker/runtime/runtime.go:1153-1161 | All pending deliveries of the client, and no others, are acked once. |
| WorkerRuntime.Worker.CheckpointAndAck | src/worker/runtime/runtime.go:1128-1151 | Everything pending is made durable, then acked; with nothing pending nothing happens; other clients are untouched; whether the generation moves on is told from the disk as above. |
| WorkerRuntime.Worker.FlushAllPending | src/worker/runtime/runtime.go:1122-1126 | Every client with pending deliveries gets one checkpoint, and nothing is pending afterwards. |
| WorkerRuntime.Worker.RunMaintenance | src/worker/runtime/runtime.go:1384-1401 | Exactly the clients whose oldest pending delivery is too old are flushed; old tombstones go. |
| WorkerRuntime.Worker.CompleteClient | src/worker/runtime/runtime.go:1304-1325 | Last snapshot with unchanged generation, tombstone, all acks with the final one; nothing of the client is left in memory, nor a snapshot or a segment on disk. |
| WorkerRuntime.Worker.AbortClient | src/worker/runtime/runtime.go:1327-1333 | All pending deliveries are acked and nothing of the client is left in memory or on disk; nothing is saved. |
| WorkerRuntime.Worker.HandleBatch | src/worker/runtime/runtime.go:537-558 | A batch is processed, marked if it has a number, counted and logged, then completes its client, leaving nothing of it, flushes it, flushes everyone, or waits, exactly as the limits say. |
| WorkerRuntime.Worker.HandleCoordination | src/worker/runtime/runtime.go:560-609 | An EOF or token changes the coordinator from the local item count, and is made durable at once or completes the client, leaving nothing of it. |
| WorkerRuntime.Worker.HandleInput | src/worker/runtime/runtime.go:434-510 | Every delivery ends pending or acked, exactly once, and the number pending stays below the prefetch limit; a delivery for a dead client, a numbered batch in the dedup set and an EOF or token known to the coordinator are acked and change no memory and no file of any client; all others are handled and known afterwards. |
| HandlerRuns.Serve | src/worker/runtime/runtime.go:434-609 | Any delivery of a live client that does not complete it moves broker, memory and disk of every client by at most two steps of the system the exactly-once theorems are about. |
| HandlerRuns.NewBatchIsARun | src/worker/runtime/runtime.go:537-558 | A new batch is one delivery and at most one checkpoint of that system. |
| HandlerRuns.CoordinationIsARun | src/worker/runtime/runtime.go:560-609 | An EOF or token is one coordination and one checkpoint. |
| HandlerRuns.OtherClientIsARun | src/worker/runtime/runtime.go:1122-1126 | For a client the delivery does not belong to, it is at most one checkpoint. |
| HandlerRuns.StepsContinueRun | src/worker/runtime/runtime.go:434-510 | Such steps, taken from a state that a run led to, make a longer run. |
| HandlerRuns.LoadIsARestart | src/worker/runtime/runtime.go:1403-1459 | What a starting worker finds for a client is what a restart of that system finds: everything unacked is queued again. |
| HandlerRuns.TheDeadStayDead | src/worker/runtime/runtime.go:449-452 | Whatever is delivered, to it or to others, a completed or aborted client regains no memory and no file while its tombstone lasts. |
| HandlerRuns.ServeTwice | src/worker/runtime/runtime.go:455-517 | A batch, EOF or token delivered twice leaves every client as one delivery of it does, and the second is acked at once. |
| AckLedger.Enqueued | src/worker/runtime/runtime.go:1114-1120 | Counter equals the sum of the lists, clocks are those of the clients with pending deliveries, and no delivery is known twice: kept by an enqueue. |
| AckLedger.AllAcked | src/worker/runtime/runtime.go:1153-1161 | The same, kept by acking a client's list; nothing acked is lost or acked again. |
| RingCoordination.RingCoordinator.OnUpstreamEOF | src/common/eof/ring.go:43-65 | State and answer are those of the specification; other clients are untouched. |
| RingCoordination.RingCoordinator.OnRingToken | src/common/eof/ring.go:67-82 | State and answer are those of the specification; other clients are untouched. |
| RingCoordination.RingCoordinator.Finalize | src/common/eof/ring.go:101-134 | Too few and too many items both re-enqueue; agreement, with totals truncated to 32 bits, closes. |
| RingCoordination.RestoredZeroIsAbsent | src/common/eof/ring.go:145-155 | The zero state restored for a client without one is never told apart from no state. |
| RingSystem.TerminationDetected | src/common/eof/ring.go:101-134 | For any number of replicas and any interleaving, whoever emits does so when every declared item has been processed, with the true totals. |
| RingSystem.OneBaton | src/common/eof/ring.go:43-134 | In every reachable state exactly one of EOF queued, token collecting, token closing, finished holds, and no message has come to nothing: not the token of an initiator without state, not a retry without a cached EOF. |
| RingNumbers.NeverADuplicate | src/worker/runtime/runtime.go:1054-1112 | Along every run of the ring, first or retried, the upstream EOF passes the duplicate check of whichever replica takes it, and a token that of its receiver. |
| RingNumbers.CopiesAreRefused | src/worker/runtime/runtime.go:512-517 | A second copy of the EOF or the token does not pass the duplicate check where the first was accepted. |
| RingSystem.EachSpeaksOnce | src/common/eof/ring.go:84-99 | After a broadcast ring every replica has emitted exactly once, and the declared totals add up to the matched count of the token, the rows published. |
| RingSystem.OneSpeaksForAll | src/common/eof/ring.go:118-133 | Without broadcast exactly one replica emits, once, the totals of all. |
| RingSystem.LastRoundFinishes | src/common/eof/ring.go:43-134 | A round started once all items are processed cannot fail: it is over after N hops, 2N with broadcast, none with one replica. |
| RingSystem.AlwaysFinishable | src/common/eof/ring.go:30-133 | No reachable state is a dead end: some further steps process all items and end the ring, whatever rounds have failed. |
| RingSystem.AgreementMeansDrained | src/common/eof/ring.go:103-116 | Counts read at different times agree with the declared total iff nothing is queued and the counts are the present ones. |
| FanInBarrier.JoinerAccumulateCoordinator.OnUpstreamEOF | src/common/eof/joiner_accumulate.go:60-90 | Records the sender and refuses a changed total; retries iff all senders are in but not the items, and finalises, once, iff both are; then each output gets exactly one EOF, for the sum of the recorded totals, and no other output any. |
| FanInBarrier.AddTotals | src/common/eof/joiner_accumulate.go:31-37 | The sum of the recorded totals, whatever the order of the map. |
| FanInBarrier.JoinerAccumulateCoordinator.RestoreClientJACState | src/common/eof/joiner_accumulate.go:92-117 | A saved barrier restored is the barrier saved. |
| FanInBarrier.TextsAreSenders | src/common/eof/joiner_accumulate.go:16-37 | Keyed by the text of stage and replica, the totals answer every question of the barrier as they do keyed by sender: presence, value, update, number and sum. |
| FanInBarrier.RetryPasses | src/worker/runtime/runtime.go:1054-1087 | The retry of an accepted EOF passes the sequence check; a number is refused only at the very end of the range. |
| FanInSystem.FinalisedOnceAndComplete | src/common/eof/joiner_accumulate.go:60-90 | For every interleaving and number of outputs: no EOF leaves before all senders are recorded and all items processed, and then, over the whole run, each output gets exactly one, for the sum of the declared totals, and no other output any. |
| FanInSystem.EofNeverLost | src/common/eof/joiner_accumulate.go:72-82 | Until then an EOF is in flight, one for each sender not recorded, exactly one retry when all are, and none is taken for a duplicate. |
| FanInSystem.LastEofFinalises | src/common/eof/joiner_accumulate.go:79-89 | With all items processed, delivering the EOFs in flight finalises the client. |
| FanInSystem.AlwaysFinishable | src/common/eof/joiner_accumulate.go:79-89 | From every reachable state of a worker that has not stopped, processing the items on their way and delivering the EOFs in flight finalises the client. |
| FanInSystem.CopyIsIgnored | src/worker/runtime/runtime.go:455-459 | A copy of an EOF that was taken, or an earlier number of its sender, is acked without effect. |
| FanInSystem.StopsIff | src/worker/runtime/runtime.go:1054-1087 | The worker stops exactly at an EOF with another total than before, or at a retry for which no number is left. |
| UsdJoiner.EOFJoiner.ProcessBatch | src/worker/runtime/runtime.go:638-681 | All items go to every output, each output once, and the batch completes the client iff some item finds everything in. |
| UsdJoiner.EOFJoiner.OnUpstreamEOF | src/worker/strategy/joiner/eof_joiner.go:80-98 | A sender counts once; the EOF that completes the set fires iff the items are in. |
| UsdJoiner.EveryPrefixExplained | src/worker/strategy/joiner/eof_joiner.go:64-124 | After every prefix of every interleaving the client is complete iff all senders were heard and all declared items have passed; each output has then got exactly one EOF, for the number of items forwarded, and none before. |
| UsdJoiner.FiresAtTheLastEvent | src/worker/strategy/joiner/eof_joiner.go:100-106 | With nothing missing and nothing superfluous, completion is at the last event, EOF or batch. |
| AccountKeys.AccountRoundTrip | src/worker/strategy/counter/counter.go:332-346 | Every account survives its key text, whatever its name contains. |
| AccountKeys.ReadsAsAccountIff | src/worker/strategy/counter/counter.go:332-346 | A text reads as an account iff it is some digits, at least one, for the bank, a bar, and the name. |
| AccountKeys.PairRoundTripIff | src/worker/strategy/counter/counter.go:348-366 | The text of one pair reads as that pair iff the source name contains no arrow. |
| AccountKeys.PairTextsCollide | src/worker/strategy/counter/counter.go:348-350 | From any three accounts, two different pairs with one text; the second pair has the first account, as it is, for its source. |
| CheckpointMaps.Save | src/worker/strategy/counter/counter.go:255-274 | Writing a map entry by entry, in any order, leaves under each text the value of some key with that text. |
| CheckpointMaps.Read | src/worker/strategy/counter/counter.go:276-303 | Reading it in any order leaves what the entries decode to, up to the first that does not decode; all is read iff every entry decodes. |
| CheckpointMaps.ReturnsWhole | src/worker/strategy/counter/counter.go:255-303 | For every order of both, a map whose keys and values survive on their own comes back whole. |
| CheckpointMaps.SomethingReturns | src/worker/strategy/counter/counter.go:255-303 | Some order of writing and reading gives every map something back. |
| PairCounters.PairCounter.MarshalClientState | src/worker/strategy/counter/counter.go:255-274 | The checkpoint is one that writing the counter's pairs in some order leaves. |
| PairCounters.PairCounter.UnmarshalClientState | src/worker/strategy/counter/counter.go:276-303 | The pairs are what reading the checkpoint in some order leaves; it succeeds iff every entry can be read. |
| PairCounters.PairsReturnIff | src/worker/strategy/counter/counter.go:255-303 | Whatever the orders, the counter comes back as it was iff no source account it knows has an arrow in its name, and no pair that has one ever comes back. |
| PairCounters.CollidingPairsMix | src/worker/strategy/counter/counter.go:255-303 | With such a pair in the counter, a pair without an arrow can come back with the other's middle accounts, or with its own. |
| AccountGraphs.GraphReturns | src/worker/strategy/pathfinder/pathfinder.go:277-335 | A graph comes back from its checkpoint as it was, whatever the names and the orders. |
| MaxQ2.MaximaReturn | src/worker/strategy/max_q2/max_q2.go:185-215 | So do the maxima. |
| BankAggregators.NamesReturn | src/worker/strategy/bank_aggregator/bank_aggregator.go:172-200 | So do the bank names. |
| SortedKeys.SortKeys | src/worker/strategy/pathfinder/pathfinder.go:178-185 | The ascending list of a set of keys, which depends on the set alone. |
| SortedKeys.AscendingIsUnique | src/worker/strategy/counter/counter.go:214-219 | There is only one ascending list of a set. |
| SharderQ4.Sharder.ProcessMessage | src/worker/strategy/sharder_q4/sharder.go:62-121 | Each transfer goes to the shard of its source and to that of its destination, and both are counted. |
| SharderQ4.Sharder.BuildEOFEmits | src/worker/strategy/sharder_q4/sharder.go:143-154 | Each filter is told how many messages were sent to it. |
| SharderQ4.SharderMeans | src/worker/strategy/sharder_q4/sharder.go:97-119 | A shard receives exactly the transfers whose keyed account it owns. |
| AccountGraphs.AccountGraph.AddEdge | src/worker/strategy/suspicious_filter/suspicious_filter.go:124-142 | The edge is added once and logged iff it was new. |
| AccountGraphs.GraphMeans | src/worker/strategy/suspicious_filter/suspicious_filter.go:112-142 | The graph holds exactly the transfers received, in any order and multiplicity. |
| AccountGraphs.GraphDeltaAgrees | src/worker/strategy/pathfinder/pathfinder.go:133-169 | The delta taken after a batch carries the old state to the new one, accounts passing through their text. |
| AccountGraphs.GraphAbsorbs | src/worker/strategy/pathfinder/pathfinder.go:146-169 | A delta applied to a state that contains it, or to a later one, changes nothing. |
| SuspiciousFilters.SuspiciousFilter.BuildSuspiciousOutputs | src/worker/strategy/suspicious_filter/suspicious_filter.go:153-200 | The sorted outputs are a function of the graph, and the counts per shard are those of the outputs. |
| SuspiciousFilters.SuspiciousFilter.BuildEOFEmits | src/worker/strategy/suspicious_filter/suspicious_filter.go:313-323 | Each path finder is told how many edges were routed to it. |
| SuspiciousFilters.SuspiciousMeans | src/worker/strategy/suspicious_filter/suspicious_filter.go:172-198 | Exactly the edges of accounts with enough distinct counterparties leave, each to the shard of its middle account. |
| PathFinders.PathFinder.CrossProductIterator | src/worker/strategy/pathfinder/pathfinder.go:187-216 | The iterator yields the sorted cross product. |
| PathFinders.PathFinder.CrossProductShardCounts | src/worker/strategy/pathfinder/pathfinder.go:254-271 | The counting pass, in map order, agrees on every shard with the number of messages the sorted iterator sends. |
| PathFinders.CrossProductMeans | src/worker/strategy/pathfinder/pathfinder.go:198-213 | Exactly the two-step paths between different accounts are sent. |
| PathFinders.CrossProductDistinct | src/worker/strategy/pathfinder/pathfinder.go:198-213 | No path is sent twice. |
| PairCounters.PairCounter.ProcessMessage | src/worker/strategy/counter/counter.go:99-128 | A path teaches its pair one middle account or nothing, and is logged iff it taught something. |
| PairCounters.CounterMeans | src/worker/strategy/counter/counter.go:115-127 | Early qualification loses nothing: a pair qualifies iff enough distinct middle accounts were seen. |
| PairCounters.PairCounter.BuildPairOutputs | src/worker/strategy/counter/counter.go:203-242 | The qualified pairs, sorted. |
| PairCounters.CounterDeltaAgrees | src/worker/strategy/counter/counter.go:139-182 | The delta taken after a batch carries the old state to the new one. |
| PairCounters.CounterAbsorbs | src/worker/strategy/counter/counter.go:152-182 | A delta applied to a state that contains it, or to a later one, changes nothing. |
| ScatterGather.PipelineComputes | compare_results.py:128-164 | For all transfers, shard counts, hashes and arrival orders a pair is published iff it is different accounts with enough distinct middle accounts and neither end was pruned, and by its own counter only. |
| ScatterGather.PipelineAnswersTheQuery | compare_results.py:128-164 | With the threshold no higher than the minimum the four stages publish exactly the naive join. |
| ScatterGather.PruningIsSafeIff | src/worker/strategy/suspicious_filter/suspicious_filter.go:174-186 | Pruning is harmless on every input iff the threshold does not exceed the minimum. |
| MaxQ2.MaxState.ProcessMessage | src/worker/strategy/max_q2/max_q2.go:78-99 | A payment replaces its bank's maximum iff it is larger, and is logged iff it did. |
| MaxQ2.MaximaOfAllPayments | src/worker/strategy/max_q2/max_q2.go:87-97 | For each bank, and no other, the earliest of its largest payments is kept. |
| MaxQ2.MaxDeltaAgrees | src/worker/strategy/max_q2/max_q2.go:101-127 | The delta taken after a batch carries the old state to the new one. |
| MaxQ2.MaxAbsorbs | src/worker/strategy/max_q2/max_q2.go:114-127 | A delta applied to a state that contains it, or to a later one, changes nothing. |
| MaxQ2.MaxState.Outcome | src/worker/strategy/max_q2/max_q2.go:139-183 | Banks leave in ascending order, and each aggregator is told how many it gets. |
| BankOutputs.EachBankOnce | src/worker/strategy/bank_aggregator/bank_aggregator.go:145-160 | One message per bank, to the shard of client and bank. |
| BankAggregators.BankState.ProcessBatch | src/worker/strategy/bank_aggregator/bank_aggregator.go:67-87 | A batch overwrites the names it gives, and its delta is its last name of each bank. |
| BankAggregators.BankState.ApplyDelta | src/worker/strategy/bank_aggregator/bank_aggregator.go:102-116 | A written delta is applied in full, in any order; unreadable keys are refused. |
| BankAggregators.BankDeltaAgrees | src/worker/strategy/bank_aggregator/bank_aggregator.go:89-116 | The delta taken after a batch carries the old state to the new one. |
| BankAggregators.WholeLogIsIdempotent | src/worker/strategy/bank_aggregator/bank_aggregator.go:102-116 | Replaying the whole log over the state it led to changes nothing. |
| BankAggregators.NewerStateKeptIff | src/worker/strategy/bank_aggregator/bank_aggregator.go:102-116 | Over a later state the log is harmless iff no bank it names was renamed since. |
| BankAggregators.OlderDeltaReverts | src/worker/strategy/bank_aggregator/bank_aggregator.go:102-116 | The absorption law of the other strategies fails here: an older delta brings an old name back. |
| Q3Buffers.Drain | src/worker/strategy/filter_q3/filter_q3.go:365-440 | The drained rows are, in order and one for each, the payments readable in the file that are below the given share of their format's average. |
| Q3Buffers.CountQ3Rows | src/worker/strategy/filter_q3/filter_q3.go:447-483 | The count is the number of payments in the file under their threshold, as many as the drain has rows, modulo 32 bits, whatever bytes the file holds. |
| Q3Buffers.FilteredIff | src/worker/strategy/filter_q3/filter_q3.go:411-445 | The rows the filter makes of a list of items are the only ones that are, in order and one for each, the payments below threshold with their bank, account and amount. |
| Q3Buffers.BufferedIsRead | src/worker/strategy/filter_q3/filter_q3.go:263-285 | Every buffered item is read back in order, once. |
| Q3Buffers.RecoverBufferState | src/worker/strategy/filter_q3/filter_q3.go:306-363 | The file is cut after its intact frames, whose headers, number and items are reported. |
| Q3Buffers.RecoveryKeepsWholeBatches | src/worker/strategy/filter_q3/filter_q3.go:323-361 | From a buffer cut at any byte exactly the batches that lie wholly before the cut are recovered. |
| FilterQ3.ClientState.ProcessRawBatch | src/worker/strategy/filter_q3/filter_q3.go:104-128 | Before the averages are complete a batch is buffered as it came and no row leaves; afterwards its payments under threshold leave at once, in order. |
| FilterQ3.ClientState.OnAveragesEOF | src/worker/strategy/filter_q3/filter_q3.go:150-160 | An EOF that finds too few averages does nothing at all; the one that finds them all finalises if the other input has ended; one with another total than before is refused. |
| FilterQ3.ClientState.OnRingEnd | src/worker/strategy/filter_q3/filter_q3.go:172-199 | The end of the payments finalises if the averages are complete. |
| FilterQ3.ClientState.FinalizeAndEmit | src/worker/strategy/filter_q3/filter_q3.go:201-229 | The drain and the declared total are functions of the buffer and the averages. |
| FilterQ3.ClientState.Restore | src/worker/strategy/filter_q3/filter_q3.go:503-538 | Items buffered after the checkpoint are added to those seen, once; for a checkpoint of the older format the buffer is a lower bound. |
| FilterQ3.TwoModesOneResult | src/worker/strategy/filter_q3/filter_q3.go:147-261 | For every interleaving the client is finalised once, at the later end; drained and online rows together are the payments under threshold, each once, in order; the total counts the drain; the items counted as seen are those of all batches. |
| FilterQ3.NothingLeavesIff | src/worker/strategy/filter_q3/filter_q3.go:442-445 | Nothing leaves in either mode iff no payment that came has an average and is below its threshold. |
| FilterQ3.DeclaredMatchesTrafficIff | src/worker/strategy/filter_q3/filter_q3.go:205-222 | The declared total is the number of rows sent iff no payment of a batch that came after the averages had ended is under its threshold, and the rows of the earlier batches fit 32 bits. |
| FilterQ3.LateRowUndeclared | src/worker/strategy/filter_q3/filter_q3.go:205-222 | A run with one row sent and none declared. |
| FilterQ3.EarlyAveragesEofIsLost | src/worker/strategy/filter_q3/filter_q3.go:150-154 | An averages EOF that overtakes an average is never retried and the client never finishes. |
| FilterQ3.EarlyEofRun | src/worker/strategy/filter_q3/filter_q3.go:150-154 | A run in which everything comes in the end and the client still never finishes. |
| FilterQ3.RestoreCountsOnce | src/worker/strategy/filter_q3/filter_q3.go:526-536 | A checkpoint restored over a buffer that grew since and was cut at any byte: of the later batches exactly those wholly before the cut are kept and counted, once each, and the headers of all that is kept are handed over. |
| FilterQ3.OldCheckpointCountsIff | src/worker/strategy/filter_q3/filter_q3.go:527-535 | A checkpoint of the older format counts right iff only buffered items had been seen when it was made or none were buffered since. |
| FilterQ3.NoCheckpointBuffersTwice | src/worker/strategy/filter_q3/filter_q3.go:571-581 | After a crash before the first checkpoint the redelivered batches are buffered again, and the drain is right iff they hold no items. |
| FilterQ3.OnePaymentTwice | src/worker/strategy/filter_q3/filter_q3.go:571-581 | One payment and one such crash: the drain sees the payment twice. |
| Q3Runs.EachBatchOnce | src/worker/strategy/filter_q3/filter_q3.go:104-128 | Over every run of deliveries, checkpoints, crashes and torn appends, unless a crash comes before the first checkpoint while the buffer holds something: the buffer holds different batches, each once and readable, none of them was filtered online, a batch that is neither still waits for its ack, and the items seen are those of the batches counted. |
| Q3Runs.DrainedPlusOnline | src/worker/strategy/filter_q3/filter_q3.go:201-261 | So when all is acked, the rows drained and the rows filtered online are together the payments under threshold of all published batches, each once. |
| Q3Runs.UnshelteredBuffersTwice | src/worker/strategy/filter_q3/filter_q3.go:571-581 | A run with one such crash, after which a batch is in the buffer twice. |
| InnerCodec.HeaderReads | src/common/messageprotocol/inner/inner.go:306-345 | A written header is read back, its gateway id reduced to 16 bits, or refused iff invalid. |
| InnerCodec.HeaderWrites | src/common/messageprotocol/inner/inner.go:282-302 | Every accepted header is written back byte for byte. |
| InnerCodec.WireLayout | src/common/messageprotocol/inner/inner.go:282-302 | Where each field of a message is, in network byte order: kind, gateway, client, number, sender, minter, branch path and body. |
| InnerCodec.BatchLayout | src/common/messageprotocol/inner/messages.go:22-41 | A batch is its kind, the number of its items, and the items, each behind its query and its length. |
| InnerCodec.ControlLayout | src/common/messageprotocol/inner/messages.go:94-139 | An EOF body is query and total, a ring token's initiator, counts and phase; an abort has none. |
| InnerCodec.RefusedIff | src/common/messageprotocol/inner/messages.go:22-41 | A message is refused when written iff its branch path has over 255 entries, or it is a batch of over 65535 items or of a kind outside 1 to 16. |
| InnerCodec.SerializeBatch | src/common/messageprotocol/inner/messages.go:22-41 | The loop writes what the specification says, with the same refusals. |
| InnerCodec.ParseBatch | src/common/messageprotocol/inner/messages.go:43-72 | The offset loop accepts and yields what the specification says. |
| InnerCodec.DecodeEncodeIff | src/common/messageprotocol/inner/inner.go:241-258 | Any of the four messages, if it can be written, is read back unchanged iff its header is acceptable to a reader and its gateway id has 16 bits. |
| InnerCodec.EncodeDecode | src/common/messageprotocol/inner/inner.go:241-258 | Every accepted input is written back byte for byte. |
| TransactionCodec.MasksAreBytes | src/common/transaction/projection.go:3-16 | The 256 masks and the 256 bytes correspond one to one. |
| TransactionCodec.Record.Apply | src/common/transaction/projection.go:18-46 | Exactly the fields outside the mask become zero. |
| TransactionCodec.MaskedTwice | src/common/transaction/projection.go:18-46 | Applying two masks is applying the fields they share. |
| TransactionCodec.SerializeTransaction | src/common/messageprotocol/external/transactions.go:12-55 | The bytes are those of the selected fields; a selected text over 255 bytes is refused. |
| TransactionCodec.TransactionReads | src/common/messageprotocol/external/transactions.go:61-119 | For every mask and any bytes after it, what was written is read back masked, with its mask, and the rest is untouched. |
| TransactionCodec.TransactionWrites | src/common/messageprotocol/external/transactions.go:61-119 | Whatever bytes are accepted, the transaction read can be written under the mask read, and that gives back the bytes consumed. |
| TransactionCodec.Reader.DeserializeTransaction | src/common/messageprotocol/external/transactions.go:61-119 | The field-by-field cursor reads what the specification says. |
| TransactionCodec.BatchReads | src/common/messageprotocol/external/transactions.go:131-162 | A batch is read back whole and ends where it ends. |
| TransactionCodec.ProjectedOnce | src/worker/strategy/filter/filter.go:112-122 | A filter's projection never fails and leaves the fields both masks keep; without one the payload passes byte for byte. |
| TransactionCodec.ProjectedTwice | src/worker/strategy/filter/filter.go:112-122 | Two filters in a row leave the intersection of the masks. |
| StreamFilters.Filter.ProcessMessage | src/worker/strategy/filter/filter.go:69-110 | A transaction is counted on one side and sent, projected, to exactly that side's outputs; what was sent to each output stays what was counted for its side. |
| StreamFilters.Filter.BuildEOFEmits | src/worker/strategy/filter/filter.go:174-184 | The matched total goes to the first outputs, the other to the rest. |
| StreamFilters.FilterDeclaresTraffic | src/worker/strategy/filter/filter.go:124-144 | When the ring is over the one speaker declares to every output the rows all replicas sent it. |
| StreamFilters.AmountFilter.ProcessMessage | src/worker/strategy/filter_amount_lt_50/amount_lt_50.go:70-104 | A payment is published and counted iff it is under the threshold. |
| StreamFilters.AmountFilter.OnRingToken | src/worker/strategy/filter_amount_lt_50/amount_lt_50.go:113-136 | The ring is given the matched count and the one that adds up with it to the items processed, and a replica that emits, whether it began the ring or not, declares its own matches. |
| StreamFilters.AmountFilterDeclaresTraffic | src/worker/strategy/filter_amount_lt_50/amount_lt_50.go:123-136 | When the ring is over each replica has declared, once, the rows it published itself. |
| Emission.IDSpacesDifferIff | src/common/messageprotocol/inner/inner.go:151-157 | An id space tells minter, sender and branch apart, and nothing else. |
| Emission.BranchesDifferIff | src/common/messageprotocol/inner/inner.go:167-172 | Branches are told apart iff path or the low eight bits of the output differ. |
| Emission.EmitDataOutputs | src/worker/runtime/runtime.go:894-970 | Items are grouped by output, destination and kind in order of first appearance; an index out of range is an error. |
| Emission.EachItemOncePerOutput | src/worker/runtime/runtime.go:912-968 | Every requested item is published exactly once per requested output, in order, and no two messages share output, destination and kind. |
| Emission.EveryHeader | src/worker/runtime/runtime.go:944-955 | Every message carries the batch's gateway, client, number and minter, the node as sender, and the batch's branch path with the output appended iff there are several. |
| Emission.EveryMessage | src/worker/runtime/runtime.go:912-936 | A message holds exactly the items asked for its output whose shard, of the client or of client and batch, or whose routing key, and whose kind, are the message's, each once and in the order asked for. |
| Emission.EveryOutputLeaves | src/worker/runtime/runtime.go:912-968 | For everything asked for there is such a message. |
| Sharding.ShardIsResidue | src/common/hashing/fnv.go:5-12 | With several shards a key goes to the residue of its hash: always the same shard, and every shard has its hashes. |
| Emission.OneBatchApartIff | src/worker/runtime/runtime.go:937-956 | The messages of a batch have different ids at every queue iff no destination gets two kinds of items. |
| Emission.TwoKindsOneId | src/worker/runtime/runtime.go:937-956 | A batch that sends one routing key two kinds of items: two messages with one id in one queue. |
| Emission.NoFalseDuplicatesEver | src/worker/runtime/runtime.go:937-968 | Over a whole run of batches of different origins no two messages for one queue have the same id. |
| Emission.SameIdSameMessage | src/worker/runtime/runtime.go:894-970 | Batches processed any number of times, in any order: what one queue gets under one id is always the same message. |

## Left out

- ExactlyOnce.ExactlyOnceOnDisk: covers strategy data, dedup keys and item counts; coordinator state and output sequence are covered by ExactlyOnce.CoordinatorDurableIff and, in full-checkpoint mode, by ExactlyOnce.CoordinatorIsLastSaved and ExactlyOnce.NoAckedEofForgotten, because log records do not carry them. The steps of completeClient are not steps of the run; their window is ExactlyOnce.CompletionRecounts.
- ExactlyOnce.CoordinatorDurableIff: treats coordinator state, coordination dedup, cached EOF and output sequence as one opaque value.
- WorkerRuntime.Worker.Load: checkpoint files that cannot be read, which the source skips, the global state file, and the dedup headers a strategy recovers from a buffer of its own are not modelled.
- HandlerRuns.Serve: a delivery of a dead client, a repeated EOF or token, and one that completes its client are not steps of that system; they are covered by WorkerRuntime.Worker.HandleInput, HandlerRuns.TheDeadStayDead and HandlerRuns.ServeTwice.
- PairCounters.PairCounter.UnmarshalClientState: the barrier saved in the same checkpoint is not part of the class; in the source it is restored only if every pair was read.
- WorkerRuntime.Worker.HandleInput: takes the parsed message as given; malformed messages, unexpected types and the nacks of a draining worker are not modelled, and publishing is not part of the handler's state.
- WorkerRuntime.Worker.CompactIfGrown: the sizes of records and snapshots are parameters, since they are lengths of JSON texts; bytes a torn append left in the segment, which the source counts until the next compaction, are not on the model's disk.
- HandlerRuns.ServeTwice: which EOFs and tokens the coordinator knows once it has taken them is a premise on the strategy's two functions; for the numbers themselves see RingNumbers.CopiesAreRefused and FanInSystem.CopyIsIgnored.
- RingSystem.TerminationDetected: crash-free, one client, one upstream EOF.
- RingNumbers.NeverADuplicate: numbers are unbounded; the source stops when 64 bits are used up.
- FanInSystem.FinalisedOnceAndComplete: crash-free, one client, one joiner replica; the EOF kept for a retry is the one being handled.
- ScatterGather.PipelineComputes: the runs are those in which every message arrives once in some order, which the runtime provides; arrival is by multiset and not by steps of the worker.
- FilterQ3.TwoModesOneResult: one replica and one client; the barrier's single sender is fixed.
- Q3Runs.EachBatchOnce: one replica and one client up to its completion, which is not a step; item counts are unbounded there.
- TwoStages.EachMessageCountsOnce: one replica of the first stage and one queue of the second; what arrives there is every message of the batches processed and none of an unpublished batch, since a crash may cut one attempt short.
- InnerCodec.DecodeEncodeIff: payloads of 2^32 bytes or more are excluded, since their length field would wrap.
- StreamFilters.Filter.ProcessMessage: the predicate is a parameter; errors of the decoder stop the worker and are not modelled.
- TransactionCodec.BatchReads: a batch of 2^32 transactions or more is excluded for the same reason.
- The output buffers of finished stages, their flushing order and the output sequence numbers, and publishing to brokers.
- The strategies sum_q3, micro_transaction_counter, aggregators and final joiner: their ring and barrier calls are those modelled, with the rows they publish as the matched count; the rest would add easy members.
- Serialisation of rows and items other than transactions, and of checkpoints apart from the keys of the strategies' maps.
- Brokers, TCP, UDP, HTTP, containers, environment parsing, logging; locks inside a worker, whose handlers run one at a time.
- Leader election, node monitoring, the gateway, client batching, result writers and the deployment generator.
