# Durable state, caches and schedulers of the gton sync service

A Dafny model of the part of the sync service that decides when block state is durable, and of the
caches and schedulers around it. `dafny verify dfyconfig.toml` checks the whole project.

What is modelled, file by file:

| file | what it models |
|---|---|
| `Durability.dfy`, `StagingSteps.dfy`, `CheckpointSteps.dfy`, `CheckpointSafety.dfy`, `StagedBlocks.dfy` | the whole checkpoint protocol as one state machine: appliers staging cells, the prewriter and its failures, the commit stage, freezing, waiting, flushing, writing metadata and cleaning up; then what its steps keep, what holds in every run, and what becomes of every staged block |
| `Runners.dfy`, `UnguardedRunners.dfy` | successive runners of that protocol: one starting while the last checkpoint of the one before is still being written, failed checkpoints and the error they leave, restarts and crashes; and when somebody else may take that error |
| `Prewriter.dfy`, `PrewriteEngine.dfy` | the generic prewriter queue (class) and the engine of producers, runner, failures and shutdown |
| `CellRecords.dfy`, `CellIndex.dfy`, `CellCache.dfy` | cell records and immutable layers, the fingerprint index with collision chains, the layered cache with sliced folding |
| `CellWindows.dfy` | several caches read as one: the newest-first search over active and frozen caches against the chunks a checkpoint writes |
| `Loaders.dfy`, `LoaderDiscipline.dfy` | cell windows and the loaders handed out from them: freezing, adoption, redirection, completion, for any bytes; then where each hash has one encoding |
| `AppliedStates.dfy` | the set of applied states waiting for a checkpoint |
| `ShardResolver.dfy` | the memoising single-flight resolver under any number of concurrent callers |
| `ApplyAhead.dfy` | the stage that resolves shards ahead of the commit |
| `GenerationSwitch.dfy` | checkpoint writers against the cell-generation switch |
| `ShardHints.dfy` | the hint table with its (count, maxSeq) generation |
| `Prewarmer.dfy`, `PrewarmEngine.dfy` | the prewarmer's lanes and task states (class) and its producers and workers interleaved |
| `MasterQueue.dfy` | the two-sided masterchain queue |
| `StateCache.dfy` | the compressed-state cache with its order queue |
| `ShardPrefixes.dfy`, `ArchivePlans.dfy` | shard-prefix arithmetic and archive import plans |
| `EventDispatch.dfy` | ordered at-most-once delivery of block-applied events |

Conventions. An object that the source updates in place is a class whose methods are stated against
pure functions of its contents. A protocol between goroutines is a state machine: each mutex section
and each channel receive is one step, `Next` is total (a step that is not enabled changes nothing), and
`Run` folds any list of steps, so a lemma about `Run(steps)` is about every interleaving. Archive
plans and event dispatch tell blocks apart by root hash, as the code does; elsewhere a block is known by an
abstract key. Hashes are abstract values with a fingerprint, clocks and I/O outcomes are
parameters, and decoding a cell is represented by its bytes.

Where the code and its own words differ. The comment on the hint generation
(service/shard_description_hints.go:38-42) says that equal generations mean equal contents; this holds for
the generations that snapshots report (`ShardHints.GenerationsTell`). The value computed inside a store, which
the code throws away (line 125), tells the contents exactly when no evicted position names the block of a kept
one (`ShardHints.StoreGenerationTellsExactly`), and at every limit from two on there is a run where it does not
(`ShardHints.StoreGenerationIsNotEnough`). A layer without a builder's index answers with the first record of a
repeated hash while folding lets the last one win (`CellRecords.RepeatedHashDiffers`); the layered lookup agrees
with the fold exactly when the layer is indexed or its first matches are the latest (`CellRecords.AgreesExactly`).
Handing one window's caches to another changes a loader's answer exactly when the receiving active cache holds
the hash with other bytes (`Loaders.HandOffExactly`), and it can (`Loaders.HandOffCanChange`). The comment on saving
a checkpoint (service/catchup_master.go:347-350) says that its error becomes visible to the next flush; the serializer
and the generation migration take the same error when they wait (service/catchup_master.go:526-533). To a runner just
started from the failed checkpoint's current state that is harmless exactly when that state is saved or durable
(`UnguardedRunners.HarmlessExactly`), and there is a run where it is neither and durable metadata comes to name cells
that are not there (`UnguardedRunners.TakenErrorDangles`). Where others leave the error to such a runner, that never
happens (`Runners.GuardedRunsAreSafe`).

## Model

| member | source | states |
|---|---|---|
| `CheckpointSafety.CommitNamesOnlySafeCells` | service/state_checkpoint.go:42-78 | in every interleaving, whenever metadata is about to be written, every record of a frozen cache whose staging call succeeded is durable or is passed in that same write |
| `CheckpointSafety.SnapshotsAreComplete` | service/next_sync_pipeline.go:1086-1130 | in every run, a snapshot holding a shard block holds its including master or that master is durable, and its entries' cells are in the caches frozen with it or durable |
| `CheckpointSafety.CrashSafe` | service/next_sync_pipeline.go:1353-1440 | at every moment, for every block that durable metadata names, its whole state is durable, its own cells and those of every predecessor it was built over at any depth, and so is its including master |
| `CheckpointSafety.CurrentIsDurable` | service/state_checkpoint.go:30-78 | the same for the current state named in the checkpoint write, the master's and every shard's |
| `StagedBlocks.CommittedIsPersisted` | service/next_sync_pipeline.go:1394-1406 | in every run: once the master of a staged shard block is committed, the next checkpoint written persists that block, in a state that a succeeded staging call of it gave |
| `StagedBlocks.MasterIsPersisted` | service/next_sync_pipeline.go:1408-1422 | the like for the master itself, by the next checkpoint begun after it is staged |
| `StagedBlocks.AllWereStaged` | service/next_sync_pipeline.go:1376-1392 | whatever is deferred, in hand, waiting, in a checkpoint or persisted is the block and the very state of a staging call that succeeded |
| `StagedBlocks.StagedIsTracked` | service/next_sync_pipeline.go:1186-1211 | while the commit stage is alive, every staged block is still deferred to its master, in hand, waiting for a checkpoint or persisted |
| `StagedBlocks.MastersAreSettled` | service/next_sync_pipeline.go:1353-1406 | between masters nothing is in hand: a staged block waits or is persisted, or is a shard block still deferred |
| `StagedBlocks.CheckpointPersistsAll` | service/next_sync_pipeline.go:1442-1446 | a checkpoint that is written persists every block that waited when its snapshot was taken, in the state it had then |
| `StagedBlocks.CheckpointNamesCurrent` | service/state_checkpoint.go:19-40 | and it names the current state of that moment, the master's and every shard's |
| `StagedBlocks.HeadIsLastMaster` | service/next_sync_pipeline.go:1132-1211 | between masters the head is the state staged for the last master committed |
| `StagedBlocks.CheckpointGoesOn` | service/state_checkpoint.go:42-78 | at every stage a checkpoint has its next step, except that it waits for the prewriter, and an idle commit stage with something staged can begin one |
| `Runners.AlwaysCrashSafe` | service/catchup_master.go:347-369 | over any number of runners, each started from the live current state while the checkpoint before may still be in flight, and over failed checkpoints, taken errors, restarts and crashes: durable metadata has its whole states and including masters durable, if each checkpoint that writes its cells itself names only those, saved ones and durable ones |
| `Runners.AlwaysCurrentDurable` | service/current_state.go:62-69 | the same for the current state in the store, from which a failed runner is followed and a crashed process starts |
| `Runners.BackedExactly` | service/storage/pebblestore/current_state.go:370-401 | that condition is exact at every state the invariant allows: once a checkpoint that writes its cells itself is committed, durable metadata is closed if and only if the condition held when it read its targets |
| `Runners.GuardedIsBacked` | service/catchup_master.go:517-533 | the condition holds in every run in which others leave the error to a runner that was handed what is neither saved nor durable, and no runner follows one whose own checkpoint failed unless the error waits or what it is handed is saved or durable; errors of a runner's own checkpoints may be taken freely |
| `Runners.GuardedRunsAreSafe` | service/state_serializer.go:155-158 | so in every such run all that durable metadata and the stored current state name is durable, with the including masters |
| `Runners.MoveKeepsOk` | service/state_lifecycle.go:298-322 | every step, failure, taken error, hand-over, restart and crash keeps the protocol's invariant, a checkpoint that writes its cells itself under the exact condition |
| `Runners.NextRunnerKeepsOk` | service/next_sync_pipeline.go:278-343 | a runner started over a handed current state meets the invariant: all it reaches is durable, was handed to it, or is its own, and what was handed lies in jobs numbered before its own |
| `Runners.NextRunnerHeeds` | service/current_state.go:60-190 | under that guard, what a returning runner hands to the next is saved or durable, or in the checkpoint in flight, or its error still waits |
| `Runners.CommitStageHeeds` | service/cell_generation_lifecycle.go:460-468 | a waiting error stops the runner that would begin a checkpoint, so in a guarded run only a runner handed saved or durable cells begins one |
| `UnguardedRunners.HarmlessExactly` | service/catchup_master.go:509-533 | going without the error is harmless to a runner just started, in every way of committing a master and writing the cells itself, if and only if what it was handed is saved or durable |
| `UnguardedRunners.DanglesExactly` | service/state_checkpoint.go:19-40 | from any state of a runner at rest without an error: it can commit a master with cells, begin a checkpoint while a shard's staging call is under way, and write; the current state then named is durable if and only if the one it stood on was saved, durable or in that write |
| `UnguardedRunners.TakenErrorDangles` | service/catchup_master.go:517-540 | for any cells of two masters, a run in which the first one's checkpoint fails in its write, another waiter takes the error and the next runner commits the second: durable metadata then names the second master's state, which is durable if and only if the second has every cell of the first |
| `CheckpointSafety.StepKeepsInv` | service/merkle_update_apply_cache.go:199-326 | every one of the protocol's steps keeps the invariant that relates caches, calls, prewriter, snapshot and store, the choice to write cells directly under the exact condition above |
| `CheckpointSafety.RunKeepsInv` | service/catchup_master.go:338-369 | the invariant holds after every sequence of steps of a runner that started from the store, with or without a prewriter |
| `StagingSteps.BeginStageKeepsInv` | service/merkle_update_apply_cache.go:199-218 | publishing a layer and owing its prewrite keeps the invariant |
| `StagingSteps.LoadKeepsInv` | service/shard_state_resolver.go:159-173 | taking up a state that the store holds keeps the invariant |
| `StagingSteps.EnqueueKeepsInv` | service/merkle_update_apply_cache.go:293-317 | handing a layer to the prewriter, accepted or refused, keeps the invariant |
| `StagingSteps.FinishKeepsInv` | service/merkle_update_apply_cache.go:319-326 | completing a prewrite, deferring a shard entry or resuming the commit stage keeps the invariant |
| `StagingSteps.FinishPrewrite` | service/merkle_update_apply_cache.go:319-326 | completing any call leaves each cache with as many owed prewrites as it has calls under way, and every record of its succeeded calls in a job numbered at most its token |
| `StagingSteps.WriterKeepsInv` | service/state_cell_prewriter.go:62-85 | every prewriter step, store failure and shutdown included, keeps the invariant |
| `StagingSteps.RunnerKeepsInv` | service/next_sync_pipeline.go:1186-1211 | the commit stage keeps the invariant; taking a master up it has exactly the shard blocks deferred to it in hand, each of them and then the master waits for the next checkpoint, and a snapshot takes all that waits |
| `CheckpointSteps.FreezeKeepsInv` | service/merkle_update_apply_cache.go:668-691 | freezing the active cache for a checkpoint keeps the invariant |
| `CheckpointSteps.ReadTargetKeepsInv` | service/merkle_update_apply_cache.go:794-810 | reading a frozen cache's prewrite target keeps the invariant, the last read of a checkpoint that writes its cells itself under the exact condition |
| `CheckpointSteps.OwnIsBacked` | service/state_checkpoint.go:29-31 | a runner that was handed nothing meets that condition in every state |
| `CheckpointSteps.CoveredIsSettled` | service/merkle_update_apply_cache.go:437-450 | a cache that reports a covered target has every succeeded record in a job numbered at most that target, or has none left to write |
| `CheckpointSteps.StagedIsSafe` | service/merkle_update_apply_cache.go:771-792 | passing what the frozen caches hold in the write itself covers every succeeded record |
| `CheckpointSteps.WaitReachedKeepsInv` | service/state_checkpoint.go:42-60 | a reached wait means every settled record was saved by an accepted batch |
| `CheckpointSteps.ReachedCovers` | service/state_checkpoint.go:45-52 | a reached wait means that every cache numbered up to its target is saved, those of earlier runners included, so a covered checkpoint is safe whoever took the error |
| `CheckpointSteps.FlushKeepsInv` | service/state_checkpoint.go:42-78 | flushing makes saved cells durable and keeps the invariant |
| `CheckpointSteps.CommitKeepsInv` | service/state_checkpoint.go:62-78 | writing the metadata keeps durable state closed under masters and cells |
| `CheckpointSteps.CommitClosed` | service/state_checkpoint.go:19-40 | the states a commit names have their cells durable and their masters named or durable |
| `CheckpointSteps.CompleteStatesKeepsInv` | service/next_sync_pipeline.go:1442-1452 | dropping the committed entries keeps the invariant |
| `CheckpointSteps.CompleteCellsKeepsInv` | service/merkle_update_apply_cache.go:844-866 | dropping the committed caches keeps every remaining entry's cells reachable |
| `PrewriteQueue.Prewriter.constructor` | service/prewriter.go:47-54 | an empty, open queue |
| `PrewriteQueue.Prewriter.EnqueueDetached` | service/prewriter.go:84-108 | the queue afterwards is the specified one and the number returned is the job's; refused once failed or closed |
| `PrewriteQueue.Prewriter.PopJob` | service/prewriter.go:176-200 | takes the first job and keeps the byte counter equal to the queued sum through reset and compaction |
| `PrewriteQueue.Prewriter.QueueWithinLimits` | service/prewriter.go:133-143 | exactly the room test: one job always fits, then the job and byte limits |
| `PrewriteQueue.Prewriter.TakeBatch` | service/state_cell_prewriter.go:62-76 | a maximal batch off the front: every proper prefix still had room, and it stops only at the end of the queue or at a limit |
| `PrewriteQueue.Prewriter.ProcessNext` | service/state_cell_prewriter.go:62-85 | the batch is a prefix of the queue, marked written when the store accepts it and failing the queue otherwise |
| `PrewriteQueue.BatchGrows` | service/prewriter.go:202-204 | a batch that the test lets grow by one job stays within the limits up to that job, so it overruns by at most its last one |
| `PrewriteEngine.StepKeepsInv` | service/prewriter.go:64-79 | every step of producers, runner, store, failure and shutdown keeps the engine's invariant |
| `PrewriteEngine.RunKeepsInv` | service/prewriter.go:56-79 | the invariant holds after every sequence of steps |
| `PrewriteEngine.WrittenJobsWereAccepted` | service/prewriter.go:206-213 | when the written mark is s, every job numbered at most s was in a batch the store accepted, in order |
| `PrewriteEngine.NeverParkedOnWork` | service/prewriter.go:64-79 | a healthy runner is parked without a pending wake only when every job is stored and marked |
| `PrewriteEngine.FailureIsFinal` | service/state_cell_prewriter.go:62-85 | from the refusal of a batch on nothing is accepted, marked or taken, no wait for its jobs is ever reached, and from the recording of the refusal on every such wait fails at once |
| `PrewriteEngine.ProduceExactly` | service/prewriter.go:84-108 | in every run a job is numbered next and queued last exactly while no error is recorded and the runner has not stopped |
| `PrewriteEngine.FirstIsWritten` | service/prewriter.go:176-213 | a runner that comes round to a healthy queue takes its first job, and a wait for it is then reached or failed as the store answers |
| `PrewriteEngine.DrainsBeforeClosing` | service/prewriter.go:64-79 | every job queued when the run context ends is written and marked before the runner closes, unless a batch is refused |
| `PrewriteEngine.ShutdownExactly` | service/prewriter.go:225-235 | a shutdown leaves no wait blocked: reached, failed if the context expired or a batch was refused, closed otherwise |
| `PrewriteEngine.RecordedIsFinal` | service/prewriter.go:215-223 | once the error is recorded it stays, and no job is numbered, appended or taken at any later moment |
| `PrewriteEngine.ReachedStays` | service/prewriter.go:206-213 | a wait once reached is reached at every later moment |
| `PrewriteEngine.StoppedIsFinal` | service/prewriter.go:225-235 | once the runner has stopped nothing changes any more and no job is accepted |
| `PrewriteEngine.WaitIsSoundAndEnds` | service/prewriter.go:145-174 | a wait for an issued number is reached exactly when every job up to it is stored and its batch marked; otherwise it fails exactly when an error is recorded, is closed exactly after a shutdown without one, and blocks only in between |
| `CellRecords.LatestAppend` | service/storage/cell_records.go:134-156 | the latest record of a concatenation is the later part's, else the earlier part's |
| `CellRecords.LatestIsLast` | service/storage/cell_records.go:134-156 | the latest data of a hash is that of its last non-empty record |
| `CellRecords.RecordBuilder.Add` | service/storage/cell_records.go:214-224 | appends a record and points the index at the last occurrence |
| `CellRecords.RecordBuilder.Build` | service/storage/cell_records.go:256-262 | the built set holds the records in order with an index of last occurrences |
| `CellRecords.NewLayer` | service/merkle_update_apply_cache.go:78-101 | a layer over the records: taken index, own first-occurrence index, or none below the scan limit, with the byte size summed |
| `CellRecords.IndexOf` | service/merkle_update_apply_cache.go:103-117 | finds the position the layer's kind of index picks for a hash, and none exactly when it is absent |
| `CellRecords.AgreesExactly` | service/merkle_update_apply_cache.go:91-95 | a layer's lookup gives the latest data of every hash if and only if it is indexed or its first matches are the latest |
| `CellRecords.RepeatedHashDiffers` | service/merkle_update_apply_cache.go:91-95 | an unindexed set that repeats a hash with other bytes gives its first bytes to a probe and its last to a fold |
| `CellIndex.CacheIndex.IndexOf` | service/state_cell_cache_index.go:23-32 | finds the unique position of a present hash and fails exactly on an absent one |
| `CellIndex.CacheIndex.CollisionIndexOf` | service/state_cell_cache_index.go:34-45 | walks a strictly falling chain of equal fingerprints, so it ends and misses nothing below its start |
| `CellIndex.CacheIndex.Insert` | service/state_cell_cache_index.go:49-58 | the new position becomes the head of its fingerprint's chain and the index stays exact |
| `CellIndex.ChainExtends` | service/state_cell_cache_index.go:49-58 | linking a position to the previous head keeps every chain exact |
| `CellIndex.ReplaceKeepsIndex` | service/merkle_update_apply_cache.go:272-291 | replacing a record's bytes in place keeps the index exact |
| `CellCache.LookupIsLatest` | service/merkle_update_apply_cache.go:328-376 | reading layers newest first and then the base gives the latest record of base plus layers |
| `CellCache.ViewIsLatestStaged` | service/merkle_update_apply_cache.go:328-376 | at any fold cursor the view is the latest record ever staged, although part of the front layer is folded and still listed |
| `CellCache.EncodedCache.StageLayer` | service/merkle_update_apply_cache.go:199-218 | staging appends the layer's records to the history and changes only the hashes it holds; it owes a prewrite exactly when there is a prewriter |
| `CellCache.EncodedCache.SetRecord` | service/merkle_update_apply_cache.go:272-291 | the base reflects one more write, with bytes and index exact and empty data ignored |
| `CellCache.EncodedCache.FoldOne` | service/merkle_update_apply_cache.go:232-250 | moves the record under the cursor, taking its bytes from the layer counter without underflow |
| `CellCache.EncodedCache.DropFirst` | service/merkle_update_apply_cache.go:252-262 | a fully folded layer leaves the list and the history stays the same |
| `CellCache.EncodedCache.FoldLayers` | service/merkle_update_apply_cache.go:225-264 | folding within a budget changes no lookup and not the history, and says whether work is owed |
| `CellCache.EncodedCache.FoldSlice` | service/merkle_update_apply_cache.go:225-264 | removes whole layers from the front only, and moves at most the budget |
| `CellCache.EncodedCache.CompactStagedLayers` | service/merkle_update_apply_cache.go:578-588 | slice after slice, at most the target number of layers stays and no lookup changes; it ends |
| `CellCache.EncodedCache.FoldKeepsView` | service/merkle_update_apply_cache.go:225-264 | any state of a fold over agreeing layers has the view it began with |
| `CellCache.EncodedCache.LoadWith` | service/merkle_update_apply_cache.go:328-376 | returns the decode of the viewed bytes, from a memo or fresh, and none exactly when the view has none |
| `CellCache.ProbeLayers` | service/merkle_update_apply_cache.go:342-359 | finds the newest layer holding the hash with data |
| `CellCache.EncodedCache.AppendRecordChunks` | service/merkle_update_apply_cache.go:401-418 | the chunks are base records and layers in order, none empty, with their size |
| `CellCache.EncodedCache.ChunksGiveTheView` | service/merkle_update_apply_cache.go:401-418 | writing one cache's chunks in order, last write winning, gives the map that its load path reads |
| `CellWindows.LoadIsLastStaged` | service/merkle_update_apply_cache.go:378-399 | after any stages, partial folds and freezes of a window, the search over its active and frozen caches returns the bytes staged last for the hash, and none exactly when none were |
| `CellWindows.FrozenChunksGiveTheLoads` | service/merkle_update_apply_cache.go:668-691 | at any freeze, the chunks of all frozen caches written in order give the map that loads read, which is that of the bytes staged last |
| `CellWindows.SearchIsWritten` | service/merkle_update_apply_cache.go:771-792 | for any list of caches, searching newest first, each by its own layered lookup, gives the last write over all their chunks in order |
| `CellWindows.SearchIsStaged` | service/merkle_update_apply_cache.go:378-399 | and the bytes staged last over all of them, whatever was folded |
| `CellWindows.StepSearch` | service/merkle_update_apply_cache.go:555-588 | a stage changes the search only for the hashes of its layer, a fold and a freeze not at all |
| `CellWindows.LoadCaches` | service/merkle_update_apply_cache.go:378-399 | the loop over the caches finds the newest that holds the hash |
| `CellWindows.CheckpointChunks` | service/merkle_update_apply_cache.go:771-792 | the chunks of all the caches, none empty, concatenate to their contents oldest first |
| `CellWindows.Compact` | service/merkle_update_apply_cache.go:578-588 | compacting a cache object is a fold: the staged records stay the same and the cache sound |
| `Loaders.HandOffExactly` | service/archive_importer.go:146-147 | adopting and redirecting leaves a staged hash's answer unchanged if and only if the receiving active cache does not hold it with other bytes |
| `Loaders.HandOffCanChange` | service/archive_importer.go:146-147 | a run to two windows with other bytes for one hash, after which handing the newer off to the older changes its loader's answer |
| `Loaders.LoadersKeepBytes` | service/merkle_update_apply_cache.go:597-651 | over every run whose steps meet their conditions on the bytes for a hash, every handed-out loader goes on returning the bytes it returned |
| `Loaders.StepKeeps` | service/merkle_update_apply_cache.go:597-651 | every step that meets its condition keeps the windows well formed and every loader's answer for the hash, through any chain of bases |
| `Loaders.AttachExactly` | service/merkle_update_apply_cache.go:712-734 | adopting a list of caches read earlier keeps the receiver's answer if and only if its active cache has the hash, or the list lacks it or gives the same bytes |
| `Loaders.RedirectExactly` | service/merkle_update_apply_cache.go:739-747 | redirecting a released window keeps its answer if and only if the receiver's caches, else what lies below, give the same bytes |
| `Loaders.FinishExactly` | service/merkle_update_apply_cache.go:844-866 | completing a checkpoint keeps the window's answer if and only if the caches it keeps, else what lies below, give the same bytes |
| `Loaders.SavedIsSafe` | service/merkle_update_apply_cache.go:844-866 | completing is safe for a hash when the store gives the bytes that the completed caches, the oldest pending ones, give |
| `Loaders.StageKeeps` | service/merkle_update_apply_cache.go:555-568 | staging a layer keeps every loader's answer for a hash that the layer lacks, or gives as the windows holding the cache did |
| `Loaders.StagedIsFound` | service/merkle_update_apply_cache.go:555-568 | a window's loader finds what was staged into the window last |
| `Loaders.SavedIsFound` | service/merkle_update_apply_cache.go:145-187 | and over the store what was saved last, when none of its caches holds the hash |
| `Loaders.UntouchedSame` | service/merkle_update_apply_cache.go:668-691 | opening, folding and freezing change no window's search for any hash |
| `LoaderDiscipline.LoadersNeverLose` | service/merkle_update_apply_cache.go:736-747 | where each hash has one encoding, windows are adopted before they are redirected and records saved before their caches are dropped, every loader keeps every hash it found, with its bytes, over every run |
| `LoaderDiscipline.DisciplinedIsSteady` | service/merkle_update_apply_cache.go:736-747 | such steps meet the conditions on the bytes |
| `AppliedStates.AppliedStateSet.RememberOwnedEntry` | service/applied_state_set.go:148-165 | the entry is replaced under a new version, a complete artifact is kept over an incomplete one, the byte counter is the sum |
| `AppliedStates.AppliedStateSet.Checkpoint` | service/applied_state_set.go:69-92 | a sorted copy of all entries that changes nothing |
| `AppliedStates.AppliedStateSet.TakeEntries` | service/applied_state_set.go:54-67 | hands out all entries in key order and empties the set |
| `AppliedStates.AppliedStateSet.CompleteCheckpoint` | service/applied_state_set.go:94-112 | removes exactly the entries still at their snapshot version, with the byte counter exact |
| `AppliedStates.SortedKeys` | service/applied_state_set.go:127-136 | all keys, rising, each once |
| `AppliedStates.StepKeepsInv` | service/applied_state_set.go:54-165 | remembering, taking a snapshot, committing and failing keep the accounting of versions |
| `AppliedStates.NothingIsLost` | service/catchup_master.go:351-369 | over every history a remembered entry is still held at its latest version or that version was committed |
| `AppliedStates.RerememberedSurvives` | service/applied_state_set.go:94-112 | an entry remembered again during a checkpoint, and any rememberings after that, survive its completion: the key is held at its latest version with what was remembered last |
| `AppliedStates.CompleteStays` | service/applied_state_set.go:148-165 | a complete artifact stays complete until its version is committed |
| `AppliedStates.RememberExactly` | service/applied_state_set.go:148-165 | a new key keeps the artifact it came with, a complete one replaces any, an incomplete one yields to a complete one held; the state is the new one and other keys are untouched |
| `AppliedStates.HeldIsLast` | service/applied_state_set.go:148-165 | in every run what is held of a key is the state remembered last |
| `AppliedStates.CommitReleases` | service/applied_state_set.go:94-112 | a checkpoint that commits with nothing remembered meanwhile leaves the set empty and all it held committed |
| `ShardResolver.ResultsArePlain` | service/shard_state_resolver.go:115-220 | in every run every cached state, finished task and delivered state is the plain recursive one |
| `ShardResolver.AnswersAreExact` | service/shard_state_resolver.go:115-250 | without faults every caller gets exactly the plain result, state or error, in every run in which each known state is in the store or is a loaded head and the store only grows |
| `ShardResolver.LoadedHeadIsUsed` | service/shard_state_resolver.go:232-243 | a loaded head is given as it is, whatever the store has |
| `ShardResolver.ResolvedIsCached` | service/shard_state_resolver.go:146-156 | a resolved state is cached unless the eviction takes it, and its task is closed |
| `ShardResolver.WaitersAreGiven` | service/shard_state_resolver.go:121-137 | every waiter of a task is given what its owner got, an error included |
| `ShardResolver.PlainNeeds` | service/shard_state_resolver.go:175-205 | a block that is not known has a state only if it was loaded under its own id with one or two predecessors, each an earlier block of its workchain that has a state |
| `ShardResolver.PlainOverOne` | service/shard_state_resolver.go:190-205 | over one predecessor the state is the block applied to that one's state, or an error if that has none |
| `ShardResolver.PlainOverTwo` | service/shard_state_resolver.go:190-205 | after a merge, to both predecessors' states in the order the block names them |
| `ShardResolver.SingleFlight` | service/shard_state_resolver.go:124-157 | at no time are there two resolutions of one block |
| `ShardResolver.WaitsAreAcyclic` | service/shard_state_resolver.go:188-198 | no caller waits for itself through any chain of callers |
| `ShardResolver.WaitsDescend` | service/shard_state_resolver.go:222-230 | a caller waiting on a waiting caller waits for the higher seqno |
| `ShardResolver.NoDeadlock` | service/shard_state_resolver.go:115-157 | while any call is under way some caller can go on without giving up a wait |
| `ShardResolver.EveryCallEnds` | service/shard_state_resolver.go:115-230 | under any interleaving a call takes a number of its own steps bounded by its block's seqno |
| `ShardResolver.StackIsBounded` | service/shard_state_resolver.go:222-230 | a caller's recursion is no deeper than its first block's seqno plus one |
| `ShardResolver.ApplyIsPlain` | service/shard_state_resolver.go:200-205 | applying over the predecessors' plain states gives the plain state |
| `ShardResolver.OwnStepLowersRank` | service/shard_state_resolver.go:159-220 | each of a caller's own steps lowers its rank |
| `ShardResolver.StepKeepsInv` | service/shard_state_resolver.go:115-157 | every caller's step, fault and outside change of known states keeps soundness and ownership |
| `ShardResolver.StepKeepsExact` | service/shard_state_resolver.go:159-220 | a faultless step keeps errors to blocks without a plain state |
| `ShardResolver.EvictCache` | service/shard_state_resolver.go:286-313 | beyond the limit the retained number of highest seqnos stays, unchanged; at or below it everything does |
| `ApplyAhead.NeverOverAHole` | service/shard_apply_ahead.go:117-181 | in every run, a master taken up has every master between the committed head and it with all targets resolved |
| `ApplyAhead.StepKeepsInv` | service/shard_apply_ahead.go:142-170 | scheduling, taking with a stale head, resolving, failing and committing keep the contiguity invariant |
| `ApplyAhead.TakeIsContiguous` | service/shard_apply_ahead.go:119-140 | what is taken follows the last resolved master or the head |
| `ApplyAhead.TakeExactly` | service/shard_apply_ahead.go:119-140 | taken is the master after the last resolved one if it is pending past the head, else the one after the head if pending, else none; the rest past the head stays |
| `ApplyAhead.GoesOnToNext` | service/shard_apply_ahead.go:142-170 | a stage that resolved every target of a master takes up the next one if it is pending |
| `ApplyAhead.ScheduledIsPending` | service/shard_apply_ahead.go:74-105 | a scheduled master past the head is pending, unless four lower ones are |
| `ApplyAhead.ShardApplyAhead.Schedule` | service/shard_apply_ahead.go:74-105 | of the masters past the head the lowest seqnos up to the limit stay pending |
| `ApplyAhead.ShardApplyAhead.Take` | service/shard_apply_ahead.go:119-140 | takes the master after the last resolved one, else the one after the head, and prunes the rest |
| `ApplyAhead.KeepLowest` | service/shard_apply_ahead.go:93-101 | evicting the highest until the limit leaves the lowest |
| `ApplyAhead.PrunePending` | service/shard_apply_ahead.go:125-129 | drops exactly the masters up to the head |
| `GenerationSwitch.SwitchesAreOfDurable` | service/cell_generation_switch.go:79-144 | in every interleaving, every switch is handed the state that is durable when it is made, and its candidate has the same references and roots and is not behind it |
| `GenerationSwitch.AttemptSwitches` | service/cell_generation_switch.go:79-144 | an attempt that nothing disturbs makes the switch exactly when the candidate's references and roots are those of the durable state and it is not behind it |
| `GenerationSwitch.NoCheckpointInFlight` | service/state_lifecycle.go:298-322 | from reading the durable state to the end of an attempt that state is the durable one and no checkpoint is being written |
| `GenerationSwitch.DurableStays` | service/cell_generation_switch.go:79-144 | as long as an attempt goes on deciding, no sequence of others' steps moves the durable state |
| `GenerationSwitch.NoDeadlock` | service/cell_generation_switch.go:79-117 | while an actor is under way one that is can go on |
| `GenerationSwitch.StepKeepsInv` | service/cell_generation_lifecycle.go:435-468 | every lock, check, save, switch and release keeps lock ownership and the flag exact |
| `GenerationSwitch.WriterKeepsOwn` | service/catchup_master.go:351-369 | a writer holds the persist mutex from granting to release on every path |
| `ShardHints.GenerationsTell` | service/shard_description_hints.go:227-250 | in every run two snapshots report the same generation if and only if they hold the same hints in the same order, repeats included |
| `ShardHints.OldSliceIsCurrent` | service/shard_description_hints.go:222-234 | a caller's old slice of the reported generation is the table's list now |
| `ShardHints.HintsAreLast` | service/shard_description_hints.go:112-127 | in every run the table holds a block's hint exactly when one was stored and neither dropped nor taken away by its age or by the limit since, and it is the one stored last |
| `ShardHints.SnapshotListsLast` | service/shard_description_hints.go:227-250 | a snapshot lists every hint held, each the last stored for its block and at most three minutes old |
| `ShardHints.PrunedExactly` | service/shard_description_hints.go:262-308 | pruning takes away exactly the hints that are too old or named by a position with the limit's number of live ones after it, and changes none |
| `ShardHints.StoredIsHeld` | service/shard_description_hints.go:114-127 | a recent description of a block new to the table is held afterwards, as the newest |
| `ShardHints.StoreGenerationIsNotEnough` | service/shard_description_hints.go:289-307 | for every limit from two on, a run after which the value computed inside a store repeats a snapshot's generation over other contents |
| `ShardHints.StoreGenerationTellsExactly` | service/shard_description_hints.go:114-127 | in every run, when a store's value repeats a snapshot's generation, the contents are the snapshot's if and only if no evicted position names the block of a kept one |
| `ShardHints.EqualGenerations` | service/shard_description_hints.go:38-46 | a table reporting a snapshot's generation has its order and hints |
| `ShardHints.HintTable.Prune` | service/shard_description_hints.go:262-308 | expired hints and positions beyond the limit go, and the generation is that of what remains |
| `ShardHints.HintTable.Compact` | service/shard_description_hints.go:268-287 | keeps the live positions in order, and finds the first of the newest |
| `ShardHints.HintTable.Evict` | service/shard_description_hints.go:289-306 | evicts the oldest positions and recomputes the newest when it was among them |
| `ShardHints.HintTable.Store` | service/shard_description_hints.go:114-127 | files the hint in place of an earlier one of its block, appends a new block's position and prunes |
| `ShardHints.DropKeepsInv` | service/shard_description_hints.go:252-258 | a drop keeps every snapshot taken telling: what has stood since it stands unchanged and in order |
| `ShardHints.HintTable.Snapshot` | service/shard_description_hints.go:227-250 | the pruned table's list, or the caller's slice exactly when the generation is the seen one |
| `ShardHints.PrunedRelated` | service/shard_description_hints.go:262-308 | pruning keeps what has stood since a snapshot, in order |
| `ShardHints.StoredRelated` | service/shard_description_hints.go:114-127 | storing keeps the rest of what has stood since a snapshot, in order |
| `PrewarmEngine.OneRunnerPerTask` | service/account_prewarmer.go:343-384 | at every step a task has at most one runner, and one exactly when it is marked running |
| `PrewarmEngine.OneWarmerPerRoot` | service/account_prewarmer.go:386-414 | at every step a root has at most one warmer, and one exactly when it is in the set |
| `PrewarmEngine.PendingTasksAreReachable` | service/account_prewarmer.go:182-260 | every task marked queued or urgent has a copy in its lane or in the hand of a worker wanting that state |
| `PrewarmEngine.ClosedIsEmpty` | service/account_prewarmer.go:160-176 | when the workers of a closed pool have stopped nothing runs or warms and nothing is accepted |
| `PrewarmEngine.StepKeepsTasks` | service/account_prewarmer.go:266-341 | producers, receives, begins, claims, completions and shutdown keep the accounting of tasks |
| `PrewarmEngine.StepKeepsRoots` | service/account_prewarmer.go:386-414 | claims and releases keep the root accounting |
| `PrewarmEngine.SupersededTasks` | service/account_prewarmer.go:393-404 | superseding a queued exact root takes nobody's running task away |
| `PrewarmPool.AccountPrewarmer.EnqueueLocked` | service/account_prewarmer.go:240-260 | queues a new task in its lane, or leaves everything as it was |
| `PrewarmEngine.EnqueuedTasks` | service/account_prewarmer.go:182-191 | enqueuing, accepted or refused, leaves every pending task with a copy in a lane or a hand and every running one with its one runner |
| `PrewarmEngine.PromotedTasks` | service/account_prewarmer.go:211-238 | so does promoting an account to the urgent lane, its normal copy left stale |
| `PrewarmEngine.BegunTasks` | service/account_prewarmer.go:343-361 | a worker that begins what it holds becomes its one runner, and a stale copy is let go while the entry keeps its fresh one |
| `PrewarmEngine.ClaimedRoots` | service/account_prewarmer.go:386-408 | a claim gives the root its one warmer, and a refused one gives it none |
| `PrewarmEngine.ReleasedRoots` | service/account_prewarmer.go:410-414 | a release leaves every other root with its warmer |
| `PrewarmEngine.CompletedTasks` | service/account_prewarmer.go:416-420 | a completion leaves every other task with its runner or its copy |
| `MasterQueue.MasterchainQueue.QueueBlock` | service/current_state.go:316-368 | keeps both indexes exact inverses, the sides disjoint, counters exact and totals within limits; an admissible block is queued, in place of whatever had its key or seqno |
| `MasterQueue.AdmittedExactly` | service/current_state.go:316-336 | what may be queued: blocks within the size limit that build on the head or on less than the limit past it |
| `MasterQueue.BlockIsQueued` | service/current_state.go:338-367 | an admitted block not too far from what is queued is queued, as the only one of its key and seqno, and what else stays is unchanged |
| `MasterQueue.MasterchainQueue.QueueCandidate` | service/current_state.go:259-314 | the same for a candidate, which yields to a queued block of its key or seqno |
| `MasterQueue.MasterchainQueue.Prune` | service/current_state.go:453-464 | exactly the expired entries and those behind the head go |
| `MasterQueue.MasterchainQueue.TakeBlock` | service/current_state.go:550-573 | the key's block leaves the pruned queue, and is returned exactly when it lies after the previous block and no later than the target |
| `MasterQueue.MasterchainQueue.DropCandidate` | service/current_state.go:597-605 | the key's candidate leaves and nothing else changes |
| `MasterQueue.MasterchainQueue.QueuedFuture` | service/current_state.go:683-758 | of the queue after pruning: the first seqno after the previous one that nothing queued has, with the farthest block ahead on either side; none exactly when nothing is ahead |
| `MasterQueue.AheadIn` | service/current_state.go:721-752 | in whatever order the index is walked, the farther of the best so far and the side's farthest block ahead |
| `MasterQueue.AddBlock` | service/current_state.go:338-367 | a block past the refusals: other holders of its key or seqno go, then it is too far or takes its place |
| `MasterQueue.AddCandidate` | service/current_state.go:282-313 | the same for a candidate |
| `MasterQueue.MakeRoom` | service/current_state.go:299-303 | the eviction loop ends and never fails on an admissible block; the evicted are the farthest and each eviction was needed |
| `MasterQueue.EvictFarthest` | service/current_state.go:503-537 | removes a block or candidate with the highest previous seqno, and fails exactly when there is none |
| `MasterQueue.SomethingToEvict` | service/current_state.go:353-357 | when room is wanting for an admissible block something is queued |
| `MasterQueue.IsTooFar` | service/current_state.go:425-447 | true exactly when some queued entry is at least the limit behind |
| `MasterQueue.DeletedOk` | service/current_state.go:475-493 | deleting keeps index and counter exact |
| `MasterQueue.InsertedOk` | service/current_state.go:365-367 | inserting a new key and seqno keeps index and counter exact |
| `StateCache.CompressedStateCache.Remember` | service/master_state_cache.go:114-150 | the new state stays, expired ones go, beyond the limit exactly the oldest version goes, and the queue stays within twice the limit with one slot for each entry |
| `StateCache.CompressedStateCache.Get` | service/master_state_cache.go:152-168 | returns the state exactly when it is held and unexpired, dropping an expired one |
| `StateCache.StoreIn` | service/master_state_cache.go:125-148 | append, prune, evict and compact together |
| `StateCache.PruneExpired` | service/master_state_cache.go:170-194 | stopping at the first live unexpired slot removes every expired entry and no other |
| `StateCache.EvictOldest` | service/master_state_cache.go:196-214 | removes the lowest version, past any stale slots |
| `StateCache.Compact` | service/master_state_cache.go:216-228 | keeps exactly the live slots, at most one for each entry |
| `StateCache.OneLiveSlot` | service/master_state_cache.go:196-228 | every entry has exactly one live slot |
| `ShardPrefixes.RangeIsExact` | service/archive_import_storage.go:240-258 | an index is in the computed range exactly when its prefix shard is an ancestor, a descendant or equal |
| `ShardPrefixes.RangeInBounds` | service/archive_import_storage.go:240-258 | the range is never empty and lies within the prefixes |
| `ShardPrefixes.RelatedIsOverlap` | service/shard/shard.go:37-56 | being ancestor, descendant or equal is the same as sharing an address |
| `ShardPrefixes.IntersectsIsRelated` | service/shard/shard.go:39-56 | the bit comparison decides exactly that |
| `ShardPrefixes.PrefixShardIs` | service/archive_import_storage.go:232-238 | the shard id built for an index has the split depth and that index as its prefix |
| `ShardPrefixes.Aligned` | service/shard/shard.go:206-208 | an id covers the aligned block that its prefix and length name |
| `ArchivePlans.ImportPlans` | service/archive_import_storage.go:172-230 | fails exactly when a wanted block has an invalid shard id, and otherwise gives the plan of every prefix that needs something, in order |
| `ArchivePlans.PlansCover` | service/archive_import_storage.go:172-230 | a plan is never empty, lists only wanted blocks related to its shard, each root hash once, and all of them by root hash; every wanted block is listed so in some plan; and where root hashes tell the window's blocks apart the plans list the blocks themselves |
| `ArchivePlans.WantedExactly` | service/archive_import_storage.go:173-198 | wanted are the missing basechain blocks past the zerostate that are not the last start block of their shard |
| `ArchivePlans.NeededIsRelated` | service/archive_import_storage.go:181-220 | a prefix needs exactly the wanted blocks related to it that come first of their root hash |
| `ArchivePlans.NeededHasNoRepeats` | service/archive_import_storage.go:214-218 | no root hash twice in a plan |
| `ArchivePlans.NeededInOrder` | service/archive_import_storage.go:181-220 | a plan's blocks stand in the order in which the window first names them |
| `ArchivePlans.PlansOfPrefixes` | service/archive_import_storage.go:223-229 | the plans are those of the prefixes that need something |
| `ArchivePlans.PlansAscend` | service/archive_import_storage.go:223-229 | plans rise by shard id, so no prefix has two |
| `ArchivePlans.StartMap` | service/archive_import_storage.go:173-176 | the start block of each shard, a later one replacing an earlier |
| `EventDispatch.ExactlyOnce` | service/archive_import_apply.go:263-285 | a finished dispatch has delivered each collected event exactly once, masters in seqno order and each before its shards |
| `EventDispatch.DeliveredCarries` | service/archive_import_apply.go:183-222 | in every run each delivered master event is of the window's block with the state applied for it, and each shard event names the master it is filed under as including it, with that master's state |
| `EventDispatch.DeliveredByHeight` | service/archive_import_apply.go:224-243 | of two shard events of one master the lower block comes first, and at equal heights workchain, shard and hashes decide |
| `EventDispatch.DispatchCompletes` | service/archive_import_apply.go:125-261 | a dispatch that begins and whose deliveries are accepted delivers the whole order and finishes |
| `EventDispatch.BeginsExactly` | service/archive_import_apply.go:125-252 | enabled events begin exactly when both heads are there and the events fit between them: one master event per seqno with its block and state, every shard event within the range with its inclusion, the applied number of them, no root hash twice |
| `EventDispatch.DeliveredInOrder` | service/archive_import_apply.go:263-285 | at every moment the deliveries are a beginning of the accepted order, and all of it once dispatched |
| `EventDispatch.NothingAgain` | service/archive_importer.go:315-328 | once an attempt has failed or finished no later step delivers anything |
| `EventDispatch.AppendOrderIsIrrelevant` | service/archive_import_apply.go:224-242 | two accepted collections of the same events have the same delivery order |
| `EventDispatch.RunsAgree` | service/archive_import_apply.go:102-252 | two runs whose workers deferred the same events in any order begin a dispatch alike, and with the same delivery order |
| `EventDispatch.AcceptsPermuted` | service/archive_import_apply.go:155-248 | whether a collection is accepted does not depend on the order in which shard events were appended |
| `EventDispatch.EveryEventOnce` | service/archive_import_apply.go:125-252 | the order of an accepted collection rises strictly and holds exactly its events |
| `EventDispatch.BegunIsDeferred` | service/archive_import_apply.go:102-123 | a dispatch begins with exactly what had been deferred by some moment, as multisets for each master |
| `EventDispatch.CollectedIsDeferred` | service/archive_import_apply.go:102-123 | while collecting, the events are those deferred so far |
| `EventDispatch.SortedIsRising` | service/archive_import_apply.go:226-242 | sorting events with distinct root hashes makes them strictly rising |
| `EventDispatch.SortedIsPermutation` | service/archive_import_apply.go:226-242 | sorting keeps every event |
| `EventDispatch.CapabilityIsSettled` | service/archive_import_apply.go:80-100 | once set the capability never changes, and every later attempt to set it agrees or fails |
| `EventDispatch.BlockAppliedEvents.Begin` | service/archive_import_apply.go:125-252 | begins exactly when the events match the accepted range, answers that nothing is left once dispatched, and fails otherwise |
| `EventDispatch.CheckBatches` | service/archive_import_apply.go:193-248 | accepts exactly the collections whose masters and shards match the window with no root hash twice, giving the delivery order |
| `EventDispatch.CheckShards` | service/archive_import_apply.go:212-223 | accepts exactly the shard events with this inclusion and root hashes not seen before |
| `EventDispatch.CountShards` | service/archive_import_apply.go:170-175 | the number of collected shard events |

## Left out

- Network, overlays, peer selection, pacing, timeouts and retry delays: timing policy and I/O.
- Pebble storage, serialization, BOC and cell decoding, Merkle updates, signatures and validator sets: they appear only as outcomes of steps.
- Logging, metrics, progress text, status and throughput tracking: no correctness content.
- Node startup, console, extensions, API wiring and genesis construction: composition.
- Disk-space probes and garbage collection of archives and persistent states: policy over store calls.
- The artifact prewriter and the archive checkpoint path: the same queue and persist lock as modelled, with other payloads.
- Go slice capacities and memory effects of atomics: a full backing array is a parameter, a locked section is one step.
- CheckpointSafety.StepKeepsInv: caches are sets of records there, so the order of writes within and between caches is stated in `CellCache` and `CellWindows` instead.
- Runners.AlwaysCrashSafe: archive catch-up between two runners is not modelled.
- Runners.GuardedIsBacked: one way only; a run may break the guard and stay safe, since a checkpoint that waits for the prewriter is safe whoever took the error (`CheckpointSteps.ReachedCovers`).
- UnguardedRunners.HarmlessExactly: harm is looked for in one way of going on, a master committed over a shard's call under way; the runner's reads of the cells it was handed are taken to succeed.
- CheckpointSafety.CrashSafe: cells do not leave the store within a run; the switch of cell generations is modelled apart, in `GenerationSwitch`.
- Loaders.StepKeeps: windows are values in one world, so sharing of cache objects between windows is by cache id and not by reference.
- ShardResolver.ResultsArePlain: a state is taken without the inclusion master stamped on it, and a known state that a replay would not give again is required to stay in the store.
- ShardResolver.AnswersAreExact: requires each initially known state to stay in the store or a loaded head, since a forgotten state that can no longer be replayed is an error in the code too.
- StagedBlocks.CommittedIsPersisted: speaks of one runner; what was deferred to masters not yet committed dies with a runner, in the code too.
- PrewarmEngine.PendingTasksAreReachable: a worker may receive from any lane, so the priority of lanes and the root-worker share are not modelled.
- MasterQueue.MasterchainQueue.QueueBlock: the block is one of the masterchain with a single masterchain predecessor; other blocks are ignored by the code before the queue is touched.
- MasterQueue.MasterchainQueue.QueueCandidate: the candidate is a cacheable one; what makes it cacheable is not modelled.
- MasterQueue.MasterchainQueue.QueuedFuture: queued blocks are all of the masterchain, so the code's test of their workchain is not there, and the reporting peer is part of the abstract body.
- StateCache.CompressedStateCache.Remember: requires clock readings that do not go back, which the code takes under the cache's mutex.
- ShardPrefixes.RangeIsExact: for split depths up to 62, the largest for which the code's prefix count fits a signed 64-bit integer; the code itself stops at 12.
- ApplyAhead.NeverOverAHole: a master is identified by its seqno, and the workers that resolve its targets are one step each.
- GenerationSwitch.SwitchesAreOfDurable: migration runs, stop requests and yielding to a requested switch are not modelled.
