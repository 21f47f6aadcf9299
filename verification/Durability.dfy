/**
 The durability protocol of the next-block pipeline: appliers stage cell records into the
 shared window and stream them to the prewriter, the commit stage stages checkpoint entries
 master by master, and a checkpoint freezes the window, waits for its prewritten cells and
 commits metadata naming them.

 service/merkle_update_apply_cache.go:199-218, 293-326, 437-450, 555-568, 668-691, 771-810, 844-866;
 service/state_checkpoint.go:19-78; service/next_sync_pipeline.go:1086-1211, 1353-1455;
 service/catchup_master.go:336-369.

 Every locked section is one step, so a run is any interleaving of appliers, the commit
 stage, the prewriter and its failures, and the checkpoint goroutine.
*/
module Durability {
  import opened CellRecords
  import CellCache
  import PrewriteQueue
  import PrewriteEngine
  import AppliedStates

  type Cells = set<Record>
  type Key = AppliedStates.Key

  /** Block keys are injective on block ids: masters are numbered even, shard blocks odd. */
  function MasterKey(seqno: nat): (key: Key) {
    2 * seqno
  }

  predicate IsShardKey(key: Key) {
    key % 2 == 1
  }

  /**
   A block's state: read from the store, or built by the block's own cells over the state of its
   predecessor, or of both its predecessors after a merge.
  */
  datatype BlockState =
    | Loaded(cells: Cells)
    | Extended(own: Cells, prev: BlockState)
    | Merged(own: Cells, left: BlockState, right: BlockState)

  function Own(b: BlockState): (cells: Cells) {
    if b.Loaded? then b.cells else b.own
  }

  /** Every cell of the state: its own and those of all it was built over. */
  function Whole(b: BlockState): (cells: Cells) {
    match b
    case Loaded(cells) => cells
    case Extended(own, prev) => own + Whole(prev)
    case Merged(own, left, right) => own + Whole(left) + Whole(right)
  }

  /** The state is built over states among those given. */
  predicate Over(b: BlockState, resolved: set<BlockState>) {
    match b
    case Loaded(_) => false
    case Extended(_, prev) => prev in resolved
    case Merged(_, left, right) => left in resolved && right in resolved
  }

  /** A block state to persist, with the master that includes its block (a master includes itself). */
  datatype Applied = Applied(master: nat, state: BlockState)

  /**
   One encoded-cell cache. `staged` are its records; `succeeded` those of staging calls that
   returned without error.
  */
  datatype Cache = Cache(staged: Cells, succeeded: Cells, pending: nat, token: nat)

  datatype Purpose = ForShard(key: Key, master: nat) | ForMaster(master: nat)

  datatype Answer = Owed | Queued(token: nat) | Refused

  /** A staging call between publishing its layer and returning. */
  datatype Call = Call(cache: nat, cells: Cells, state: BlockState, purpose: Purpose, answer: Answer)

  datatype Runner =
    | Idle
    | StagingShards(master: nat, rest: seq<(Key, Applied)>)
    | StagingMaster(master: nat)
    | Remembering(master: nat, state: BlockState)
    | Freezing
    | Dead

  /** Shard blocks waiting for the commit of their including master. */
  type Deferred = map<nat, seq<(Key, Applied)>>

  type Snapshot = map<Key, AppliedStates.Entry<Applied>>

  datatype Checkpoint =
    | NoCheckpoint
    | Snapshotted(entries: Snapshot)
    | Reading(entries: Snapshot, ids: set<nat>, todo: set<nat>, target: nat)
    | Waiting(entries: Snapshot, ids: set<nat>, target: nat)
    | Flushing(entries: Snapshot, ids: set<nat>, target: nat)
    | Writing(entries: Snapshot, ids: set<nat>, cells: Cells)
    | Committed(entries: Snapshot, ids: set<nat>)
    | Cleaning(ids: set<nat>)

  /**
   `resolved` are the shard states the resolver has handed out, `head` and `shards` the live current state,
   `offered` the current state a checkpoint was started with and `named` the one in the durable metadata.
   `staged` counts the masters remembered since the window was last frozen.

   The last three matter once one runner follows another: `stand` is the current state that the runner was handed
   by the one before, `base` the number of prewrite jobs by then, and `from` the `stand` of the runner whose
   checkpoint is the last one begun.  A runner that starts from the store stands on nothing.
  */
  datatype State = State(
    prewriting: bool,
    engine: PrewriteEngine.Engine<Cells>,
    caches: map<nat, Cache>,
    active: nat,
    frozen: set<nat>,
    calls: map<nat, Call>,
    saved: Cells,
    durable: Cells,
    states: AppliedStates.StateSet<Applied>,
    deferred: Deferred,
    runner: Runner,
    lastMaster: nat,
    checkpoint: Checkpoint,
    persisted: set<(Key, Applied)>,
    resolved: set<BlockState>,
    head: BlockState,
    shards: set<BlockState>,
    offered: set<BlockState>,
    named: set<BlockState>,
    staged: nat,
    stand: set<BlockState>,
    base: nat,
    from: set<BlockState>)

  datatype Step =
    // Appliers, and the commit stage for a master's own cells.
    | LoadState(state: BlockState)
    | BeginStage(id: nat, state: BlockState, purpose: Purpose)
    | EnqueueCall(id: nat)
    | FinishCall(id: nat, usable: bool)
    // The prewriter's runner; producing is EnqueueCall.
    | Writer(step: PrewriteEngine.Step<Cells>)
    // The commit stage.
    | CommitMaster(master: nat, shards: set<BlockState>)
    | StageShard(artifact: AppliedStates.Artifact)
    | RememberMaster(artifact: AppliedStates.Artifact)
    | RunnerFails
    | TakeSnapshot
    | Freeze(spare: nat)
    // The checkpoint.
    | ReadTarget(cache: nat)
    | WaitReached
    | FlushCells
    | Commit
    | CompleteStates
    | CompleteCells
    | CheckpointFails

  /** `stored` are the cells in the store when the run starts, those of the master state it starts from. */
  function Initial(prewriting: bool, stored: Cells): (s: State) {
    State(prewriting, PrewriteEngine.Initial(), map[0 := Cache({}, {}, 0, 0)], 0, {}, map[], stored, stored,
          AppliedStates.StateSet(map[], 0), map[], Idle, 0, NoCheckpoint, {}, {}, Loaded(stored), {}, {},
          {Loaded(stored)}, 0, {}, 0, {})
  }

  predicate Enabled(s: State, step: Step) {
    match step
    case LoadState(state) => Whole(state) <= s.durable
    case BeginStage(id, state, purpose) =>
      && id !in s.calls && Own(state) != {} && s.active in s.caches
      && (purpose.ForShard? ==> IsShardKey(purpose.key) && Over(state, s.resolved))
      && (purpose.ForMaster? ==> s.runner == StagingShards(purpose.master, []) && state == Extended(Own(state), s.head))
    case EnqueueCall(id) => id in s.calls && s.calls[id].answer.Owed?
    case FinishCall(id, usable) => id in s.calls && !s.calls[id].answer.Owed? && s.calls[id].cache in s.caches
    case Writer(step) => !step.Produce?
    case CommitMaster(master, shards) => s.runner.Idle? && master > s.lastMaster && shards <= s.resolved
    case StageShard(_) => s.runner.StagingShards? && s.runner.rest != []
    case RememberMaster(_) => s.runner.Remembering?
    case RunnerFails => !s.runner.Freezing?
    case TakeSnapshot => s.runner.Idle? && s.checkpoint.NoCheckpoint? && s.staged > 0
    case Freeze(spare) => s.runner.Freezing? && s.checkpoint.Snapshotted? && spare !in s.caches && s.active in s.caches
    case ReadTarget(cache) => s.checkpoint.Reading? && cache in s.checkpoint.todo && cache in s.caches
    case WaitReached =>
      s.checkpoint.Waiting? && PrewriteQueue.Wait(s.engine.queue, s.checkpoint.target) == PrewriteQueue.Reached
    case FlushCells => s.checkpoint.Flushing?
    case Commit => s.checkpoint.Writing?
    case CompleteStates => s.checkpoint.Committed?
    case CompleteCells => s.checkpoint.Cleaning?
    case CheckpointFails => s.checkpoint.Waiting? || s.checkpoint.Flushing? || s.checkpoint.Writing?
  }

  function BeginStageNext(s: State, id: nat, state: BlockState, purpose: Purpose): (r: State)
    requires Enabled(s, BeginStage(id, state, purpose))
  {
    var (cache, cells) := (s.caches[s.active], Own(state));
    s.(caches := s.caches[s.active :=
                          cache.(staged := cache.staged + cells,
                                 pending := cache.pending + (if s.prewriting then 1 else 0))],
    calls := s.calls[id := Call(s.active, cells, state, purpose, if s.prewriting then Owed else Queued(0))],
    runner := if purpose.ForMaster? then StagingMaster(purpose.master) else s.runner)
  }

  function EnqueueNext(s: State, id: nat): (r: State)
    requires Enabled(s, EnqueueCall(id))
  {
    var call := s.calls[id];
    var engine := PrewriteEngine.Next(s.engine, PrewriteEngine.Produce(call.cells, |call.cells|));
    var answer := if PrewriteQueue.Accepting(s.engine.queue) then Queued(engine.queue.next) else Refused;
    s.(engine := engine, calls := s.calls[id := call.(answer := answer)])
  }

  /** `usable` is false when the queue's backpressure wait fails after the enqueue succeeded. */
  function FinishNext(s: State, id: nat, usable: bool): (r: State)
    requires Enabled(s, FinishCall(id, usable))
  {
    var call := s.calls[id];
    var ok := call.answer.Queued? && usable;
    s.(calls := s.calls - {id},
    caches := s.caches[call.cache := Finished(s.prewriting, s.caches[call.cache], call)],
    deferred := DeferredAfter(s.deferred, call, ok),
    resolved := if call.purpose.ForShard? && call.answer.Queued? then s.resolved + {call.state} else s.resolved,
    runner := RunnerAfter(s.runner, call, ok))
  }

  /** A shard block whose staging went through is deferred to its including master. */
  function DeferredAfter(deferred: Deferred, call: Call, ok: bool): (r: Deferred)
  {
    if call.purpose.ForShard? && ok
    then Defer(deferred, call.purpose.master, (call.purpose.key, Applied(call.purpose.master, call.state)))
    else deferred
  }

  /** The commit stage resumes with its master's cells staged, or stops on the error. */
  function RunnerAfter(runner: Runner, call: Call, ok: bool): (r: Runner) {
    if call.purpose.ForMaster? && runner == StagingMaster(call.purpose.master)
    then if ok then Remembering(call.purpose.master, call.state) else Dead
    else runner
  }

  /** completePrewrite, and the bookkeeping of which staging calls succeeded. */
  function Finished(prewriting: bool, cache: Cache, call: Call): (r: Cache) {
    var token := if call.answer.Queued? then call.answer.token else 0;
    Cache(cache.staged,
          if call.answer.Queued? then cache.succeeded + call.cells else cache.succeeded,
          if prewriting && cache.pending > 0 then cache.pending - 1 else cache.pending,
          if token > cache.token then token else cache.token)
  }

  function Defer(deferred: Deferred, master: nat, entry: (Key, Applied)): (r: Deferred)
  {
    deferred[master := (if master in deferred then deferred[master] else []) + [entry]]
  }

  function WriterNext(s: State, step: PrewriteEngine.Step<Cells>): (r: State) {
    var accepted := step == PrewriteEngine.Save(true) && s.engine.runner.Batching?;
    s.(engine := PrewriteEngine.Next(s.engine, step),
    saved := if accepted then s.saved + Logged(s.engine.runner.batch) else s.saved)
  }

  /** All records of the jobs. */
  function Logged(jobs: seq<PrewriteQueue.Job<Cells>>): (cells: Cells) {
    if jobs == [] then {} else Logged(jobs[..|jobs| - 1]) + jobs[|jobs| - 1].value
  }

  /**
   The whole read of `prewriteTarget` is one step per cache; `cells` if any is not covered.  The commit stage goes
   on when it is done.
  */
  function ReadTargetNext(s: State, cache: nat): (r: State)
    requires Enabled(s, ReadTarget(cache))
  {
    var after := AfterRead(s.checkpoint, s.caches, cache);
    s.(checkpoint := after, runner := if after.Reading? then s.runner else Idle)
  }

  /** The checkpoint after reading one cache's target: wait for the largest, or write what the caches still hold. */
  function AfterRead(cp: Checkpoint, caches: map<nat, Cache>, cache: nat): (r: Checkpoint)
    requires cp.Reading? && cache in cp.todo && cache in caches
  {
    var (token, covered) := CellCache.TargetOf(caches[cache].staged == {}, caches[cache].pending, caches[cache].token);
    var target := if token > cp.target then token else cp.target;
    if !covered then Writing(cp.entries, cp.ids, StagedIn(caches, cp.ids))
    else if cp.todo != {cache} then Reading(cp.entries, cp.ids, cp.todo - {cache}, target)
    else if target > 0 then Waiting(cp.entries, cp.ids, target)
    else Writing(cp.entries, cp.ids, StagedIn(caches, cp.ids))
  }

  function StagedIn(caches: map<nat, Cache>, ids: set<nat>): (cells: Cells) {
    set id, r | id in ids && id in caches && r in caches[id].staged :: r
  }

  function SucceededIn(caches: map<nat, Cache>, ids: set<nat>): (cells: Cells) {
    set id, r | id in ids && id in caches && r in caches[id].succeeded :: r
  }

  function FreezeNext(s: State, spare: nat): (r: State)
    requires Enabled(s, Freeze(spare))
  {
    var frozen := if s.caches[s.active].staged != {} then s.frozen + {s.active} else s.frozen;
    s.(caches := s.caches[spare := Cache({}, {}, 0, 0)], active := spare, frozen := frozen, staged := 0,
    from := s.stand, runner := if frozen == {} then Idle else s.runner,
    checkpoint := if frozen == {} then Writing(s.checkpoint.entries, {}, {})
                  else Reading(s.checkpoint.entries, frozen, frozen, 0))
  }

  function Next(s: State, step: Step): (r: State) {
    if !Enabled(s, step) then s else
    match step
    case LoadState(state) => s.(resolved := s.resolved + {state})
    case BeginStage(id, state, purpose) => BeginStageNext(s, id, state, purpose)
    case EnqueueCall(id) => EnqueueNext(s, id)
    case FinishCall(id, usable) => FinishNext(s, id, usable)
    case Writer(step) => WriterNext(s, step)
    case CommitMaster(master, shards) =>
      s.(runner := StagingShards(master, if master in s.deferred then s.deferred[master] else []),
      deferred := s.deferred - {master}, lastMaster := master, shards := shards)
    case StageShard(artifact) =>
      var (key, applied) := s.runner.rest[0];
      s.(states := AppliedStates.Remember(s.states, key, applied, artifact),
         runner := StagingShards(s.runner.master, s.runner.rest[1..]))
    case RememberMaster(artifact) =>
      s.(states := AppliedStates.Remember(s.states, MasterKey(s.runner.master),
                                          Applied(s.runner.master, s.runner.state), artifact),
      head := s.runner.state, runner := Idle, staged := s.staged + 1)
    case RunnerFails => s.(runner := Dead)
    case TakeSnapshot => s.(checkpoint := Snapshotted(s.states.states), offered := s.shards + {s.head},
                            runner := Freezing)
    case Freeze(spare) => FreezeNext(s, spare)
    case ReadTarget(cache) => ReadTargetNext(s, cache)
    case WaitReached => s.(checkpoint := Flushing(s.checkpoint.entries, s.checkpoint.ids, s.checkpoint.target))
    case FlushCells => s.(durable := s.durable + s.saved,
                          checkpoint := Writing(s.checkpoint.entries, s.checkpoint.ids, {}))
    case Commit =>
      s.(saved := s.saved + s.checkpoint.cells, durable := s.durable + WrittenWith(s.checkpoint.cells, s.saved),
      persisted := s.persisted + Named(s.checkpoint.entries), named := s.offered,
      checkpoint := Committed(s.checkpoint.entries, s.checkpoint.ids))
    case CompleteStates =>
      s.(states := AppliedStates.CompleteSnapshot(s.states, s.checkpoint.entries),
         checkpoint := Cleaning(s.checkpoint.ids))
    case CompleteCells => s.(frozen := s.frozen - s.checkpoint.ids, checkpoint := NoCheckpoint)
    case CheckpointFails => s.(checkpoint := NoCheckpoint)
  }

  /** A write that brings cells flushes the whole cell store before its metadata. */
  function WrittenWith(cells: Cells, saved: Cells): (r: Cells) {
    if cells == {} then {} else cells + saved
  }

  function Named(entries: Snapshot): (named: set<(Key, Applied)>) {
    set k | k in entries :: (k, entries[k].state)
  }

  function Run(prewriting: bool, stored: Cells, steps: seq<Step>): (s: State) {
    if steps == [] then Initial(prewriting, stored)
      else Next(Run(prewriting, stored, steps[..|steps| - 1]), steps[|steps| - 1])
  }

  // What every step keeps. First, the prewrite accounting.

  type Log = seq<PrewriteQueue.Job<Cells>>

  function On(calls: map<nat, Call>, cache: nat): (ids: set<nat>) {
    set id | id in calls && calls[id].cache == cache
  }

  ghost predicate WriterOk(engine: PrewriteEngine.Engine<Cells>, saved: Cells) {
    PrewriteEngine.Inv(engine) && Logged(engine.accepted) <= saved
  }

  ghost predicate CallOk(prewriting: bool, log: Log, caches: map<nat, Cache>, call: Call) {
    && call.cells != {} && (call.purpose.ForShard? ==> IsShardKey(call.purpose.key))
    && call.cache in caches && call.cells <= caches[call.cache].staged
    && (prewriting && call.answer.Queued? ==>
          0 < call.answer.token <= |log| && log[call.answer.token - 1].value == call.cells)
    && (!prewriting ==> call.answer == Queued(0))
  }

  ghost predicate CacheOk(prewriting: bool, log: Log, calls: map<nat, Call>, id: nat, cache: Cache) {
    && cache.succeeded <= cache.staged && cache.token <= |log|
    && cache.pending == (if prewriting then |On(calls, id)| else 0)
    && (if prewriting then cache.succeeded <= Logged(log[..cache.token]) else cache.token == 0)
  }

  ghost predicate PrewriteOk(prewriting: bool, log: Log, caches: map<nat, Cache>, calls: map<nat, Call>) {
    && (forall id :: id in calls ==> CallOk(prewriting, log, caches, calls[id]))
    && (forall id :: id in caches ==> CacheOk(prewriting, log, calls, id, caches[id]))
  }

  // Second, where the cells of blocks not yet persisted are.

  ghost predicate WindowOk(caches: map<nat, Cache>, active: nat, frozen: set<nat>) {
    active in caches && active !in frozen && frozen <= caches.Keys
  }

  /** Every cell of the states. */
  function WholeOf(blocks: set<BlockState>): (cells: Cells) {
    set b, r | b in blocks && r in Whole(b) :: r
  }

  function Reachable(s: State): (cells: Cells) {
    SucceededIn(s.caches, s.frozen + {s.active}) + s.durable + WholeOf(s.stand)
  }

  ghost predicate EntryOk(reach: Cells, entry: (Key, Applied), master: nat) {
    IsShardKey(entry.0) && entry.1.master == master && Whole(entry.1.state) <= reach
  }

  ghost predicate CellsIn(entries: Snapshot, cells: Cells) {
    forall k :: k in entries ==> Whole(entries[k].state.state) <= cells
  }

  ghost predicate DeferredOk(reach: Cells, deferred: Deferred) {
    forall m, i :: m in deferred && 0 <= i < |deferred[m]| ==> EntryOk(reach, deferred[m][i], m)
  }

  ghost predicate RunnerOk(reach: Cells, runner: Runner) {
    && (runner.StagingShards? ==> forall i :: 0 <= i < |runner.rest| ==> EntryOk(reach, runner.rest[i], runner.master))
    && (runner.Remembering? ==> Whole(runner.state) <= reach)
  }

  /** A call's cache is still in the window, or the call's cells are durable already. */
  ghost predicate CallsHeld(calls: map<nat, Call>, window: set<nat>, durable: Cells) {
    forall id :: id in calls ==> calls[id].cache in window || calls[id].cells <= durable
  }

  ghost predicate BlocksIn(blocks: set<BlockState>, cells: Cells) {
    forall b :: b in blocks ==> Whole(b) <= cells
  }

  /** All a call's state was built over is reachable. */
  ghost predicate BasesIn(calls: map<nat, Call>, cells: Cells) {
    forall id :: id in calls ==> Whole(calls[id].state) <= calls[id].cells + cells
  }

  ghost predicate HeldOk(s: State) {
    && CallsHeld(s.calls, s.frozen + {s.active}, s.durable)
    && BasesIn(s.calls, Reachable(s))
    && BlocksIn(s.resolved + s.shards + {s.head}, Reachable(s))
    && CellsIn(s.states.states, Reachable(s))
    && DeferredOk(Reachable(s), s.deferred)
    && RunnerOk(Reachable(s), s.runner)
  }

  // Third, the checkpoint in flight.

  /** No staging call can still add to the cache's successes, and those so far are in the log up to `target`. */
  ghost predicate Settled(log: Log, caches: map<nat, Cache>, calls: map<nat, Call>, id: nat, target: nat) {
    && id in caches && On(calls, id) == {}
    && target <= |log| && caches[id].succeeded <= Logged(log[..target])
  }

  /** Whatever the cache's staging calls end up counting as staged is covered by `cells`. */
  ghost predicate Safe(caches: map<nat, Cache>, calls: map<nat, Call>, id: nat, cells: Cells) {
    && id in caches
    && (caches[id].staged <= cells || (On(calls, id) == {} && caches[id].succeeded <= cells))
  }

  ghost predicate AllSettled(log: Log, caches: map<nat, Cache>, calls: map<nat, Call>, ids: set<nat>, target: nat) {
    target <= |log| && forall id :: id in ids ==> Settled(log, caches, calls, id, target)
  }

  ghost predicate AllSafe(caches: map<nat, Cache>, calls: map<nat, Call>, ids: set<nat>, cells: Cells) {
    forall id :: id in ids ==> Safe(caches, calls, id, cells)
  }

  /** The caches a checkpoint froze, once it has frozen them. */
  function FrozenBy(checkpoint: Checkpoint): (ids: set<nat>) {
    if checkpoint.NoCheckpoint? || checkpoint.Snapshotted? then {} else checkpoint.ids
  }

  predicate HasEntries(checkpoint: Checkpoint) {
    !checkpoint.NoCheckpoint? && !checkpoint.Cleaning?
  }

  ghost predicate SnapshotIn(s: State, cells: Cells)
    requires HasEntries(s.checkpoint)
  {
    CellsIn(s.checkpoint.entries, cells) && BlocksIn(s.offered, cells)
  }

  /**
   The snapshot's cells, and those of the current state, are in the caches frozen with it, or durable, or the runner
   was handed them.
  */
  ghost predicate EntriesOk(s: State) {
    && (s.checkpoint.Snapshotted? ==> SnapshotIn(s, Reachable(s)))
    && (HasEntries(s.checkpoint) && !s.checkpoint.Snapshotted? ==>
          SnapshotIn(s, SucceededIn(s.caches, FrozenBy(s.checkpoint)) + s.durable + WholeOf(s.from)))
  }

  /** The commit stage stands still from the snapshot until the targets are read. */
  ghost predicate PhaseOk(s: State) {
    && (s.runner.Freezing? <==> s.checkpoint.Snapshotted? || s.checkpoint.Reading?)
    && (s.runner.Freezing? ==> s.offered == s.shards + {s.head})
    && (s.checkpoint.Reading? ==> s.checkpoint.ids <= s.frozen && s.from == s.stand)
    && (s.checkpoint.Committed? || s.checkpoint.Cleaning? ==> s.named == s.offered)
    && FrozenBy(s.checkpoint) <= s.caches.Keys && s.active !in FrozenBy(s.checkpoint)
  }

  /** A block has cells of its own, so a window with a master to persist is not empty. */
  ghost predicate FilledOk(s: State) {
    && s.active in s.caches
    && (s.staged > 0 || s.runner.StagingMaster? || s.runner.Remembering? ==> s.caches[s.active].staged != {})
    && (s.checkpoint.Snapshotted? ==> s.staged > 0)
    && (s.checkpoint.Reading? ==> StagedIn(s.caches, s.checkpoint.ids) != {})
  }

  /** What the runner was handed is durable or among the jobs before it; its own jobs come after those. */
  ghost predicate HandedOk(prewriting: bool, log: Log, durable: Cells, stand: set<BlockState>, base: nat) {
    base <= |log| && (prewriting ==> WholeOf(stand) <= durable + Logged(log[..base]))
  }

  ghost predicate Later(token: nat, base: nat) {
    token == 0 || token > base
  }

  ghost predicate TokensOk(prewriting: bool, caches: map<nat, Cache>, calls: map<nat, Call>, window: set<nat>,
                           base: nat)
  {
    && (forall id :: id in window && id in caches ==> Later(caches[id].token, base))
    && (forall id :: id in calls && calls[id].answer.Queued? && prewriting ==> calls[id].answer.token > base)
  }

  /** How far what the checkpoint's runner was handed is on its way to disk. */
  ghost predicate FromOk(s: State) {
    match s.checkpoint
    case Reading(_, _, _, target) => Later(target, s.base)
    case Waiting(_, _, target) =>
      target <= |s.engine.log| && WholeOf(s.from) <= s.durable + Logged(s.engine.log[..target])
    case Flushing(_, _, _) => WholeOf(s.from) <= s.durable + s.saved
    case Writing(_, _, cells) => SnapshotIn(s, s.durable + WrittenWith(cells, s.saved))
    case _ => true
  }

  /** How far the frozen caches' records are on their way to disk. */
  ghost predicate ProgressOk(s: State) {
    OnTheWay(s.prewriting, s.engine.log, s.caches, s.calls, s.saved, s.durable, s.checkpoint)
  }

  ghost predicate OnTheWay(prewriting: bool, log: Log, caches: map<nat, Cache>, calls: map<nat, Call>, saved: Cells,
                           durable: Cells, checkpoint: Checkpoint)
  {
    match checkpoint
    case NoCheckpoint => true
    case Snapshotted(_) => true
    case Reading(_, ids, todo, target) =>
      todo <= ids && todo != {} && (target > 0 ==> prewriting) && AllSettled(log, caches, calls, ids - todo, target)
    case Waiting(_, ids, target) => AllSettled(log, caches, calls, ids, target)
    case Flushing(_, ids, _) => AllSafe(caches, calls, ids, saved)
    case Writing(_, ids, cells) => AllSafe(caches, calls, ids, durable + cells)
    case Committed(_, ids) => AllSafe(caches, calls, ids, durable)
    case Cleaning(ids) => AllSafe(caches, calls, ids, durable)
  }

  /**
   A checkpoint that will write its caches' cells itself names nothing but those cells, saved ones and durable ones.
   Only a runner that was handed what is neither can break this.
  */
  ghost predicate Backed(s: State, step: Step) {
    step.ReadTarget? && Enabled(s, step) && AfterRead(s.checkpoint, s.caches, step.cache).Writing? ==>
      SnapshotIn(s, s.durable + s.saved + StagedIn(s.caches, s.checkpoint.ids))
  }

  // Fourth, every shard block's including master.

  ghost predicate Persisted(persisted: set<(Key, Applied)>, master: nat) {
    exists a :: (MasterKey(master), a) in persisted
  }

  predicate Committing(runner: Runner, master: nat) {
    (runner.StagingShards? || runner.StagingMaster? || runner.Remembering?) && runner.master == master
  }

  ghost predicate KeysOk(entries: Snapshot) {
    forall k :: k in entries ==> IsShardKey(k) || k == MasterKey(entries[k].state.master)
  }

  ghost predicate MastersOk(states: Snapshot, persisted: set<(Key, Applied)>, runner: Runner) {
    && KeysOk(states)
    && (!runner.Dead? ==>
          forall k :: k in states && IsShardKey(k) ==>
            var m := states[k].state.master;
            MasterKey(m) in states || Persisted(persisted, m) || Committing(runner, m))
  }

  /** Each shard block of the snapshot has its master in the snapshot, or durable already. */
  ghost predicate SnapshotClosed(entries: Snapshot, persisted: set<(Key, Applied)>) {
    && KeysOk(entries)
    && forall k :: k in entries && IsShardKey(k) ==>
         MasterKey(entries[k].state.master) in entries || Persisted(persisted, entries[k].state.master)
  }

  ghost predicate SnapshotOk(checkpoint: Checkpoint, persisted: set<(Key, Applied)>) {
    HasEntries(checkpoint) ==>
      && SnapshotClosed(checkpoint.entries, persisted)
      && (checkpoint.Committed? ==> Named(checkpoint.entries) <= persisted)
  }

  /** Durable metadata never dangles: the whole state it names, and for a shard block its master, are durable too. */
  ghost predicate DurableClosed(persisted: set<(Key, Applied)>, durable: Cells) {
    forall k, a :: (k, a) in persisted ==>
      Whole(a.state) <= durable && (IsShardKey(k) ==> Persisted(persisted, a.master))
  }

  ghost predicate Inv(s: State) {
    && WriterOk(s.engine, s.saved)
    && PrewriteOk(s.prewriting, s.engine.log, s.caches, s.calls)
    && WindowOk(s.caches, s.active, s.frozen)
    && HeldOk(s)
    && HandedOk(s.prewriting, s.engine.log, s.durable, s.stand, s.base)
    && TokensOk(s.prewriting, s.caches, s.calls, s.frozen + {s.active}, s.base)
    && PhaseOk(s) && FilledOk(s)
    && EntriesOk(s) && ProgressOk(s) && FromOk(s)
    && MastersOk(s.states.states, s.persisted, s.runner)
    && SnapshotOk(s.checkpoint, s.persisted)
    && DurableClosed(s.persisted, s.durable) && BlocksIn(s.named, s.durable)
  }
}
