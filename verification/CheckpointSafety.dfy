/** What holds in every run of the durability protocol. */
module CheckpointSafety {
  import opened Durability
  import opened StagingSteps
  import opened CheckpointSteps

  predicate IsStaging(step: Step) {
    step.LoadState? || step.BeginStage? || step.EnqueueCall? || step.FinishCall? || step.Writer?
  }

  predicate IsCommitStage(step: Step) {
    step.CommitMaster? || step.StageShard? || step.RememberMaster? || step.RunnerFails? || step.TakeSnapshot?
  }

  lemma StagingKeepsInv(s: State, step: Step)
    requires Inv(s) && Enabled(s, step) && IsStaging(step)
    ensures Inv(Next(s, step))
  {
    match step
    case LoadState(state) => LoadKeepsInv(s, state);
    case BeginStage(id, state, purpose) => BeginStageKeepsInv(s, id, state, purpose);
    case EnqueueCall(id) => EnqueueKeepsInv(s, id);
    case FinishCall(id, usable) => FinishKeepsInv(s, id, usable);
    case Writer(w) => WriterKeepsInv(s, w);
  }

  lemma CheckpointKeepsInv(s: State, step: Step)
    requires Inv(s) && Enabled(s, step) && !IsStaging(step) && !IsCommitStage(step) && Backed(s, step)
    ensures Inv(Next(s, step))
  {
    match step
    case Freeze(spare) => FreezeKeepsInv(s, spare);
    case ReadTarget(cache) => ReadTargetKeepsInv(s, cache);
    case WaitReached => WaitReachedKeepsInv(s);
    case FlushCells => FlushKeepsInv(s);
    case Commit => CommitKeepsInv(s);
    case CompleteStates => CompleteStatesKeepsInv(s);
    case CompleteCells => CompleteCellsKeepsInv(s);
    case CheckpointFails => FailKeepsInv(s);
  }

  lemma StepKeepsInv(s: State, step: Step)
    requires Inv(s) && Backed(s, step)
    ensures Inv(Next(s, step))
  {
    if Enabled(s, step) {
      if IsStaging(step) {
        StagingKeepsInv(s, step);
      } else if IsCommitStage(step) {
        RunnerKeepsInv(s, step);
      } else {
        CheckpointKeepsInv(s, step);
      }
    }
  }

  /** No step of the protocol hands a runner anything. */
  lemma StepHandsNothing(s: State, step: Step)
    requires s.stand == s.from == {}
    ensures Next(s, step).stand == Next(s, step).from == {}
  {
  }

  lemma {:induction false} RunKeepsInv(prewriting: bool, stored: Cells, steps: seq<Step>)
    ensures var s := Run(prewriting, stored, steps); Inv(s) && s.stand == s.from == {}
  {
    if steps == [] {
      InitialInv(prewriting, stored);
    } else {
      var (s, step) := (Run(prewriting, stored, steps[..|steps| - 1]), steps[|steps| - 1]);
      RunKeepsInv(prewriting, stored, steps[..|steps| - 1]);
      OwnIsBacked(s, step);
      StepKeepsInv(s, step);
      StepHandsNothing(s, step);
    }
  }

  // The guarantees.

  /**
   Metadata never commits ahead of its cells: at the moment of any checkpoint write, every
   record of the frozen caches whose staging call succeeded is durable, or is in that write.
  */
  lemma CommitNamesOnlySafeCells(prewriting: bool, stored: Cells, steps: seq<Step>, id: nat)
    requires Run(prewriting, stored, steps).checkpoint.Writing? && id in Run(prewriting, stored, steps).checkpoint.ids
    ensures var s := Run(prewriting, stored, steps);
            id in s.caches && s.caches[id].succeeded <= s.durable + s.checkpoint.cells
  {
    RunKeepsInv(prewriting, stored, steps);
    var s := Run(prewriting, stored, steps);
    assert Safe(s.caches, s.calls, id, s.durable + s.checkpoint.cells);
    assert CacheOk(s.prewriting, s.engine.log, s.calls, id, s.caches[id]);
  }

  /**
   Every snapshot that holds a shard block holds its including master, or was taken after
   that master became durable; and the cells of each of its entries are in the caches frozen
   with it, or durable already.
  */
  lemma SnapshotsAreComplete(prewriting: bool, stored: Cells, steps: seq<Step>, key: Key)
    requires HasEntries(Run(prewriting, stored, steps).checkpoint)
             && key in Run(prewriting, stored, steps).checkpoint.entries
    ensures var s := Run(prewriting, stored, steps);
            var applied := s.checkpoint.entries[key].state;
            && (IsShardKey(key) ==>
                  MasterKey(applied.master) in s.checkpoint.entries || Persisted(s.persisted, applied.master))
            && (!s.checkpoint.Snapshotted? ==>
                Whole(applied.state) <= SucceededIn(s.caches, s.checkpoint.ids) + s.durable)
  {
    RunKeepsInv(prewriting, stored, steps);
    assert WholeOf({}) == {};
  }

  /** `a` is `b` or a state that `b` was built over, at any depth. */
  ghost predicate Ancestor(a: BlockState, b: BlockState) {
    || a == b
    || (b.Extended? && Ancestor(a, b.prev))
    || (b.Merged? && (Ancestor(a, b.left) || Ancestor(a, b.right)))
  }

  lemma {:induction false} AncestorsAreHeld(a: BlockState, b: BlockState)
    requires Ancestor(a, b)
    ensures Whole(a) <= Whole(b)
  {
    if a != b {
      if b.Extended? {
        AncestorsAreHeld(a, b.prev);
      } else if Ancestor(a, b.left) {
        AncestorsAreHeld(a, b.left);
      } else {
        AncestorsAreHeld(a, b.right);
      }
    }
  }

  /**
   A crash after any run leaves durable metadata that never dangles: for each block it names, the state of that
   block and of every predecessor it was built over, at any depth, is durable, and so is its including master.
  */
  lemma CrashSafe(prewriting: bool, stored: Cells, steps: seq<Step>, key: Key, applied: Applied, ancestor: BlockState)
    requires (key, applied) in Run(prewriting, stored, steps).persisted && Ancestor(ancestor, applied.state)
    ensures Whole(applied.state) <= Run(prewriting, stored, steps).durable
    ensures Own(ancestor) <= Run(prewriting, stored, steps).durable
    ensures IsShardKey(key) ==> Persisted(Run(prewriting, stored, steps).persisted, applied.master)
  {
    RunKeepsInv(prewriting, stored, steps);
    AncestorsAreHeld(ancestor, applied.state);
  }

  /** The same for the current state named in the last checkpoint write: the master's and every shard's. */
  lemma CurrentIsDurable(prewriting: bool, stored: Cells, steps: seq<Step>, current: BlockState, ancestor: BlockState)
    requires current in Run(prewriting, stored, steps).named && Ancestor(ancestor, current)
    ensures Whole(current) <= Run(prewriting, stored, steps).durable
    ensures Own(ancestor) <= Run(prewriting, stored, steps).durable
  {
    RunKeepsInv(prewriting, stored, steps);
    AncestorsAreHeld(ancestor, current);
  }
}
