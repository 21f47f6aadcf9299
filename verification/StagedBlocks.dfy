/**
 What becomes of a staged block (service/next_sync_pipeline.go:1186-1211, 1353-1455): the commit stage remembers
 the shard blocks deferred to a master before the master itself, and the next checkpoint takes all of them.

 Main results, over every run: whatever is deferred, remembered, in a checkpoint or persisted was staged by a call
 that succeeded, with the very state that call had; nothing staged is lost while the commit stage is alive; and
 once a master is committed, the next checkpoint written persists it with every shard block deferred to it.
*/
module StagedBlocks {
  import AppliedStates
  import opened CheckpointSafety
  import opened Durability
  import PrewriteQueue

  type Block = (Key, Applied)

  function BlockOf(call: Call): (b: Block) {
    match call.purpose
    case ForShard(key, master) => (key, Applied(master, call.state))
    case ForMaster(master) => (MasterKey(master), Applied(master, call.state))
  }

  /** What a step stages: the block of the call that returns with it, if that call succeeded. */
  function StagedBy(s: State, step: Step): (r: set<Block>) {
    if step.FinishCall? && Enabled(s, step) && step.usable && s.calls[step.id].answer.Queued?
       && (s.calls[step.id].purpose.ForMaster? ==> s.runner == StagingMaster(s.calls[step.id].purpose.master))
    then {BlockOf(s.calls[step.id])} else {}
  }

  function Staged(prewriting: bool, stored: Cells, steps: seq<Step>): (r: set<Block>) {
    if steps == [] then {}
    else
      var init := steps[..|steps| - 1];
      Staged(prewriting, stored, init) + StagedBy(Run(prewriting, stored, init), steps[|steps| - 1])
  }

  // Where a block can be.

  predicate IsDeferred(deferred: Deferred, b: Block) {
    b.1.master in deferred && b in deferred[b.1.master]
  }

  /** The commit stage has it in hand. */
  predicate InHand(runner: Runner, b: Block) {
    || (runner.StagingShards? && b in runner.rest)
    || (runner.Remembering? && b == (MasterKey(runner.master), Applied(runner.master, runner.state)))
  }

  predicate InSet(entries: Snapshot, b: Block) {
    b.0 in entries && entries[b.0].state == b.1
  }

  ghost predicate IsAt(s: State, b: Block) {
    || IsDeferred(s.deferred, b) || InHand(s.runner, b) || InSet(s.states.states, b)
    || (HasEntries(s.checkpoint) && InSet(s.checkpoint.entries, b)) || b in s.persisted
  }

  /** Waiting for a checkpoint, or persisted; perhaps at a later staging of the same block. */
  ghost predicate Settled(s: State, key: Key) {
    key in s.states.states || exists a :: (key, a) in s.persisted
  }

  ghost predicate Tracked(s: State, b: Block) {
    IsDeferred(s.deferred, b) || InHand(s.runner, b) || Settled(s, b.0)
  }

  // Nothing comes from nowhere.

  lemma DeferredFrom(s: State, step: Step, b: Block)
    requires Enabled(s, step)
    ensures IsDeferred(Next(s, step).deferred, b) ==> IsDeferred(s.deferred, b) || b in StagedBy(s, step)
  {
  }

  lemma InHandFrom(s: State, step: Step, b: Block)
    requires DeferredOk(Reachable(s), s.deferred) && Enabled(s, step) && InHand(Next(s, step).runner, b)
    ensures IsAt(s, b) || b in StagedBy(s, step)
  {
    if step.CommitMaster? && step.master in s.deferred && b in s.deferred[step.master] {
      var i :| 0 <= i < |s.deferred[step.master]| && s.deferred[step.master][i] == b;
      assert EntryOk(Reachable(s), s.deferred[step.master][i], step.master);
    }
  }

  lemma OthersFrom(s: State, step: Step, b: Block)
    requires Enabled(s, step) && IsAt(Next(s, step), b)
    requires !IsDeferred(Next(s, step).deferred, b) && !InHand(Next(s, step).runner, b)
    ensures IsAt(s, b)
  {
    match step
    case Commit =>
      if b in Named(s.checkpoint.entries) {
        var k :| k in s.checkpoint.entries && b == (k, s.checkpoint.entries[k].state);
      }
    case StageShard(_) =>
      if b.0 == s.runner.rest[0].0 && InSet(Next(s, step).states.states, b) {
        assert b == s.runner.rest[0];
      }
    case RememberMaster(_) =>
      if b.0 == MasterKey(s.runner.master) && InSet(Next(s, step).states.states, b) {
        assert b == (MasterKey(s.runner.master), Applied(s.runner.master, s.runner.state));
      }
    case _ =>
  }

  lemma StepFrom(s: State, step: Step, b: Block)
    requires DeferredOk(Reachable(s), s.deferred) && IsAt(Next(s, step), b)
    ensures IsAt(s, b) || b in StagedBy(s, step)
  {
    if Enabled(s, step) {
      if IsDeferred(Next(s, step).deferred, b) {
        DeferredFrom(s, step, b);
      } else if InHand(Next(s, step).runner, b) {
        InHandFrom(s, step, b);
      } else {
        OthersFrom(s, step, b);
      }
    }
  }

  /** Everything on its way to the store, or in it, is the block and the state of a staging call that succeeded. */
  lemma {:induction false} AllWereStaged(prewriting: bool, stored: Cells, steps: seq<Step>, b: Block)
    requires IsAt(Run(prewriting, stored, steps), b)
    ensures b in Staged(prewriting, stored, steps)
  {
    if steps != [] {
      var init := steps[..|steps| - 1];
      RunKeepsInv(prewriting, stored, init);
      StepFrom(Run(prewriting, stored, init), steps[|steps| - 1], b);
      if IsAt(Run(prewriting, stored, init), b) {
        AllWereStaged(prewriting, stored, init, b);
      }
    }
  }

  // Nothing is lost.

  lemma PersistedGrows(s: State, step: Step)
    ensures s.persisted <= Next(s, step).persisted
  {
  }

  lemma SettledStays(s: State, step: Step, key: Key)
    requires SnapshotOk(s.checkpoint, s.persisted) && Settled(s, key)
    ensures Settled(Next(s, step), key)
  {
    PersistedGrows(s, step);
    if Enabled(s, step) && step.CompleteStates? && key in s.checkpoint.entries {
      assert (key, s.checkpoint.entries[key].state) in Named(s.checkpoint.entries);
    }
    if exists a :: (key, a) in s.persisted {
      var a :| (key, a) in s.persisted;
      assert (key, a) in Next(s, step).persisted;
    }
  }

  lemma InHandStays(s: State, step: Step, b: Block)
    requires PhaseOk(s) && InHand(s.runner, b) && Enabled(s, step) && !Next(s, step).runner.Dead?
    ensures InHand(Next(s, step).runner, b) || b.0 in Next(s, step).states.states
  {
  }

  lemma StepTracks(s: State, step: Step, b: Block)
    requires SnapshotOk(s.checkpoint, s.persisted) && PhaseOk(s)
    requires !Next(s, step).runner.Dead? && (Tracked(s, b) || b in StagedBy(s, step))
    ensures Tracked(Next(s, step), b)
  {
    if Enabled(s, step) {
      if Settled(s, b.0) {
        SettledStays(s, step, b.0);
      } else if InHand(s.runner, b) {
        InHandStays(s, step, b);
      } else if IsDeferred(s.deferred, b) {
        DeferredStays(s, step, b);
      } else {
        NewTracked(s, step, b);
      }
    }
  }

  lemma DeferredStays(s: State, step: Step, b: Block)
    requires IsDeferred(s.deferred, b) && Enabled(s, step)
    ensures IsDeferred(Next(s, step).deferred, b) || InHand(Next(s, step).runner, b)
  {
  }

  lemma NewTracked(s: State, step: Step, b: Block)
    requires b in StagedBy(s, step)
    ensures Tracked(Next(s, step), b)
  {
    var deferred := Next(s, step).deferred;
    if s.calls[step.id].purpose.ForShard? {
      assert deferred[b.1.master][|deferred[b.1.master]| - 1] == b;
    }
  }

  lemma DeadStays(s: State, step: Step)
    requires PhaseOk(s)
    ensures s.runner.Dead? ==> Next(s, step).runner.Dead?
  {
  }

  /** While the commit stage is alive, every staged block is deferred to its master, in hand, waiting or persisted. */
  lemma {:induction false} StagedIsTracked(prewriting: bool, stored: Cells, steps: seq<Step>, b: Block)
    requires b in Staged(prewriting, stored, steps) && !Run(prewriting, stored, steps).runner.Dead?
    ensures Tracked(Run(prewriting, stored, steps), b)
  {
    var (init, step) := (steps[..|steps| - 1], steps[|steps| - 1]);
    var s := Run(prewriting, stored, init);
    RunKeepsInv(prewriting, stored, init);
    DeadStays(s, step);
    if b in Staged(prewriting, stored, init) {
      StagedIsTracked(prewriting, stored, init, b);
    }
    StepTracks(s, step, b);
  }

  /** Between masters only shard blocks of masters not committed since are still deferred. */
  lemma MastersAreSettled(prewriting: bool, stored: Cells, steps: seq<Step>, b: Block)
    requires b in Staged(prewriting, stored, steps) && Run(prewriting, stored, steps).runner.Idle?
    ensures IsDeferred(Run(prewriting, stored, steps).deferred, b) || Settled(Run(prewriting, stored, steps), b.0)
    ensures !IsShardKey(b.0) ==> Settled(Run(prewriting, stored, steps), b.0)
  {
    var s := Run(prewriting, stored, steps);
    StagedIsTracked(prewriting, stored, steps, b);
    RunKeepsInv(prewriting, stored, steps);
    if IsDeferred(s.deferred, b) {
      var i :| 0 <= i < |s.deferred[b.1.master]| && s.deferred[b.1.master][i] == b;
      assert EntryOk(Reachable(s), s.deferred[b.1.master][i], b.1.master);
    }
  }

  // Once its master is committed a block is settled, unless the commit stage dies first.

  ghost predicate Due(s: State, b: Block) {
    s.runner.Dead? || Settled(s, b.0) || (s.runner.StagingShards? && b in s.runner.rest)
  }

  lemma DueStays(s: State, step: Step, b: Block)
    requires SnapshotOk(s.checkpoint, s.persisted) && PhaseOk(s) && Due(s, b)
    ensures Due(Next(s, step), b)
  {
    if Settled(s, b.0) {
      SettledStays(s, step, b.0);
    } else if s.runner.Dead? {
      DeadStays(s, step);
    } else if Enabled(s, step) && !Next(s, step).runner.Dead? {
      InHandStays(s, step, b);
      RestStays(s, step, b);
    }
  }

  lemma RestStays(s: State, step: Step, b: Block)
    requires PhaseOk(s) && s.runner.StagingShards? && b in s.runner.rest && Enabled(s, step)
    ensures Next(s, step).runner.StagingShards? || Next(s, step).runner.Dead?
  {
  }

  lemma CommitMakesDue(s: State, master: nat, shards: set<BlockState>, b: Block)
    requires Enabled(s, CommitMaster(master, shards)) && Tracked(s, b) && b.1.master == master
    ensures Due(Next(s, CommitMaster(master, shards)), b)
  {
  }

  /** The step at `c` commits the block's master. */
  ghost predicate Commits(prewriting: bool, stored: Cells, steps: seq<Step>, c: nat, b: Block) {
    && c < |steps| && steps[c].CommitMaster? && steps[c].master == b.1.master
    && Enabled(Run(prewriting, stored, steps[..c]), steps[c]) && b in Staged(prewriting, stored, steps[..c])
  }

  lemma {:induction false} CommittedIsDue(prewriting: bool, stored: Cells, steps: seq<Step>, c: nat, b: Block, n: nat)
    requires Commits(prewriting, stored, steps, c, b) && c < n <= |steps|
    ensures Due(Run(prewriting, stored, steps[..n]), b)
  {
    if n == c + 1 {
      CommitsDue(prewriting, stored, steps, c, b);
    } else {
      CommittedIsDue(prewriting, stored, steps, c, b, n - 1);
      DueNext(prewriting, stored, steps, n, b);
    }
  }

  lemma DueNext(prewriting: bool, stored: Cells, steps: seq<Step>, n: nat, b: Block)
    requires 0 < n <= |steps| && Due(Run(prewriting, stored, steps[..n - 1]), b)
    ensures Due(Run(prewriting, stored, steps[..n]), b)
  {
    assert steps[..n][..n - 1] == steps[..n - 1];
    RunKeepsInv(prewriting, stored, steps[..n - 1]);
    DueStays(Run(prewriting, stored, steps[..n - 1]), steps[n - 1], b);
  }

  lemma CommitsDue(prewriting: bool, stored: Cells, steps: seq<Step>, c: nat, b: Block)
    requires Commits(prewriting, stored, steps, c, b)
    ensures Due(Run(prewriting, stored, steps[..c + 1]), b)
  {
    assert steps[..c + 1][..c] == steps[..c];
    StagedIsTracked(prewriting, stored, steps[..c], b);
    CommitMakesDue(Run(prewriting, stored, steps[..c]), steps[c].master, steps[c].shards, b);
  }

  // A checkpoint persists all that was waiting when its snapshot was taken.

  /** The checkpoint begun at `a` is written at `w`: no other snapshot comes between. */
  ghost predicate Checkpoints(prewriting: bool, stored: Cells, steps: seq<Step>, a: nat, w: nat) {
    && a < w < |steps|
    && steps[a].TakeSnapshot? && Enabled(Run(prewriting, stored, steps[..a]), steps[a])
    && steps[w].Commit? && Enabled(Run(prewriting, stored, steps[..w]), steps[w])
    && forall i :: a < i < w ==> !steps[i].TakeSnapshot?
  }

  lemma CarriesOn(s: State, step: Step, at: State)
    requires !step.TakeSnapshot? && Carries(s, at)
    ensures Carries(Next(s, step), at)
  {
  }

  /** The checkpoint in flight is that of the state `at`. */
  ghost predicate Carries(s: State, at: State) {
    HasEntries(s.checkpoint) ==> s.checkpoint.entries == at.states.states && s.offered == at.shards + {at.head}
  }

  lemma RunNext(prewriting: bool, stored: Cells, steps: seq<Step>, n: nat)
    requires n < |steps|
    ensures Run(prewriting, stored, steps[..n + 1]) == Next(Run(prewriting, stored, steps[..n]), steps[n])
  {
    assert steps[..n + 1][..n] == steps[..n];
  }

  lemma {:induction false} CarriesSnapshot(prewriting: bool, stored: Cells, steps: seq<Step>, a: nat, w: nat, n: nat)
    requires Checkpoints(prewriting, stored, steps, a, w) && a < n <= w
    ensures Carries(Run(prewriting, stored, steps[..n]), Run(prewriting, stored, steps[..a]))
  {
    if n == a + 1 {
      RunNext(prewriting, stored, steps, a);
    } else {
      CarriesSnapshot(prewriting, stored, steps, a, w, n - 1);
      CarriesNext(prewriting, stored, steps, n, Run(prewriting, stored, steps[..a]));
    }
  }

  lemma CarriesNext(prewriting: bool, stored: Cells, steps: seq<Step>, n: nat, at: State)
    requires 0 < n <= |steps| && !steps[n - 1].TakeSnapshot?
    requires Carries(Run(prewriting, stored, steps[..n - 1]), at)
    ensures Carries(Run(prewriting, stored, steps[..n]), at)
  {
    RunNext(prewriting, stored, steps, n - 1);
    CarriesOn(Run(prewriting, stored, steps[..n - 1]), steps[n - 1], at);
  }

  /** A checkpoint that is written persists every block that was waiting for it, in the state it had then. */
  lemma CheckpointPersistsAll(prewriting: bool, stored: Cells, steps: seq<Step>, a: nat, w: nat, key: Key)
    requires Checkpoints(prewriting, stored, steps, a, w)
    requires key in Run(prewriting, stored, steps[..a]).states.states
    ensures (key, Run(prewriting, stored, steps[..a]).states.states[key].state)
            in Run(prewriting, stored, steps[..w + 1]).persisted
  {
    CarriesSnapshot(prewriting, stored, steps, a, w, w);
    assert steps[..w + 1][..w] == steps[..w];
    var s := Run(prewriting, stored, steps[..w]);
    assert (key, s.checkpoint.entries[key].state) in Named(s.checkpoint.entries);
  }

  /** And it names the current state of that moment, the master's and every shard's. */
  lemma CheckpointNamesCurrent(prewriting: bool, stored: Cells, steps: seq<Step>, a: nat, w: nat)
    requires Checkpoints(prewriting, stored, steps, a, w)
    ensures var at := Run(prewriting, stored, steps[..a]);
            Run(prewriting, stored, steps[..w + 1]).named == at.shards + {at.head}
  {
    CarriesSnapshot(prewriting, stored, steps, a, w, w);
    RunNext(prewriting, stored, steps, w);
  }

  /** Where the commit stage is with the last master it took up. */
  ghost predicate HeadOk(s: State, staged: set<Block>) {
    && (s.runner.StagingShards? || s.runner.StagingMaster? || s.runner.Remembering? ==> s.runner.master == s.lastMaster)
    && (s.runner.Remembering? ==> (MasterKey(s.runner.master), Applied(s.runner.master, s.runner.state)) in staged)
    && ((s.runner.Idle? || s.runner.Freezing?) && s.lastMaster > 0 ==>
        (MasterKey(s.lastMaster), Applied(s.lastMaster, s.head)) in staged)
  }

  lemma HeadStays(s: State, step: Step, staged: set<Block>)
    requires PhaseOk(s) && HeadOk(s, staged)
    ensures HeadOk(Next(s, step), staged + StagedBy(s, step))
  {
    if step.FinishCall? {
      FinishHead(s, step, staged);
    } else {
      OtherHead(s, step, staged);
    }
  }

  lemma FinishHead(s: State, step: Step, staged: set<Block>)
    requires HeadOk(s, staged) && step.FinishCall?
    ensures HeadOk(Next(s, step), staged + StagedBy(s, step))
  {
  }

  lemma OtherHead(s: State, step: Step, staged: set<Block>)
    requires PhaseOk(s) && HeadOk(s, staged) && !step.FinishCall?
    ensures HeadOk(Next(s, step), staged)
  {
  }

  lemma {:induction false} HeadFollows(prewriting: bool, stored: Cells, steps: seq<Step>)
    ensures HeadOk(Run(prewriting, stored, steps), Staged(prewriting, stored, steps))
  {
    if steps != [] {
      var init := steps[..|steps| - 1];
      HeadFollows(prewriting, stored, init);
      RunKeepsInv(prewriting, stored, init);
      HeadStays(Run(prewriting, stored, init), steps[|steps| - 1], Staged(prewriting, stored, init));
    }
  }

  /** Between masters the head is the state staged for the last one committed. */
  lemma HeadIsLastMaster(prewriting: bool, stored: Cells, steps: seq<Step>)
    requires Run(prewriting, stored, steps).runner.Idle? && Run(prewriting, stored, steps).lastMaster > 0
    ensures var s := Run(prewriting, stored, steps);
            (MasterKey(s.lastMaster), Applied(s.lastMaster, s.head)) in Staged(prewriting, stored, steps)
  {
    HeadFollows(prewriting, stored, steps);
  }

  ghost predicate IsPersisted(prewriting: bool, stored: Cells, steps: seq<Step>, key: Key) {
    exists a ::
      && (key, a) in Run(prewriting, stored, steps).persisted
      && (key, a) in Staged(prewriting, stored, steps)
  }

  lemma SettledIsPersisted(prewriting: bool, stored: Cells, steps: seq<Step>, a: nat, w: nat, key: Key)
    requires Checkpoints(prewriting, stored, steps, a, w) && Settled(Run(prewriting, stored, steps[..a]), key)
    ensures IsPersisted(prewriting, stored, steps[..w + 1], key)
  {
    var s := Run(prewriting, stored, steps[..a]);
    var applied: Applied;
    if key in s.states.states {
      applied := s.states.states[key].state;
      CheckpointPersistsAll(prewriting, stored, steps, a, w, key);
    } else {
      applied :| (key, applied) in s.persisted;
      PersistedStays(prewriting, stored, steps, a, w + 1, (key, applied));
    }
    AllWereStaged(prewriting, stored, steps[..w + 1], (key, applied));
  }

  /**
   A staged block whose master is committed: the next checkpoint written after that persists the block, in a state
   that a succeeded staging call of the block gave.
  */
  lemma CommittedIsPersisted(prewriting: bool, stored: Cells, steps: seq<Step>, b: Block, c: nat, a: nat, w: nat)
    requires Commits(prewriting, stored, steps, c, b) && c < a && Checkpoints(prewriting, stored, steps, a, w)
    ensures IsPersisted(prewriting, stored, steps[..w + 1], b.0)
  {
    CommittedIsDue(prewriting, stored, steps, c, b, a);
    SettledIsPersisted(prewriting, stored, steps, a, w, b.0);
  }

  lemma {:induction false} PersistedStays(prewriting: bool, stored: Cells, steps: seq<Step>, n: nat, m: nat, b: Block)
    requires n <= m <= |steps| && b in Run(prewriting, stored, steps[..n]).persisted
    ensures b in Run(prewriting, stored, steps[..m]).persisted
    decreases m
  {
    if n < m {
      PersistedStays(prewriting, stored, steps, n, m - 1, b);
      assert steps[..m][..m - 1] == steps[..m - 1];
      PersistedGrows(Run(prewriting, stored, steps[..m - 1]), steps[m - 1]);
    }
  }

  /** And the master itself, which is no shard block and so never deferred. */
  lemma MasterIsPersisted(prewriting: bool, stored: Cells, steps: seq<Step>, b: Block, a: nat, w: nat)
    requires Checkpoints(prewriting, stored, steps, a, w) && b in Staged(prewriting, stored, steps[..a])
    requires !IsShardKey(b.0)
    ensures IsPersisted(prewriting, stored, steps[..w + 1], b.0)
  {
    MastersAreSettled(prewriting, stored, steps[..a], b);
    SettledIsPersisted(prewriting, stored, steps, a, w, b.0);
  }

  // What a step leaves behind.

  /** A shard block that is staged can be built on at once, before its master is committed. */
  lemma StagedIsResolved(s: State, step: Step, b: Block)
    requires b in StagedBy(s, step) && s.calls[step.id].purpose.ForShard?
    ensures b.1.state in Next(s, step).resolved && IsDeferred(Next(s, step).deferred, b)
  {
    NewTracked(s, step, b);
    var deferred := Next(s, step).deferred;
    assert deferred[b.1.master][|deferred[b.1.master]| - 1] == b;
  }

  /**
   A checkpoint writes its caches' cells itself exactly when one of them has a call under way or none that was
   numbered; otherwise it waits for the highest number, and a flush leaves it nothing to write but metadata.
  */
  lemma WritesExactly(s: State, cache: nat)
    requires Enabled(s, ReadTarget(cache))
    ensures var (cp, c) := (s.checkpoint, s.caches[cache]);
            var after := Next(s, ReadTarget(cache)).checkpoint;
            if c.staged != {} && (c.pending > 0 || c.token == 0)
            then after == Writing(cp.entries, cp.ids, StagedIn(s.caches, cp.ids))
            else
              var target := if c.staged != {} && c.token > cp.target then c.token else cp.target;
              if cp.todo != {cache} then after == Reading(cp.entries, cp.ids, cp.todo - {cache}, target)
              else if target > 0 then after == Waiting(cp.entries, cp.ids, target)
              else after == Writing(cp.entries, cp.ids, StagedIn(s.caches, cp.ids))
    ensures s.checkpoint.Flushing? ==>
              Next(s, FlushCells).checkpoint == Writing(s.checkpoint.entries, s.checkpoint.ids, {})
  {
  }

  /** A completed checkpoint gives up its caches, and every entry not remembered again since the snapshot. */
  lemma CompletedIsReleased(s: State, key: Key)
    ensures Enabled(s, CompleteStates) ==>
              (key in Next(s, CompleteStates).states.states <==>
               && key in s.states.states
               && !(key in s.checkpoint.entries && s.checkpoint.entries[key].version == s.states.states[key].version))
    ensures Enabled(s, CompleteCells) ==>
              Next(s, CompleteCells).frozen == s.frozen - s.checkpoint.ids
              && Next(s, CompleteCells).checkpoint.NoCheckpoint?
  {
  }

  // Nor does a checkpoint get stuck.

  /** A checkpoint can always take its next step, or else it waits for the prewriter, which may fail it. */
  lemma CheckpointGoesOn(prewriting: bool, stored: Cells, steps: seq<Step>, spare: nat)
    requires spare !in Run(prewriting, stored, steps).caches
    ensures GoesOn(Run(prewriting, stored, steps), spare)
  {
    RunKeepsInv(prewriting, stored, steps);
    NextIsEnabled(Run(prewriting, stored, steps), spare);
  }

  /** The checkpoint's next step is enabled, or it waits. */
  ghost predicate GoesOn(s: State, spare: nat) {
    match s.checkpoint
    case NoCheckpoint => s.runner.Idle? && s.staged > 0 ==> Enabled(s, TakeSnapshot)
    case Snapshotted(_) => Enabled(s, Freeze(spare))
    case Reading(_, _, todo, _) => todo != {} && forall id :: id in todo ==> Enabled(s, ReadTarget(id))
    case Waiting(_, _, target) =>
      if PrewriteQueue.Wait(s.engine.queue, target) == PrewriteQueue.Reached then Enabled(s, WaitReached)
      else Enabled(s, CheckpointFails)
    case Flushing(_, _, _) => Enabled(s, FlushCells)
    case Writing(_, _, _) => Enabled(s, Commit)
    case Committed(_, _) => Enabled(s, CompleteStates)
    case Cleaning(_) => Enabled(s, CompleteCells)
  }

  lemma NextIsEnabled(s: State, spare: nat)
    requires PhaseOk(s) && ProgressOk(s) && s.active in s.caches && spare !in s.caches
    ensures GoesOn(s, spare)
  {
  }
}
