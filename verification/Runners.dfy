/**
 Successive runners of the durability protocol (service/current_state.go:60-190,
 service/next_sync_pipeline.go:278-343, 1086-1130; service/catchup_master.go:347-369, 509-533;
 service/state_lifecycle.go:298-322).

 A runner may end with its last checkpoint still being written.  The next one starts from the live
 current state, with a window and an applied-state set of its own, while that checkpoint goes on; so
 what it was handed may not be durable yet.  If the checkpoint fails, an error is left for whoever begins
 the next one, which is how the new runner learns of it.  Others may take that error first.

 Main results.  Over any number of runners, restarts and crashes, durable metadata never dangles as long as
 no checkpoint that writes its cells itself names cells that are in none of its caches and not saved; one that
 does dangles at once.  And that cannot come about as long as others take the error only from a runner that was
 handed saved or durable cells, and no runner follows one whose checkpoint failed without the error.
*/
module Runners {
  import AppliedStates
  import opened CheckpointSafety
  import opened CheckpointSteps
  import opened Durability
  import opened StagingSteps

  /**
   `s` is the present runner's state, with the checkpoint in flight whoever began it.  `foreign`: an
   earlier runner began it.  `err`: an error waits for the next checkpoint.  `lost`: the checkpoint
   this runner began last failed.
  */
  datatype Service = Service(s: State, foreign: bool, err: bool, lost: bool)

  datatype Move =
    | Inner(step: Step)
    // A synchronous checkpoint fails: its runner is told at once.
    | SyncFails
    // The runner has returned without an error, and the loop starts the next one from its current state.
    | NextRunner(spare: nat)
    // The runner has failed, and a later one starts from the current state in the store.
    | Restart(spare: nat, master: nat, head: BlockState, shards: set<BlockState>)
    | Crash(master: nat, head: BlockState, shards: set<BlockState>)
    // The serializer or a generation migration waits for the checkpoint and takes its error.
    | OthersTakeError

  function Start(prewriting: bool, stored: Cells): (v: Service) {
    Service(Initial(prewriting, stored), false, false, false)
  }

  predicate Possible(v: Service, move: Move) {
    match move
    case Inner(step) => Enabled(v.s, step)
    case SyncFails => Enabled(v.s, CheckpointFails) && !v.foreign && !v.s.runner.Freezing?
    case NextRunner(spare) => v.s.runner.Idle? && v.s.calls == map[] && spare !in v.s.caches && v.s.staged == 0
    case Restart(spare, _, head, shards) =>
      v.s.runner.Dead? && v.s.calls == map[] && spare !in v.s.caches && head in v.s.named && shards <= v.s.named
    case Crash(_, head, shards) => head in v.s.named && shards <= v.s.named
    case OthersTakeError => true
  }

  /** A new runner's state: an empty window and set, over the states it is handed and those in the store. */
  function Fresh(s: State, spare: nat, stand: set<BlockState>, master: nat, head: BlockState,
                 shards: set<BlockState>): (r: State)
  {
    s.(caches := s.caches[spare := Cache({}, {}, 0, 0)], active := spare, frozen := {},
    states := AppliedStates.StateSet(map[], 0), deferred := map[], runner := Idle, lastMaster := master,
    resolved := shards, head := head, shards := shards, staged := 0, stand := stand, base := |s.engine.log|)
  }

  /** The commit stage begins a checkpoint: it takes a waiting error and stops, or goes on. */
  function SnapshotNext(v: Service): (r: Service) {
    if v.err then v.(s := Next(v.s, RunnerFails), err := false)
    else v.(s := Next(v.s, TakeSnapshot), lost := false)
  }

  function InnerNext(v: Service, step: Step): (r: Service)
    requires Enabled(v.s, step)
  {
    match step
    case TakeSnapshot => SnapshotNext(v)
    case CheckpointFails => v.(s := Next(v.s, step), foreign := false, err := true, lost := v.lost || !v.foreign)
    case CompleteStates =>
      // The set of the runner that began the checkpoint, and no other.
      if v.foreign then v.(s := v.s.(checkpoint := Cleaning(v.s.checkpoint.ids))) else v.(s := Next(v.s, step))
    case CompleteCells => v.(s := Next(v.s, step), foreign := false)
    case _ => v.(s := Next(v.s, step))
  }

  function NextRunnerNext(v: Service, spare: nat): (r: Service) {
    Service(Fresh(v.s, spare, v.s.shards + {v.s.head}, v.s.lastMaster, v.s.head, v.s.shards),
            !v.s.checkpoint.NoCheckpoint?, v.err, false)
  }

  function RestartNext(v: Service, spare: nat, master: nat, head: BlockState, shards: set<BlockState>): (r: Service) {
    Service(Fresh(v.s, spare, {}, master, head, shards), !v.s.checkpoint.NoCheckpoint?, v.err, false)
  }

  /** Only what is durable outlives the process. */
  function CrashNext(v: Service, master: nat, head: BlockState, shards: set<BlockState>): (r: Service) {
    var s := Initial(v.s.prewriting, v.s.durable);
    Start(v.s.prewriting, v.s.durable).(
      s := s.(persisted := v.s.persisted, named := v.s.named, lastMaster := master, resolved := shards, head := head,
              shards := shards))
  }

  function Moved(v: Service, move: Move): (r: Service) {
    if !Possible(v, move) then v
    else
      match move
      case Inner(step) => InnerNext(v, step)
      case SyncFails => v.(s := Next(Next(v.s, CheckpointFails), RunnerFails), lost := true)
      case NextRunner(spare) => NextRunnerNext(v, spare)
      case Restart(spare, master, head, shards) => RestartNext(v, spare, master, head, shards)
      case Crash(master, head, shards) => CrashNext(v, master, head, shards)
      case OthersTakeError => v.(err := false)
  }

  function History(prewriting: bool, stored: Cells, moves: seq<Move>): (v: Service) {
    if moves == [] then Start(prewriting, stored)
    else Moved(History(prewriting, stored, moves[..|moves| - 1]), moves[|moves| - 1])
  }

  // What every move keeps, whoever takes the error, if each checkpoint is backed.

  ghost predicate ServiceOk(v: Service) {
    Inv(v.s) && (v.foreign ==> !v.s.checkpoint.NoCheckpoint? && !v.s.runner.Freezing?)
  }

  ghost predicate BackedMove(v: Service, move: Move) {
    move.Inner? ==> Backed(v.s, move.step)
  }

  // A new runner.

  lemma SparePrewrite(prewriting: bool, log: Log, caches: map<nat, Cache>, spare: nat)
    requires PrewriteOk(prewriting, log, caches, map[]) && spare !in caches
    ensures PrewriteOk(prewriting, log, caches[spare := Cache({}, {}, 0, 0)], map[])
  {
    var after := caches[spare := Cache({}, {}, 0, 0)];
    assert On(map[], spare) == {};
    forall c | c in after
      ensures CacheOk(prewriting, log, map[], c, after[c])
    {
      assert c in caches ==> CacheOk(prewriting, log, map[], c, caches[c]);
    }
  }

  /** What a runner can reach went through the prewriter, or is durable, or was handed to it likewise. */
  lemma ReachedByJobs(s: State)
    requires PrewriteOk(s.prewriting, s.engine.log, s.caches, s.calls) && s.prewriting
    requires HandedOk(s.prewriting, s.engine.log, s.durable, s.stand, s.base)
    ensures Reachable(s) <= s.durable + Logged(s.engine.log)
  {
    var log := s.engine.log;
    assert log[..|log|] == log;
    LoggedGrows(log, s.base, |log|);
    forall x | x in SucceededIn(s.caches, s.frozen + {s.active})
      ensures x in Logged(log)
    {
      var id :| id in s.frozen + {s.active} && id in s.caches && x in s.caches[id].succeeded;
      assert CacheOk(s.prewriting, log, s.calls, id, s.caches[id]);
      LoggedGrows(log, s.caches[id].token, |log|);
    }
  }

  lemma FreshHanded(s: State, stand: set<BlockState>)
    requires PrewriteOk(s.prewriting, s.engine.log, s.caches, s.calls) && BlocksIn(stand, Reachable(s))
    requires HandedOk(s.prewriting, s.engine.log, s.durable, s.stand, s.base)
    ensures HandedOk(s.prewriting, s.engine.log, s.durable, stand, |s.engine.log|)
  {
    assert s.engine.log[..|s.engine.log|] == s.engine.log;
    if s.prewriting {
      ReachedByJobs(s);
    }
  }

  lemma FreshKeepsInv(s: State, spare: nat, stand: set<BlockState>, master: nat, head: BlockState,
                      shards: set<BlockState>)
    requires Inv(s) && s.calls == map[] && spare !in s.caches && !s.runner.Freezing?
    requires BlocksIn(stand, Reachable(s)) && BlocksIn(shards + {head}, s.durable + WholeOf(stand))
    ensures Inv(Fresh(s, spare, stand, master, head, shards))
  {
    SparePrewrite(s.prewriting, s.engine.log, s.caches, spare);
    FreshHanded(s, stand);
    FreshHeld(s, spare, stand, master, head, shards);
    FreshEntries(s, spare, stand, master, head, shards);
    FreshProgress(s, spare, stand, master, head, shards);
  }

  lemma FreshHeld(s: State, spare: nat, stand: set<BlockState>, master: nat, head: BlockState, shards: set<BlockState>)
    requires s.calls == map[] && BlocksIn(shards + {head}, s.durable + WholeOf(stand))
    ensures HeldOk(Fresh(s, spare, stand, master, head, shards))
  {
  }

  lemma FreshEntries(s: State, spare: nat, stand: set<BlockState>, master: nat, head: BlockState,
                     shards: set<BlockState>)
    requires EntriesOk(s) && FromOk(s) && PhaseOk(s) && spare !in s.caches && !s.runner.Freezing?
    ensures var r := Fresh(s, spare, stand, master, head, shards);
            EntriesOk(r) && FromOk(r) && PhaseOk(r)
  {
    var r := Fresh(s, spare, stand, master, head, shards);
    SucceededGrow(s.caches, FrozenBy(s.checkpoint), r.caches, FrozenBy(s.checkpoint));
  }

  lemma FreshProgress(s: State, spare: nat, stand: set<BlockState>, master: nat, head: BlockState,
                      shards: set<BlockState>)
    requires ProgressOk(s) && spare !in s.caches && FrozenBy(s.checkpoint) <= s.caches.Keys
    ensures ProgressOk(Fresh(s, spare, stand, master, head, shards))
  {
  }

  lemma NextRunnerKeepsOk(v: Service, spare: nat)
    requires ServiceOk(v) && Possible(v, NextRunner(spare))
    ensures ServiceOk(NextRunnerNext(v, spare))
  {
    FreshKeepsInv(v.s, spare, v.s.shards + {v.s.head}, v.s.lastMaster, v.s.head, v.s.shards);
  }

  lemma RestartKeepsOk(v: Service, spare: nat, master: nat, head: BlockState, shards: set<BlockState>)
    requires ServiceOk(v) && Possible(v, Restart(spare, master, head, shards))
    ensures ServiceOk(RestartNext(v, spare, master, head, shards))
  {
    FreshKeepsInv(v.s, spare, {}, master, head, shards);
  }

  lemma CrashKeepsOk(v: Service, master: nat, head: BlockState, shards: set<BlockState>)
    requires ServiceOk(v) && Possible(v, Crash(master, head, shards))
    ensures ServiceOk(CrashNext(v, master, head, shards))
  {
    InitialInv(v.s.prewriting, v.s.durable);
  }

  /** A crash leaves what is durable and nothing else: neither saved cells nor anything of the runners. */
  lemma CrashLeavesDurable(v: Service, master: nat, head: BlockState, shards: set<BlockState>)
    requires Possible(v, Crash(master, head, shards))
    ensures var s := Moved(v, Crash(master, head, shards)).s;
            && s.durable == s.saved == v.s.durable && s.persisted == v.s.persisted && s.named == v.s.named
            && s.head == head && s.shards == shards && s.lastMaster == master
            && s.states.states == map[] && s.deferred == map[] && s.calls == map[] && s.engine.queue.jobs == []
            && s.runner.Idle? && s.checkpoint.NoCheckpoint? && s.stand == {}
  {
  }

  // The protocol's own steps.

  lemma ForeignCompletes(s: State)
    requires Inv(s) && Enabled(s, CompleteStates)
    ensures Inv(s.(checkpoint := Cleaning(s.checkpoint.ids)))
  {
    assert Reachable(s.(checkpoint := Cleaning(s.checkpoint.ids))) == Reachable(s);
  }

  lemma FailsAndStops(s: State)
    requires Inv(s) && Enabled(s, CheckpointFails) && !s.runner.Freezing?
    ensures var r := Next(Next(s, CheckpointFails), RunnerFails); Inv(r) && r.runner.Dead?
  {
    StepKeepsInv(s, CheckpointFails);
    StepKeepsInv(Next(s, CheckpointFails), RunnerFails);
  }

  lemma InnerKeepsOk(v: Service, step: Step)
    requires ServiceOk(v) && Enabled(v.s, step) && Backed(v.s, step)
    ensures ServiceOk(InnerNext(v, step))
  {
    StepKeepsInv(v.s, step);
    if step.TakeSnapshot? {
      StepKeepsInv(v.s, RunnerFails);
    } else if step.CompleteStates? {
      ForeignCompletes(v.s);
    }
  }

  lemma MoveKeepsOk(v: Service, move: Move)
    requires ServiceOk(v) && BackedMove(v, move)
    ensures ServiceOk(Moved(v, move))
  {
    if Possible(v, move) {
      match move
      case Inner(step) => InnerKeepsOk(v, step);
      case SyncFails => FailsAndStops(v.s);
      case NextRunner(spare) => NextRunnerKeepsOk(v, spare);
      case Restart(spare, master, head, shards) => RestartKeepsOk(v, spare, master, head, shards);
      case Crash(master, head, shards) => CrashKeepsOk(v, master, head, shards);
      case OthersTakeError =>
    }
  }

  ghost predicate BackedAt(prewriting: bool, stored: Cells, moves: seq<Move>, n: nat)
    requires n < |moves|
  {
    BackedMove(History(prewriting, stored, moves[..n]), moves[n])
  }

  lemma {:induction false} HistoryKeepsOk(prewriting: bool, stored: Cells, moves: seq<Move>, n: nat)
    requires n <= |moves| && forall i :: 0 <= i < n ==> BackedAt(prewriting, stored, moves, i)
    ensures ServiceOk(History(prewriting, stored, moves[..n]))
  {
    if n == 0 {
      InitialInv(prewriting, stored);
    } else {
      HistoryKeepsOk(prewriting, stored, moves, n - 1);
      assert BackedAt(prewriting, stored, moves, n - 1) && moves[..n][..n - 1] == moves[..n - 1];
      MoveKeepsOk(History(prewriting, stored, moves[..n - 1]), moves[n - 1]);
    }
  }

  /**
   Over any number of runners, one started while the last checkpoint of the one before is in flight included, and
   over failed checkpoints, restarts and crashes: for each block that durable metadata names, its state and that of
   every predecessor it was built over is durable, and so is its including master.
  */
  lemma AlwaysCrashSafe(prewriting: bool, stored: Cells, moves: seq<Move>, key: Key, applied: Applied,
                        ancestor: BlockState)
    requires forall n :: 0 <= n < |moves| ==> BackedAt(prewriting, stored, moves, n)
    requires (key, applied) in History(prewriting, stored, moves).s.persisted && Ancestor(ancestor, applied.state)
    ensures var s := History(prewriting, stored, moves).s;
            && Whole(applied.state) <= s.durable && Own(ancestor) <= s.durable
            && (IsShardKey(key) ==> Persisted(s.persisted, applied.master))
  {
    HistoryKeepsOk(prewriting, stored, moves, |moves|);
    assert moves[..|moves|] == moves;
    AncestorsAreHeld(ancestor, applied.state);
  }

  /** And so is the current state in the store, from which the next process starts. */
  lemma AlwaysCurrentDurable(prewriting: bool, stored: Cells, moves: seq<Move>, current: BlockState,
                             ancestor: BlockState)
    requires forall n :: 0 <= n < |moves| ==> BackedAt(prewriting, stored, moves, n)
    requires current in History(prewriting, stored, moves).s.named && Ancestor(ancestor, current)
    ensures var s := History(prewriting, stored, moves).s;
            Whole(current) <= s.durable && Own(ancestor) <= s.durable
  {
    HistoryKeepsOk(prewriting, stored, moves, |moves|);
    assert moves[..|moves|] == moves;
    AncestorsAreHeld(ancestor, current);
  }

  /** The condition is exact: after a checkpoint that writes its cells itself, metadata dangles unless it was backed. */
  lemma BackedExactly(s: State, cache: nat)
    requires Inv(s) && Enabled(s, ReadTarget(cache)) && AfterRead(s.checkpoint, s.caches, cache).Writing?
    ensures var r := Next(Next(s, ReadTarget(cache)), Commit);
            Backed(s, ReadTarget(cache)) <==> DurableClosed(r.persisted, r.durable) && BlocksIn(r.named, r.durable)
  {
    var r := Next(Next(s, ReadTarget(cache)), Commit);
    if Backed(s, ReadTarget(cache)) {
      BackedCloses(s, cache);
    }
    if DurableClosed(r.persisted, r.durable) && BlocksIn(r.named, r.durable) {
      ClosedIsBacked(s, cache);
    }
  }

  lemma BackedCloses(s: State, cache: nat)
    requires Inv(s) && Enabled(s, ReadTarget(cache)) && AfterRead(s.checkpoint, s.caches, cache).Writing?
    requires Backed(s, ReadTarget(cache))
    ensures var r := Next(Next(s, ReadTarget(cache)), Commit);
            DurableClosed(r.persisted, r.durable) && BlocksIn(r.named, r.durable)
  {
    ReadTargetKeepsInv(s, cache);
    CommitKeepsInv(Next(s, ReadTarget(cache)));
  }

  lemma ClosedIsBacked(s: State, cache: nat)
    requires FilledOk(s) && Enabled(s, ReadTarget(cache)) && AfterRead(s.checkpoint, s.caches, cache).Writing?
    requires var r := Next(Next(s, ReadTarget(cache)), Commit);
             DurableClosed(r.persisted, r.durable) && BlocksIn(r.named, r.durable)
    ensures Backed(s, ReadTarget(cache))
  {
    var entries := s.checkpoint.entries;
    var r := Next(Next(s, ReadTarget(cache)), Commit);
    forall k | k in entries
      ensures Whole(entries[k].state.state) <= r.durable
    {
      assert (k, entries[k].state) in Named(entries);
    }
  }

  // When the error is taken.

  /** What the runner was handed is saved or durable. */
  ghost predicate Grounded(s: State) {
    BlocksIn(s.stand, s.saved + s.durable)
  }

  /** The runner was handed what the checkpoint in flight, of the runner before it, is to name. */
  ghost predicate Leans(v: Service) {
    v.foreign && v.s.stand == v.s.offered
  }

  /** A runner handed what is neither, nor about to be, finds the error, or has. */
  ghost predicate Warned(v: Service) {
    Grounded(v.s) || Leans(v) || v.err || v.s.runner.Dead?
  }

  /**
   A runner that returns leaves the current state it was handed, or the one in its own checkpoint in flight, or a
   durable one.
  */
  ghost predicate RestOk(v: Service) {
    var current := v.s.shards + {v.s.head};
    v.s.runner.Idle? && v.s.staged == 0 && !v.lost ==>
      || current == v.s.stand
      || (!v.foreign && !v.s.checkpoint.NoCheckpoint? && current == v.s.offered)
      || BlocksIn(current, v.s.durable)
  }

  ghost predicate Heeded(v: Service) {
    Warned(v) && RestOk(v) && (v.s.runner.Freezing? ==> Grounded(v.s) && !v.lost)
  }

  /**
   Others leave the error to a runner that was handed what is neither saved nor durable, and no runner follows one
   whose last checkpoint failed, unless the error is still there or what it is handed is saved or durable.
  */
  ghost predicate Guarded(v: Service, move: Move) {
    && (move.OthersTakeError? ==> v.s.runner.Dead? || Grounded(v.s) || Leans(v))
    && (move.NextRunner? && v.lost ==> v.err || BlocksIn(v.s.shards + {v.s.head}, v.s.saved + v.s.durable))
  }

  /** A checkpoint of a runner handed saved or durable cells is backed. */
  lemma GroundedIsBacked(v: Service, move: Move)
    requires ServiceOk(v) && Heeded(v)
    ensures BackedMove(v, move)
  {
    if move.Inner? && move.step.ReadTarget? && Enabled(v.s, move.step) {
      SucceededStaged(v.s, v.s.checkpoint.ids);
    }
  }

  lemma NextRunnerHeeds(v: Service, spare: nat)
    requires ServiceOk(v) && Heeded(v) && Possible(v, NextRunner(spare)) && Guarded(v, NextRunner(spare))
    ensures Heeded(NextRunnerNext(v, spare))
  {
  }

  /** Steps that leave the runner, its current state and the checkpoint's claim on it alone. */
  predicate Aside(step: Step) {
    step.LoadState? || step.BeginStage? || step.EnqueueCall? || step.FinishCall? || step.Writer? || step.WaitReached?
        || step.FlushCells? || step.Commit?
  }

  /** Nothing that `Heeded` speaks of changes for the worse. */
  ghost predicate Stands(s: State, r: State) {
    && r.stand == s.stand && r.offered == s.offered && r.shards == s.shards && r.head == s.head && r.staged == s.staged
    && s.saved <= r.saved && s.durable <= r.durable && (r.checkpoint.NoCheckpoint? <==> s.checkpoint.NoCheckpoint?)
    && (r.runner.Idle? ==> s.runner.Idle?) && (r.runner.Freezing? ==> s.runner.Freezing?)
    && (s.runner.Dead? ==> r.runner.Dead?)
  }

  lemma AsideStands(s: State, step: Step)
    requires Enabled(s, step) && Aside(step)
    ensures Stands(s, Next(s, step))
  {
  }

  lemma StandsHeeds(v: Service, r: State)
    requires Heeded(v) && Stands(v.s, r)
    ensures Heeded(v.(s := r))
  {
  }

  lemma AsideHeeds(v: Service, step: Step)
    requires Heeded(v) && Enabled(v.s, step) && Aside(step)
    ensures Heeded(v.(s := Next(v.s, step)))
  {
    AsideStands(v.s, step);
    StandsHeeds(v, Next(v.s, step));
  }

  lemma CommitStageHeeds(v: Service, step: Step)
    requires ServiceOk(v) && Heeded(v) && Enabled(v.s, step) && IsCommitStage(step)
    ensures Heeded(InnerNext(v, step))
  {
  }

  /** The runner goes on with its current state in the checkpoint. */
  lemma FreezeHeeds(v: Service, step: Step)
    requires ServiceOk(v) && Heeded(v) && Enabled(v.s, step) && (step.Freeze? || step.ReadTarget?)
    ensures Heeded(InnerNext(v, step))
  {
  }

  lemma EndHeeds(v: Service, step: Step)
    requires ServiceOk(v) && Heeded(v) && Enabled(v.s, step)
    requires step.CompleteStates? || step.CompleteCells? || step.CheckpointFails?
    ensures Heeded(InnerNext(v, step))
  {
  }

  lemma InnerHeeds(v: Service, step: Step)
    requires ServiceOk(v) && Heeded(v) && Enabled(v.s, step)
    ensures Heeded(InnerNext(v, step))
  {
    if Aside(step) {
      AsideHeeds(v, step);
    } else if IsCommitStage(step) {
      CommitStageHeeds(v, step);
    } else if step.Freeze? || step.ReadTarget? {
      FreezeHeeds(v, step);
    } else {
      EndHeeds(v, step);
    }
  }

  lemma MoveHeeds(v: Service, move: Move)
    requires ServiceOk(v) && Heeded(v) && Guarded(v, move)
    ensures Heeded(Moved(v, move))
  {
    if Possible(v, move) {
      match move
      case Inner(step) => InnerHeeds(v, step);
      case SyncFails =>
      case NextRunner(spare) => NextRunnerHeeds(v, spare);
      case Restart(_, _, _, _) =>
      case Crash(_, _, _) =>
      case OthersTakeError =>
    }
  }

  ghost predicate GuardedAt(prewriting: bool, stored: Cells, moves: seq<Move>, n: nat)
    requires n < |moves|
  {
    Guarded(History(prewriting, stored, moves[..n]), moves[n])
  }

  lemma {:induction false} HistoryHeeds(prewriting: bool, stored: Cells, moves: seq<Move>, n: nat)
    requires n <= |moves| && forall i :: 0 <= i < n ==> GuardedAt(prewriting, stored, moves, i)
    ensures var v := History(prewriting, stored, moves[..n]); ServiceOk(v) && Heeded(v)
  {
    if n == 0 {
      InitialInv(prewriting, stored);
    } else {
      HistoryHeeds(prewriting, stored, moves, n - 1);
      assert GuardedAt(prewriting, stored, moves, n - 1) && moves[..n][..n - 1] == moves[..n - 1];
      var (v, move) := (History(prewriting, stored, moves[..n - 1]), moves[n - 1]);
      GroundedIsBacked(v, move);
      MoveKeepsOk(v, move);
      MoveHeeds(v, move);
    }
  }

  /**
   Taking the error is harmless from a runner that was handed what is saved or durable, and so is taking that of
   its own failed checkpoint: in every guarded run every checkpoint is backed.
  */
  lemma GuardedIsBacked(prewriting: bool, stored: Cells, moves: seq<Move>, n: nat)
    requires n < |moves| && forall i :: 0 <= i < n ==> GuardedAt(prewriting, stored, moves, i)
    ensures BackedAt(prewriting, stored, moves, n)
  {
    HistoryHeeds(prewriting, stored, moves, n);
    GroundedIsBacked(History(prewriting, stored, moves[..n]), moves[n]);
  }

  /** In every guarded run, durable metadata and the current state in the store have all their cells durable. */
  lemma GuardedRunsAreSafe(prewriting: bool, stored: Cells, moves: seq<Move>)
    requires forall i :: 0 <= i < |moves| ==> GuardedAt(prewriting, stored, moves, i)
    ensures var s := History(prewriting, stored, moves).s;
            DurableClosed(s.persisted, s.durable) && BlocksIn(s.named, s.durable)
  {
    HistoryHeeds(prewriting, stored, moves, |moves|);
    assert moves[..|moves|] == moves;
  }
}
