/**
 When the persist error goes to somebody else: the serializer and the generation migration also wait for a
 checkpoint and take its error (service/state_serializer.go:155-158, service/state_serializer_auto.go:49-51,
 service/cell_generation_migration.go:22-26, service/catchup_master.go:517-533).

 A runner that goes on without the error can commit a master and begin a checkpoint while a shard's staging call
 is under way.  That checkpoint finds its cache uncovered and writes the cells itself, and the write makes durable
 those and the saved ones (service/state_checkpoint.go:29-31, service/storage/pebblestore/current_state.go:386-401).
 Main results: from any state of such a runner, metadata then dangles exactly when its current state had cells
 neither in its window nor saved; and a run from nothing that comes to such a state once the error is taken.
*/
module UnguardedRunners {
  import AppliedStates
  import opened Durability
  import PrewriteQueue
  import opened Runners
  import opened StagingSteps

  /** A whole block with its proof, as the store wants of every entry. */
  const ARTIFACT: AppliedStates.Artifact := AppliedStates.Artifact([0], [0])

  function Replay(v: Service, moves: seq<Move>): (r: Service) {
    if moves == [] then v else Moved(Replay(v, moves[..|moves| - 1]), moves[|moves| - 1])
  }

  lemma ReplayNext(v: Service, moves: seq<Move>, move: Move)
    ensures Replay(v, moves + [move]) == Moved(Replay(v, moves), move)
  {
    assert (moves + [move])[..|moves|] == moves;
  }

  lemma {:induction false} HistoryReplays(prewriting: bool, stored: Cells, before: seq<Move>, after: seq<Move>)
    ensures History(prewriting, stored, before + after) == Replay(History(prewriting, stored, before), after)
    decreases |after|
  {
    if after == [] {
      assert before + after == before;
    } else {
      assert (before + after)[..|before + after| - 1] == before + after[..|after| - 1];
      HistoryReplays(prewriting, stored, before, after[..|after| - 1]);
    }
  }

  // A runner commits one master, with the given cells, and begins a checkpoint the uncovered way.

  /** The state of the master committed over the head. */
  function MasterOver(head: BlockState, cells: Cells): (b: BlockState) {
    Extended(cells, head)
  }

  /** A shard block's state, with the same cells. */
  function ShardWith(cells: Cells): (b: BlockState) {
    Extended(cells, Loaded({}))
  }

  /** The master's staging call and the shard's bear the number `id`; `spare` becomes the active cache. */
  datatype Plan = Plan(master: nat, cells: Cells, id: nat, spare: nat)

  function Calling(head: BlockState, shards: set<BlockState>, p: Plan): (moves: seq<Move>) {
    []
    + [Inner(CommitMaster(p.master, shards))]
    + [Inner(BeginStage(p.id, MasterOver(head, p.cells), ForMaster(p.master)))]
  }

  function Committing(head: BlockState, shards: set<BlockState>, p: Plan): (moves: seq<Move>) {
    Calling(head, shards, p)
    + [Inner(EnqueueCall(p.id))]
    + [Inner(FinishCall(p.id, true))]
    + [Inner(RememberMaster(ARTIFACT))]
  }

  function Staging(head: BlockState, shards: set<BlockState>, p: Plan): (moves: seq<Move>) {
    Committing(head, shards, p)
    + [Inner(LoadState(Loaded({})))]
    + [Inner(BeginStage(p.id, ShardWith(p.cells), ForShard(1, p.master + 1)))]
  }

  function Checkpointing(head: BlockState, shards: set<BlockState>, active: nat, p: Plan): (moves: seq<Move>) {
    Staging(head, shards, p)
    + [Inner(TakeSnapshot)]
    + [Inner(Freeze(p.spare))]
    + [Inner(ReadTarget(active))]
  }

  /** What the window holds. */
  function Window(s: State): (cells: Cells) {
    StagedIn(s.caches, s.frozen + {s.active})
  }

  /** A runner at rest that no error waits for, with the prewriter in order. */
  ghost predicate Ready(v: Service, p: Plan) {
    && v.s.prewriting && !v.err && v.s.runner.Idle? && v.s.checkpoint.NoCheckpoint? && v.s.active in v.s.caches
    && PrewriteQueue.Accepting(v.s.engine.queue) && p.cells != {} && p.id !in v.s.calls && p.spare !in v.s.caches
    && p.master > v.s.lastMaster && p.master !in v.s.deferred && v.s.shards <= v.s.resolved
  }

  /** What the moves up to the freeze leave alone. */
  ghost predicate Along(v: Service, r: Service, calls: map<nat, Call>, window: Cells) {
    && r.s.prewriting && !r.err && r.s.checkpoint.NoCheckpoint? && r.s.saved == v.s.saved && r.s.durable == v.s.durable
    && r.s.active == v.s.active && r.s.frozen == v.s.frozen && r.s.caches.Keys == v.s.caches.Keys
    && PrewriteQueue.Accepting(r.s.engine.queue) && r.s.calls == calls && Window(r.s) == window
    && r.s.shards == v.s.shards
  }

  lemma WindowGrows(s: State, r: State, cells: Cells)
    requires s.active in s.caches && r.active == s.active && r.frozen == s.frozen
    requires exists c: Cache :: r.caches == s.caches[s.active := c] && c.staged == s.caches[s.active].staged + cells
    ensures Window(r) == Window(s) + cells
  {
    assert r.caches[r.active].staged == s.caches[s.active].staged + cells;
    forall x | x in Window(s) + cells
      ensures x in Window(r)
    {
      if x in cells {
        assert s.active in r.frozen + {r.active} && x in r.caches[s.active].staged;
      } else {
        var id :| id in s.frozen + {s.active} && id in s.caches && x in s.caches[id].staged;
        assert id in r.frozen + {r.active} && x in r.caches[id].staged;
      }
    }
    forall x | x in Window(r)
      ensures x in Window(s) + cells
    {
      var id :| id in r.frozen + {r.active} && id in r.caches && x in r.caches[id].staged;
      assert id in s.frozen + {s.active} && id in s.caches;
    }
  }

  function MasterCall(v: Service, p: Plan, answer: Answer): (call: Call) {
    Call(v.s.active, p.cells, MasterOver(v.s.head, p.cells), ForMaster(p.master), answer)
  }

  function ShardCall(v: Service, p: Plan): (call: Call) {
    Call(v.s.active, p.cells, ShardWith(p.cells), ForShard(1, p.master + 1), Owed)
  }

  /** Up to remembering: where the commit stage is. */
  ghost predicate At(v: Service, p: Plan, r: Service, calls: map<nat, Call>, window: Cells, runner: Runner) {
    && Ready(v, p) && Along(v, r, calls, window) && r.s.runner == runner && r.s.head == v.s.head
    && r.s.lastMaster == p.master
  }

  lemma Opens(v: Service, p: Plan)
    requires Ready(v, p)
    ensures At(v, p, Moved(v, Inner(CommitMaster(p.master, v.s.shards))), v.s.calls, Window(v.s),
               StagingShards(p.master, []))
  {
  }

  lemma Stages(v: Service, p: Plan, r: Service)
    requires At(v, p, r, v.s.calls, Window(v.s), StagingShards(p.master, []))
    ensures At(v, p, Moved(r, Inner(BeginStage(p.id, MasterOver(v.s.head, p.cells), ForMaster(p.master)))),
               v.s.calls[p.id := MasterCall(v, p, Owed)], Window(v.s) + p.cells, StagingMaster(p.master))
  {
    var step := BeginStage(p.id, MasterOver(v.s.head, p.cells), ForMaster(p.master));
    WindowGrows(r.s, Next(r.s, step), p.cells);
  }

  lemma Enqueues(v: Service, p: Plan, r: Service)
    requires At(v, p, r, v.s.calls[p.id := MasterCall(v, p, Owed)], Window(v.s) + p.cells, StagingMaster(p.master))
    ensures At(v, p, Moved(r, Inner(EnqueueCall(p.id))),
               v.s.calls[p.id := MasterCall(v, p, Queued(r.s.engine.queue.next + 1))], Window(v.s) + p.cells,
               StagingMaster(p.master))
  {
  }

  lemma Finishes(v: Service, p: Plan, r: Service, token: nat)
    requires At(v, p, r, v.s.calls[p.id := MasterCall(v, p, Queued(token))], Window(v.s) + p.cells,
                StagingMaster(p.master))
    ensures At(v, p, Moved(r, Inner(FinishCall(p.id, true))), v.s.calls, Window(v.s) + p.cells,
               Remembering(p.master, MasterOver(v.s.head, p.cells)))
  {
    assert v.s.calls[p.id := MasterCall(v, p, Queued(token))] - {p.id} == v.s.calls;
    WindowGrows(r.s, Next(r.s, FinishCall(p.id, true)), {});
  }

  ghost predicate Names(entries: Snapshot, v: Service, p: Plan) {
    && MasterKey(p.master) in entries
    && entries[MasterKey(p.master)].state == Applied(p.master, MasterOver(v.s.head, p.cells))
  }

  /** The master is committed, its cells are in the window, and its state is the head. */
  ghost predicate Committed(v: Service, p: Plan, r: Service, calls: map<nat, Call>) {
    && Ready(v, p) && Along(v, r, calls, Window(v.s) + p.cells) && r.s.runner.Idle? && r.s.staged > 0
    && r.s.head == MasterOver(v.s.head, p.cells) && r.s.lastMaster == p.master && Names(r.s.states.states, v, p)
  }

  lemma Remembers(v: Service, p: Plan, r: Service)
    requires At(v, p, r, v.s.calls, Window(v.s) + p.cells, Remembering(p.master, MasterOver(v.s.head, p.cells)))
    ensures Committed(v, p, Moved(r, Inner(RememberMaster(ARTIFACT))), v.s.calls)
  {
  }

  lemma Calls(v: Service, p: Plan)
    requires Ready(v, p)
    ensures At(v, p, Replay(v, Calling(v.s.head, v.s.shards, p)), v.s.calls[p.id := MasterCall(v, p, Owed)],
               Window(v.s) + p.cells, StagingMaster(p.master))
  {
    var m1 := [] + [Inner(CommitMaster(p.master, v.s.shards))];
    ReplayNext(v, [], Inner(CommitMaster(p.master, v.s.shards)));
    Opens(v, p);
    ReplayNext(v, m1, Inner(BeginStage(p.id, MasterOver(v.s.head, p.cells), ForMaster(p.master))));
    Stages(v, p, Replay(v, m1));
  }

  lemma Commits(v: Service, p: Plan)
    requires Ready(v, p)
    ensures Committed(v, p, Replay(v, Committing(v.s.head, v.s.shards, p)), v.s.calls)
  {
    var m0 := Calling(v.s.head, v.s.shards, p);
    var m1 := m0 + [Inner(EnqueueCall(p.id))];
    var m2 := m1 + [Inner(FinishCall(p.id, true))];
    Calls(v, p);
    ReplayNext(v, m0, Inner(EnqueueCall(p.id)));
    Enqueues(v, p, Replay(v, m0));
    ReplayNext(v, m1, Inner(FinishCall(p.id, true)));
    Finishes(v, p, Replay(v, m1), Replay(v, m0).s.engine.queue.next + 1);
    ReplayNext(v, m2, Inner(RememberMaster(ARTIFACT)));
    Remembers(v, p, Replay(v, m2));
  }

  // The checkpoint.

  lemma Loads(v: Service, p: Plan, r: Service)
    requires Committed(v, p, r, v.s.calls)
    ensures Committed(v, p, Moved(r, Inner(LoadState(Loaded({})))), v.s.calls)
    ensures Loaded({}) in Moved(r, Inner(LoadState(Loaded({})))).s.resolved
  {
  }

  /** A shard's staging call is under way. */
  ghost predicate Owing(v: Service, p: Plan, r: Service) {
    && Committed(v, p, r, v.s.calls[p.id := ShardCall(v, p)])
    && r.s.caches[v.s.active].pending > 0 && r.s.caches[v.s.active].staged != {}
  }

  lemma StagesShard(v: Service, p: Plan, r: Service)
    requires Committed(v, p, r, v.s.calls) && Loaded({}) in r.s.resolved
    ensures Owing(v, p, Moved(r, Inner(BeginStage(p.id, ShardWith(p.cells), ForShard(1, p.master + 1)))))
  {
    ShardStaged(r.s, p);
    assert Window(v.s) + p.cells + p.cells == Window(v.s) + p.cells;
  }

  lemma ShardStaged(s: State, p: Plan)
    requires Enabled(s, BeginStage(p.id, ShardWith(p.cells), ForShard(1, p.master + 1))) && s.prewriting
    ensures var r := Next(s, BeginStage(p.id, ShardWith(p.cells), ForShard(1, p.master + 1)));
            && Window(r) == Window(s) + p.cells && r.caches.Keys == s.caches.Keys
            && r.caches[s.active].pending > 0 && r.caches[s.active].staged >= p.cells
            && r.calls == s.calls[p.id := Call(s.active, p.cells, ShardWith(p.cells), ForShard(1, p.master + 1), Owed)]
  {
    WindowGrows(s, Next(s, BeginStage(p.id, ShardWith(p.cells), ForShard(1, p.master + 1))), p.cells);
  }

  /** From the snapshot on. */
  ghost predicate Frozen(v: Service, p: Plan, r: Service) {
    && r.s.prewriting && !r.err && r.s.saved == v.s.saved && r.s.durable == v.s.durable
    && PrewriteQueue.Accepting(r.s.engine.queue) && r.s.calls == v.s.calls[p.id := ShardCall(v, p)]
    && r.s.head == MasterOver(v.s.head, p.cells) && r.s.lastMaster == p.master && r.s.shards == v.s.shards
    && r.s.offered == v.s.shards + {MasterOver(v.s.head, p.cells)}
    && HasEntries(r.s.checkpoint) && Names(r.s.checkpoint.entries, v, p) && v.s.active in r.s.caches
  }

  ghost predicate Snapped(v: Service, p: Plan, r: Service) {
    && Frozen(v, p, r) && r.s.checkpoint.Snapshotted? && r.s.runner.Freezing? && r.s.active == v.s.active
    && r.s.frozen == v.s.frozen && r.s.caches.Keys == v.s.caches.Keys && p.spare !in v.s.caches
    && Window(r.s) == Window(v.s) + p.cells
    && r.s.caches[v.s.active].pending > 0 && r.s.caches[v.s.active].staged != {}
  }

  ghost predicate Reads(v: Service, p: Plan, r: Service) {
    && Frozen(v, p, r) && r.s.checkpoint.Reading? && r.s.staged == 0 && v.s.active in r.s.checkpoint.todo
    && r.s.caches.Keys == v.s.caches.Keys + {p.spare}
    && StagedIn(r.s.caches, r.s.checkpoint.ids) == Window(v.s) + p.cells
    && r.s.caches[v.s.active].pending > 0 && r.s.caches[v.s.active].staged != {}
  }

  /** The checkpoint is to write what the window held, with the master's cells. */
  ghost predicate Writes(v: Service, p: Plan, r: Service) {
    && Frozen(v, p, r) && r.s.checkpoint.Writing? && r.s.runner.Idle? && r.s.staged == 0
    && r.s.caches.Keys == v.s.caches.Keys + {p.spare} && r.s.checkpoint.cells == Window(v.s) + p.cells
  }

  lemma Snaps(v: Service, p: Plan, r: Service)
    requires Owing(v, p, r)
    ensures Snapped(v, p, Moved(r, Inner(TakeSnapshot)))
  {
  }

  lemma Freezes(v: Service, p: Plan, r: Service)
    requires Snapped(v, p, r)
    ensures Reads(v, p, Moved(r, Inner(Freeze(p.spare))))
  {
    var after := Moved(r, Inner(Freeze(p.spare))).s;
    assert after.checkpoint.ids == r.s.frozen + {r.s.active};
    SpareIsEmpty(r.s.caches, p.spare, after.checkpoint.ids);
  }

  lemma SpareIsEmpty(caches: map<nat, Cache>, spare: nat, ids: set<nat>)
    requires spare !in caches
    ensures StagedIn(caches[spare := Cache({}, {}, 0, 0)], ids) == StagedIn(caches, ids)
  {
    StagedGrow(caches, caches[spare := Cache({}, {}, 0, 0)], ids);
    forall x | x in StagedIn(caches[spare := Cache({}, {}, 0, 0)], ids)
      ensures x in StagedIn(caches, ids)
    {
    }
  }

  lemma Targets(v: Service, p: Plan, r: Service)
    requires Reads(v, p, r)
    ensures Writes(v, p, Moved(r, Inner(ReadTarget(v.s.active))))
  {
  }

  lemma Owes(v: Service, p: Plan)
    requires Ready(v, p)
    ensures Owing(v, p, Replay(v, Staging(v.s.head, v.s.shards, p)))
  {
    var m0 := Committing(v.s.head, v.s.shards, p);
    var m1 := m0 + [Inner(LoadState(Loaded({})))];
    Commits(v, p);
    ReplayNext(v, m0, Inner(LoadState(Loaded({}))));
    Loads(v, p, Replay(v, m0));
    ReplayNext(v, m1, Inner(BeginStage(p.id, ShardWith(p.cells), ForShard(1, p.master + 1))));
    StagesShard(v, p, Replay(v, m1));
  }

  lemma Checkpoints(v: Service, p: Plan)
    requires Ready(v, p)
    ensures Writes(v, p, Replay(v, Checkpointing(v.s.head, v.s.shards, v.s.active, p)))
  {
    var m0 := Staging(v.s.head, v.s.shards, p);
    var m1 := m0 + [Inner(TakeSnapshot)];
    var m2 := m1 + [Inner(Freeze(p.spare))];
    Owes(v, p);
    ReplayNext(v, m0, Inner(TakeSnapshot));
    Snaps(v, p, Replay(v, m0));
    ReplayNext(v, m1, Inner(Freeze(p.spare)));
    Freezes(v, p, Replay(v, m1));
    ReplayNext(v, m2, Inner(ReadTarget(v.s.active)));
    Targets(v, p, Replay(v, m2));
  }

  lemma Persists(v: Service, p: Plan, r: Service)
    requires Writes(v, p, r) && p.cells != {}
    ensures var s := Moved(r, Inner(Commit)).s;
            && (MasterKey(p.master), Applied(p.master, MasterOver(v.s.head, p.cells))) in s.persisted
            && s.named == v.s.shards + {MasterOver(v.s.head, p.cells)}
            && s.durable == v.s.saved + v.s.durable + Window(v.s) + p.cells
  {
    assert (MasterKey(p.master), Applied(p.master, MasterOver(v.s.head, p.cells))) in Named(r.s.checkpoint.entries);
  }

  lemma OverExactly(shards: set<BlockState>, head: BlockState, cells: Cells, durable: Cells)
    requires cells <= durable
    ensures BlocksIn(shards + {MasterOver(head, cells)}, durable) <==> BlocksIn(shards + {head}, durable)
  {
    assert Whole(MasterOver(head, cells)) == cells + Whole(head);
    assert MasterOver(head, cells) in shards + {MasterOver(head, cells)} && head in shards + {head};
  }

  /**
   From any state of a runner at rest that no error waits for: the current state its checkpoint names, over the
   master and shards it stood on, is durable exactly when what it stood on was saved, durable or in the write.
  */
  lemma DanglesExactly(v: Service, p: Plan)
    requires Ready(v, p)
    ensures var s := Replay(v, Checkpointing(v.s.head, v.s.shards, v.s.active, p) + [Inner(Commit)]).s;
            && (MasterKey(p.master), Applied(p.master, MasterOver(v.s.head, p.cells))) in s.persisted
            && s.named == v.s.shards + {MasterOver(v.s.head, p.cells)}
            && s.durable == v.s.saved + v.s.durable + Window(v.s) + p.cells
            && (BlocksIn(s.named, s.durable) <==> BlocksIn(v.s.shards + {v.s.head}, s.durable))
  {
    ReplayNext(v, Checkpointing(v.s.head, v.s.shards, v.s.active, p), Inner(Commit));
    Checkpoints(v, p);
    Persists(v, p, Replay(v, Checkpointing(v.s.head, v.s.shards, v.s.active, p)));
    OverExactly(v.s.shards, v.s.head, p.cells, v.s.saved + v.s.durable + Window(v.s) + p.cells);
  }

  /** A runner just handed its current state, without an error, the prewriter in order. */
  ghost predicate JustHanded(v: Service) {
    && v.s.stand == v.s.shards + {v.s.head} && v.s.shards <= v.s.resolved && v.s.deferred == map[]
    && v.s.calls == map[] && v.s.active in v.s.caches && Window(v.s) == {}
    && v.s.prewriting && !v.err && v.s.runner.Idle? && v.s.checkpoint.NoCheckpoint?
    && PrewriteQueue.Accepting(v.s.engine.queue)
  }

  /** However it commits a master and begins a checkpoint in this way, the current state it names is durable. */
  ghost predicate Harmless(v: Service) {
    forall p :: Ready(v, p) ==> NamesDurable(v, p)
  }

  ghost predicate NamesDurable(v: Service, p: Plan) {
    var s := Replay(v, Checkpointing(v.s.head, v.s.shards, v.s.active, p) + [Inner(Commit)]).s;
    BlocksIn(s.named, s.durable)
  }

  lemma {:induction false} Above(ids: set<nat>) returns (n: nat)
    ensures n !in ids && forall i :: i in ids ==> i < n
  {
    if ids == {} {
      n := 0;
    } else {
      var i :| i in ids;
      n := Above(ids - {i});
      n := if i < n then n else i + 1;
      forall j | j in ids
        ensures j < n
      {
        assert j == i || j in ids - {i};
      }
    }
  }

  /** Going without the error is harmless to a new runner exactly when what it was handed is saved or durable. */
  lemma HarmlessExactly(v: Service)
    requires JustHanded(v)
    ensures Harmless(v) <==> Grounded(v.s)
  {
    if Grounded(v.s) {
      forall p | Ready(v, p)
        ensures NamesDurable(v, p)
      {
        DanglesExactly(v, p);
      }
    } else {
      Harms(v);
    }
  }

  lemma Harms(v: Service)
    requires JustHanded(v) && !Grounded(v.s)
    ensures !Harmless(v)
  {
    var b :| b in v.s.stand && !(Whole(b) <= v.s.saved + v.s.durable);
    var x :| x in Whole(b) && x !in v.s.saved + v.s.durable;
    var other := x.(data := x.data + [0]);
    var spare := Above(v.s.caches.Keys);
    var p := Plan(v.s.lastMaster + 1, {other}, 0, spare);
    assert other != x by {
      assert |other.data| != |x.data|;
    }
    DanglesExactly(v, p);
    assert x !in v.s.saved + v.s.durable + Window(v.s) + p.cells;
    assert Ready(v, p) && !NamesDurable(v, p);
  }

  // A run that gets there: the first runner's checkpoint fails in its write, and somebody else takes the error.

  /** The shard's call returns, the next runner starts, the write fails, and the error is taken. */
  function Unwarned(id: nat, spare: nat): (moves: seq<Move>) {
    [] + [Inner(EnqueueCall(id))] + [Inner(FinishCall(id, true))] + [NextRunner(spare)] + [Inner(CheckpointFails)]
    + [OthersTakeError]
  }

  ghost predicate Ends(v: Service, p: Plan, r: Service, calls: map<nat, Call>) {
    && r.s.prewriting && !r.err && r.s.saved == v.s.saved && r.s.durable == v.s.durable
    && PrewriteQueue.Accepting(r.s.engine.queue) && r.s.calls == calls && r.s.checkpoint.Writing? && r.s.runner.Idle?
    && r.s.staged == 0 && r.s.caches.Keys == v.s.caches.Keys + {p.spare} && v.s.active in r.s.caches
    && r.s.head == MasterOver(v.s.head, p.cells) && r.s.lastMaster == p.master && r.s.shards == v.s.shards
  }

  lemma Answers(v: Service, p: Plan, r: Service)
    requires Writes(v, p, r)
    ensures Ends(v, p, Moved(r, Inner(EnqueueCall(p.id))),
                 v.s.calls[p.id := ShardCall(v, p).(answer := Queued(r.s.engine.queue.next + 1))])
  {
  }

  lemma Returns(v: Service, p: Plan, r: Service, token: nat)
    requires Ends(v, p, r, v.s.calls[p.id := ShardCall(v, p).(answer := Queued(token))]) && p.id !in v.s.calls
    ensures Ends(v, p, Moved(r, Inner(FinishCall(p.id, true))), v.s.calls)
  {
    assert v.s.calls[p.id := ShardCall(v, p).(answer := Queued(token))] - {p.id} == v.s.calls;
  }

  /** The next runner, handed the first one's head. */
  ghost predicate Follows(v: Service, p: Plan, r: Service, spare: nat) {
    && r.s.prewriting && r.s.saved == v.s.saved && r.s.durable == v.s.durable && r.s.runner.Idle?
    && PrewriteQueue.Accepting(r.s.engine.queue) && r.s.calls == map[] && r.s.deferred == map[]
    && r.s.frozen == {} && r.s.active == spare && r.s.caches.Keys == v.s.caches.Keys + {p.spare, spare}
    && r.s.caches[spare] == Cache({}, {}, 0, 0)
    && r.s.head == MasterOver(v.s.head, p.cells) && r.s.lastMaster == p.master
    && r.s.shards == v.s.shards == r.s.resolved && r.s.stand == r.s.shards + {r.s.head}
  }

  lemma HandsOver(v: Service, p: Plan, r: Service, spare: nat)
    requires Ends(v, p, r, map[]) && spare !in r.s.caches
    ensures var after := Moved(r, NextRunner(spare));
            Follows(v, p, after, spare) && after.s.checkpoint.Writing?
  {
  }

  lemma LosesError(v: Service, p: Plan, r: Service, spare: nat)
    requires Follows(v, p, r, spare) && r.s.checkpoint.Writing?
    ensures var after := Moved(Moved(r, Inner(CheckpointFails)), OthersTakeError);
            Follows(v, p, after, spare) && after.s.checkpoint.NoCheckpoint? && !after.err
  {
  }

  lemma GoesUnwarned(v: Service, p: Plan, r: Service, spare: nat)
    requires Writes(v, p, r) && v.s.calls == map[] && spare !in r.s.caches
    ensures var after := Replay(r, Unwarned(p.id, spare));
            Follows(v, p, after, spare) && after.s.checkpoint.NoCheckpoint? && !after.err
  {
    var m1 := [] + [Inner(EnqueueCall(p.id))];
    var m2 := m1 + [Inner(FinishCall(p.id, true))];
    var m3 := m2 + [NextRunner(spare)];
    var m4 := m3 + [Inner(CheckpointFails)];
    ReplayNext(r, [], Inner(EnqueueCall(p.id)));
    Answers(v, p, r);
    ReplayNext(r, m1, Inner(FinishCall(p.id, true)));
    Returns(v, p, Replay(r, m1), r.s.engine.queue.next + 1);
    ReplayNext(r, m2, NextRunner(spare));
    HandsOver(v, p, Replay(r, m2), spare);
    ReplayNext(r, m3, Inner(CheckpointFails));
    ReplayNext(r, m4, OthersTakeError);
    LosesError(v, p, Replay(r, m3), spare);
  }

  /** The first runner's master, over an empty store, and the second one's over that. */
  function FirstState(first: Cells): (b: BlockState) {
    MasterOver(Loaded({}), first)
  }

  function SecondState(first: Cells, second: Cells): (b: BlockState) {
    MasterOver(FirstState(first), second)
  }

  function FirstMoves(first: Cells): (moves: seq<Move>) {
    Checkpointing(Loaded({}), {}, 0, Plan(1, first, 0, 1)) + Unwarned(0, 2)
  }

  function SecondMoves(first: Cells, second: Cells): (moves: seq<Move>) {
    Checkpointing(FirstState(first), {}, 2, Plan(2, second, 0, 3)) + [Inner(Commit)]
  }

  lemma FirstFails(first: Cells, second: Cells)
    requires first != {} && second != {}
    ensures var r := History(true, {}, FirstMoves(first));
            && JustHanded(r) && Ready(r, Plan(2, second, 0, 3)) && r.s.head == FirstState(first) && r.s.active == 2
            && r.s.saved == r.s.durable == Window(r.s) == {} && r.s.shards == {}
  {
    var (v, p) := (Start(true, {}), Plan(1, first, 0, 1));
    var moves := Checkpointing(Loaded({}), {}, 0, p);
    HistoryReplays(true, {}, [], moves);
    assert [] + moves == moves;
    HistoryReplays(true, {}, moves, Unwarned(0, 2));
    Checkpoints(v, p);
    GoesUnwarned(v, p, Replay(v, moves), 2);
  }

  /**
   For any cells of two masters: a run after which durable metadata names the second, whose state is not durable
   if the first has a cell that the second has not.
  */
  lemma TakenErrorDangles(first: Cells, second: Cells)
    requires first != {} && second != {}
    ensures var s := History(true, {}, FirstMoves(first) + SecondMoves(first, second)).s;
            && (MasterKey(2), Applied(2, SecondState(first, second))) in s.persisted
            && SecondState(first, second) in s.named
            && (Whole(SecondState(first, second)) <= s.durable <==> first <= second)
  {
    var (v, p) := (History(true, {}, FirstMoves(first)), Plan(2, second, 0, 3));
    FirstFails(first, second);
    HistoryReplays(true, {}, FirstMoves(first), SecondMoves(first, second));
    DanglesExactly(v, p);
    assert Whole(FirstState(first)) == first + Whole(Loaded({})) == first;
  }
}
