/** Staging calls, the prewriter and the commit stage keep the invariant of the durability protocol. */
module StagingSteps {
  import opened Durability
  import AppliedStates
  import PrewriteEngine

  lemma InitialInv(prewriting: bool, stored: Cells)
    ensures Inv(Initial(prewriting, stored))
  {
    PrewriteEngine.InitialInv<Cells>();
    assert On(map[], 0) == {};
  }

  // Job records.

  lemma {:induction false} LoggedAppend(a: Log, b: Log)
    ensures Logged(a + b) == Logged(a) + Logged(b)
    decreases |b|
  {
    if b == [] {
      assert a + b == a;
    } else {
      assert (a + b)[..|a + b| - 1] == a + b[..|b| - 1];
      LoggedAppend(a, b[..|b| - 1]);
    }
  }

  lemma LoggedGrows(log: Log, i: nat, j: nat)
    requires i <= j <= |log|
    ensures Logged(log[..i]) <= Logged(log[..j])
  {
    assert log[..j] == log[..i] + log[i..j];
    LoggedAppend(log[..i], log[i..j]);
  }

  lemma LoggedHas(log: Log, i: nat)
    requires 0 < i <= |log|
    ensures log[i - 1].value <= Logged(log[..i])
  {
    assert log[..i][..i - 1] == log[..i - 1];
  }

  // Window contents.

  lemma SucceededGrow(a: map<nat, Cache>, ids: set<nat>, b: map<nat, Cache>, jds: set<nat>)
    requires forall id :: id in ids && id in a ==> id in jds && id in b && a[id].succeeded <= b[id].succeeded
    ensures SucceededIn(a, ids) <= SucceededIn(b, jds)
  {
    forall r | r in SucceededIn(a, ids)
      ensures r in SucceededIn(b, jds)
    {
      var id :| id in ids && id in a && r in a[id].succeeded;
      assert id in jds && id in b && r in b[id].succeeded;
    }
  }

  /** More reachable cells keep everything held. */
  lemma HeldGrows(s: State, reach: Cells)
    requires HeldOk(s) && Reachable(s) <= reach
    ensures CellsIn(s.states.states, reach) && DeferredOk(reach, s.deferred) && RunnerOk(reach, s.runner)
    ensures BasesIn(s.calls, reach) && BlocksIn(s.resolved + s.shards + {s.head}, reach)
  {
  }

  lemma StagedGrow(a: map<nat, Cache>, b: map<nat, Cache>, ids: set<nat>)
    requires forall id :: id in ids && id in a ==> id in b && a[id].staged <= b[id].staged
    ensures StagedIn(a, ids) <= StagedIn(b, ids)
  {
    forall r | r in StagedIn(a, ids)
      ensures r in StagedIn(b, ids)
    {
      var id :| id in ids && id in a && r in a[id].staged;
      assert id in b && r in b[id].staged;
    }
  }

  /** The checkpoint in flight is none of a staging call's business. */
  predicate SameCheckpoint(s: State, r: State) {
    && r.checkpoint == s.checkpoint && r.offered == s.offered && r.named == s.named && r.from == s.from
    && r.durable == s.durable && r.saved == s.saved && r.base == s.base && s.engine.log <= r.engine.log
  }

  lemma EntriesGrow(s: State, r: State)
    requires EntriesOk(s) && FromOk(s) && SameCheckpoint(s, r)
    requires Reachable(s) <= Reachable(r)
    requires SucceededIn(s.caches, FrozenBy(s.checkpoint)) <= SucceededIn(r.caches, FrozenBy(s.checkpoint))
    ensures EntriesOk(r) && FromOk(r)
  {
    if s.checkpoint.Waiting? {
      assert r.engine.log[..s.checkpoint.target] == s.engine.log[..s.checkpoint.target];
    }
  }

  // Staging calls.

  lemma BeginStageKeepsInv(s: State, id: nat, state: BlockState, purpose: Purpose)
    requires Inv(s) && Enabled(s, BeginStage(id, state, purpose))
    ensures Inv(BeginStageNext(s, id, state, purpose))
  {
    BeginStageHeld(s, id, state, purpose);
    BeginStageFills(s, id, state, purpose);
    BeginStageTokens(s, id, state, purpose);
    BeginStagePrewrite(s, id, state, purpose);
    BeginStageProgress(s, id, state, purpose);
  }

  lemma BeginStageHeld(s: State, id: nat, state: BlockState, purpose: Purpose)
    requires HeldOk(s) && EntriesOk(s) && FromOk(s) && Enabled(s, BeginStage(id, state, purpose))
    ensures var r := BeginStageNext(s, id, state, purpose);
            HeldOk(r) && EntriesOk(r) && FromOk(r)
  {
    var r := BeginStageNext(s, id, state, purpose);
    SucceededGrow(s.caches, s.frozen + {s.active}, r.caches, r.frozen + {r.active});
    SucceededGrow(s.caches, FrozenBy(s.checkpoint), r.caches, FrozenBy(r.checkpoint));
    EntriesGrow(s, r);
    HeldGrows(s, Reachable(r));
  }

  lemma BeginStageFills(s: State, id: nat, state: BlockState, purpose: Purpose)
    requires PhaseOk(s) && FilledOk(s) && Enabled(s, BeginStage(id, state, purpose))
    ensures var r := BeginStageNext(s, id, state, purpose);
            PhaseOk(r) && FilledOk(r)
  {
    var r := BeginStageNext(s, id, state, purpose);
    if s.checkpoint.Reading? {
      StagedGrow(s.caches, r.caches, s.checkpoint.ids);
    }
  }

  lemma BeginStageTokens(s: State, id: nat, state: BlockState, purpose: Purpose)
    requires TokensOk(s.prewriting, s.caches, s.calls, s.frozen + {s.active}, s.base)
    requires Enabled(s, BeginStage(id, state, purpose))
    ensures var r := BeginStageNext(s, id, state, purpose);
            TokensOk(r.prewriting, r.caches, r.calls, r.frozen + {r.active}, r.base)
  {
  }

  lemma BeginStagePrewrite(s: State, id: nat, state: BlockState, purpose: Purpose)
    requires PrewriteOk(s.prewriting, s.engine.log, s.caches, s.calls) && Enabled(s, BeginStage(id, state, purpose))
    ensures var r := BeginStageNext(s, id, state, purpose);
            PrewriteOk(r.prewriting, r.engine.log, r.caches, r.calls)
  {
    var r := BeginStageNext(s, id, state, purpose);
    var log := s.engine.log;
    forall i | i in r.calls
      ensures CallOk(r.prewriting, log, r.caches, r.calls[i])
    {
      assert i in s.calls ==> CallOk(s.prewriting, log, s.caches, s.calls[i]);
    }
    forall c | c in r.caches
      ensures CacheOk(r.prewriting, log, r.calls, c, r.caches[c])
    {
      assert CacheOk(s.prewriting, log, s.calls, c, s.caches[c]);
      OneMoreCall(s.calls, id, r.calls[id], c);
    }
  }

  lemma OneMoreCall(calls: map<nat, Call>, id: nat, call: Call, cache: nat)
    requires id !in calls
    ensures On(calls[id := call], cache) == if cache == call.cache then On(calls, cache) + {id} else On(calls, cache)
    ensures id !in On(calls, cache)
  {
  }

  lemma BeginStageProgress(s: State, id: nat, state: BlockState, purpose: Purpose)
    requires ProgressOk(s) && s.active !in FrozenBy(s.checkpoint)
    requires Enabled(s, BeginStage(id, state, purpose))
    ensures ProgressOk(BeginStageNext(s, id, state, purpose))
  {
    var r := BeginStageNext(s, id, state, purpose);
    assert forall c :: c != s.active ==> On(r.calls, c) == On(s.calls, c);
  }

  lemma EnqueueKeepsInv(s: State, id: nat)
    requires Inv(s) && Enabled(s, EnqueueCall(id))
    ensures Inv(EnqueueNext(s, id))
  {
    var r := EnqueueNext(s, id);
    EnqueueWriter(s, id);
    AnsweredPrewrite(s.prewriting, s.engine.log, r.engine.log, s.caches, s.calls, id, r.calls[id].answer);
    HandedLonger(s.prewriting, s.engine.log, r.engine.log, s.durable, s.stand, s.base);
    EnqueueHeld(s, id);
    EnqueueProgress(s, id);
  }

  /** Numbered, a call's cells are the job of that number. */
  ghost predicate AnswerFits(log: Log, cells: Cells, answer: Answer) {
    answer.Queued? ==> 0 < answer.token <= |log| && log[answer.token - 1].value == cells
  }

  lemma EnqueueWriter(s: State, id: nat)
    requires WriterOk(s.engine, s.saved) && Enabled(s, EnqueueCall(id))
    ensures var r := EnqueueNext(s, id);
            && WriterOk(r.engine, r.saved) && s.engine.log <= r.engine.log
            && (r.calls[id].answer.Queued? ==> r.calls[id].answer.token > |s.engine.log|)
            && AnswerFits(r.engine.log, s.calls[id].cells, r.calls[id].answer)
            && r.calls == s.calls[id := s.calls[id].(answer := r.calls[id].answer)]
  {
    var cells := s.calls[id].cells;
    PrewriteEngine.StepKeepsInv(s.engine, PrewriteEngine.Produce(cells, |cells|));
  }

  lemma AnsweredPrewrite(prewriting: bool, log: Log, longer: Log, caches: map<nat, Cache>, calls: map<nat, Call>,
                         id: nat, answer: Answer)
    requires PrewriteOk(prewriting, log, caches, calls) && log <= longer
    requires id in calls && calls[id].answer.Owed? && AnswerFits(longer, calls[id].cells, answer)
    ensures PrewriteOk(prewriting, longer, caches, calls[id := calls[id].(answer := answer)])
  {
    var after := calls[id := calls[id].(answer := answer)];
    forall i | i in after
      ensures CallOk(prewriting, longer, caches, after[i])
    {
      assert CallOk(prewriting, log, caches, calls[i]);
    }
    forall c | c in caches
      ensures CacheOk(prewriting, longer, after, c, caches[c])
    {
      assert On(after, c) == On(calls, c);
      LongerLog(prewriting, log, longer, calls, after, c, caches[c]);
    }
  }

  lemma EnqueueHeld(s: State, id: nat)
    requires HeldOk(s) && EntriesOk(s) && FromOk(s) && Enabled(s, EnqueueCall(id))
    requires s.engine.log <= EnqueueNext(s, id).engine.log
    ensures var r := EnqueueNext(s, id);
            HeldOk(r) && EntriesOk(r) && FromOk(r)
  {
    assert Reachable(EnqueueNext(s, id)) == Reachable(s);
    EntriesGrow(s, EnqueueNext(s, id));
  }

  lemma HandedLonger(prewriting: bool, log: Log, longer: Log, durable: Cells, stand: set<BlockState>, base: nat)
    requires HandedOk(prewriting, log, durable, stand, base) && log <= longer
    ensures HandedOk(prewriting, longer, durable, stand, base)
  {
    assert longer[..base] == log[..base];
  }

  lemma LongerLog(prewriting: bool, log: Log, longer: Log, calls: map<nat, Call>, after: map<nat, Call>, id: nat,
                  cache: Cache)
    requires CacheOk(prewriting, log, calls, id, cache) && log <= longer && On(after, id) == On(calls, id)
    ensures CacheOk(prewriting, longer, after, id, cache)
  {
    assert longer[..cache.token] == log[..cache.token];
  }

  lemma EnqueueProgress(s: State, id: nat)
    requires ProgressOk(s) && Enabled(s, EnqueueCall(id))
    ensures ProgressOk(EnqueueNext(s, id))
  {
    var r := EnqueueNext(s, id);
    assert forall c :: On(r.calls, c) == On(s.calls, c);
    assert forall t :: 0 <= t <= |s.engine.log| ==> r.engine.log[..t] == s.engine.log[..t];
  }

  lemma FinishKeepsInv(s: State, id: nat, usable: bool)
    requires Inv(s) && Enabled(s, FinishCall(id, usable))
    ensures Inv(FinishNext(s, id, usable))
  {
    FinishEntries(s, id, usable);
    FinishHeld(s, id, usable);
    FinishPrewrite(s.prewriting, s.engine.log, s.caches, s.calls, id);
    FinishTokens(s.prewriting, s.caches, s.calls, s.frozen + {s.active}, s.base, id);
    FinishFills(s, id, usable);
    FinishProgress(s, id);
    FinishMasters(s, id, usable);
  }

  lemma FinishEntries(s: State, id: nat, usable: bool)
    requires EntriesOk(s) && FromOk(s) && Enabled(s, FinishCall(id, usable))
    ensures var r := FinishNext(s, id, usable);
            EntriesOk(r) && FromOk(r) && Reachable(s) <= Reachable(r)
  {
    var r := FinishNext(s, id, usable);
    SucceededGrow(s.caches, s.frozen + {s.active}, r.caches, r.frozen + {r.active});
    SucceededGrow(s.caches, FrozenBy(s.checkpoint), r.caches, FrozenBy(r.checkpoint));
    EntriesGrow(s, r);
  }

  lemma FinishTokens(prewriting: bool, caches: map<nat, Cache>, calls: map<nat, Call>, window: set<nat>, base: nat,
                     id: nat)
    requires TokensOk(prewriting, caches, calls, window, base) && id in calls && calls[id].cache in caches
    requires !prewriting ==> calls[id].answer == Queued(0)
    ensures TokensOk(prewriting, caches[calls[id].cache := Finished(prewriting, caches[calls[id].cache], calls[id])],
                     calls - {id}, window, base)
  {
  }

  lemma FinishFills(s: State, id: nat, usable: bool)
    requires PhaseOk(s) && FilledOk(s) && Enabled(s, FinishCall(id, usable))
    ensures var r := FinishNext(s, id, usable);
            PhaseOk(r) && FilledOk(r)
  {
    var r := FinishNext(s, id, usable);
    if s.checkpoint.Reading? {
      StagedGrow(s.caches, r.caches, s.checkpoint.ids);
    }
  }

  lemma FinishPrewrite(prewriting: bool, log: Log, caches: map<nat, Cache>, calls: map<nat, Call>, id: nat)
    requires PrewriteOk(prewriting, log, caches, calls) && id in calls && calls[id].cache in caches
    ensures PrewriteOk(prewriting, log,
                       caches[calls[id].cache := Finished(prewriting, caches[calls[id].cache], calls[id])],
                       calls - {id})
  {
    var call := calls[id];
    var after := caches[call.cache := Finished(prewriting, caches[call.cache], call)];
    forall i | i in calls - {id}
      ensures CallOk(prewriting, log, after, (calls - {id})[i])
    {
      assert CallOk(prewriting, log, caches, calls[i]);
    }
    assert CallOk(prewriting, log, caches, call);
    forall c | c in after
      ensures CacheOk(prewriting, log, calls - {id}, c, after[c])
    {
      assert CacheOk(prewriting, log, calls, c, caches[c]);
      if c == call.cache {
        FinishCache(prewriting, log, caches[c], calls, id);
      } else {
        assert On(calls - {id}, c) == On(calls, c);
      }
    }
  }

  lemma FinishCache(prewriting: bool, log: Log, cache: Cache, calls: map<nat, Call>, id: nat)
    requires id in calls && calls[id].cells <= cache.staged && CacheOk(prewriting, log, calls, calls[id].cache, cache)
    requires prewriting && calls[id].answer.Queued? ==>
               0 < calls[id].answer.token <= |log| && log[calls[id].answer.token - 1].value == calls[id].cells
    requires !prewriting ==> calls[id].answer == Queued(0)
    ensures CacheOk(prewriting, log, calls - {id}, calls[id].cache, Finished(prewriting, cache, calls[id]))
  {
    var call := calls[id];
    var after := Finished(prewriting, cache, call);
    assert id in On(calls, call.cache) && On(calls - {id}, call.cache) == On(calls, call.cache) - {id};
    if prewriting {
      LoggedGrows(log, cache.token, after.token);
      if call.answer.Queued? {
        LoggedHas(log, call.answer.token);
        LoggedGrows(log, call.answer.token, after.token);
      }
    }
  }

  lemma FinishProgress(s: State, id: nat)
    requires ProgressOk(s) && id in s.calls && s.calls[id].cache in s.caches
    ensures var cache := s.calls[id].cache;
            OnTheWay(s.prewriting, s.engine.log,
                     s.caches[cache := Finished(s.prewriting, s.caches[cache], s.calls[id])],
                     s.calls - {id}, s.saved, s.durable, s.checkpoint)
  {
    var calls := s.calls - {id};
    assert id in On(s.calls, s.calls[id].cache);
    assert forall c :: c != s.calls[id].cache ==> On(calls, c) == On(s.calls, c);
  }

  lemma FinishHeld(s: State, id: nat, usable: bool)
    requires HeldOk(s) && WindowOk(s.caches, s.active, s.frozen) && Enabled(s, FinishCall(id, usable))
    requires PrewriteOk(s.prewriting, s.engine.log, s.caches, s.calls)
    requires Reachable(s) <= Reachable(FinishNext(s, id, usable))
    ensures HeldOk(FinishNext(s, id, usable))
  {
    var r := FinishNext(s, id, usable);
    var call := s.calls[id];
    HeldGrows(s, Reachable(r));
    assert CallOk(s.prewriting, s.engine.log, s.caches, call);
    if call.answer.Queued? {
      assert r.caches[call.cache].succeeded >= call.cells;
      assert call.cells <= Reachable(r);
      if call.purpose.ForShard? {
        DeferOk(Reachable(r), s.deferred, call.purpose.master,
                (call.purpose.key, Applied(call.purpose.master, call.state)));
      }
    }
  }

  lemma DeferOk(reach: Cells, deferred: Deferred, master: nat, entry: (Key, Applied))
    requires DeferredOk(reach, deferred) && EntryOk(reach, entry, master)
    ensures DeferredOk(reach, Defer(deferred, master, entry))
  {
    var after := Defer(deferred, master, entry);
    forall m, i | m in after && 0 <= i < |after[m]|
      ensures EntryOk(reach, after[m][i], m)
    {
      if m in deferred && i < |deferred[m]| {
        assert EntryOk(reach, deferred[m][i], m);
      }
    }
  }

  lemma FinishMasters(s: State, id: nat, usable: bool)
    requires MastersOk(s.states.states, s.persisted, s.runner) && Enabled(s, FinishCall(id, usable))
    ensures var r := FinishNext(s, id, usable);
            MastersOk(r.states.states, r.persisted, r.runner)
  {
    var r := FinishNext(s, id, usable);
    assert forall m :: Committing(s.runner, m) && !r.runner.Dead? ==> Committing(r.runner, m);
  }

  // The prewriter's runner.

  lemma WriterKeepsInv(s: State, step: PrewriteEngine.Step<Cells>)
    requires Inv(s) && Enabled(s, Writer(step))
    ensures Inv(WriterNext(s, step))
  {
    WriterWrites(s, step);
    WriterHeld(s, step);
  }

  lemma WriterWrites(s: State, step: PrewriteEngine.Step<Cells>)
    requires WriterOk(s.engine, s.saved) && Enabled(s, Writer(step))
    ensures var r := WriterNext(s, step);
            WriterOk(r.engine, r.saved) && r.engine.log == s.engine.log && s.saved <= r.saved
  {
    PrewriteEngine.StepKeepsInv(s.engine, step);
    AcceptedAfter(s.engine, step);
    if s.engine.runner.Batching? {
      LoggedAppend(s.engine.accepted, s.engine.runner.batch);
    }
  }

  lemma AcceptedAfter(engine: PrewriteEngine.Engine<Cells>, step: PrewriteEngine.Step<Cells>)
    requires !step.Produce?
    ensures var r := PrewriteEngine.Next(engine, step);
            && r.log == engine.log
            && r.accepted == if step == PrewriteEngine.Save(true) && engine.runner.Batching?
              then engine.accepted + engine.runner.batch
                             else engine.accepted
  {
  }

  lemma WriterHeld(s: State, step: PrewriteEngine.Step<Cells>)
    requires HeldOk(s) && EntriesOk(s) && FromOk(s) && Enabled(s, Writer(step))
    requires WriterNext(s, step).engine.log == s.engine.log && s.saved <= WriterNext(s, step).saved
    ensures var r := WriterNext(s, step);
            HeldOk(r) && EntriesOk(r) && FromOk(r)
  {
    assert Reachable(WriterNext(s, step)) == Reachable(s);
  }

  // The resolver, outside staging.

  lemma LoadKeepsInv(s: State, state: BlockState)
    requires Inv(s) && Enabled(s, LoadState(state))
    ensures Inv(Next(s, LoadState(state)))
  {
    assert Reachable(Next(s, LoadState(state))) == Reachable(s);
  }

  // The commit stage.

  /** The block waits for the next checkpoint. */
  predicate IsWaiting(s: State, entry: (Key, Applied)) {
    entry.0 in s.states.states && s.states.states[entry.0].state == entry.1
  }

  /** A committed master has the shard blocks deferred to it in hand; they, then it, wait; a snapshot takes them all. */
  ghost predicate HandsOn(s: State, step: Step, r: State) {
    match step
    case CommitMaster(master, _) =>
      r.runner == StagingShards(master, if master in s.deferred then s.deferred[master] else [])
    case StageShard(_) => s.runner.StagingShards? && s.runner.rest != [] && IsWaiting(r, s.runner.rest[0])
    case RememberMaster(_) =>
      s.runner.Remembering?
      && IsWaiting(r, (MasterKey(s.runner.master), Applied(s.runner.master, s.runner.state)))
    case TakeSnapshot => r.checkpoint == Snapshotted(s.states.states)
    case _ => true
  }

  lemma RunnerHandsOn(s: State, step: Step)
    requires Enabled(s, step)
    ensures HandsOn(s, step, Next(s, step))
  {
  }

  lemma RunnerKeepsInv(s: State, step: Step)
    requires Inv(s) && Enabled(s, step)
    requires step.CommitMaster? || step.StageShard? || step.RememberMaster? || step.RunnerFails? || step.TakeSnapshot?
    ensures Inv(Next(s, step))
    ensures HandsOn(s, step, Next(s, step))
  {
    RunnerHandsOn(s, step);
    match step
    case CommitMaster(master, shards) => CommitMasterKeepsInv(s, master, shards);
    case StageShard(artifact) => StageShardKeepsInv(s, artifact);
    case RememberMaster(artifact) => RememberMasterKeepsInv(s, artifact);
    case RunnerFails => RunnerFailsKeepsInv(s);
    case TakeSnapshot => TakeSnapshotKeepsInv(s);
  }

  lemma RunnerFailsKeepsInv(s: State)
    requires Inv(s) && Enabled(s, RunnerFails)
    ensures Inv(Next(s, RunnerFails))
  {
    assert Reachable(Next(s, RunnerFails)) == Reachable(s);
  }

  lemma TakeSnapshotKeepsInv(s: State)
    requires Inv(s) && Enabled(s, TakeSnapshot)
    ensures Inv(Next(s, TakeSnapshot))
  {
    assert Reachable(Next(s, TakeSnapshot)) == Reachable(s);
  }

  lemma CommitMasterKeepsInv(s: State, master: nat, shards: set<BlockState>)
    requires Inv(s) && Enabled(s, CommitMaster(master, shards))
    ensures Inv(Next(s, CommitMaster(master, shards)))
  {
    assert Reachable(Next(s, CommitMaster(master, shards))) == Reachable(s);
  }

  lemma StageShardKeepsInv(s: State, artifact: AppliedStates.Artifact)
    requires Inv(s) && Enabled(s, StageShard(artifact))
    ensures Inv(Next(s, StageShard(artifact)))
  {
    assert Reachable(Next(s, StageShard(artifact))) == Reachable(s);
    assert EntryOk(Reachable(s), s.runner.rest[0], s.runner.master);
  }

  lemma RememberMasterKeepsInv(s: State, artifact: AppliedStates.Artifact)
    requires Inv(s) && Enabled(s, RememberMaster(artifact))
    ensures Inv(Next(s, RememberMaster(artifact)))
  {
    assert Reachable(Next(s, RememberMaster(artifact))) == Reachable(s);
  }
}
