/** A checkpoint, from freezing the window to dropping its caches, keeps the invariant of the durability protocol. */
module CheckpointSteps {
  import opened Durability
  import CellCache
  import opened StagingSteps

  lemma FreezeKeepsInv(s: State, spare: nat)
    requires Inv(s) && Enabled(s, Freeze(spare))
    ensures Inv(FreezeNext(s, spare))
  {
    var r := FreezeNext(s, spare);
    FreezeWindow(s, spare);
    FreezePrewrite(s, spare);
    FreezeFills(s, spare);
    HeldGrows(s, Reachable(r));
  }

  /** The active cache is not empty, so there is something to read a target for. */
  lemma FreezeFills(s: State, spare: nat)
    requires Enabled(s, Freeze(spare)) && FilledOk(s) && WindowOk(s.caches, s.active, s.frozen)
    ensures var r := FreezeNext(s, spare);
            r.checkpoint.Reading? && FilledOk(r) && s.active in r.frozen
  {
    var r := FreezeNext(s, spare);
    var x :| x in s.caches[s.active].staged;
    assert s.active in r.frozen && s.active in r.caches && x in r.caches[s.active].staged;
    assert x in StagedIn(r.caches, r.frozen);
  }

  /** Everything the window held is in the frozen caches; the fresh active cache adds nothing. */
  lemma FreezeWindow(s: State, spare: nat)
    requires Enabled(s, Freeze(spare)) && WindowOk(s.caches, s.active, s.frozen)
    requires PrewriteOk(s.prewriting, s.engine.log, s.caches, s.calls)
    ensures var r := FreezeNext(s, spare);
            && SucceededIn(s.caches, s.frozen + {s.active}) <= SucceededIn(r.caches, r.frozen)
            && Reachable(s) <= Reachable(r)
            && Reachable(s) <= SucceededIn(r.caches, r.frozen) + r.durable + WholeOf(r.from)
            && (CallsHeld(s.calls, s.frozen + {s.active}, s.durable) ==>
                CallsHeld(r.calls, r.frozen + {r.active}, r.durable))
  {
    var r := FreezeNext(s, spare);
    assert CacheOk(s.prewriting, s.engine.log, s.calls, s.active, s.caches[s.active]);
    forall x | x in SucceededIn(s.caches, s.frozen + {s.active})
      ensures x in SucceededIn(r.caches, r.frozen)
    {
      var id :| id in s.frozen + {s.active} && id in s.caches && x in s.caches[id].succeeded;
      assert id in r.frozen && id in r.caches && x in r.caches[id].succeeded;
    }
    SucceededGrow(r.caches, r.frozen, r.caches, r.frozen + {r.active});
    forall id | id in s.calls
      ensures s.calls[id].cache == s.active ==> s.caches[s.active].staged != {}
    {
      assert CallOk(s.prewriting, s.engine.log, s.caches, s.calls[id]);
    }
  }

  lemma FreezePrewrite(s: State, spare: nat)
    requires Enabled(s, Freeze(spare)) && PrewriteOk(s.prewriting, s.engine.log, s.caches, s.calls)
    ensures var r := FreezeNext(s, spare);
            PrewriteOk(r.prewriting, r.engine.log, r.caches, r.calls)
  {
    var r := FreezeNext(s, spare);
    forall i | i in r.calls
      ensures CallOk(r.prewriting, r.engine.log, r.caches, r.calls[i])
      ensures r.calls[i].cache != spare
    {
      assert CallOk(s.prewriting, s.engine.log, s.caches, s.calls[i]);
    }
    assert On(r.calls, spare) == {};
    forall c | c in r.caches
      ensures CacheOk(r.prewriting, r.engine.log, r.calls, c, r.caches[c])
    {
      assert c in s.caches ==> CacheOk(s.prewriting, s.engine.log, s.calls, c, s.caches[c]);
    }
  }

  lemma ReadTargetKeepsInv(s: State, cache: nat)
    requires Inv(s) && Enabled(s, ReadTarget(cache)) && Backed(s, ReadTarget(cache))
    ensures Inv(ReadTargetNext(s, cache))
  {
    ReadTargetProgress(s, cache);
    ReadTargetFrom(s, cache);
    ReadTargetHeld(s, cache);
  }

  lemma ReadTargetHeld(s: State, cache: nat)
    requires Enabled(s, ReadTarget(cache)) && HeldOk(s) && EntriesOk(s) && PhaseOk(s) && FilledOk(s)
    requires MastersOk(s.states.states, s.persisted, s.runner) && SnapshotOk(s.checkpoint, s.persisted)
    ensures var r := ReadTargetNext(s, cache);
            && HeldOk(r) && EntriesOk(r) && PhaseOk(r) && FilledOk(r)
            && MastersOk(r.states.states, r.persisted, r.runner) && SnapshotOk(r.checkpoint, r.persisted)
  {
    assert Reachable(ReadTargetNext(s, cache)) == Reachable(s);
  }

  /** A target is the number of a job of this runner's, so it comes after all that the runner was handed. */
  lemma ReadTargetFrom(s: State, cache: nat)
    requires Enabled(s, ReadTarget(cache)) && Backed(s, ReadTarget(cache)) && FromOk(s) && PhaseOk(s) && FilledOk(s)
    requires ProgressOk(ReadTargetNext(s, cache)) && ProgressOk(s)
    requires HandedOk(s.prewriting, s.engine.log, s.durable, s.stand, s.base)
    requires TokensOk(s.prewriting, s.caches, s.calls, s.frozen + {s.active}, s.base)
    requires PrewriteOk(s.prewriting, s.engine.log, s.caches, s.calls)
    ensures FromOk(ReadTargetNext(s, cache))
  {
    var after := AfterRead(s.checkpoint, s.caches, cache);
    assert Later(s.caches[cache].token, s.base);
    if after.Waiting? {
      CoveredIsSettled(s, cache);
      LoggedGrows(s.engine.log, s.base, after.target);
    }
  }

  /** A runner handed nothing names nothing but its window and what is durable. */
  lemma OwnIsBacked(s: State, step: Step)
    requires Inv(s) && s.from == {}
    ensures Backed(s, step)
  {
    if step.ReadTarget? && Enabled(s, step) {
      SucceededStaged(s, s.checkpoint.ids);
    }
  }

  lemma SucceededStaged(s: State, ids: set<nat>)
    requires PrewriteOk(s.prewriting, s.engine.log, s.caches, s.calls)
    ensures SucceededIn(s.caches, ids) <= StagedIn(s.caches, ids)
  {
    forall x | x in SucceededIn(s.caches, ids)
      ensures x in StagedIn(s.caches, ids)
    {
      var id :| id in ids && id in s.caches && x in s.caches[id].succeeded;
      assert CacheOk(s.prewriting, s.engine.log, s.calls, id, s.caches[id]);
      assert x in s.caches[id].staged;
    }
  }

  lemma ReadTargetProgress(s: State, cache: nat)
    requires PrewriteOk(s.prewriting, s.engine.log, s.caches, s.calls) && ProgressOk(s)
    requires Enabled(s, ReadTarget(cache)) && s.checkpoint.ids <= s.caches.Keys
    ensures ProgressOk(ReadTargetNext(s, cache))
  {
    if AfterRead(s.checkpoint, s.caches, cache).Writing? {
      StagedIsSafe(s, s.checkpoint.ids);
    } else {
      CoveredProgress(s, cache);
    }
  }

  /** Reading a covered cache leaves the caches read so far settled up to the target. */
  lemma CoveredProgress(s: State, cache: nat)
    requires PrewriteOk(s.prewriting, s.engine.log, s.caches, s.calls) && ProgressOk(s)
    requires Enabled(s, ReadTarget(cache)) && s.checkpoint.ids <= s.caches.Keys
    requires !AfterRead(s.checkpoint, s.caches, cache).Writing?
    ensures OnTheWay(s.prewriting, s.engine.log, s.caches, s.calls, s.saved, s.durable,
                     AfterRead(s.checkpoint, s.caches, cache))
  {
    var cp := s.checkpoint;
    var target := AfterRead(cp, s.caches, cache).target;
    CoveredRead(s, cp.ids - cp.todo, cp.target, cache, target);
    SettledProgress(s.prewriting, s.engine.log, s.caches, s.calls, s.saved, s.durable, cp, cache, target);
  }

  lemma SettledProgress(prewriting: bool, log: Log, caches: map<nat, Cache>, calls: map<nat, Call>, saved: Cells,
                        durable: Cells, cp: Checkpoint, cache: nat, target: nat)
    requires cp.Reading? && cache in cp.todo && cp.todo <= cp.ids && (target > 0 ==> prewriting)
    requires AllSettled(log, caches, calls, (cp.ids - cp.todo) + {cache}, target)
    ensures cp.todo != {cache} ==>
            OnTheWay(prewriting, log, caches, calls, saved, durable,
                     Reading(cp.entries, cp.ids, cp.todo - {cache}, target))
    ensures cp.todo == {cache} ==>
            OnTheWay(prewriting, log, caches, calls, saved, durable, Waiting(cp.entries, cp.ids, target))
  {
    assert cp.ids - (cp.todo - {cache}) == (cp.ids - cp.todo) + {cache};
    assert cp.todo == {cache} ==> (cp.ids - cp.todo) + {cache} == cp.ids;
  }

  lemma CoveredRead(s: State, read: set<nat>, before: nat, cache: nat, target: nat)
    requires PrewriteOk(s.prewriting, s.engine.log, s.caches, s.calls) && cache in s.caches
    requires AllSettled(s.engine.log, s.caches, s.calls, read, before) && (before > 0 ==> s.prewriting)
    requires var (token, covered) :=
             CellCache.TargetOf(s.caches[cache].staged == {}, s.caches[cache].pending, s.caches[cache].token);
             covered && target == if token > before then token else before
    ensures AllSettled(s.engine.log, s.caches, s.calls, read + {cache}, target) && (target > 0 ==> s.prewriting)
  {
    CoveredIsSettled(s, cache);
    SettledLater(s, read, before, target);
    SettledLater(s, {cache}, CellCache.TargetOf(s.caches[cache].staged == {}, s.caches[cache].pending,
                                                s.caches[cache].token).0, target);
  }

  /** A covered cache has no call in flight, so its token bounds all it will ever count as staged. */
  lemma CoveredIsSettled(s: State, cache: nat)
    requires PrewriteOk(s.prewriting, s.engine.log, s.caches, s.calls) && cache in s.caches
    requires CellCache.TargetOf(s.caches[cache].staged == {}, s.caches[cache].pending, s.caches[cache].token).1
    ensures Settled(s.engine.log, s.caches, s.calls, cache,
                    CellCache.TargetOf(s.caches[cache].staged == {}, s.caches[cache].pending, s.caches[cache].token).0)
    ensures CellCache.TargetOf(s.caches[cache].staged == {}, s.caches[cache].pending, s.caches[cache].token).0 > 0 ==>
            s.prewriting
  {
    assert CacheOk(s.prewriting, s.engine.log, s.calls, cache, s.caches[cache]);
    if s.caches[cache].staged == {} {
      forall id | id in s.calls
        ensures s.calls[id].cache != cache
      {
        assert CallOk(s.prewriting, s.engine.log, s.caches, s.calls[id]);
      }
    }
  }

  lemma SettledLater(s: State, ids: set<nat>, target: nat, later: nat)
    requires AllSettled(s.engine.log, s.caches, s.calls, ids, target) && target <= later <= |s.engine.log|
    ensures AllSettled(s.engine.log, s.caches, s.calls, ids, later)
  {
    LoggedGrows(s.engine.log, target, later);
  }

  lemma StagedIsSafe(s: State, ids: set<nat>)
    requires ids <= s.caches.Keys
    ensures AllSafe(s.caches, s.calls, ids, s.durable + StagedIn(s.caches, ids))
  {
    forall id | id in ids
      ensures Safe(s.caches, s.calls, id, s.durable + StagedIn(s.caches, ids))
    {
      assert s.caches[id].staged <= StagedIn(s.caches, ids);
    }
  }

  lemma WaitReachedKeepsInv(s: State)
    requires Inv(s) && Enabled(s, WaitReached)
    ensures Inv(Next(s, WaitReached))
  {
    var target := s.checkpoint.target;
    ReachedIsSaved(s, target);
    SettledIsSafe(s.engine.log, s.caches, s.calls, s.checkpoint.ids, target, s.saved);
    assert Reachable(Next(s, WaitReached)) == Reachable(s);
  }

  lemma SettledIsSafe(log: Log, caches: map<nat, Cache>, calls: map<nat, Call>, ids: set<nat>, target: nat,
                      saved: Cells)
    requires AllSettled(log, caches, calls, ids, target) && Logged(log[..target]) <= saved
    ensures AllSafe(caches, calls, ids, saved)
  {
  }

  lemma ReachedIsSaved(s: State, token: nat)
    requires Inv(s) && Enabled(s, WaitReached) && token <= s.checkpoint.target
    ensures token <= |s.engine.log| && Logged(s.engine.log[..token]) <= s.saved
  {
    var engine := s.engine;
    assert engine.log[..token] == engine.accepted[..token];
    LoggedGrows(engine.accepted, token, |engine.accepted|);
    assert engine.accepted[..|engine.accepted|] == engine.accepted;
  }

  /** Jobs are numbered in order over all runners: a reached wait means that every cache up to its target is saved. */
  lemma ReachedCovers(s: State, id: nat)
    requires Inv(s) && Enabled(s, WaitReached)
    requires id in s.caches && s.prewriting && s.caches[id].token <= s.checkpoint.target
    ensures s.caches[id].succeeded <= s.saved
  {
    assert CacheOk(s.prewriting, s.engine.log, s.calls, id, s.caches[id]);
    ReachedIsSaved(s, s.caches[id].token);
  }

  lemma FlushKeepsInv(s: State)
    requires Inv(s) && Enabled(s, FlushCells)
    ensures Inv(Next(s, FlushCells))
  {
    var r := Next(s, FlushCells);
    FlushFrom(s);
    HeldGrows(s, Reachable(r));
  }

  lemma FlushFrom(s: State)
    requires Enabled(s, FlushCells) && EntriesOk(s) && FromOk(s) && ProgressOk(s)
    requires PrewriteOk(s.prewriting, s.engine.log, s.caches, s.calls)
    ensures FromOk(Next(s, FlushCells)) && EntriesOk(Next(s, FlushCells)) && ProgressOk(Next(s, FlushCells))
  {
    SafeCaches(s, s.checkpoint.ids, s.saved);
  }

  lemma {:induction false} SafeSucceeded(caches: map<nat, Cache>, calls: map<nat, Call>, ids: set<nat>, cells: Cells)
    requires AllSafe(caches, calls, ids, cells)
    requires forall id :: id in ids && id in caches ==> caches[id].succeeded <= caches[id].staged
    ensures SucceededIn(caches, ids) <= cells
  {
    forall x | x in SucceededIn(caches, ids)
      ensures x in cells
    {
      var id :| id in ids && id in caches && x in caches[id].succeeded;
      assert Safe(caches, calls, id, cells);
    }
  }

  lemma SafeCaches(s: State, ids: set<nat>, cells: Cells)
    requires PrewriteOk(s.prewriting, s.engine.log, s.caches, s.calls) && AllSafe(s.caches, s.calls, ids, cells)
    ensures SucceededIn(s.caches, ids) <= cells
  {
    forall id | id in ids && id in s.caches
      ensures s.caches[id].succeeded <= s.caches[id].staged
    {
      assert CacheOk(s.prewriting, s.engine.log, s.calls, id, s.caches[id]);
    }
    SafeSucceeded(s.caches, s.calls, ids, cells);
  }

  lemma CommitKeepsInv(s: State)
    requires Inv(s) && Enabled(s, Commit)
    ensures Inv(Next(s, Commit))
  {
    var r := Next(s, Commit);
    HeldGrows(s, Reachable(r));
    CommitClosed(s);
  }

  lemma CommitClosed(s: State)
    requires s.checkpoint.Writing? && SnapshotOk(s.checkpoint, s.persisted) && DurableClosed(s.persisted, s.durable)
    requires MastersOk(s.states.states, s.persisted, s.runner)
    requires SnapshotIn(s, s.durable + WrittenWith(s.checkpoint.cells, s.saved))
    ensures var r := Next(s, Commit);
            && DurableClosed(r.persisted, r.durable) && SnapshotOk(r.checkpoint, r.persisted)
            && MastersOk(r.states.states, r.persisted, r.runner)
  {
    var r := Next(s, Commit);
    var entries := s.checkpoint.entries;
    forall m | Persisted(s.persisted, m) || MasterKey(m) in entries
      ensures Persisted(r.persisted, m)
    {
      if MasterKey(m) in entries {
        assert (MasterKey(m), entries[MasterKey(m)].state) in Named(entries);
      } else {
        var a :| (MasterKey(m), a) in s.persisted;
        assert (MasterKey(m), a) in r.persisted;
      }
    }
  }

  lemma CompleteStatesKeepsInv(s: State)
    requires Inv(s) && Enabled(s, CompleteStates)
    ensures Inv(Next(s, CompleteStates))
  {
    var r := Next(s, CompleteStates);
    var entries := s.checkpoint.entries;
    forall m | MasterKey(m) in s.states.states && MasterKey(m) !in r.states.states
      ensures Persisted(s.persisted, m)
    {
      assert (MasterKey(m), entries[MasterKey(m)].state) in Named(entries);
    }
    assert Reachable(r) == Reachable(s);
  }

  lemma CompleteCellsKeepsInv(s: State)
    requires Inv(s) && Enabled(s, CompleteCells)
    ensures Inv(Next(s, CompleteCells))
  {
    var r := Next(s, CompleteCells);
    var ids := s.checkpoint.ids;
    SafeCaches(s, ids, s.durable);
    SucceededWithout(s.caches, s.frozen + {s.active}, ids, r.frozen + {r.active});
    HeldGrows(s, Reachable(r));
    CleanedCalls(s.prewriting, s.engine.log, s.caches, s.calls, ids, s.durable);
  }

  lemma SucceededWithout(caches: map<nat, Cache>, window: set<nat>, ids: set<nat>, rest: set<nat>)
    requires window <= ids + rest
    ensures SucceededIn(caches, window) <= SucceededIn(caches, ids) + SucceededIn(caches, rest)
  {
    forall x | x in SucceededIn(caches, window)
      ensures x in SucceededIn(caches, ids) + SucceededIn(caches, rest)
    {
      var id :| id in window && id in caches && x in caches[id].succeeded;
      assert id in ids || id in rest;
    }
  }

  lemma CleanedCalls(prewriting: bool, log: Log, caches: map<nat, Cache>, calls: map<nat, Call>, ids: set<nat>,
                     durable: Cells)
    requires PrewriteOk(prewriting, log, caches, calls) && AllSafe(caches, calls, ids, durable)
    ensures forall i :: i in calls && calls[i].cache in ids ==> calls[i].cells <= durable
  {
    forall i | i in calls && calls[i].cache in ids
      ensures calls[i].cells <= durable
    {
      assert CallOk(prewriting, log, caches, calls[i]);
      assert i in On(calls, calls[i].cache) && Safe(caches, calls, calls[i].cache, durable);
    }
  }

  lemma FailKeepsInv(s: State)
    requires Inv(s) && Enabled(s, CheckpointFails)
    ensures Inv(Next(s, CheckpointFails))
  {
    assert Reachable(Next(s, CheckpointFails)) == Reachable(s);
  }
}
