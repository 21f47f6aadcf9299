/**
 The set of applied block states waiting for a checkpoint (service/applied_state_set.go) and
 the way the persist functions use it (service/catchup_master.go:351-369).
*/
module AppliedStates {
  import opened Common

  /** storage.BlockRootHash, read as one big-endian number: bytes.Compare is `<`. */
  type Key = nat

  datatype Artifact = NoArtifact | Artifact(block: seq<bv8>, proof: seq<bv8>)

  predicate IsComplete(artifact: Artifact) {
    artifact.Artifact? && |artifact.block| > 0 && |artifact.proof| > 0
  }

  function ArtifactBytes(artifact: Artifact): (bytes: nat) {
    if artifact.NoArtifact? then 0 else |artifact.block| + |artifact.proof|
  }

  datatype Entry<S> = Entry(state: S, artifact: Artifact, version: nat)

  datatype StateSet<S> = StateSet(states: map<Key, Entry<S>>, nextVersion: nat)

  function Remember<S>(set_: StateSet<S>, key: Key, state: S, artifact: Artifact): (r: StateSet<S>) {
    var kept := if key in set_.states && !IsComplete(artifact) && IsComplete(set_.states[key].artifact)
                then set_.states[key].artifact else artifact;
    StateSet(set_.states[key := Entry(state, kept, set_.nextVersion + 1)], set_.nextVersion + 1)
  }

  /** Drops the snapshot's entries that are still at their snapshot version. */
  function CompleteSnapshot<S>(set_: StateSet<S>, snapshot: map<Key, Entry<S>>): (r: StateSet<S>) {
    set_.(states := map k | k in set_.states
                      && !(k in snapshot && snapshot[k].version == set_.states[k].version) :: set_.states[k])
  }

  ghost function TotalBytes<S>(states: map<Key, Entry<S>>): (bytes: nat) {
    MapSum(Sizes(states))
  }

  ghost function Sizes<S>(states: map<Key, Entry<S>>): (sizes: map<Key, nat>) {
    map k | k in states :: ArtifactBytes(states[k].artifact)
  }

  lemma TotalWithout<S>(states: map<Key, Entry<S>>, key: Key)
    ensures key in states ==> TotalBytes(states) == ArtifactBytes(states[key].artifact) + TotalBytes(states - {key})
    ensures key !in states ==> states - {key} == states
  {
    if key in states {
      MapSumRemove(Sizes(states), key);
      assert Sizes(states) - {key} == Sizes(states - {key});
    }
  }

  lemma TotalWith<S>(states: map<Key, Entry<S>>, key: Key, entry: Entry<S>)
    ensures TotalBytes(states[key := entry]) == TotalBytes(states - {key}) + ArtifactBytes(entry.artifact)
  {
    TotalWithout(states[key := entry], key);
    assert states[key := entry] - {key} == states - {key};
  }

  ghost predicate Sorted(keys: seq<Key>) {
    forall i, j :: 0 <= i < j < |keys| ==> keys[i] < keys[j]
  }

  method SortedKeys<S>(states: map<Key, Entry<S>>) returns (keys: seq<Key>)
    ensures Sorted(keys) && forall k :: k in keys <==> k in states
  {
    keys := [];
    var left := states.Keys;
    while left != {}
      invariant left <= states.Keys && Sorted(keys)
      invariant forall k :: k in states <==> k in left || k in keys
      invariant forall k, i :: k in left && 0 <= i < |keys| ==> keys[i] < k
      decreases left
    {
      var least := Least(left);
      left := left - {least};
      keys := keys + [least];
    }
  }

  method Least(keys: set<Key>) returns (least: Key)
    requires keys != {}
    ensures least in keys && forall k :: k in keys ==> least <= k
  {
    least :| least in keys;
    var rest := keys - {least};
    while rest != {}
      invariant least in keys && rest <= keys
      invariant forall k :: k in keys && k !in rest ==> least <= k
      decreases rest
    {
      var k :| k in rest;
      if k < least {
        least := k;
      }
      rest := rest - {k};
    }
  }

  class AppliedStateSet<S> {
    var states: map<Key, Entry<S>>
    var artifactBytes: nat
    var nextVersion: nat

    ghost predicate Valid()
      reads this
    {
      && artifactBytes == TotalBytes(states)
      && forall k :: k in states ==> states[k].version <= nextVersion
    }

    ghost function Contents(): StateSet<S>
      reads this
    {
      StateSet(states, nextVersion)
    }

    constructor ()
      ensures Valid() && Contents() == StateSet(map[], 0)
    {
      states, artifactBytes, nextVersion := map[], 0, 0;
      new;
      assert Sizes(states) == map[];
    }

    method RememberOwnedEntry(key: Key, state: S, artifact: Artifact)
      requires Valid()
      modifies this
      ensures Valid() && Contents() == Remember(old(Contents()), key, state, artifact)
    {
      var kept := artifact;
      TotalWithout(states, key);
      if key in states {
        var existing := states[key];
        artifactBytes := artifactBytes - ArtifactBytes(existing.artifact);
        if !IsComplete(artifact) && IsComplete(existing.artifact) {
          kept := existing.artifact;
        }
      }
      nextVersion := nextVersion + 1;
      TotalWith(states, key, Entry(state, kept, nextVersion));
      states := states[key := Entry(state, kept, nextVersion)];
      artifactBytes := artifactBytes + ArtifactBytes(kept);
    }

    /** The snapshot, in key order. */
    method Checkpoint() returns (keys: seq<Key>, entries: seq<Entry<S>>)
      requires Valid()
      ensures Sorted(keys) && |entries| == |keys|
      ensures forall k :: k in keys <==> k in states
      ensures forall i :: 0 <= i < |keys| ==> entries[i] == states[keys[i]]
    {
      keys := SortedKeys(states);
      entries := [];
      for i := 0 to |keys|
        invariant |entries| == i && forall j :: 0 <= j < i ==> entries[j] == states[keys[j]]
      {
        entries := entries + [states[keys[i]]];
      }
    }

    /** Hands every entry over in key order and empties the set; versions go on from where they were. */
    method TakeEntries() returns (keys: seq<Key>, entries: seq<Entry<S>>)
      requires Valid()
      modifies this`states, this`artifactBytes
      ensures Valid() && Contents() == StateSet(map[], old(nextVersion))
      ensures Sorted(keys) && |entries| == |keys|
      ensures forall k :: k in keys <==> k in old(states)
      ensures forall i :: 0 <= i < |keys| ==> entries[i] == old(states)[keys[i]]
    {
      keys, entries := Checkpoint();
      states, artifactBytes := map[], 0;
      assert Sizes(states) == map[];
    }

    method CompleteCheckpoint(keys: seq<Key>, versions: seq<nat>, ghost snapshot: map<Key, Entry<S>>)
      requires Valid() && |versions| == |keys|
      requires forall k :: k in keys <==> k in snapshot
      requires forall i :: 0 <= i < |keys| ==> versions[i] == snapshot[keys[i]].version
      modifies this`states, this`artifactBytes
      ensures Valid() && Contents() == CompleteSnapshot(old(Contents()), snapshot)
    {
      ghost var was := states;
      for i := 0 to |keys|
        invariant Valid() && states == Released(was, snapshot, keys[..i])
      {
        ReleasedNext(was, snapshot, keys, i);
        if keys[i] in states && states[keys[i]].version == versions[i] {
          DropEntry(keys[i]);
        }
      }
      assert keys[..|keys|] == keys;
    }

    method DropEntry(key: Key)
      requires Valid() && key in states
      modifies this`states, this`artifactBytes
      ensures Valid() && states == old(states) - {key}
    {
      TotalWithout(states, key);
      artifactBytes := artifactBytes - ArtifactBytes(states[key].artifact);
      states := states - {key};
    }
  }

  /** The snapshot version of a listed key is still the one held. */
  ghost predicate Stands<S>(states: map<Key, Entry<S>>, snapshot: map<Key, Entry<S>>, keys: seq<Key>, k: Key) {
    k in keys && k in snapshot && k in states && snapshot[k].version == states[k].version
  }

  /** What is left once the listed keys are done. */
  ghost function Released<S>(states: map<Key, Entry<S>>, snapshot: map<Key, Entry<S>>,
                             keys: seq<Key>): (r: map<Key, Entry<S>>)
  {
    map k | k in states && !Stands(states, snapshot, keys, k) :: states[k]
  }

  lemma ReleasedNext<S>(states: map<Key, Entry<S>>, snapshot: map<Key, Entry<S>>, keys: seq<Key>, i: nat)
    requires i < |keys| && keys[i] in snapshot
    ensures var (left, key) := (Released(states, snapshot, keys[..i]), keys[i]);
            Released(states, snapshot, keys[..i + 1]) ==
            if key in left && left[key].version == snapshot[key].version then left - {key} else left
  {
    assert keys[..i + 1] == keys[..i] + [keys[i]];
  }

  // Whole histories.

  /**
   `latest` is the newest version each key was remembered at, `committed` the versions whose
   checkpoint write succeeded. One checkpoint is in flight at a time: the persist mutex.
  */
  datatype History<S> = History(current: StateSet<S>, latest: map<Key, nat>, committed: set<(Key, nat)>,
                                inFlight: Option<map<Key, Entry<S>>>)

  datatype Step<S> =
    | RememberState(key: Key, state: S, artifact: Artifact)
    | TakeSnapshot
    | CommitSucceeded
    | CommitFailed

  function Initial<S>(): (h: History<S>) {
    History(StateSet(map[], 0), map[], {}, None)
  }

  function Next<S>(h: History<S>, step: Step<S>): (r: History<S>) {
    match step
    case RememberState(key, state, artifact) =>
      h.(current := Remember(h.current, key, state, artifact), latest := h.latest[key := h.current.nextVersion + 1])
    case TakeSnapshot =>
      if h.inFlight.None? then h.(inFlight := Some(h.current.states)) else h
    case CommitSucceeded =>
      if h.inFlight.None? then h
      else
        var snapshot := h.inFlight.value;
        h.(current := CompleteSnapshot(h.current, snapshot),
        committed := h.committed + (set k | k in snapshot :: (k, snapshot[k].version)),
        inFlight := None)
    case CommitFailed => h.(inFlight := None)
  }

  function Run<S>(steps: seq<Step<S>>): (h: History<S>) {
    if steps == [] then Initial() else Next(Run(steps[..|steps| - 1]), steps[|steps| - 1])
  }

  ghost predicate Inv<S>(h: History<S>) {
    && (forall k :: k in h.current.states ==> k in h.latest && h.current.states[k].version == h.latest[k])
    && (forall k :: k in h.latest ==> 0 < h.latest[k] <= h.current.nextVersion)
    && (forall k :: k in h.latest && k !in h.current.states ==> (k, h.latest[k]) in h.committed)
    && (h.inFlight.Some? ==> forall k :: k in h.inFlight.value ==>
          k in h.latest && h.inFlight.value[k].version <= h.latest[k])
  }

  lemma StepKeepsInv<S>(h: History<S>, step: Step<S>)
    requires Inv(h)
    ensures Inv(Next(h, step))
  {
    match step
    case CommitSucceeded =>
      if h.inFlight.Some? {
        var snapshot := h.inFlight.value;
        var r := Next(h, step);
        forall k | k in r.latest && k !in r.current.states
          ensures (k, r.latest[k]) in r.committed
        {
          if k in h.current.states {
            assert k in snapshot && (k, snapshot[k].version) in r.committed;
          }
        }
      }
    case RememberState(key, state, artifact) =>
    case TakeSnapshot =>
    case CommitFailed =>
  }

  /**
   No applied state is lost: over any mix of remembering, snapshots, commits and failed
   commits, each key's newest version is still held, or that very version was committed.
  */
  lemma {:induction false} NothingIsLost<S>(steps: seq<Step<S>>, key: Key)
    ensures Inv(Run(steps))
    ensures var h := Run(steps);
            key in h.latest ==>
              || (key in h.current.states && h.current.states[key].version == h.latest[key])
              || (key, h.latest[key]) in h.committed
  {
    if steps != [] {
      NothingIsLost(steps[..|steps| - 1], key);
      StepKeepsInv(Run(steps[..|steps| - 1]), steps[|steps| - 1]);
    }
  }

  ghost predicate OnlyRemembers<S>(steps: seq<Step<S>>) {
    forall i :: 0 <= i < |steps| ==> steps[i].RememberState?
  }

  lemma RunNext<S>(steps: seq<Step<S>>, step: Step<S>)
    ensures Run(steps + [step]) == Next(Run(steps), step)
  {
    assert (steps + [step])[..|steps|] == steps;
  }

  /** The key is held at its latest version, which is past the one in flight, and complete if it was. */
  ghost predicate HeldAnew<S>(h: History<S>, key: Key, complete: bool) {
    && key in h.current.states && key in h.latest && h.current.states[key].version == h.latest[key]
    && (h.inFlight.Some? && key in h.inFlight.value ==> h.inFlight.value[key].version < h.latest[key])
    && (complete ==> IsComplete(h.current.states[key].artifact))
  }

  lemma {:induction false} RememberingHolds<S>(steps: seq<Step<S>>, more: seq<Step<S>>, key: Key, complete: bool)
    requires Inv(Run(steps)) && OnlyRemembers(more) && HeldAnew(Run(steps), key, complete)
    ensures HeldAnew(Run(steps + more), key, complete) && Run(steps + more).inFlight == Run(steps).inFlight
    decreases |more|
  {
    if more == [] {
      assert steps + more == steps;
    } else {
      var (init, last) := (more[..|more| - 1], more[|more| - 1]);
      RememberingHolds(steps, init, key, complete);
      NothingIsLost(steps + init, key);
      RunNext(steps + init, last);
      assert steps + more == steps + init + [last];
    }
  }

  /** What the last remembering of the key said. */
  ghost function LastState<S>(state: S, more: seq<Step<S>>, key: Key): (r: S)
    requires OnlyRemembers(more)
  {
    if more == [] then state
    else
      var last := more[|more| - 1];
      if last.key == key then last.state else LastState(state, more[..|more| - 1], key)
  }

  lemma {:induction false} HoldsLastState<S>(steps: seq<Step<S>>, more: seq<Step<S>>, key: Key)
    requires OnlyRemembers(more) && key in Run(steps).current.states
    ensures key in Run(steps + more).current.states
    ensures Run(steps + more).current.states[key].state == LastState(Run(steps).current.states[key].state, more, key)
    decreases |more|
  {
    if more == [] {
      assert steps + more == steps;
    } else {
      var (init, last) := (more[..|more| - 1], more[|more| - 1]);
      HoldsLastState(steps, init, key);
      RunNext(steps + init, last);
      assert steps + more == steps + init + [last];
    }
  }

  /**
   A state remembered again while its checkpoint is in flight, and any remembering after that, survive the
   completion: the key is held at its latest version with what was remembered last, a complete artifact included.
  */
  lemma RerememberedSurvives<S>(steps: seq<Step<S>>, key: Key, state: S, artifact: Artifact, more: seq<Step<S>>)
    requires Run(steps).inFlight.Some? && key in Run(steps).inFlight.value && OnlyRemembers(more)
    ensures var h := Run(steps + [RememberState(key, state, artifact)] + more + [CommitSucceeded]);
            && key in h.current.states && key in h.latest && h.current.states[key].version == h.latest[key]
            && h.current.states[key].state == LastState(state, more, key)
            && (key in Run(steps).current.states && IsComplete(Run(steps).current.states[key].artifact)
                ==> IsComplete(h.current.states[key].artifact))
  {
    var complete := key in Run(steps).current.states && IsComplete(Run(steps).current.states[key].artifact);
    var again := steps + [RememberState(key, state, artifact)];
    NothingIsLost(steps, key);
    RunNext(steps, RememberState(key, state, artifact));
    NothingIsLost(again, key);
    RememberingHolds(again, more, key, complete);
    HoldsLastState(again, more, key);
    RunNext(again + more, CommitSucceeded);
  }

  /** While a key stays in the set, a complete artifact is never replaced by an incomplete one. */
  lemma CompleteStays<S>(h: History<S>, step: Step<S>, key: Key)
    requires Inv(h) && key in h.current.states && IsComplete(h.current.states[key].artifact)
    ensures var r := Next(h, step);
            || (key in r.current.states && IsComplete(r.current.states[key].artifact))
            || (key, h.latest[key]) in r.committed
  {
    StepKeepsInv(h, step);
    if step.CommitSucceeded? && h.inFlight.Some? && key !in Next(h, step).current.states {
      var snapshot := h.inFlight.value;
      assert (key, snapshot[key].version) in Next(h, step).committed;
    }
  }

  /**
   Remembering a block replaces its state under a new version and leaves the others alone.  The artifact that comes
   with it stays, unless it lacks its block or proof and the one held lacks neither.
  */
  lemma RememberExactly<S>(set_: StateSet<S>, key: Key, state: S, artifact: Artifact, other: Key)
    ensures var r := Remember(set_, key, state, artifact);
            && key in r.states && r.states[key].state == state
            && r.states[key].version == r.nextVersion == set_.nextVersion + 1
            && (key !in set_.states ==> r.states[key].artifact == artifact)
            && (artifact.Artifact? && artifact.block != [] && artifact.proof != [] ==>
                r.states[key].artifact == artifact)
            && (key in set_.states ==>
                  var held := set_.states[key].artifact;
                  r.states[key].artifact ==
                  if (artifact.NoArtifact? || artifact.block == [] || artifact.proof == [])
                     && held.Artifact? && held.block != [] && held.proof != [] then held else artifact)
            && (other != key ==>
                  && (other in r.states <==> other in set_.states)
                  && (other in r.states ==> r.states[other] == set_.states[other]))
  {
  }

  /** The last remembering of the key in the run. */
  function LastRemembered<S>(steps: seq<Step<S>>, key: Key): (r: Option<S>) {
    if steps == [] then None
    else
      var (init, last) := (steps[..|steps| - 1], steps[|steps| - 1]);
      if last.RememberState? && last.key == key then Some(last.state) else LastRemembered(init, key)
  }

  /** In every run, what is held of a key is the state remembered last. */
  lemma {:induction false} HeldIsLast<S>(steps: seq<Step<S>>, key: Key)
    requires key in Run(steps).current.states
    ensures LastRemembered(steps, key) == Some(Run(steps).current.states[key].state)
  {
    var (init, last) := (steps[..|steps| - 1], steps[|steps| - 1]);
    if !(last.RememberState? && last.key == key) {
      HeldIsLast(init, key);
    }
  }

  /** A checkpoint that commits releases all it took, if nothing was remembered meanwhile. */
  lemma CommitReleases<S>(steps: seq<Step<S>>)
    requires Run(steps).inFlight.None?
    ensures var h := Run(steps + [TakeSnapshot] + [CommitSucceeded]);
            && h.current.states == map[] && h.inFlight.None?
            && forall k :: k in Run(steps).current.states ==> (k, Run(steps).current.states[k].version) in h.committed
  {
    RunNext(steps, TakeSnapshot);
    RunNext(steps + [TakeSnapshot], CommitSucceeded);
    var (s, h) := (Run(steps).current.states, Run(steps + [TakeSnapshot] + [CommitSucceeded]));
    assert h.current == CompleteSnapshot(Run(steps).current, s);
  }
}
