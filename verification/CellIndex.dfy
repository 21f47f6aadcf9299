/**
 The fingerprint index of the state-cell cache (service/state_cell_cache_index.go).

 Only eight bytes of each hash are kept beside the records; equal fingerprints are chained
 from the newest position to older ones.
*/
module CellIndex {
  import opened Common
  import opened CellRecords

  /** binary.LittleEndian.Uint64(hash[:8]). */
  function Fingerprint(hash: Hash): (f: nat) {
    hash.head
  }

  ghost function Fingerprints(records: seq<Record>): (fps: seq<nat>)
    ensures |fps| == |records|
    ensures forall i :: 0 <= i < |fps| ==> fps[i] == Fingerprint(records[i].hash)
  {
    seq(|records|, i requires 0 <= i < |records| => Fingerprint(records[i].hash))
  }

  /** The largest position below `bound` holding fingerprint `f`. */
  ghost function Prev(fps: seq<nat>, f: nat, bound: nat): (r: Option<nat>)
    requires bound <= |fps|
    ensures r.Some? ==> r.value < bound && fps[r.value] == f
    ensures forall j :: (if r.Some? then r.value + 1 else 0) <= j < bound ==> fps[j] != f
  {
    if bound == 0 then None else if fps[bound - 1] == f then Some(bound - 1) else Prev(fps, f, bound - 1)
  }

  lemma {:induction false} PrevOfPrefix(fps: seq<nat>, more: seq<nat>, f: nat, bound: nat)
    requires bound <= |fps|
    ensures Prev(fps + more, f, bound) == Prev(fps, f, bound)
  {
    if bound > 0 {
      PrevOfPrefix(fps, more, f, bound - 1);
    }
  }

  function Get(m: map<nat, nat>, k: nat): (r: Option<nat>) {
    if k in m then Some(m[k]) else None
  }

  /** `positions` holds the newest position of each fingerprint, `next` the one before each position. */
  ghost predicate Chained(positions: map<nat, nat>, next: map<nat, nat>, fps: seq<nat>) {
    && (forall f: nat {:trigger Get(positions, f)} :: Get(positions, f) == Prev(fps, f, |fps|))
    && (forall p: nat {:trigger Get(next, p)} :: Get(next, p) == if p < |fps| then Prev(fps, fps[p], p) else None)
  }

  lemma ChainExtends(positions: map<nat, nat>, next: map<nat, nat>, fps: seq<nat>, f: nat)
    requires Chained(positions, next, fps)
    ensures Chained(positions[f := |fps|], if f in positions then next[|fps| := positions[f]] else next, fps + [f])
  {
    var next' := if f in positions then next[|fps| := positions[f]] else next;
    var grown := fps + [f];
    forall g: nat
      ensures Get(positions[f := |fps|], g) == Prev(grown, g, |grown|)
    {
      assert Get(positions, g) == Prev(fps, g, |fps|);
      PrevOfPrefix(fps, [f], g, |fps|);
    }
    forall p: nat
      ensures Get(next', p) == if p < |grown| then Prev(grown, grown[p], p) else None
    {
      assert Get(next, p) == if p < |fps| then Prev(fps, fps[p], p) else None;
      assert Get(positions, f) == Prev(fps, f, |fps|);
      if p <= |fps| {
        PrevOfPrefix(fps, [f], grown[p], p);
      }
    }
  }

  ghost predicate Apart(records: seq<Record>, i: nat, j: nat)
    requires i < j < |records|
  {
    records[i].hash != records[j].hash
  }

  ghost predicate Distinct(records: seq<Record>) {
    forall i, j {:trigger Apart(records, i, j)} :: 0 <= i < j < |records| ==> Apart(records, i, j)
  }

  lemma DistinctReplaced(records: seq<Record>, i: nat, data: Encoding)
    requires Distinct(records) && i < |records|
    ensures Distinct(records[i := Record(records[i].hash, data)])
  {
    var after := records[i := Record(records[i].hash, data)];
    forall j: nat, k: nat | j < k < |records|
      ensures Apart(after, j, k)
    {
      assert Apart(records, j, k);
    }
  }

  lemma DistinctGrown(records: seq<Record>, record: Record)
    requires Distinct(records) && Absent(records, record.hash)
    ensures Distinct(records + [record])
  {
    forall j: nat, k: nat | j < k <= |records|
      ensures Apart(records + [record], j, k)
    {
      assert k < |records| ==> Apart(records, j, k);
    }
  }

  class CacheIndex {
    var positions: map<nat, nat>
    var next: map<nat, nat>

    /** `records` are the cache's records this index stands for. */
    ghost predicate Valid(records: seq<Record>)
      reads this
    {
      Distinct(records) && Chained(positions, next, Fingerprints(records))
    }

    constructor ()
      ensures Valid([])
    {
      positions, next := map[], map[];
    }

    /** Finds the one position of a present hash, and fails exactly on absent ones. */
    method IndexOf(records: seq<Record>, hash: Hash) returns (r: Option<nat>)
      requires Valid(records)
      ensures r.Some? ==> r.value < |records| && records[r.value].hash == hash
      ensures r.None? <==> Absent(records, hash)
    {
      ghost var newest := Prev(Fingerprints(records), Fingerprint(hash), |records|);
      assert Get(positions, Fingerprint(hash)) == newest;
      if Fingerprint(hash) !in positions {
        return None;
      }
      var pos := positions[Fingerprint(hash)];
      if records[pos].hash == hash {
        return Some(pos);
      }
      r := CollisionIndexOf(records, hash, pos);
    }

    method CollisionIndexOf(records: seq<Record>, hash: Hash, from: nat) returns (r: Option<nat>)
      requires Valid(records)
      requires from < |records| && Fingerprint(records[from].hash) == Fingerprint(hash)
      requires forall i :: from <= i < |records| ==> records[i].hash != hash
      ensures r.Some? ==> r.value < |records| && records[r.value].hash == hash
      ensures r.None? <==> Absent(records, hash)
    {
      var pos := from;
      while true
        invariant 0 <= pos < |records| && Fingerprint(records[pos].hash) == Fingerprint(hash)
        invariant forall i :: pos <= i < |records| ==> records[i].hash != hash
        decreases pos
      {
        assert Get(next, pos) == Prev(Fingerprints(records), Fingerprint(hash), pos);
        if pos !in next {
          return None;
        }
        var older := next[pos];
        if records[older].hash == hash {
          return Some(older);
        }
        pos := older;
      }
    }

    method Insert(hash: Hash, pos: nat, ghost records: seq<Record>)
      requires Valid(records) && pos == |records| && Absent(records, hash)
      modifies this
      ensures forall data :: Valid(records + [Record(hash, data)])
    {
      ChainExtends(positions, next, Fingerprints(records), Fingerprint(hash));
      var fingerprint := Fingerprint(hash);
      if fingerprint in positions {
        next := next[pos := positions[fingerprint]];
      }
      positions := positions[fingerprint := pos];
      forall data
        ensures Valid(records + [Record(hash, data)])
      {
        DistinctGrown(records, Record(hash, data));
        assert Fingerprints(records + [Record(hash, data)]) == Fingerprints(records) + [fingerprint];
      }
    }
  }

  /** Replacing an encoding keeps every position, so the index needs no change. */
  lemma ReplaceKeepsIndex(index: CacheIndex, records: seq<Record>, i: nat, data: Encoding)
    requires index.Valid(records) && i < |records|
    ensures index.Valid(records[i := Record(records[i].hash, data)])
  {
    DistinctReplaced(records, i, data);
    assert Fingerprints(records[i := Record(records[i].hash, data)]) == Fingerprints(records);
  }
}
