/**
 Encoded cell records (service/storage/cell_records.go) and the immutable overlay layer one
 staged block publishes (service/merkle_update_apply_cache.go:60-132).
*/
module CellRecords {
  import opened Common

  /** A 32-byte cell hash: its first eight bytes read little-endian, and the other 24. */
  datatype Hash = Hash(head: nat, tail: nat)

  type Encoding = seq<bv8>

  datatype Record = Record(hash: Hash, data: Encoding)

  /** The value a reader finds for `hash` after the records are written in order; empty encodings write nothing. */
  function Latest(records: seq<Record>, hash: Hash): (r: Option<Encoding>) {
    if records == [] then None
    else
      var last := records[|records| - 1];
      if last.hash == hash && last.data != [] then Some(last.data) else Latest(records[..|records| - 1], hash)
  }

  lemma {:induction false} LatestAppend(a: seq<Record>, b: seq<Record>, hash: Hash)
    ensures Latest(a + b, hash) == if Latest(b, hash).Some? then Latest(b, hash) else Latest(a, hash)
    decreases |b|
  {
    if b == [] {
      assert a + b == a;
    } else {
      assert (a + b)[..|a + b| - 1] == a + b[..|b| - 1];
      LatestAppend(a, b[..|b| - 1], hash);
    }
  }

  /** `Latest` is the last non-empty record of the hash, and nothing exactly when there is none. */
  lemma {:induction false} LatestIsLast(records: seq<Record>, hash: Hash)
    ensures Latest(records, hash).Some? <==> exists i :: HasData(records, hash, i)
    ensures forall i :: IsLatest(records, hash, i) ==> Latest(records, hash) == Some(records[i].data)
    ensures Latest(records, hash).Some? ==> exists i :: IsLatest(records, hash, i)
  {
    if records != [] {
      var n := |records| - 1;
      if HasData(records, hash, n) {
        assert IsLatest(records, hash, n);
      } else {
        LatestIsLast(records[..n], hash);
        forall i
          ensures IsLatest(records, hash, i) <==> IsLatest(records[..n], hash, i)
          ensures HasData(records, hash, i) <==> HasData(records[..n], hash, i)
        {
          LatestStep(records, hash, i);
        }
      }
    }
  }

  ghost predicate HasData(records: seq<Record>, hash: Hash, i: int) {
    0 <= i < |records| && records[i].hash == hash && records[i].data != []
  }

  lemma LatestStep(records: seq<Record>, hash: Hash, i: int)
    requires records != [] && !HasData(records, hash, |records| - 1)
    ensures IsLatest(records, hash, i) <==> IsLatest(records[..|records| - 1], hash, i)
    ensures HasData(records, hash, i) <==> HasData(records[..|records| - 1], hash, i)
  {
  }

  ghost predicate IsLatest(records: seq<Record>, hash: Hash, i: int) {
    && HasData(records, hash, i)
    && forall j :: i < j < |records| && records[j].hash == hash ==> records[j].data == []
  }

  /** Total encoded length. */
  function Weight(records: seq<Record>): (bytes: nat) {
    if records == [] then 0 else Weight(records[..|records| - 1]) + |records[|records| - 1].data|
  }

  lemma {:induction false} WeightAppend(a: seq<Record>, b: seq<Record>)
    ensures Weight(a + b) == Weight(a) + Weight(b)
    decreases |b|
  {
    if b == [] {
      assert a + b == a;
    } else {
      assert (a + b)[..|a + b| - 1] == a + b[..|b| - 1];
      WeightAppend(a, b[..|b| - 1]);
    }
  }

  lemma WeightTake(records: seq<Record>, i: nat)
    requires i < |records|
    ensures Weight(records[..i + 1]) == Weight(records[..i]) + |records[i].data|
    ensures Weight(records[i..]) == |records[i].data| + Weight(records[i + 1..])
  {
    assert records[..i + 1][..i] == records[..i];
    assert records[i..] == [records[i]] + records[i + 1..];
    WeightAppend([records[i]], records[i + 1..]);
    assert [records[i]][..0] == [];
  }

  lemma WeightReplace(records: seq<Record>, i: nat, record: Record)
    requires i < |records|
    ensures Weight(records[i := record]) + |records[i].data| == Weight(records) + |record.data|
  {
    var changed := records[i := record];
    WeightTake(records, i);
    WeightTake(changed, i);
    WeightAppend(records[..i], records[i..]);
    WeightAppend(changed[..i], changed[i..]);
    assert records == records[..i] + records[i..] && changed == changed[..i] + changed[i..];
    assert changed[..i] == records[..i] && changed[i + 1..] == records[i + 1..];
  }

  /** Position of the first, and of the last, record of a hash. */
  ghost predicate IsFirst(flat: seq<Record>, hash: Hash, i: int) {
    0 <= i < |flat| && flat[i].hash == hash && forall j :: 0 <= j < i ==> flat[j].hash != hash
  }

  ghost predicate IsLast(flat: seq<Record>, hash: Hash, i: int) {
    0 <= i < |flat| && flat[i].hash == hash && forall j :: i < j < |flat| ==> flat[j].hash != hash
  }

  ghost predicate Absent(flat: seq<Record>, hash: Hash) {
    forall i :: 0 <= i < |flat| ==> flat[i].hash != hash
  }

  /** A prepared record set; builder-produced sets carry their own hash index. */
  datatype RecordSet = RecordSet(flat: seq<Record>, index: Option<map<Hash, nat>>)

  /** What the builder guarantees: non-empty encodings, indexed at their last position. */
  ghost predicate BuilderIndex(flat: seq<Record>, index: map<Hash, nat>) {
    && (forall i :: 0 <= i < |flat| ==> flat[i].data != [] && flat[i].hash in index)
    && (forall h :: h in index ==> IsLast(flat, h, index[h]))
  }

  ghost predicate WellBuilt(records: RecordSet) {
    records.index.Some? ==> BuilderIndex(records.flat, records.index.value)
  }

  /** service/storage/cell_records.go:213-224, 256-262. */
  class RecordBuilder {
    var records: seq<Record>
    var index: map<Hash, nat>

    ghost predicate Valid()
      reads this
    {
      BuilderIndex(records, index)
    }

    constructor ()
      ensures Valid() && records == []
    {
      records, index := [], map[];
    }

    method Add(record: Record)
      requires Valid()
      modifies this
      ensures Valid()
      ensures records == if record.data == [] then old(records) else old(records) + [record]
    {
      if |record.data| == 0 {
        return;
      }
      index := index[record.hash := |records|];
      records := records + [record];
    }

    method Build() returns (built: RecordSet)
      requires Valid()
      ensures WellBuilt(built) && built.flat == records
      ensures built.index.Some? <==> records != []
    {
      // The index map is allocated by the first record added.
      if |records| == 0 {
        return RecordSet(records, None);
      }
      return RecordSet(records, Some(index));
    }
  }

  const LINEAR_SCAN_LIMIT := 64

  /**
   The overlay. `decoded[i]` memoises the cell decoded from `flat[i].data`; a decoded cell is
   represented by the bytes it was decoded from.
  */
  datatype Layer = Layer(flat: seq<Record>, indexed: bool, lookup: Option<map<Hash, nat>>,
                         decoded: seq<Option<Encoding>>, bytes: nat)

  ghost predicate FirstIndex(flat: seq<Record>, index: map<Hash, nat>) {
    && (forall i :: 0 <= i < |flat| ==> flat[i].hash in index)
    && (forall h :: h in index ==> IsFirst(flat, h, index[h]))
  }

  ghost predicate MemoOk(flat: seq<Record>, decoded: seq<Option<Encoding>>) {
    && |decoded| == |flat|
    && forall i :: 0 <= i < |flat| && decoded[i].Some? ==> decoded[i].value == flat[i].data
  }

  ghost predicate LayerOk(layer: Layer) {
    && MemoOk(layer.flat, layer.decoded)
    && layer.bytes == Weight(layer.flat)
    && (layer.indexed ==> layer.lookup.Some? && BuilderIndex(layer.flat, layer.lookup.value))
    && (!layer.indexed && layer.lookup.Some? ==> FirstIndex(layer.flat, layer.lookup.value))
  }

  /** The position a probe of the layer picks: the last record if indexed, else the first. */
  ghost predicate Picks(layer: Layer, hash: Hash, i: int) {
    if layer.indexed then IsLast(layer.flat, hash, i) else IsFirst(layer.flat, hash, i)
  }

  /** What a load sees in the layer: the picked record, unless it is missing or empty. */
  ghost function LayerData(layer: Layer, hash: Hash): (r: Option<Encoding>)
    ensures forall i :: Picks(layer, hash, i) ==> r == if layer.flat[i].data == [] then None
            else Some(layer.flat[i].data)
    ensures Absent(layer.flat, hash) ==> r == None
  {
    if i :| Picks(layer, hash, i) then if layer.flat[i].data == [] then None else Some(layer.flat[i].data)
    else None
  }

  method NewLayer(records: RecordSet) returns (layer: Layer)
    requires WellBuilt(records)
    ensures LayerOk(layer) && layer.flat == records.flat && layer.indexed == records.index.Some?
    ensures forall i :: 0 <= i < |layer.decoded| ==> layer.decoded[i] == None
  {
    var flat := records.flat;
    var decoded := seq(|flat|, _ => None);
    var bytes := 0;
    for i := 0 to |flat|
      invariant bytes == Weight(flat[..i])
    {
      WeightTake(flat, i);
      bytes := bytes + |flat[i].data|;
    }
    assert flat[..|flat|] == flat;
    if records.index.Some? {
      return Layer(flat, true, records.index, decoded, bytes);
    }
    if |flat| <= LINEAR_SCAN_LIMIT {
      return Layer(flat, false, None, decoded, bytes);
    }
    var lookup: map<Hash, nat> := map[];
    for i := 0 to |flat|
      invariant forall k :: 0 <= k < i ==> flat[k].hash in lookup
      invariant forall h :: h in lookup ==> lookup[h] < i && IsFirst(flat, h, lookup[h])
    {
      if flat[i].hash !in lookup {
        lookup := lookup[flat[i].hash := i];
      }
    }
    return Layer(flat, false, Some(lookup), decoded, bytes);
  }

  method IndexOf(layer: Layer, hash: Hash) returns (r: Option<nat>)
    requires LayerOk(layer)
    ensures r.Some? ==> Picks(layer, hash, r.value)
    ensures r.None? ==> Absent(layer.flat, hash)
  {
    if layer.lookup.Some? {
      return if hash in layer.lookup.value then Some(layer.lookup.value[hash]) else None;
    }
    for i := 0 to |layer.flat|
      invariant forall k :: 0 <= k < i ==> layer.flat[k].hash != hash
    {
      if layer.flat[i].hash == hash {
        return Some(i);
      }
    }
    return None;
  }

  /** A layer agrees when probing it and folding it give every hash the same encoding. */
  ghost predicate Agrees(layer: Layer) {
    forall h {:trigger Latest(layer.flat, h)} :: LayerData(layer, h) == Latest(layer.flat, h)
  }

  /**
   The condition on an unindexed set: the first record of every hash carries the bytes of
   its last non-empty one. Sets whose equal hashes have equal data satisfy it.
  */
  ghost predicate FirstMatchesLatest(flat: seq<Record>) {
    forall i, j {:trigger flat[i], flat[j]} ::
      0 <= i < |flat| && 0 <= j < |flat| && IsFirst(flat, flat[i].hash, i) && IsLatest(flat, flat[i].hash, j) ==>
        flat[i].data == flat[j].data
  }

  lemma {:induction false} FirstExists(flat: seq<Record>, hash: Hash)
    requires !Absent(flat, hash)
    ensures exists i :: IsFirst(flat, hash, i)
  {
    if flat[0].hash == hash {
      assert IsFirst(flat, hash, 0);
    } else {
      var rest := flat[1..];
      assert !Absent(rest, hash) by {
        var i :| 0 <= i < |flat| && flat[i].hash == hash;
        assert rest[i - 1].hash == hash;
      }
      FirstExists(rest, hash);
      var i :| IsFirst(rest, hash, i);
      forall j | 0 <= j < i + 1
        ensures flat[j].hash != hash
      {
        if j > 0 {
          assert rest[j - 1] == flat[j];
        }
      }
      assert IsFirst(flat, hash, i + 1);
    }
  }

  /** Builder sets always agree; any other set agrees exactly when it meets the condition. */
  lemma AgreesExactly(layer: Layer)
    requires LayerOk(layer)
    ensures Agrees(layer) <==> layer.indexed || FirstMatchesLatest(layer.flat)
  {
    var flat := layer.flat;
    if layer.indexed || FirstMatchesLatest(flat) {
      forall h
        ensures LayerData(layer, h) == Latest(flat, h)
      {
        LatestIsLast(flat, h);
        if !Absent(flat, h) {
          if layer.indexed {
            assert Picks(layer, h, layer.lookup.value[h]);
            assert IsLatest(flat, h, layer.lookup.value[h]);
          } else {
            FirstExists(flat, h);
            var i :| IsFirst(flat, h, i);
            assert Picks(layer, h, i);
            assert flat[i].data != [] ==> HasData(flat, h, i);
            if Latest(flat, h).Some? {
              var j :| IsLatest(flat, h, j);
              assert flat[i].hash == flat[j].hash;
            }
          }
        }
      }
    } else {
      var i, j :| 0 <= i < |flat| && 0 <= j < |flat| && IsFirst(flat, flat[i].hash, i)
          && IsLatest(flat, flat[i].hash, j) && flat[i].data != flat[j].data;
      var h := flat[i].hash;
      LatestIsLast(flat, h);
      assert Picks(layer, h, i);
      assert LayerData(layer, h) != Latest(flat, h);
    }
  }

  /**
   A set without a builder's index that repeats a hash with other bytes: the layer `NewLayer` makes of it gives
   the first bytes to a probe, and the last to a fold.
  */
  lemma RepeatedHashDiffers(hash: Hash, first: Encoding, last: Encoding)
    requires first != [] && last != [] && first != last
    ensures var flat := [Record(hash, first), Record(hash, last)];
            var layer := Layer(flat, false, None, [None, None], |first| + |last|);
            && WellBuilt(RecordSet(flat, None)) && LayerOk(layer)
            && LayerData(layer, hash) == Some(first) && Latest(layer.flat, hash) == Some(last)
  {
    var flat := [Record(hash, first), Record(hash, last)];
    var layer := Layer(flat, false, None, [None, None], |first| + |last|);
    assert flat[..1] == [flat[0]] && [flat[0]][..0] == [];
    assert Weight([flat[0]]) == |first|;
    assert IsFirst(flat, hash, 0) && Picks(layer, hash, 0);
  }
}
