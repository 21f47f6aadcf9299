/**
 The layered encoded-cell cache (service/merkle_update_apply_cache.go:15-450).

 Staging appends a block's layer in constant time; folding moves layers into the indexed
 base in bounded slices. `Staged` is every record ever staged, in order, and is what loads
 and checkpoint writes are compared with.
*/
module CellCache {
  import opened Common
  import opened CellRecords
  import opened CellIndex

  const FOLD_SLICE_RECORDS := 4096

  /** All records of the layers, oldest layer first. */
  function Flatten(layers: seq<Layer>): (records: seq<Record>) {
    if layers == [] then [] else Flatten(layers[..|layers| - 1]) + layers[|layers| - 1].flat
  }

  /** The load path: newest layer first, then the base. */
  ghost function Lookup(base: seq<Record>, layers: seq<Layer>, hash: Hash): (r: Option<Encoding>) {
    if layers == [] then Latest(base, hash)
    else
      var top := LayerData(layers[|layers| - 1], hash);
      if top.Some? then top else Lookup(base, layers[..|layers| - 1], hash)
  }

  ghost predicate AllAgree(layers: seq<Layer>) {
    forall i :: 0 <= i < |layers| ==> Agrees(layers[i])
  }

  lemma FlattenSnoc(layers: seq<Layer>, layer: Layer)
    ensures Flatten(layers + [layer]) == Flatten(layers) + layer.flat
  {
    assert (layers + [layer])[..|layers|] == layers;
  }

  lemma {:induction false} FlattenFirst(layers: seq<Layer>)
    requires layers != []
    ensures Flatten(layers) == layers[0].flat + Flatten(layers[1..])
  {
    var n := |layers| - 1;
    if n == 0 {
      assert layers[..0] == [] && layers[1..] == [];
      assert Flatten(layers) == [] + layers[0].flat;
    } else {
      var init, tail := layers[..n], layers[1..];
      FlattenFirst(init);
      assert init[1..] == tail[..n - 1];
      assert Flatten(tail) == Flatten(tail[..n - 1]) + layers[n].flat;
      assert Flatten(layers) == (layers[0].flat + Flatten(tail[..n - 1])) + layers[n].flat;
    }
  }

  /** With agreeing layers, the load path reads what writing base then layers in order leaves. */
  lemma {:induction false} LookupIsLatest(base: seq<Record>, layers: seq<Layer>, hash: Hash)
    requires AllAgree(layers)
    ensures Lookup(base, layers, hash) == Latest(base + Flatten(layers), hash)
  {
    if layers == [] {
      assert base + [] == base;
    } else {
      var n := |layers| - 1;
      LookupIsLatest(base, layers[..n], hash);
      var below, top := Flatten(layers[..n]), layers[n].flat;
      assert base + (below + top) == (base + below) + top;
      LatestAppend(base + below, top, hash);
      assert LayerData(layers[n], hash) == Latest(top, hash);
    }
  }

  /** Base positions are unique and non-empty, so `Latest` reads the indexed record. */
  lemma LatestAt(records: seq<Record>, hash: Hash, i: nat)
    requires Distinct(records) && i < |records| && records[i].hash == hash && records[i].data != []
    ensures Latest(records, hash) == Some(records[i].data)
  {
    LatestIsLast(records, hash);
    forall j | i < j < |records|
      ensures records[j].hash != hash
    {
      assert Apart(records, i, j);
    }
    assert IsLatest(records, hash, i);
  }

  lemma LatestAbsent(records: seq<Record>, hash: Hash)
    requires Absent(records, hash)
    ensures Latest(records, hash) == None
  {
    LatestIsLast(records, hash);
  }

  /** The base holds, for every hash, what the history `done` leaves. */
  ghost predicate Reflects(base: seq<Record>, done: seq<Record>) {
    forall h {:trigger Latest(base, h)} {:trigger Latest(done, h)} :: Latest(base, h) == Latest(done, h)
  }

  ghost predicate BaseOk(records: seq<Record>, decoded: seq<Option<Encoding>>, bytes: nat) {
    && MemoOk(records, decoded)
    && bytes == Weight(records)
    && forall i :: 0 <= i < |records| ==> records[i].data != []
  }

  ghost predicate LayersOk(layers: seq<Layer>, layerFolded: nat) {
    && (forall i {:trigger LayerOk(layers[i])} :: 0 <= i < |layers| ==> LayerOk(layers[i]))
    && (layers == [] ==> layerFolded == 0)
    && (layers != [] ==> layerFolded <= |layers[0].flat|)
  }

  /** The records of the oldest layer that are already in the base. */
  ghost function FoldedPrefix(layers: seq<Layer>, layerFolded: nat): (records: seq<Record>)
    requires layers != [] ==> layerFolded <= |layers[0].flat|
  {
    if layers == [] then [] else layers[0].flat[..layerFolded]
  }

  /** Re-reading a prefix the base already reflects changes nothing. */
  lemma RefoldedPrefix(base: seq<Record>, folded: seq<Record>, done: seq<Record>, rest: seq<Record>, hash: Hash)
    requires Latest(base, hash) == Latest(folded + done, hash)
    ensures Latest(base + (done + rest), hash) == Latest(folded + (done + rest), hash)
  {
    LatestAppend(base, done + rest, hash);
    LatestAppend(folded, done + rest, hash);
    LatestAppend(done, rest, hash);
    LatestAppend(folded, done, hash);
  }

  lemma FlattenFromCursor(layers: seq<Layer>, layerFolded: nat)
    requires layers != [] && layerFolded <= |layers[0].flat|
    ensures Flatten(layers) == layers[0].flat[..layerFolded] + (layers[0].flat[layerFolded..] + Flatten(layers[1..]))
  {
    FlattenFirst(layers);
    var done, left, rest := layers[0].flat[..layerFolded], layers[0].flat[layerFolded..], Flatten(layers[1..]);
    assert layers[0].flat == done + left;
    Regroup(done, left, rest);
  }

  /** A load returns the bytes most recently staged for the hash, however far folding has got. */
  lemma ViewIsLatestStaged(base: seq<Record>, layers: seq<Layer>, layerFolded: nat, folded: seq<Record>, hash: Hash)
    requires AllAgree(layers) && (layers != [] ==> layerFolded <= |layers[0].flat|)
    requires Reflects(base, folded + FoldedPrefix(layers, layerFolded))
    ensures Lookup(base, layers, hash) == Latest(folded + Flatten(layers), hash)
  {
    LookupIsLatest(base, layers, hash);
    assert Latest(base, hash) == Latest(folded + FoldedPrefix(layers, layerFolded), hash);
    if layers == [] {
      RefoldedPrefix(base, folded, [], [], hash);
    } else {
      var flat := layers[0].flat;
      RefoldedPrefix(base, folded, flat[..layerFolded], flat[layerFolded..] + Flatten(layers[1..]), hash);
      FlattenFromCursor(layers, layerFolded);
    }
  }

  /** Writing one non-empty record over an indexed base: replace in place, or append. */
  lemma ReplaceIsWrite(records: seq<Record>, i: nat, record: Record)
    requires Distinct(records) && i < |records| && records[i].hash == record.hash && record.data != []
    requires forall k :: 0 <= k < |records| ==> records[k].data != []
    ensures Reflects(records[i := record], records + [record])
  {
    var changed := records[i := record];
    DistinctReplaced(records, i, record.data);
    assert changed == records[i := Record(records[i].hash, record.data)];
    forall h
      ensures Latest(changed, h) == Latest(records + [record], h)
    {
      WriteLatest(records, record, h);
      if h == record.hash {
        LatestAt(changed, h, i);
      } else if k :| 0 <= k < |records| && records[k].hash == h {
        LatestAt(records, h, k);
        LatestAt(changed, h, k);
      } else {
        LatestAbsent(records, h);
        LatestAbsent(changed, h);
      }
    }
  }

  lemma WriteLatest(records: seq<Record>, record: Record, hash: Hash)
    ensures Latest(records + [record], hash) == if hash == record.hash && record.data != [] then Some(record.data)
            else Latest(records, hash)
  {
    assert (records + [record])[..|records|] == records;
  }

  lemma WriteAgain(records: seq<Record>, i: nat)
    requires Distinct(records) && i < |records| && records[i].data != []
    ensures Reflects(records, records + [records[i]])
  {
    forall h
      ensures Latest(records, h) == Latest(records + [records[i]], h)
    {
      WriteLatest(records, records[i], h);
      if h == records[i].hash {
        LatestAt(records, h, i);
      }
    }
  }

  lemma WriteNothing(records: seq<Record>, hash: Hash)
    ensures Reflects(records, records + [Record(hash, [])])
  {
    forall h
      ensures Latest(records, h) == Latest(records + [Record(hash, [])], h)
    {
      WriteLatest(records, Record(hash, []), h);
    }
  }

  /** A base that reflects `done` still does after both take the same record. */
  lemma ReflectsSnoc(was: seq<Record>, now: seq<Record>, done: seq<Record>, record: Record)
    requires Reflects(was, done) && Reflects(now, was + [record])
    ensures Reflects(now, done + [record])
  {
    forall h
      ensures Latest(now, h) == Latest(done + [record], h)
    {
      assert Latest(now, h) == Latest(was + [record], h);
      assert Latest(was, h) == Latest(done, h);
      WriteLatest(was, record, h);
      WriteLatest(done, record, h);
    }
  }

  lemma StageLemma(layers: seq<Layer>, layerFolded: nat, layer: Layer)
    requires LayersOk(layers, layerFolded) && LayerOk(layer)
    ensures LayersOk(layers + [layer], layerFolded)
    ensures FoldedPrefix(layers + [layer], layerFolded) == FoldedPrefix(layers, layerFolded)
    ensures Flatten(layers + [layer]) == Flatten(layers) + layer.flat
    ensures Weight(Flatten(layers + [layer])) == Weight(Flatten(layers)) + layer.bytes
  {
    FlattenSnoc(layers, layer);
    WeightAppend(Flatten(layers), layer.flat);
  }

  lemma LookupSnoc(base: seq<Record>, layers: seq<Layer>, layer: Layer, hash: Hash)
    ensures Lookup(base, layers + [layer], hash)
         == if LayerData(layer, hash).Some? then LayerData(layer, hash) else Lookup(base, layers, hash)
  {
    assert (layers + [layer])[..|layers|] == layers;
  }

  /** Advancing the cursor by one record. */
  lemma CursorWeight(layers: seq<Layer>, layerFolded: nat)
    requires layers != [] && layerFolded < |layers[0].flat|
    ensures Weight(FoldedPrefix(layers, layerFolded + 1))
         == Weight(FoldedPrefix(layers, layerFolded)) + |layers[0].flat[layerFolded].data|
    ensures Weight(FoldedPrefix(layers, layerFolded + 1)) <= Weight(Flatten(layers))
  {
    WeightTake(layers[0].flat, layerFolded);
    FlattenFromCursor(layers, layerFolded + 1);
    WeightAppend(layers[0].flat[..layerFolded + 1], layers[0].flat[layerFolded + 1..] + Flatten(layers[1..]));
  }

  lemma Regroup(a: seq<Record>, b: seq<Record>, c: seq<Record>)
    ensures (a + b) + c == a + (b + c)
  {
  }

  /** The base reflects everything folded, and the layers' byte counter what is not. */
  ghost predicate FoldOk(records: seq<Record>, layers: seq<Layer>, layerFolded: nat, folded: seq<Record>,
                         layerBytes: nat)
  {
    && LayersOk(layers, layerFolded)
    && Reflects(records, folded + FoldedPrefix(layers, layerFolded))
    && layerBytes + Weight(FoldedPrefix(layers, layerFolded)) == Weight(Flatten(layers))
  }

  lemma MemoFits(layers: seq<Layer>, at: nat)
    requires layers != [] && LayersOk(layers, at) && at < |layers[0].flat|
    ensures at < |layers[0].decoded|
    ensures layers[0].decoded[at].Some? ==> layers[0].decoded[at].value == layers[0].flat[at].data
  {
    assert LayerOk(layers[0]);
  }

  lemma CursorBytes(records: seq<Record>, layers: seq<Layer>, layerFolded: nat, folded: seq<Record>, layerBytes: nat)
    requires layers != [] && layerFolded < |layers[0].flat| && FoldOk(records, layers, layerFolded, folded, layerBytes)
    ensures |layers[0].flat[layerFolded].data| <= layerBytes
  {
    CursorWeight(layers, layerFolded);
  }

  /** Folding the record under the cursor into the base moves the cursor and its bytes. */
  lemma CursorLemma(records: seq<Record>, layers: seq<Layer>, layerFolded: nat, folded: seq<Record>, layerBytes: nat,
                    after: seq<Record>, next: nat, left: nat)
    requires layers != [] && layerFolded < |layers[0].flat| && FoldOk(records, layers, layerFolded, folded, layerBytes)
    requires Reflects(after, folded + FoldedPrefix(layers, layerFolded) + [layers[0].flat[layerFolded]])
    requires next == layerFolded + 1 && left == layerBytes - |layers[0].flat[layerFolded].data|
    ensures FoldOk(after, layers, next, folded, left)
  {
    CursorWeight(layers, layerFolded);
    PrefixGrows(folded, layers[0].flat, layerFolded);
  }

  /** Dropping a fully folded first layer moves its records from the layers to what is folded. */
  lemma DropLemma(records: seq<Record>, layers: seq<Layer>, folded: seq<Record>, layerBytes: nat)
    requires layers != [] && FoldOk(records, layers, |layers[0].flat|, folded, layerBytes)
    ensures var (flat, rest) := (layers[0].flat, layers[1..]);
            && FoldOk(records, rest, 0, folded + flat, layerBytes)
            && folded + flat + Flatten(rest) == folded + Flatten(layers)
            && |Flatten(rest)| == |Flatten(layers)| - |flat|
  {
    var (flat, rest) := (layers[0].flat, layers[1..]);
    FlattenFirst(layers);
    WeightAppend(flat, Flatten(rest));
    Regroup(folded, flat, Flatten(rest));
    assert flat[..|flat|] == flat && FoldedPrefix(rest, 0) == [];
    assert folded + flat + [] == folded + flat;
  }

  lemma PrefixGrows(folded: seq<Record>, flat: seq<Record>, i: nat)
    requires i < |flat|
    ensures folded + flat[..i + 1] == (folded + flat[..i]) + [flat[i]]
  {
  }

  /** Memo slots play no part in what the layers hold. */
  ghost predicate SameRecords(a: seq<Layer>, b: seq<Layer>) {
    && |a| == |b|
    && forall i :: 0 <= i < |a| ==> a[i].(decoded := []) == b[i].(decoded := [])
  }

  lemma LayerDataIgnoresMemo(a: Layer, b: Layer, hash: Hash)
    requires a.(decoded := []) == b.(decoded := [])
    ensures LayerData(a, hash) == LayerData(b, hash)
  {
    assert forall i :: Picks(a, hash, i) <==> Picks(b, hash, i);
    if i :| Picks(a, hash, i) {
      assert Picks(b, hash, i);
    }
  }

  lemma {:induction false} SameRecordsSameView(base: seq<Record>, a: seq<Layer>, b: seq<Layer>)
    requires SameRecords(a, b)
    ensures Flatten(a) == Flatten(b)
    ensures forall h :: Lookup(base, a, h) == Lookup(base, b, h)
  {
    if a != [] {
      var n := |a| - 1;
      SameRecordsSameView(base, a[..n], b[..n]);
      assert a[n].(decoded := []) == b[n].(decoded := []);
      forall h
        ensures Lookup(base, a, h) == Lookup(base, b, h)
      {
        LayerDataIgnoresMemo(a[n], b[n], h);
      }
    }
  }

  lemma MemoKeepsLayers(base: seq<Record>, layers: seq<Layer>, layerFolded: nat, i: nat, at: nat)
    requires LayersOk(layers, layerFolded) && i < |layers| && at < |layers[i].flat|
    ensures at < |layers[i].decoded|
    ensures var layer := layers[i].(decoded := layers[i].decoded[at := Some(layers[i].flat[at].data)]);
            && LayersOk(layers[i := layer], layerFolded)
            && SameRecords(layers[i := layer], layers)
            && Flatten(layers[i := layer]) == Flatten(layers)
            && FoldedPrefix(layers[i := layer], layerFolded) == FoldedPrefix(layers, layerFolded)
            && forall h :: Lookup(base, layers[i := layer], h) == Lookup(base, layers, h)
  {
    assert LayerOk(layers[i]);
    var layer := layers[i].(decoded := layers[i].decoded[at := Some(layers[i].flat[at].data)]);
    var after := layers[i := layer];
    forall j | 0 <= j < |after|
      ensures LayerOk(after[j])
    {
      assert LayerOk(layers[j]);
    }
    SameRecordsSameView(base, layers[i := layer], layers);
  }

  /** The layer probe of a load: the newest layer with a non-empty record of the hash. */
  method ProbeLayers(ghost base: seq<Record>, layers: seq<Layer>, hash: Hash) returns (hit: Option<(nat, nat)>)
    requires forall i :: 0 <= i < |layers| ==> LayerOk(layers[i])
    ensures hit.Some? ==>
              var (i, at) := hit.value;
              && i < |layers| && at < |layers[i].flat| && layers[i].flat[at].hash == hash
                  && layers[i].flat[at].data != []
              && Lookup(base, layers, hash) == Some(layers[i].flat[at].data)
    ensures hit.None? ==> Lookup(base, layers, hash) == Latest(base, hash)
  {
    var i := |layers|;
    assert layers[..i] == layers;
    while i > 0
      invariant 0 <= i <= |layers|
      invariant Lookup(base, layers, hash) == Lookup(base, layers[..i], hash)
    {
      i := i - 1;
      assert layers[..i + 1][..i] == layers[..i];
      var at := IndexOf(layers[i], hash);
      if at.Some? && |layers[i].flat[at.value].data| > 0 {
        return Some((i, at.value));
      }
    }
    return None;
  }

  lemma ChunkStep(records: seq<Record>, layers: seq<Layer>, i: nat, added: seq<seq<Record>>)
    requires i < |layers| && Concat(added) == records + Flatten(layers[..i])
    ensures Concat(if layers[i].flat != [] then added + [layers[i].flat] else added)
         == records + Flatten(layers[..i + 1])
  {
    assert layers[..i + 1] == layers[..i] + [layers[i]];
    FlattenSnoc(layers[..i], layers[i]);
    Regroup(records, Flatten(layers[..i]), layers[i].flat);
    ConcatSnoc(added, layers[i].flat);
  }

  method LayerChunks(records: seq<Record>, layers: seq<Layer>) returns (added: seq<seq<Record>>)
    ensures Concat(added) == records + Flatten(layers)
    ensures forall k :: 0 <= k < |added| ==> added[k] != []
  {
    added := if |records| > 0 then [records] else [];
    assert Concat(added) == records + [] by {
      if records != [] {
        ConcatSnoc([], records);
        assert [] + [records] == added;
      }
    }
    for i := 0 to |layers|
      invariant Concat(added) == records + Flatten(layers[..i])
      invariant forall k :: 0 <= k < |added| ==> added[k] != []
    {
      ChunkStep(records, layers, i, added);
      if |layers[i].flat| > 0 {
        added := added + [layers[i].flat];
      }
    }
    assert layers[..|layers|] == layers;
  }

  function Concat(chunks: seq<seq<Record>>): (records: seq<Record>) {
    if chunks == [] then [] else Concat(chunks[..|chunks| - 1]) + chunks[|chunks| - 1]
  }

  lemma ConcatSnoc(chunks: seq<seq<Record>>, chunk: seq<Record>)
    ensures Concat(chunks + [chunk]) == Concat(chunks) + chunk
  {
    assert (chunks + [chunk])[..|chunks|] == chunks;
  }

  class EncodedCache {
    const index: CacheIndex
    var records: seq<Record>
    var decoded: seq<Option<Encoding>>
    var bytes: nat
    var layers: seq<Layer>
    var layerBytes: nat
    var layerFolded: nat
    var prewritePending: int
    // Every record of the layers already folded away.
    ghost var folded: seq<Record>

    ghost predicate Valid()
      reads this, index
    {
      && index.Valid(records)
      && BaseOk(records, decoded, bytes)
      && FoldOk(records, layers, layerFolded, folded, layerBytes)
    }

    /** Every record staged so far, oldest first. */
    ghost function Staged(): seq<Record>
      reads this
    {
      folded + Flatten(layers)
    }

    ghost function View(hash: Hash): Option<Encoding>
      reads this
    {
      Lookup(records, layers, hash)
    }

    /** How many staged records are still to be folded. */
    ghost function Unfolded(): int
      reads this
    {
      |Flatten(layers)| - layerFolded
    }

    constructor ()
      ensures Valid() && fresh(index)
      ensures Staged() == [] && layers == [] && records == []
      ensures prewritePending == 0
    {
      index := new CacheIndex();
      records, decoded, bytes := [], [], 0;
      layers, layerBytes, layerFolded := [], 0, 0;
      prewritePending := 0;
      folded := [];
    }

    /** Publishes a layer; reports whether a prewrite for it is now owed. */
    method StageLayer(layer: Layer, prewriter: bool) returns (owed: bool)
      requires Valid() && LayerOk(layer)
      modifies this`layers, this`layerBytes, this`prewritePending
      ensures Valid() && owed == prewriter
      ensures Staged() == old(Staged()) + layer.flat
      ensures layers == old(layers) + [layer]
      ensures forall h :: View(h) == if LayerData(layer, h).Some? then LayerData(layer, h) else old(View(h))
      ensures prewritePending == old(prewritePending) + (if prewriter then 1 else 0)
    {
      StageLemma(layers, layerFolded, layer);
      ghost var was := layers;
      assert folded + (Flatten(was) + layer.flat) == (folded + Flatten(was)) + layer.flat;
      layers := layers + [layer];
      layerBytes := layerBytes + layer.bytes;
      if prewriter {
        prewritePending := prewritePending + 1;
      }
      owed := prewriter;
      forall h
        ensures View(h) == if LayerData(layer, h).Some? then LayerData(layer, h) else old(View(h))
      {
        LookupSnoc(records, was, layer, h);
      }
    }

    /** Inserts or replaces one base record; an empty encoding is ignored. */
    method SetRecord(hash: Hash, data: Encoding) returns (changed: bool)
      requires index.Valid(records) && BaseOk(records, decoded, bytes)
      modifies this`records, this`decoded, this`bytes, index
      ensures index.Valid(records) && BaseOk(records, decoded, bytes)
      ensures Reflects(records, old(records) + [Record(hash, data)])
      ensures !changed ==> records == old(records)
      ensures changed ==> data != [] && |records| - |old(records)| == if Absent(old(records), hash) then 1 else 0
    {
      if |data| == 0 {
        WriteNothing(records, hash);
        return false;
      }
      var found := index.IndexOf(records, hash);
      if found.Some? {
        var i := found.value;
        if records[i].data == data {
          WriteAgain(records, i);
          return false;
        }
        WeightReplace(records, i, Record(hash, data));
        ReplaceKeepsIndex(index, records, i, data);
        ReplaceIsWrite(records, i, Record(hash, data));
        bytes := bytes - |records[i].data| + |data|;
        records := records[i := Record(hash, data)];
        decoded := decoded[i := None];
        return true;
      }
      index.Insert(hash, |records|, records);
      WeightAppend(records, [Record(hash, data)]);
      assert [Record(hash, data)][..0] == [];
      records := records + [Record(hash, data)];
      decoded := decoded + [None];
      bytes := bytes + |data|;
      return true;
    }

    /** Folds the record under the cursor; the caller holds the lock for the whole slice. */
    method FoldOne()
      requires Valid() && layers != [] && layerFolded < |layers[0].flat|
      modifies this`records, this`decoded, this`bytes, this`layerBytes, this`layerFolded, index
      ensures Valid() && layerFolded == old(layerFolded) + 1
    {
      MemoFits(layers, layerFolded);
      CursorBytes(records, layers, layerFolded, folded, layerBytes);
      ghost var at, left := layerFolded, layerBytes;
      var record, memo := layers[0].flat[layerFolded], layers[0].decoded[layerFolded];
      layerFolded, layerBytes := layerFolded + 1, layerBytes - |record.data|;
      FoldPassed(record, memo, at, left);
    }

    /** The record that the cursor has just passed goes into the base. */
    method FoldPassed(record: Record, memo: Option<Encoding>, ghost at: nat, ghost left: nat)
      requires index.Valid(records) && BaseOk(records, decoded, bytes) && FoldOk(records, layers, at, folded, left)
      requires layers != [] && at < |layers[0].flat| && record == layers[0].flat[at]
      requires layerFolded == at + 1 && layerBytes == left - |record.data|
      requires memo.Some? ==> memo.value == record.data
      modifies this`records, this`decoded, this`bytes, index
      ensures Valid()
    {
      ghost var was := records;
      FoldRecord(record, memo, folded + FoldedPrefix(layers, at));
      CursorLemma(was, layers, at, folded, left, records, layerFolded, layerBytes);
    }

    method FoldRecord(record: Record, memo: Option<Encoding>, ghost done: seq<Record>)
      requires index.Valid(records) && BaseOk(records, decoded, bytes) && Reflects(records, done)
      requires memo.Some? ==> memo.value == record.data
      modifies this`records, this`decoded, this`bytes, index
      ensures index.Valid(records) && BaseOk(records, decoded, bytes) && Reflects(records, done + [record])
    {
      ghost var was := records;
      var _ := SetRecord(record.hash, record.data);
      ReflectsSnoc(was, records, done, record);
      if memo.Some? && |record.data| > 0 {
        WriteLatest(done, record, record.hash);
        MoveMemo(record.hash, memo.value);
      }
    }

    /** The layer's decoded cell moves into the base slot of the bytes just folded, unless one is there. */
    method MoveMemo(hash: Hash, memo: Encoding)
      requires index.Valid(records) && BaseOk(records, decoded, bytes) && Latest(records, hash) == Some(memo)
      modifies this`decoded
      ensures BaseOk(records, decoded, bytes)
    {
      var found := index.IndexOf(records, hash);
      if found.None? {
        LatestAbsent(records, hash);
        assert false;
      }
      LatestAt(records, hash, found.value);
      if decoded[found.value].None? {
        decoded := decoded[found.value := Some(memo)];
      }
    }

    /** The tail of a fold: the fully folded oldest layer leaves the list. */
    method DropFirst()
      requires Valid() && layers != [] && layerFolded == |layers[0].flat|
      modifies this`layers, this`layerFolded, this`folded
      ensures Valid() && Staged() == old(Staged())
      ensures layers == old(layers)[1..] && layerFolded == 0
      ensures Unfolded() == old(Unfolded())
    {
      DropLemma(records, layers, folded, layerBytes);
      folded, layers, layerFolded := folded + layers[0].flat, layers[1..], 0;
    }

    /**
     Folds the oldest layers until `remove` of them are gone or `budget` records were moved.
     `owed` reports that the budget ran out first.
    */
    method FoldLayers(remove: int, budget: int) returns (gone: nat, owed: bool)
      requires Valid()
      modifies this`records, this`decoded, this`bytes, this`layers, this`layerBytes, this`layerFolded, this`folded,
          index
      ensures Valid()
      ensures Staged() == old(Staged())
      ensures gone <= |old(layers)| && layers == old(layers)[gone..] && (gone > 0 ==> gone <= remove)
      ensures old(AllAgree(layers)) ==> forall h :: View(h) == old(View(h))
      ensures !owed ==> gone >= remove || layers == []
      ensures owed ==> gone < remove && layers != []
      ensures old(Unfolded()) - Unfolded() <= (if budget > 0 then budget else 0)
      ensures owed && budget > 0 ==> old(Unfolded()) - Unfolded() == budget
    {
      ghost var start, cursor, history, base := layers, layerFolded, folded, records;
      gone, owed := FoldSlice(remove, budget);
      if AllAgree(start) {
        FoldKeepsView(base, start, cursor, history, gone);
      }
    }

    /** Folds, slice by slice, until at most `target` layers are left. */
    method CompactStagedLayers(target: nat)
      requires Valid()
      modifies this`records, this`decoded, this`bytes, this`layers, this`layerBytes, this`layerFolded, this`folded,
          index
      ensures Valid() && Staged() == old(Staged())
      ensures |layers| == if |old(layers)| > target then target else |old(layers)|
      ensures old(AllAgree(layers)) ==> AllAgree(layers) && forall h :: View(h) == old(View(h))
    {
      ghost var start, cursor, history, base := layers, layerFolded, folded, records;
      FoldSlices(target);
      if AllAgree(start) {
        FoldKeepsView(base, start, cursor, history, |start| - |layers|);
      }
    }

    /** The loop over the slices. */
    method FoldSlices(target: nat)
      requires Valid()
      modifies this`records, this`decoded, this`bytes, this`layers, this`layerBytes, this`layerFolded, this`folded,
          index
      ensures Valid() && Staged() == old(Staged())
      ensures |layers| == if |old(layers)| > target then target else |old(layers)|
      ensures layers == old(layers)[|old(layers)| - |layers|..]
    {
      ghost var start := layers;
      var remove := |layers| - target;
      UnfoldedIsNatural();
      ghost var cut := 0;
      while remove > 0
        invariant Valid() && Staged() == old(Staged()) && Unfolded() >= 0
        invariant 0 <= cut <= |start| && layers == start[cut..] && |layers| == |start| - cut
        invariant remove > 0 ==> remove == |layers| - target
        invariant remove <= 0 ==> |layers| == if |start| > target then target else |start|
        decreases remove > 0, Unfolded()
      {
        var gone, owed := FoldSlice(remove, FOLD_SLICE_RECORDS);
        CutAgain(start, cut, gone);
        cut := cut + gone;
        remove := if owed then remove - gone else 0;
      }
    }

    static lemma CutAgain(layers: seq<Layer>, cut: nat, gone: nat)
      requires cut <= |layers| && gone <= |layers[cut..]|
      ensures layers[cut..][gone..] == layers[cut + gone..]
    {
    }

    lemma UnfoldedIsNatural()
      requires Valid()
      ensures Unfolded() >= 0
    {
      if layers != [] {
        FlattenFirst(layers);
      }
    }

    /** The loop of a fold, with what it moves. */
    method FoldSlice(remove: int, budget: int) returns (gone: nat, owed: bool)
      requires Valid()
      modifies this`records, this`decoded, this`bytes, this`layers, this`layerBytes, this`layerFolded, this`folded,
          index
      ensures Valid() && Staged() == old(Staged())
      ensures gone <= |old(layers)| && layers == old(layers)[gone..] && (gone > 0 ==> gone <= remove)
      ensures Unfolded() >= 0 && |layers| == |old(layers)| - gone
      ensures !owed ==> gone >= remove || layers == []
      ensures owed ==> gone < remove && layers != []
      ensures old(Unfolded()) - Unfolded() <= (if budget > 0 then budget else 0)
      ensures owed && budget > 0 ==> old(Unfolded()) - Unfolded() == budget
    {
      gone := 0;
      owed := false;
      var left := budget;
      ghost var start := layers;
      while gone < remove && |layers| > 0
        invariant Valid() && Staged() == old(Staged())
        invariant gone <= |start| && layers == start[gone..] && (gone > 0 ==> gone <= remove)
        invariant old(Unfolded()) - Unfolded() == budget - left
        invariant left >= 0 || left == budget
        decreases |layers|, left
      {
        if left <= 0 {
          owed := true;
          break;
        }
        var used, dropped := FoldFront(left);
        left := left - used;
        if dropped {
          gone := gone + 1;
          assert layers == start[gone..];
        }
      }
      UnfoldedIsNatural();
    }

    /** One round of a fold: as much of the oldest layer as `left` records allow. */
    method FoldFront(left: int) returns (used: nat, dropped: bool)
      requires Valid() && layers != [] && left > 0
      modifies this`records, this`decoded, this`bytes, this`layers, this`layerBytes, this`layerFolded, this`folded,
          index
      ensures Valid() && Staged() == old(Staged()) && used <= left
      ensures Unfolded() == old(Unfolded()) - used
      ensures layers == if dropped then old(layers)[1..] else old(layers)
      ensures !dropped ==> used == left
    {
      var size := |layers[0].flat|;
      var next := if size < layerFolded + left then size else layerFolded + left;
      used := next - layerFolded;
      FoldTo(next);
      dropped := next == size;
      if dropped {
        DropFirst();
      }
    }

    /** The inner walk of a fold slice. */
    method FoldTo(next: nat)
      requires Valid() && layers != [] && layerFolded <= next <= |layers[0].flat|
      modifies this`records, this`decoded, this`bytes, this`layerBytes, this`layerFolded, index
      ensures Valid() && layerFolded == next && Staged() == old(Staged())
    {
      while layerFolded < next
        invariant Valid() && layerFolded <= next
      {
        FoldOne();
      }
    }

    lemma FoldKeepsView(base: seq<Record>, start: seq<Layer>, cursor: nat, history: seq<Record>, gone: nat)
      requires Valid() && AllAgree(start) && (start != [] ==> cursor <= |start[0].flat|)
      requires Reflects(base, history + FoldedPrefix(start, cursor))
      requires gone <= |start| && layers == start[gone..] && Staged() == history + Flatten(start)
      ensures forall h :: View(h) == Lookup(base, start, h)
    {
      forall h
        ensures View(h) == Lookup(base, start, h)
      {
        ViewIsLatestStaged(base, start, cursor, history, h);
        ViewIsLatestStaged(records, layers, layerFolded, folded, h);
      }
    }

    /** Loads a hash through the memo slots; only the memo changes. */
    method LoadWith(hash: Hash) returns (cell: Option<Encoding>)
      requires Valid()
      modifies this`decoded, this`layers
      ensures Valid() && cell == View(hash)
      ensures forall h :: View(h) == old(View(h))
      ensures Staged() == old(Staged()) && SameRecords(layers, old(layers))
    {
      var hit := ProbeLayers(records, layers, hash);
      if hit.Some? {
        var (i, at) := hit.value;
        if layers[i].decoded[at].Some? {
          return layers[i].decoded[at];
        }
        cell := Some(layers[i].flat[at].data);
        StoreLayerMemo(i, at);
        return;
      }
      var found := index.IndexOf(records, hash);
      if found.None? {
        LatestAbsent(records, hash);
        return None;
      }
      LatestAt(records, hash, found.value);
      if decoded[found.value].Some? {
        return decoded[found.value];
      }
      cell := Some(records[found.value].data);
      decoded := decoded[found.value := cell];
    }

    method StoreLayerMemo(i: nat, at: nat)
      requires Valid() && i < |layers| && at < |layers[i].flat|
      modifies this`layers
      ensures Valid() && Staged() == old(Staged()) && SameRecords(layers, old(layers))
      ensures forall h :: View(h) == old(View(h))
    {
      MemoKeepsLayers(records, layers, layerFolded, i, at);
      layers := layers[i := layers[i].(decoded := layers[i].decoded[at := Some(layers[i].flat[at].data)])];
    }

    /** The chunks a checkpoint write consumes in order: base, then layers oldest first. */
    method AppendRecordChunks(chunks: seq<seq<Record>>) returns (all: seq<seq<Record>>, size: nat)
      requires Valid()
      ensures chunks <= all && (forall k :: |chunks| <= k < |all| ==> all[k] != [])
      ensures Concat(all[|chunks|..]) == records + Flatten(layers)
      ensures size + Weight(FoldedPrefix(layers, layerFolded)) == Weight(Concat(all[|chunks|..]))
    {
      var added := LayerChunks(records, layers);
      all := chunks + added;
      assert all[|chunks|..] == added;
      size := bytes + layerBytes;
      WeightAppend(records, Flatten(layers));
    }

    /** Written in order with the last write winning, the chunks give exactly what loads return. */
    lemma ChunksGiveTheView(written: seq<Record>, hash: Hash)
      requires Valid() && AllAgree(layers) && written == records + Flatten(layers)
      ensures Latest(written, hash) == View(hash) == Latest(Staged(), hash)
    {
      LookupIsLatest(records, layers, hash);
      ViewIsLatestStaged(records, layers, layerFolded, folded, hash);
    }
  }

  /** The prewriter sequence covering a cache, when its records need no checkpoint write. */
  function TargetOf(empty: bool, pending: int, token: nat): (r: (nat, bool)) {
    if empty then (0, true)
    else if pending > 0 || token == 0 then (0, false)
    else (token, true)
  }
}
