/**
 Several encoded-cell caches read as one (service/merkle_update_apply_cache.go:378-399, 555-588,
 668-691, 771-792).

 A window holds its active cache and, after failed checkpoints or adoptions, several frozen
 ones.  A load searches them newest first, each by its own layered lookup; a checkpoint writes
 the chunks of all of them, oldest first.  Both must give the bytes staged last.
*/
module CellWindows {
  import opened Common
  import opened CellRecords
  import opened CellCache

  /** One cache as a value; `folded` is bookkeeping, the records of layers folded away. */
  datatype Cache = Cache(records: seq<Record>, layers: seq<Layer>, layerFolded: nat, folded: seq<Record>)

  const EMPTY: Cache := Cache([], [], 0, [])

  ghost predicate CacheOk(c: Cache) {
    && LayersOk(c.layers, c.layerFolded)
    && AllAgree(c.layers)
    && Reflects(c.records, c.folded + FoldedPrefix(c.layers, c.layerFolded))
  }

  ghost predicate AllOk(caches: seq<Cache>) {
    forall i :: 0 <= i < |caches| ==> CacheOk(caches[i])
  }

  /** What a load of the one cache finds. */
  ghost function Find(c: Cache, hash: Hash): (r: Option<Encoding>) {
    Lookup(c.records, c.layers, hash)
  }

  /** What the cache holds: its base, then its layers. */
  function Held(c: Cache): (records: seq<Record>) {
    c.records + Flatten(c.layers)
  }

  /** Every record ever staged into the cache. */
  function Staged(c: Cache): (records: seq<Record>) {
    c.folded + Flatten(c.layers)
  }

  /** The load path over a list of caches, newest last: the newest cache that finds the hash. */
  ghost function Search(caches: seq<Cache>, hash: Hash): (r: Option<Encoding>) {
    if caches == [] then None
    else
      var found := Find(caches[|caches| - 1], hash);
      if found.Some? then found else Search(caches[..|caches| - 1], hash)
  }

  /** What a checkpoint of the caches writes, in order. */
  function Written(caches: seq<Cache>): (records: seq<Record>) {
    if caches == [] then [] else Written(caches[..|caches| - 1]) + Held(caches[|caches| - 1])
  }

  function History(caches: seq<Cache>): (records: seq<Record>) {
    if caches == [] then [] else History(caches[..|caches| - 1]) + Staged(caches[|caches| - 1])
  }

  lemma FindIsStaged(c: Cache, hash: Hash)
    requires CacheOk(c)
    ensures Find(c, hash) == Latest(Held(c), hash) == Latest(Staged(c), hash)
  {
    LookupIsLatest(c.records, c.layers, hash);
    ViewIsLatestStaged(c.records, c.layers, c.layerFolded, c.folded, hash);
  }

  /** Searching newest first reads what writing every cache's chunks in order leaves. */
  lemma {:induction false} SearchIsWritten(caches: seq<Cache>, hash: Hash)
    requires AllOk(caches)
    ensures Search(caches, hash) == Latest(Written(caches), hash)
  {
    if caches != [] {
      var n := |caches| - 1;
      SearchIsWritten(caches[..n], hash);
      FindIsStaged(caches[n], hash);
      LatestAppend(Written(caches[..n]), Held(caches[n]), hash);
    }
  }

  /** And the bytes staged last over all of them. */
  lemma {:induction false} SearchIsStaged(caches: seq<Cache>, hash: Hash)
    requires AllOk(caches)
    ensures Search(caches, hash) == Latest(History(caches), hash)
  {
    if caches != [] {
      var n := |caches| - 1;
      SearchIsStaged(caches[..n], hash);
      FindIsStaged(caches[n], hash);
      LatestAppend(History(caches[..n]), Staged(caches[n]), hash);
    }
  }

  lemma {:induction false} SearchAppend(a: seq<Cache>, b: seq<Cache>, hash: Hash)
    ensures Search(a + b, hash) == if Search(b, hash).Some? then Search(b, hash) else Search(a, hash)
    decreases |b|
  {
    if b == [] {
      assert a + b == a;
    } else {
      var n := |b| - 1;
      assert (a + b)[..|a + b| - 1] == a + b[..n];
      SearchAppend(a, b[..n], hash);
    }
  }

  lemma SearchOne(c: Cache, hash: Hash)
    ensures Search([c], hash) == Find(c, hash)
  {
    assert [c][..0] == [];
    assert Search([], hash) == None;
  }

  // The steps of one window: staging into the active cache, folding it, freezing it.

  datatype Window = Window(pending: seq<Cache>, active: Cache)

  function Caches(w: Window): (r: seq<Cache>) {
    w.pending + [w.active]
  }

  /** A fold, whole or cut short: layers leave from the front and the staged history stays. */
  ghost predicate FoldsTo(before: Cache, after: Cache) {
    CacheOk(after) && Staged(after) == Staged(before)
  }

  function StageIn(c: Cache, layer: Layer): (r: Cache) {
    c.(layers := c.layers + [layer])
  }

  /** Only a cache that holds something is frozen. */
  function Frozen(w: Window): (r: Window) {
    Window(if Held(w.active) != [] then w.pending + [w.active] else w.pending, EMPTY)
  }

  datatype Step = Stage(layer: Layer) | Fold(after: Cache) | Freeze

  ghost predicate Enabled(w: Window, step: Step) {
    match step
    case Stage(layer) => LayerOk(layer) && Agrees(layer)
    case Fold(after) => FoldsTo(w.active, after)
    case Freeze => true
  }

  ghost function Next(w: Window, step: Step): (r: Window) {
    if !Enabled(w, step) then w
    else
      match step
      case Stage(layer) => w.(active := StageIn(w.active, layer))
      case Fold(after) => w.(active := after)
      case Freeze => Frozen(w)
  }

  ghost function Run(steps: seq<Step>): (w: Window) {
    if steps == [] then Window([], EMPTY) else Next(Run(steps[..|steps| - 1]), steps[|steps| - 1])
  }

  /** Everything the run staged, in order. */
  ghost function StagedBy(steps: seq<Step>): (records: seq<Record>) {
    if steps == [] then []
    else
      var (init, last) := (steps[..|steps| - 1], steps[|steps| - 1]);
      StagedBy(init) + if last.Stage? && LayerOk(last.layer) && Agrees(last.layer) then last.layer.flat else []
  }

  lemma StageInOk(c: Cache, layer: Layer)
    requires CacheOk(c) && LayerOk(layer) && Agrees(layer)
    ensures CacheOk(StageIn(c, layer)) && Staged(StageIn(c, layer)) == Staged(c) + layer.flat
    ensures Held(StageIn(c, layer)) == Held(c) + layer.flat
  {
    StageLemma(c.layers, c.layerFolded, layer);
    Regroup(c.folded, Flatten(c.layers), layer.flat);
    Regroup(c.records, Flatten(c.layers), layer.flat);
  }

  lemma EmptyIsOk()
    ensures CacheOk(EMPTY) && Held(EMPTY) == [] && Staged(EMPTY) == []
  {
  }

  ghost predicate WindowOk(w: Window) {
    AllOk(w.pending) && CacheOk(w.active)
  }

  lemma StepKeepsOk(w: Window, step: Step)
    requires WindowOk(w)
    ensures WindowOk(Next(w, step))
  {
    EmptyIsOk();
    if step.Stage? && Enabled(w, step) {
      StageInOk(w.active, step.layer);
    } else if step.Freeze? {
      assert forall i :: 0 <= i < |w.pending + [w.active]| ==> CacheOk((w.pending + [w.active])[i]);
    }
  }

  /** The search over the window's caches takes in a staged layer, and sees neither folds nor freezes. */
  lemma StepSearch(w: Window, step: Step, hash: Hash)
    requires WindowOk(w)
    ensures Search(Caches(Next(w, step)), hash)
         == if step.Stage? && Enabled(w, step) && Latest(step.layer.flat, hash).Some?
            then Latest(step.layer.flat, hash)
            else Search(Caches(w), hash)
  {
    var r := Next(w, step);
    WindowSearch(w, hash);
    WindowSearch(r, hash);
    StepKeepsOk(w, step);
    if Enabled(w, step) {
      match step
      case Stage(layer) =>
        StageInOk(w.active, layer);
        FindIsStaged(w.active, hash);
        FindIsStaged(r.active, hash);
        LatestAppend(Staged(w.active), layer.flat, hash);
      case Fold(after) =>
        FindIsStaged(w.active, hash);
        FindIsStaged(after, hash);
      case Freeze => FreezeSearch(w, hash);
    }
  }

  lemma WindowSearch(w: Window, hash: Hash)
    ensures Search(Caches(w), hash) == if Find(w.active, hash).Some? then Find(w.active, hash)
            else Search(w.pending, hash)
  {
    SearchAppend(w.pending, [w.active], hash);
    SearchOne(w.active, hash);
  }

  lemma FreezeSearch(w: Window, hash: Hash)
    requires WindowOk(w)
    ensures Search(Frozen(w).pending, hash) == Search(Caches(w), hash) && Find(EMPTY, hash) == None
  {
    EmptyIsOk();
    FindIsStaged(EMPTY, hash);
    FindIsStaged(w.active, hash);
    WindowSearch(w, hash);
  }

  lemma {:induction false} RunKeepsOk(steps: seq<Step>)
    ensures WindowOk(Run(steps))
  {
    EmptyIsOk();
    if steps != [] {
      RunKeepsOk(steps[..|steps| - 1]);
      StepKeepsOk(Run(steps[..|steps| - 1]), steps[|steps| - 1]);
    }
  }

  /** After any stages, folds and freezes a load returns the bytes staged last for the hash. */
  lemma {:induction false} LoadIsLastStaged(steps: seq<Step>, hash: Hash)
    ensures Search(Caches(Run(steps)), hash) == Latest(StagedBy(steps), hash)
  {
    if steps == [] {
      SearchOne(EMPTY, hash);
      EmptyIsOk();
      FindIsStaged(EMPTY, hash);
      assert Caches(Run(steps)) == [EMPTY];
    } else {
      var (init, last) := (steps[..|steps| - 1], steps[|steps| - 1]);
      LoadIsLastStaged(init, hash);
      RunKeepsOk(init);
      StepSearch(Run(init), last, hash);
      if last.Stage? && LayerOk(last.layer) && Agrees(last.layer) {
        LatestAppend(StagedBy(init), last.layer.flat, hash);
      } else {
        assert StagedBy(steps) == StagedBy(init);
      }
    }
  }

  /**
   The chunks of the caches a freeze hands to its checkpoint, written in order with the last write winning, give
   the map that loads read then, which is that of the bytes staged last; later stages and folds leave them alone.
  */
  lemma FrozenChunksGiveTheLoads(steps: seq<Step>, hash: Hash)
    ensures var frozen := Run(steps + [Freeze]).pending;
            Latest(Written(frozen), hash) == Search(Caches(Run(steps)), hash) == Latest(StagedBy(steps), hash)
  {
    assert (steps + [Freeze])[..|steps|] == steps;
    RunKeepsOk(steps);
    RunKeepsOk(steps + [Freeze]);
    FreezeSearch(Run(steps), hash);
    SearchIsWritten(Run(steps + [Freeze]).pending, hash);
    LoadIsLastStaged(steps, hash);
  }

  // The loops.

  /** `cells`: the chunks of all the frozen caches, none empty, which written in order are what `Written` says. */
  method CheckpointChunks(caches: seq<Cache>) returns (chunks: seq<seq<Record>>)
    ensures Concat(chunks) == Written(caches)
    ensures forall k :: 0 <= k < |chunks| ==> chunks[k] != []
  {
    chunks := [];
    for i := 0 to |caches|
      invariant Concat(chunks) == Written(caches[..i])
      invariant forall k :: 0 <= k < |chunks| ==> chunks[k] != []
    {
      var added := LayerChunks(caches[i].records, caches[i].layers);
      ConcatAppend(chunks, added);
      assert caches[..i + 1][..i] == caches[..i];
      chunks := chunks + added;
    }
    assert caches[..|caches|] == caches;
  }

  lemma {:induction false} ConcatAppend(a: seq<seq<Record>>, b: seq<seq<Record>>)
    ensures Concat(a + b) == Concat(a) + Concat(b)
    decreases |b|
  {
    if b == [] {
      assert a + b == a;
    } else {
      var n := |b| - 1;
      assert (a + b)[..|a + b| - 1] == a + b[..n];
      ConcatAppend(a, b[..n]);
      Regroup(Concat(a), Concat(b[..n]), b[n]);
    }
  }

  ghost function ContentsOf(c: EncodedCache): (r: Cache)
    reads c
  {
    Cache(c.records, c.layers, c.layerFolded, c.folded)
  }

  /** Compacting the cache object is a fold in the sense of the steps above. */
  method Compact(c: EncodedCache, target: nat)
    requires c.Valid() && AllAgree(c.layers)
    modifies c, c.index
    ensures c.Valid() && FoldsTo(old(ContentsOf(c)), ContentsOf(c))
  {
    c.CompactStagedLayers(target);
  }

  /** `loadStateCellEncodedCaches`, active cache last in the list: the newest cache that finds the hash answers. */
  method LoadCaches(caches: seq<Cache>, hash: Hash) returns (cell: Option<Encoding>)
    requires AllOk(caches)
    ensures cell == Search(caches, hash)
  {
    var i := |caches|;
    assert caches[..i] == caches;
    while i > 0
      invariant 0 <= i <= |caches|
      invariant Search(caches, hash) == Search(caches[..i], hash)
    {
      i := i - 1;
      assert caches[..i + 1][..i] == caches[..i];
      cell := LoadOne(caches[i], hash);
      if cell.Some? {
        return;
      }
    }
    cell := None;
  }

  method LoadOne(c: Cache, hash: Hash) returns (cell: Option<Encoding>)
    requires CacheOk(c)
    ensures cell == Find(c, hash)
  {
    var hit := ProbeLayers(c.records, c.layers, hash);
    if hit.Some? {
      return Some(c.layers[hit.value.0].flat[hit.value.1].data);
    }
    return Latest(c.records, hash);
  }
}
