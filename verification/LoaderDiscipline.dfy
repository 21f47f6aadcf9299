/**
 * Loaders where every hash has one encoding: cells are content-addressed, so a caller that adopts a
 * window's caches before redirecting it, and completes a checkpoint only when its records are in the
 * store, meets every condition on the bytes and no loader ever loses a hash.
 */
module LoaderDiscipline {
  import opened Common
  import opened CellRecords
  import opened CellWindows
  import opened Loaders

  type Encoder = Hash -> Encoding

  ghost predicate Encodes(records: seq<Record>, enc: Encoder) {
    forall i :: 0 <= i < |records| ==> records[i].data == enc(records[i].hash)
  }

  ghost predicate CachesEncoded(caches: map<CacheId, Cache>, enc: Encoder) {
    forall id :: id in caches ==> Encodes(Staged(caches[id]), enc)
  }

  ghost predicate AllEncoded(world: World, enc: Encoder) {
    && CachesEncoded(world.caches, enc)
    && (forall h :: h in world.store ==> world.store[h] == enc(h))
  }

  /** From `v` the base chain reaches `dst` through windows that hold nothing themselves. */
  ghost predicate LeadsTo(world: World, v: nat, dst: nat)
    requires WellFormed(world) && v in world.windows
    decreases v
  {
    || v == dst
    || (&& Populated(world.caches, Ids(world.windows[v])) == []
        && world.windows[v].base.Via?
        && FrameOk(world, v, world.windows[v])
        && LeadsTo(world, world.windows[v].base.window, dst))
  }

  /** How callers use the windows. */
  ghost predicate Disciplined(world: World, enc: Encoder, step: Loaders.Step)
    requires WellFormed(world) && Applicable(world, step)
  {
    match step
    case StageLayer(_, layer) => Encodes(layer.flat, enc)
    case SaveRecord(record) => record.data == enc(record.hash)
    case Redirect(src, dst, _) =>
      // The window's caches were adopted first, and it was built over the receiver.
      && (forall i :: 0 <= i < |Populated(world.caches, Ids(world.windows[src]))| ==>
            Populated(world.caches, Ids(world.windows[src]))[i] in world.windows[dst].pending)
      && world.windows[src].base.Via? && FrameOk(world, src, world.windows[src])
      && LeadsTo(world, world.windows[src].base.window, dst)
    case Finish(w, done) =>
      // The checkpoint made every record of its caches readable from the store.
      && world.windows[w].base.Store?
      && forall id, i :: id in done && id in world.caches && 0 <= i < |Staged(world.caches[id])| ==>
          Staged(world.caches[id])[i].hash in world.store
    case _ => true
  }

  // With one encoding per hash, an answer is described by whether there is one.

  lemma LatestEncoded(records: seq<Record>, enc: Encoder, hash: Hash)
    requires Encodes(records, enc) && Latest(records, hash).Some?
    ensures Latest(records, hash) == Some(enc(hash))
  {
    LatestIsLast(records, hash);
    var i :| IsLatest(records, hash, i);
  }

  lemma {:induction false} SearchEncoded(caches: map<CacheId, Cache>, ids: seq<CacheId>, enc: Encoder, hash: Hash)
    requires forall id :: id in caches ==> CacheOk(caches[id]) && Encodes(Staged(caches[id]), enc)
    ensures SearchIn(caches, ids, hash).Some? ==> SearchIn(caches, ids, hash) == Some(enc(hash))
    ensures SearchIn(caches, ids, hash).Some? <==> exists i :: 0 <= i < |ids| && Find(Named(caches, ids[i]), hash).Some?
  {
    if ids == [] {
      SearchInNone(caches, hash);
    } else {
      var (init, last) := (ids[..|ids| - 1], ids[|ids| - 1]);
      assert ids == init + [last];
      SearchEncoded(caches, init, enc, hash);
      SearchInAppend(caches, init, [last], hash);
      SearchInOne(caches, last, hash);
      FindEncoded(caches, last, enc, hash);
      assert forall i :: 0 <= i < |init| ==> ids[i] == init[i];
    }
  }

  lemma FindEncoded(caches: map<CacheId, Cache>, id: CacheId, enc: Encoder, hash: Hash)
    requires forall id :: id in caches ==> CacheOk(caches[id]) && Encodes(Staged(caches[id]), enc)
    ensures Find(Named(caches, id), hash).Some? ==> Find(Named(caches, id), hash) == Some(enc(hash))
  {
    EmptyFindsNothing(hash);
    if id in caches {
      FindIsStaged(caches[id], hash);
      if Find(caches[id], hash).Some? {
        LatestEncoded(Staged(caches[id]), enc, hash);
      }
    }
  }

  lemma {:induction false} ResolvedIsEncoding(world: World, enc: Encoder, u: nat, hash: Hash)
    requires WellFormed(world) && AllEncoded(world, enc) && u in world.windows
    ensures Resolve(world, u, hash).Some? ==> Resolve(world, u, hash) == Some(enc(hash))
    ensures Under(world, u, hash).Some? ==> Under(world, u, hash) == Some(enc(hash))
    decreases u
  {
    SearchEncoded(world.caches, Ids(world.windows[u]), enc, hash);
    if world.windows[u].base.Via? {
      assert FrameOk(world, u, world.windows[u]);
      ResolvedIsEncoding(world, enc, world.windows[u].base.window, hash);
    }
  }

  lemma {:induction false} LeadsToResolves(world: World, v: nat, dst: nat, hash: Hash)
    requires WellFormed(world) && v in world.windows && dst in world.windows && LeadsTo(world, v, dst)
    ensures Resolve(world, v, hash) == Resolve(world, dst, hash)
    decreases v
  {
    if v != dst {
      PopulatedSearch(world.caches, Ids(world.windows[v]), hash);
      SearchInNone(world.caches, hash);
      LeadsToResolves(world, world.windows[v].base.window, dst, hash);
    }
  }

  /** What a redirected window found, the receiver finds: in the adopted caches, or below. */
  lemma RedirectFinds(world: World, enc: Encoder, src: nat, dst: nat, spare: CacheId, hash: Hash)
    requires WellFormed(world) && AllEncoded(world, enc)
    requires Applicable(world, Redirect(src, dst, spare)) && Disciplined(world, enc, Redirect(src, dst, spare))
    ensures Resolve(world, src, hash).Some? ==> Resolve(world, dst, hash).Some?
  {
    var held := Populated(world.caches, Ids(world.windows[src]));
    PopulatedSearch(world.caches, Ids(world.windows[src]), hash);
    SearchEncoded(world.caches, held, enc, hash);
    SearchEncoded(world.caches, Ids(world.windows[dst]), enc, hash);
    LeadsToResolves(world, world.windows[src].base.window, dst, hash);
    if SearchIn(world.caches, held, hash).Some? {
      var i :| 0 <= i < |held| && Find(Named(world.caches, held[i]), hash).Some?;
      assert held[i] in Ids(world.windows[dst]);
      var k :| 0 <= k < |Ids(world.windows[dst])| && Ids(world.windows[dst])[k] == held[i];
    }
  }

  /** What a completed cache gave, the kept caches or the store give. */
  lemma FinishFinds(world: World, enc: Encoder, w: nat, done: set<CacheId>, hash: Hash)
    requires WellFormed(world) && AllEncoded(world, enc)
    requires Applicable(world, Finish(w, done)) && Disciplined(world, enc, Finish(w, done))
    ensures var kept := SearchIn(world.caches, Without(world.windows[w].pending, done) + [world.windows[w].active],
                                 hash);
            Resolve(world, w, hash).Some? ==> kept.Some? || Under(world, w, hash).Some?
  {
    var frame := world.windows[w];
    var kept := Without(frame.pending, done) + [frame.active];
    SearchEncoded(world.caches, Ids(frame), enc, hash);
    SearchEncoded(world.caches, kept, enc, hash);
    if SearchIn(world.caches, Ids(frame), hash).Some? {
      var i :| 0 <= i < |Ids(frame)| && Find(Named(world.caches, Ids(frame)[i]), hash).Some?;
      var id := Ids(frame)[i];
      WithoutMember(frame.pending, done, id);
      if id in kept {
        var k :| 0 <= k < |kept| && kept[k] == id;
      } else {
        DoneInStore(world, enc, w, done, id, hash);
      }
    }
  }

  lemma DoneInStore(world: World, enc: Encoder, w: nat, done: set<CacheId>, id: CacheId, hash: Hash)
    requires WellFormed(world) && Applicable(world, Finish(w, done)) && Disciplined(world, enc, Finish(w, done))
    requires id in done && Find(Named(world.caches, id), hash).Some?
    ensures hash in world.store
  {
    EmptyFindsNothing(hash);
    FindIsStaged(world.caches[id], hash);
    LatestIsLast(Staged(world.caches[id]), hash);
  }

  /** A disciplined step meets its condition for every hash. */
  lemma DisciplinedIsSteady(world: World, enc: Encoder, step: Loaders.Step, hash: Hash)
    requires WellFormed(world) && AllEncoded(world, enc) && Applicable(world, step) && Disciplined(world, enc, step)
    ensures Steady(world, step, hash)
  {
    match step
    case StageLayer(w, layer) => StageIsSteady(world, enc, w, layer, hash);
    case Attach(dst, moved) =>
      ResolvedIsEncoding(world, enc, dst, hash);
      SearchEncoded(world.caches, moved, enc, hash);
    case Redirect(src, dst, spare) =>
      RedirectFinds(world, enc, src, dst, spare, hash);
      ResolvedIsEncoding(world, enc, src, hash);
      ResolvedIsEncoding(world, enc, dst, hash);
    case Finish(w, done) =>
      FinishFinds(world, enc, w, done, hash);
      ResolvedIsEncoding(world, enc, w, hash);
      SearchEncoded(world.caches, Without(world.windows[w].pending, done) + [world.windows[w].active], enc, hash);
    case _ =>
  }

  lemma StageIsSteady(world: World, enc: Encoder, w: nat, layer: Layer, hash: Hash)
    requires WellFormed(world) && AllEncoded(world, enc) && w in world.windows && Encodes(layer.flat, enc)
    ensures StageSafe(world, w, layer, hash)
  {
    if Latest(layer.flat, hash).Some? {
      LatestEncoded(layer.flat, enc, hash);
      forall v | v in world.windows
        ensures Resolve(world, v, hash).None? || Resolve(world, v, hash) == Latest(layer.flat, hash)
      {
        ResolvedIsEncoding(world, enc, v, hash);
      }
    }
  }

  lemma CacheEncoded(caches: map<CacheId, Cache>, enc: Encoder, id: CacheId, c: Cache)
    requires CachesEncoded(caches, enc) && Encodes(Staged(c), enc)
    ensures CachesEncoded(caches[id := c], enc)
  {
  }

  lemma SpareEncoded(caches: map<CacheId, Cache>, enc: Encoder, spare: CacheId)
    requires CachesEncoded(caches, enc)
    ensures CachesEncoded(caches[spare := EMPTY], enc)
  {
    EmptyIsOk();
    CacheEncoded(caches, enc, spare, EMPTY);
  }

  lemma StagedEncoded(caches: map<CacheId, Cache>, enc: Encoder, active: CacheId, layer: Layer)
    requires CachesEncoded(caches, enc) && active in caches && CacheOk(caches[active])
    requires LayerOk(layer) && Agrees(layer) && Encodes(layer.flat, enc)
    ensures CachesEncoded(caches[active := StageIn(caches[active], layer)], enc)
  {
    StageInOk(caches[active], layer);
    CacheEncoded(caches, enc, active, StageIn(caches[active], layer));
  }

  lemma StepCachesEncoded(world: World, enc: Encoder, step: Loaders.Step)
    requires WellFormed(world) && CachesEncoded(world.caches, enc) && Applicable(world, step)
             && Disciplined(world, enc, step)
    ensures CachesEncoded(Loaders.Next(world, step).caches, enc)
  {
    match step
    case StageLayer(w, layer) =>
      assert FrameOk(world, w, world.windows[w]);
      StagedEncoded(world.caches, enc, world.windows[w].active, layer);
    case FoldActive(w, after) =>
      assert FrameOk(world, w, world.windows[w]);
      CacheEncoded(world.caches, enc, world.windows[w].active, after);
    case Open(_, _, spare) => SpareEncoded(world.caches, enc, spare);
    case FreezeActive(_, spare) => SpareEncoded(world.caches, enc, spare);
    case Redirect(_, _, spare) => SpareEncoded(world.caches, enc, spare);
    case _ =>
  }

  lemma StepEncoded(world: World, enc: Encoder, step: Loaders.Step)
    requires WellFormed(world) && AllEncoded(world, enc) && (Applicable(world, step) ==> Disciplined(world, enc, step))
    ensures AllEncoded(Loaders.Next(world, step), enc)
  {
    if Applicable(world, step) {
      StepCachesEncoded(world, enc, step);
      assert forall h :: h in Loaders.Next(world, step).store ==> Loaders.Next(world, step).store[h] == enc(h);
    }
  }

  ghost predicate DisciplinedAt(world: World, enc: Encoder, steps: seq<Loaders.Step>, n: nat)
    requires WellFormed(world) && n < |steps|
  {
    var before := Loaders.Run(world, steps[..n]);
    Applicable(before, steps[n]) ==> Disciplined(before, enc, steps[n])
  }

  lemma {:induction false} EncodedUpTo(world: World, enc: Encoder, steps: seq<Loaders.Step>, n: nat)
    requires WellFormed(world) && AllEncoded(world, enc) && n <= |steps|
    requires forall k :: 0 <= k < n ==> DisciplinedAt(world, enc, steps, k)
    ensures AllEncoded(Loaders.Run(world, steps[..n]), enc)
    decreases n
  {
    if n > 0 {
      EncodedUpTo(world, enc, steps, n - 1);
      assert DisciplinedAt(world, enc, steps, n - 1) && steps[..n][..n - 1] == steps[..n - 1];
      StepEncoded(Loaders.Run(world, steps[..n - 1]), enc, steps[n - 1]);
    }
  }

  /** Over any disciplined run, a hash a loader once returned it returns ever after, with the same bytes. */
  lemma LoadersNeverLose(world: World, enc: Encoder, steps: seq<Loaders.Step>, u: nat, hash: Hash)
    requires WellFormed(world) && AllEncoded(world, enc) && u in world.windows && Resolve(world, u, hash).Some?
    requires forall k :: 0 <= k < |steps| ==> DisciplinedAt(world, enc, steps, k)
    ensures Resolve(Loaders.Run(world, steps), u, hash) == Resolve(world, u, hash)
  {
    forall n | 0 <= n < |steps|
      ensures SteadyAt(world, steps, n, hash)
    {
      EncodedUpTo(world, enc, steps, n);
      assert DisciplinedAt(world, enc, steps, n);
      var before := Loaders.Run(world, steps[..n]);
      if Applicable(before, steps[n]) {
        DisciplinedIsSteady(before, enc, steps[n], hash);
      }
    }
    LoadersKeepBytes(world, steps, u, hash);
  }
}
