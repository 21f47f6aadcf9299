/**
 State-cell windows and the loaders handed out from them
 (service/merkle_update_apply_cache.go:145-187, 555-588, 597-747, 844-866).

 A loader closes over its window, so what it returns depends on every later stage, fold,
 checkpoint, adoption and redirection.  It searches the window's caches newest first, each by its
 own layered lookup, and then the window's base: the store, or an older window's loader.  Window
 numbers grow with age of creation.  A cache adopted by another window is held by both.

 Main results, with no assumption on the bytes: when exactly adopting, redirecting and completing
 keep a loader's answer, and that every loader keeps its answer over every run whose steps meet
 those conditions.  Where each hash has one encoding, callers that adopt before redirecting and
 save before completing always meet them.
*/
module Loaders {
  import opened Common
  import opened CellRecords
  import opened CellWindows

  type CacheId = nat

  datatype Base = Store | Via(window: nat)

  datatype Frame = Frame(active: CacheId, pending: seq<CacheId>, base: Base)

  datatype World = World(caches: map<CacheId, Cache>, windows: map<nat, Frame>, store: map<Hash, Encoding>)

  ghost predicate WellFormed(world: World) {
    && (forall w :: w in world.windows ==> FrameOk(world, w, world.windows[w]))
    && CachesOk(world.caches)
  }

  ghost predicate CachesOk(caches: map<CacheId, Cache>) {
    forall id :: id in caches ==> CacheOk(caches[id])
  }

  ghost predicate FrameOk(world: World, w: nat, frame: Frame) {
    FrameIn(world.caches.Keys, world.windows.Keys, w, frame)
  }

  ghost predicate FrameIn(caches: set<CacheId>, windows: set<nat>, w: nat, frame: Frame) {
    && frame.active in caches
    && (forall i :: 0 <= i < |frame.pending| ==> frame.pending[i] in caches)
    && (frame.base.Via? ==> frame.base.window < w && frame.base.window in windows)
  }

  function Named(caches: map<CacheId, Cache>, id: CacheId): (c: Cache) {
    if id in caches then caches[id] else EMPTY
  }

  /** The named caches, oldest first. */
  function Listed(caches: map<CacheId, Cache>, ids: seq<CacheId>): (r: seq<Cache>) {
    seq(|ids|, i requires 0 <= i < |ids| => Named(caches, ids[i]))
  }

  ghost function SearchIn(caches: map<CacheId, Cache>, ids: seq<CacheId>, hash: Hash): (r: Option<Encoding>) {
    Search(Listed(caches, ids), hash)
  }

  function Ids(frame: Frame): (ids: seq<CacheId>) {
    frame.pending + [frame.active]
  }

  /** What the loader of window `w` returns: its caches newest first, then its base. */
  ghost function Resolve(world: World, w: nat, hash: Hash): (r: Option<Encoding>)
    requires WellFormed(world) && w in world.windows
    decreases w
  {
    var found := SearchIn(world.caches, Ids(world.windows[w]), hash);
    if found.Some? then found
    else match world.windows[w].base
      case Store => if hash in world.store then Some(world.store[hash]) else None
      case Via(older) => Resolve(world, older, hash)
  }

  /** What lies below a window's caches. */
  ghost function Under(world: World, w: nat, hash: Hash): (r: Option<Encoding>)
    requires WellFormed(world) && w in world.windows
  {
    match world.windows[w].base
    case Store => if hash in world.store then Some(world.store[hash]) else None
    case Via(older) => Resolve(world, older, hash)
  }

  /** Caches that hold something; only these are frozen or adopted. */
  function Populated(caches: map<CacheId, Cache>, ids: seq<CacheId>): (kept: seq<CacheId>) {
    if ids == [] then []
    else
      var (init, last) := (Populated(caches, ids[..|ids| - 1]), ids[|ids| - 1]);
      if Held(Named(caches, last)) != [] then init + [last] else init
  }

  function Without(ids: seq<CacheId>, done: set<CacheId>): (kept: seq<CacheId>) {
    if ids == [] then []
    else
      var (init, last) := (Without(ids[..|ids| - 1], done), ids[|ids| - 1]);
      if last in done then init else init + [last]
  }

  // Steps, one per locked section.

  /**
   Attach is the locked end of adoptRecordsFrom: `moved` are the source's caches as read before, one lock at a
   time.  Redirect is releaseRecordsToBase, Finish the completion of a checkpoint.
  */
  datatype Step =
    | Open(w: nat, base: Base, spare: CacheId)
    | StageLayer(w: nat, layer: Layer)
    | FoldActive(w: nat, after: Cache)
    | FreezeActive(w: nat, spare: CacheId)
    | SaveRecord(record: Record)
    | Attach(dst: nat, moved: seq<CacheId>)
    | Redirect(src: nat, dst: nat, spare: CacheId)
    | Finish(w: nat, done: set<CacheId>)

  ghost predicate Applicable(world: World, step: Step)
    requires WellFormed(world)
  {
    match step
    case Open(w, base, spare) =>
      && spare !in world.caches && (forall v :: v in world.windows ==> v < w)
      && (base.Via? ==> base.window < w && base.window in world.windows)
    case StageLayer(w, layer) => w in world.windows && LayerOk(layer) && Agrees(layer)
    case FoldActive(w, after) => w in world.windows && FoldsTo(Named(world.caches, world.windows[w].active), after)
    case FreezeActive(w, spare) => w in world.windows && spare !in world.caches
    case SaveRecord(record) => true
    case Attach(dst, moved) => dst in world.windows && forall i :: 0 <= i < |moved| ==> moved[i] in world.caches
    case Redirect(src, dst, spare) => src in world.windows && dst in world.windows && dst < src
        && spare !in world.caches
    case Finish(w, done) => w in world.windows
  }

  ghost function Next(world: World, step: Step): (r: World)
    requires WellFormed(world)
  {
    if !Applicable(world, step) then world
    else
      match step
      case Open(w, base, spare) => world.(caches := world.caches[spare := EMPTY],
                                          windows := world.windows[w := Frame(spare, [], base)])
      case StageLayer(w, layer) =>
        var active := world.windows[w].active;
        world.(caches := world.caches[active := StageIn(Named(world.caches, active), layer)])
      case FoldActive(w, after) => world.(caches := world.caches[world.windows[w].active := after])
      case FreezeActive(w, spare) =>
        var frame := world.windows[w];
        var frozen := if Held(Named(world.caches, frame.active)) != [] then frame.pending + [frame.active]
            else frame.pending;
        world.(caches := world.caches[spare := EMPTY], windows := world.windows[w := Frame(spare, frozen, frame.base)])
      case SaveRecord(record) => world.(store := world.store[record.hash := record.data])
      case Attach(dst, moved) =>
        var to := world.windows[dst];
        world.(windows := world.windows[dst := to.(pending := to.pending + moved)])
      case Redirect(src, dst, spare) =>
        world.(caches := world.caches[spare := EMPTY], windows := world.windows[src := Frame(spare, [], Via(dst))])
      case Finish(w, done) =>
        var frame := world.windows[w];
        world.(windows := world.windows[w := frame.(pending := Without(frame.pending, done))])
  }

  // Searches over ids.

  lemma SearchInAppend(caches: map<CacheId, Cache>, a: seq<CacheId>, b: seq<CacheId>, hash: Hash)
    ensures SearchIn(caches, a + b, hash) == if SearchIn(caches, b, hash).Some? then SearchIn(caches, b, hash)
            else SearchIn(caches, a, hash)
  {
    assert Listed(caches, a + b) == Listed(caches, a) + Listed(caches, b);
    SearchAppend(Listed(caches, a), Listed(caches, b), hash);
  }

  lemma SearchInOne(caches: map<CacheId, Cache>, id: CacheId, hash: Hash)
    ensures SearchIn(caches, [id], hash) == Find(Named(caches, id), hash)
  {
    assert Listed(caches, [id]) == [Named(caches, id)];
    SearchOne(Named(caches, id), hash);
  }

  lemma SearchInNone(caches: map<CacheId, Cache>, hash: Hash)
    ensures SearchIn(caches, [], hash) == None
  {
  }

  /** Caches that give the hash alike make searches give it alike. */
  lemma {:induction false} SearchInSame(a: map<CacheId, Cache>, b: map<CacheId, Cache>, ids: seq<CacheId>, hash: Hash)
    requires forall i :: 0 <= i < |ids| ==> Find(Named(a, ids[i]), hash) == Find(Named(b, ids[i]), hash)
    ensures SearchIn(a, ids, hash) == SearchIn(b, ids, hash)
  {
    if ids != [] {
      var (init, last) := (ids[..|ids| - 1], ids[|ids| - 1]);
      assert ids == init + [last];
      SearchInSame(a, b, init, hash);
      SearchInMore(a, init, last, hash);
      SearchInMore(b, init, last, hash);
    }
  }

  lemma EmptyFindsNothing(hash: Hash)
    ensures Find(EMPTY, hash) == None
  {
    EmptyIsOk();
    FindIsStaged(EMPTY, hash);
  }

  lemma SearchInMore(caches: map<CacheId, Cache>, ids: seq<CacheId>, last: CacheId, hash: Hash)
    ensures SearchIn(caches, ids + [last], hash)
         == if Find(Named(caches, last), hash).Some? then Find(Named(caches, last), hash)
           else SearchIn(caches, ids, hash)
  {
    SearchInAppend(caches, ids, [last], hash);
    SearchInOne(caches, last, hash);
  }

  lemma NothingHeld(caches: map<CacheId, Cache>, id: CacheId, hash: Hash)
    requires CachesOk(caches) && Held(Named(caches, id)) == []
    ensures Find(Named(caches, id), hash) == None
  {
    EmptyIsOk();
    FindIsStaged(Named(caches, id), hash);
  }

  /** A search sees past caches that hold nothing. */
  lemma {:induction false} PopulatedSearch(caches: map<CacheId, Cache>, ids: seq<CacheId>, hash: Hash)
    requires CachesOk(caches)
    ensures SearchIn(caches, Populated(caches, ids), hash) == SearchIn(caches, ids, hash)
    ensures forall i :: 0 <= i < |Populated(caches, ids)| ==> Populated(caches, ids)[i] in ids
  {
    if ids != [] {
      var (init, last) := (ids[..|ids| - 1], ids[|ids| - 1]);
      assert ids == init + [last];
      PopulatedSearch(caches, init, hash);
      SearchInMore(caches, init, last, hash);
      if Held(Named(caches, last)) != [] {
        SearchInMore(caches, Populated(caches, init), last, hash);
      } else {
        NothingHeld(caches, last, hash);
      }
    }
  }

  lemma {:induction false} WithoutMember(ids: seq<CacheId>, done: set<CacheId>, id: CacheId)
    ensures id in Without(ids, done) <==> id in ids && id !in done
  {
    if ids != [] {
      WithoutMember(ids[..|ids| - 1], done, id);
    }
  }

  lemma OwnSearch(caches: map<CacheId, Cache>, frame: Frame, hash: Hash)
    ensures SearchIn(caches, Ids(frame), hash)
         == if Find(Named(caches, frame.active), hash).Some? then Find(Named(caches, frame.active), hash)
            else SearchIn(caches, frame.pending, hash)
  {
    SearchInMore(caches, frame.pending, frame.active, hash);
  }

  // Every step keeps the world well formed.

  lemma FrameStays(world: World, step: Step, v: nat)
    requires WellFormed(world) && Applicable(world, step) && v in Next(world, step).windows
    ensures FrameOk(Next(world, step), v, Next(world, step).windows[v])
  {
    KeysGrow(world, step);
    if v in world.windows {
      assert FrameOk(world, v, world.windows[v]);
      FrameGrows(world, Next(world, step), v, world.windows[v]);
    }
    if v !in world.windows || Next(world, step).windows[v] != world.windows[v] {
      ChangedFrame(world, step, v);
    }
  }

  lemma FrameGrows(world: World, after: World, v: nat, frame: Frame)
    requires FrameOk(world, v, frame) && world.caches.Keys <= after.caches.Keys
             && world.windows.Keys <= after.windows.Keys
    ensures FrameOk(after, v, frame)
  {
  }

  lemma ChangedFrame(world: World, step: Step, v: nat)
    requires WellFormed(world) && Applicable(world, step) && v in Next(world, step).windows
    requires v !in world.windows || Next(world, step).windows[v] != world.windows[v]
    ensures FrameOk(Next(world, step), v, Next(world, step).windows[v])
  {
    if v in world.windows {
      assert FrameOk(world, v, world.windows[v]);
      if step.Finish? {
        WithoutNamed(world.caches, world.windows[v].pending, step.done);
      } else if step.Attach? {
        PendingExtends(world.caches.Keys, world.windows.Keys, v, world.windows[v], step.moved);
        AttachLeaves(world, step.dst, step.moved);
      }
    }
  }

  lemma PendingExtends(caches: set<CacheId>, windows: set<nat>, v: nat, frame: Frame, moved: seq<CacheId>)
    requires FrameIn(caches, windows, v, frame) && forall i :: 0 <= i < |moved| ==> moved[i] in caches
    ensures FrameIn(caches, windows, v, frame.(pending := frame.pending + moved))
  {
  }

  lemma KeysGrow(world: World, step: Step)
    requires WellFormed(world) && Applicable(world, step)
    ensures world.caches.Keys <= Next(world, step).caches.Keys && world.windows.Keys <= Next(world, step).windows.Keys
  {
  }

  lemma WithoutNamed(caches: map<CacheId, Cache>, ids: seq<CacheId>, done: set<CacheId>)
    requires forall i :: 0 <= i < |ids| ==> ids[i] in caches
    ensures forall i :: 0 <= i < |Without(ids, done)| ==> Without(ids, done)[i] in caches
  {
    forall i | 0 <= i < |Without(ids, done)|
      ensures Without(ids, done)[i] in caches
    {
      WithoutMember(ids, done, Without(ids, done)[i]);
    }
  }

  lemma CachesStay(world: World, step: Step)
    requires WellFormed(world) && Applicable(world, step)
    ensures world.caches.Keys <= Next(world, step).caches.Keys
    ensures CachesOk(Next(world, step).caches)
  {
    EmptyIsOk();
    match step
    case Open(_, _, spare) => CacheAdded(world.caches, spare, EMPTY);
    case StageLayer(w, layer) =>
      var active := world.windows[w].active;
      assert FrameOk(world, w, world.windows[w]);
      StageInOk(Named(world.caches, active), layer);
      CacheAdded(world.caches, active, StageIn(Named(world.caches, active), layer));
    case FoldActive(w, after) => CacheAdded(world.caches, world.windows[w].active, after);
    case FreezeActive(_, spare) => CacheAdded(world.caches, spare, EMPTY);
    case Redirect(_, _, spare) => CacheAdded(world.caches, spare, EMPTY);
    case _ =>
  }

  lemma CacheAdded(caches: map<CacheId, Cache>, id: CacheId, c: Cache)
    requires CachesOk(caches) && CacheOk(c)
    ensures CachesOk(caches[id := c]) && caches.Keys <= caches[id := c].Keys
  {
  }

  lemma StepWellFormed(world: World, step: Step)
    requires WellFormed(world)
    ensures WellFormed(Next(world, step)) && world.windows.Keys <= Next(world, step).windows.Keys
  {
    if Applicable(world, step) {
      CachesStay(world, step);
      forall v | v in Next(world, step).windows
        ensures FrameOk(Next(world, step), v, Next(world, step).windows[v])
      {
        FrameStays(world, step, v);
      }
    }
  }

  // How one window's answer reaches the loaders above it.

  /** What the loader found it finds still, with the same bytes. */
  ghost predicate Kept(before: World, after: World, u: nat, hash: Hash)
    requires WellFormed(before) && WellFormed(after) && u in before.windows && u in after.windows
  {
    Resolve(before, u, hash).Some? ==> Resolve(after, u, hash) == Resolve(before, u, hash)
  }

  /** The window's own part of the answer and its base are the same. */
  ghost predicate SameSource(before: World, after: World, v: nat, hash: Hash)
    requires v in before.windows && v in after.windows
  {
    && before.windows[v].base == after.windows[v].base
    && SearchIn(after.caches, Ids(after.windows[v]), hash) == SearchIn(before.caches, Ids(before.windows[v]), hash)
  }

  ghost predicate StoreKept(before: World, after: World, hash: Hash) {
    hash in before.store ==> hash in after.store && after.store[hash] == before.store[hash]
  }

  /** If each window up to `u` has the same source, or keeps its answer anyway, so does the loader of `u`. */
  lemma {:induction false} LoadersKeep(before: World, after: World, u: nat, hash: Hash)
    requires WellFormed(before) && WellFormed(after) && u in before.windows
    requires before.windows.Keys <= after.windows.Keys && StoreKept(before, after, hash)
    requires forall v :: v in before.windows && v <= u ==>
               SameSource(before, after, v, hash) || Kept(before, after, v, hash)
    ensures Kept(before, after, u, hash)
    decreases u
  {
    if SameSource(before, after, u, hash) && before.windows[u].base.Via? {
      assert FrameOk(before, u, before.windows[u]);
      LoadersKeep(before, after, before.windows[u].base.window, hash);
    }
  }

  /** Windows below the one changed have the same answer throughout. */
  lemma {:induction false} BelowSame(before: World, after: World, u: nat, hash: Hash)
    requires WellFormed(before) && WellFormed(after) && u in before.windows && before.store == after.store
    requires before.windows.Keys <= after.windows.Keys
    requires forall v :: v in before.windows && v <= u ==> SameSource(before, after, v, hash)
    ensures Resolve(after, u, hash) == Resolve(before, u, hash)
    decreases u
  {
    if before.windows[u].base.Via? {
      assert FrameOk(before, u, before.windows[u]);
      BelowSame(before, after, before.windows[u].base.window, hash);
    }
  }

  lemma UnderSame(before: World, after: World, w: nat, hash: Hash)
    requires WellFormed(before) && WellFormed(after) && w in before.windows && before.store == after.store
    requires before.windows.Keys <= after.windows.Keys && before.windows[w].base == after.windows[w].base
    requires forall v :: v in before.windows && v < w ==> SameSource(before, after, v, hash)
    ensures Under(after, w, hash) == Under(before, w, hash)
  {
    if before.windows[w].base.Via? {
      assert FrameOk(before, w, before.windows[w]);
      BelowSame(before, after, before.windows[w].base.window, hash);
    }
  }

  // Which windows a step leaves alone.

  ghost predicate Touches(world: World, step: Step, v: nat)
    requires v in world.windows
  {
    match step
    case StageLayer(w, _) => w in world.windows && world.windows[w].active in Ids(world.windows[v])
    case Attach(dst, _) => v == dst
    case Redirect(src, _, _) => v == src
    case Finish(w, _) => v == w
    case _ => false
  }

  lemma FreshSame(caches: map<CacheId, Cache>, spare: CacheId, ids: seq<CacheId>, hash: Hash)
    requires spare !in caches
    ensures SearchIn(caches[spare := EMPTY], ids, hash) == SearchIn(caches, ids, hash)
  {
    SearchInSame(caches, caches[spare := EMPTY], ids, hash);
  }

  lemma FrozenSame(world: World, w: nat, spare: CacheId, hash: Hash)
    requires WellFormed(world) && w in world.windows && spare !in world.caches
    ensures SameSource(world, Next(world, FreezeActive(w, spare)), w, hash)
  {
    var (frame, after) := (world.windows[w], Next(world, FreezeActive(w, spare)));
    assert FrameOk(world, w, frame);
    FreshSame(world.caches, spare, after.windows[w].pending, hash);
    OwnSearch(after.caches, after.windows[w], hash);
    OwnSearch(world.caches, frame, hash);
    EmptyFindsNothing(hash);
    FindIsStaged(world.caches[frame.active], hash);
  }

  lemma FoldedSame(world: World, w: nat, after: Cache, ids: seq<CacheId>, hash: Hash)
    requires WellFormed(world) && Applicable(world, FoldActive(w, after))
    ensures SearchIn(Next(world, FoldActive(w, after)).caches, ids, hash) == SearchIn(world.caches, ids, hash)
  {
    assert FrameOk(world, w, world.windows[w]);
    ReplacedSame(world.caches, world.windows[w].active, after, ids, hash);
  }

  lemma ReplacedSame(caches: map<CacheId, Cache>, id: CacheId, after: Cache, ids: seq<CacheId>, hash: Hash)
    requires id in caches && CacheOk(caches[id]) && FoldsTo(caches[id], after)
    ensures SearchIn(caches[id := after], ids, hash) == SearchIn(caches, ids, hash)
  {
    FindIsStaged(caches[id], hash);
    FindIsStaged(after, hash);
    SearchInSame(caches, caches[id := after], ids, hash);
  }

  lemma UnstagedSame(world: World, w: nat, layer: Layer, v: nat, hash: Hash)
    requires WellFormed(world) && Applicable(world, StageLayer(w, layer)) && v in world.windows
             && !Touches(world, StageLayer(w, layer), v)
    ensures SameSource(world, Next(world, StageLayer(w, layer)), v, hash)
  {
    var ids := Ids(world.windows[v]);
    assert forall i :: 0 <= i < |ids| ==> ids[i] in ids;
    SearchInSame(world.caches, Next(world, StageLayer(w, layer)).caches, ids, hash);
  }

  /** Opening, folding, freezing and saving touch no window; the other steps only their own. */
  lemma UntouchedSame(world: World, step: Step, v: nat, hash: Hash)
    requires WellFormed(world) && Applicable(world, step) && v in world.windows && !Touches(world, step, v)
    ensures SameSource(world, Next(world, step), v, hash)
  {
    if step.StageLayer? {
      UnstagedSame(world, step.w, step.layer, v, hash);
    } else if step.FreezeActive? && v == step.w {
      FrozenSame(world, v, step.spare, hash);
    } else {
      FrameUntouched(world, step, v);
      SearchUntouched(world, step, Ids(world.windows[v]), hash);
    }
  }

  lemma FrameUntouched(world: World, step: Step, v: nat)
    requires WellFormed(world) && Applicable(world, step) && v in world.windows && !Touches(world, step, v)
    requires step.FreezeActive? ==> v != step.w
    ensures v in Next(world, step).windows && Next(world, step).windows[v] == world.windows[v]
  {
  }

  lemma SearchUntouched(world: World, step: Step, ids: seq<CacheId>, hash: Hash)
    requires WellFormed(world) && Applicable(world, step) && !step.StageLayer?
    ensures SearchIn(Next(world, step).caches, ids, hash) == SearchIn(world.caches, ids, hash)
  {
    if step.FoldActive? {
      FoldedSame(world, step.w, step.after, ids, hash);
    } else if step.Open? || step.FreezeActive? || step.Redirect? {
      FreshSame(world.caches, step.spare, ids, hash);
    }
  }

  // When exactly a step keeps the answer of the window it changes.

  lemma AttachedAnswer(world: World, dst: nat, moved: seq<CacheId>, hash: Hash)
    requires WellFormed(world) && Applicable(world, Attach(dst, moved))
    ensures WellFormed(Next(world, Attach(dst, moved)))
    ensures var newest := Find(Named(world.caches, world.windows[dst].active), hash);
            var adopted := SearchIn(world.caches, moved, hash);
            Resolve(Next(world, Attach(dst, moved)), dst, hash)
            == if newest.Some? then newest else if adopted.Some? then adopted else Resolve(world, dst, hash)
  {
    var after := Next(world, Attach(dst, moved));
    var to := world.windows[dst];
    StepWellFormed(world, Attach(dst, moved));
    OwnSearch(world.caches, to, hash);
    OwnSearch(world.caches, after.windows[dst], hash);
    SearchInAppend(world.caches, to.pending, moved, hash);
    forall v | v in world.windows && v < dst
      ensures SameSource(world, after, v, hash)
    {
      UntouchedSame(world, Attach(dst, moved), v, hash);
    }
    UnderSame(world, after, dst, hash);
  }

  /**
   Adopting keeps the receiver's answer unless the adopted caches give a hash that its active cache lacks other bytes.
  */
  lemma AttachExactly(world: World, dst: nat, moved: seq<CacheId>, hash: Hash)
    requires WellFormed(world) && Applicable(world, Attach(dst, moved))
    ensures WellFormed(Next(world, Attach(dst, moved)))
    ensures Kept(world, Next(world, Attach(dst, moved)), dst, hash) <==> AttachSafe(world, dst, moved, hash)
  {
    AttachedAnswer(world, dst, moved, hash);
    OwnSearch(world.caches, world.windows[dst], hash);
  }

  ghost predicate AttachSafe(world: World, dst: nat, moved: seq<CacheId>, hash: Hash)
    requires WellFormed(world) && dst in world.windows
  {
    var adopted := SearchIn(world.caches, moved, hash);
    || Resolve(world, dst, hash).None?
    || Find(Named(world.caches, world.windows[dst].active), hash).Some?
    || adopted.None?
    || adopted == Resolve(world, dst, hash)
  }

  lemma RedirectedAnswer(world: World, src: nat, dst: nat, spare: CacheId, hash: Hash)
    requires WellFormed(world) && Applicable(world, Redirect(src, dst, spare))
    ensures WellFormed(Next(world, Redirect(src, dst, spare)))
    ensures Resolve(Next(world, Redirect(src, dst, spare)), src, hash) == Resolve(world, dst, hash)
  {
    var step := Redirect(src, dst, spare);
    var after := Next(world, step);
    StepWellFormed(world, step);
    OwnSearch(after.caches, after.windows[src], hash);
    EmptyFindsNothing(hash);
    SearchInNone(after.caches, hash);
    forall v | v in world.windows && v <= dst
      ensures SameSource(world, after, v, hash)
    {
      UntouchedSame(world, step, v, hash);
    }
    BelowSame(world, after, dst, hash);
  }

  /**
   Redirecting keeps the released window's answer exactly when the receiver's caches, else what lies below them, give
   it.
  */
  lemma RedirectExactly(world: World, src: nat, dst: nat, spare: CacheId, hash: Hash)
    requires WellFormed(world) && Applicable(world, Redirect(src, dst, spare))
    ensures WellFormed(Next(world, Redirect(src, dst, spare)))
    ensures Kept(world, Next(world, Redirect(src, dst, spare)), src, hash) <==> RedirectSafe(world, src, dst, hash)
  {
    RedirectedAnswer(world, src, dst, spare, hash);
  }

  ghost predicate RedirectSafe(world: World, src: nat, dst: nat, hash: Hash)
    requires WellFormed(world) && src in world.windows && dst in world.windows
  {
    var received := SearchIn(world.caches, Ids(world.windows[dst]), hash);
    || Resolve(world, src, hash).None?
    || (if received.Some? then received else Under(world, dst, hash)) == Resolve(world, src, hash)
  }

  /**
   Completing a checkpoint keeps the window's answer exactly when the kept caches, else what lies below, give the same
   bytes.
  */
  lemma FinishExactly(world: World, w: nat, done: set<CacheId>, hash: Hash)
    requires WellFormed(world) && Applicable(world, Finish(w, done))
    ensures WellFormed(Next(world, Finish(w, done)))
    ensures Kept(world, Next(world, Finish(w, done)), w, hash) <==> FinishSafe(world, w, done, hash)
  {
    var step := Finish(w, done);
    var after := Next(world, step);
    StepWellFormed(world, step);
    forall v | v in world.windows && v < w
      ensures SameSource(world, after, v, hash)
    {
      UntouchedSame(world, step, v, hash);
    }
    UnderSame(world, after, w, hash);
  }

  ghost predicate FinishSafe(world: World, w: nat, done: set<CacheId>, hash: Hash)
    requires WellFormed(world) && w in world.windows
  {
    var kept := SearchIn(world.caches, Without(world.windows[w].pending, done) + [world.windows[w].active], hash);
    || Resolve(world, w, hash).None?
    || (if kept.Some? then kept else Under(world, w, hash)) == Resolve(world, w, hash)
  }

  lemma {:induction false} WithoutSplits(a: seq<CacheId>, b: seq<CacheId>, done: set<CacheId>)
    requires (forall i :: 0 <= i < |a| ==> a[i] in done) && forall i :: 0 <= i < |b| ==> b[i] !in done
    ensures Without(a + b, done) == b
    decreases |a| + |b|
  {
    if b != [] {
      assert (a + b)[..|a + b| - 1] == a + b[..|b| - 1];
      WithoutSplits(a, b[..|b| - 1], done);
    } else if a != [] {
      assert a + b == a && a[..|a| - 1] + [] == a[..|a| - 1];
      WithoutSplits(a[..|a| - 1], [], done);
    }
  }

  /** The checkpoint's caches, the oldest pending, are read through to a store that gives the bytes they give. */
  lemma SavedIsSafe(world: World, w: nat, done: set<CacheId>, a: seq<CacheId>, b: seq<CacheId>, hash: Hash)
    requires WellFormed(world) && w in world.windows && world.windows[w].base.Store?
             && world.windows[w].pending == a + b
    requires (forall i :: 0 <= i < |a| ==> a[i] in done) && forall i :: 0 <= i < |b| ==> b[i] !in done
    requires SearchIn(world.caches, a, hash).Some? ==>
               hash in world.store && Some(world.store[hash]) == SearchIn(world.caches, a, hash)
    ensures FinishSafe(world, w, done, hash)
  {
    var frame := world.windows[w];
    WithoutSplits(a, b, done);
    assert a + b + [frame.active] == a + (b + [frame.active]);
    SearchInAppend(world.caches, a, b + [frame.active], hash);
  }

  /** Staging is safe for a hash its layer lacks, or gives as every window holding the cache answers it. */
  ghost predicate StageSafe(world: World, w: nat, layer: Layer, hash: Hash)
    requires WellFormed(world) && w in world.windows
  {
    var staged := Latest(layer.flat, hash);
    || staged.None?
    || forall v :: v in world.windows && world.windows[w].active in Ids(world.windows[v]) ==>
         Resolve(world, v, hash).None? || Resolve(world, v, hash) == staged
  }

  /** The staged cache gives the layer's bytes, and otherwise what it gave. */
  lemma {:induction false} StagedSearch(world: World, w: nat, layer: Layer, ids: seq<CacheId>, hash: Hash)
    requires WellFormed(world) && Applicable(world, StageLayer(w, layer))
    ensures var after := SearchIn(Next(world, StageLayer(w, layer)).caches, ids, hash);
            after == SearchIn(world.caches, ids, hash) || (after == Latest(layer.flat, hash) && after.Some?)
  {
    if ids != [] {
      var (init, last) := (ids[..|ids| - 1], ids[|ids| - 1]);
      var after := Next(world, StageLayer(w, layer)).caches;
      assert ids == init + [last];
      StagedSearch(world, w, layer, init, hash);
      SearchInMore(world.caches, init, last, hash);
      SearchInMore(after, init, last, hash);
      StagedFind(world, w, layer, last, hash);
    }
  }

  lemma StagedFind(world: World, w: nat, layer: Layer, id: CacheId, hash: Hash)
    requires WellFormed(world) && Applicable(world, StageLayer(w, layer))
    ensures var (before, after) :=
            (Find(Named(world.caches, id), hash), Find(Named(Next(world, StageLayer(w, layer)).caches, id), hash));
            after == before || (after == Latest(layer.flat, hash) && after.Some?)
  {
    var active := world.windows[w].active;
    assert FrameOk(world, w, world.windows[w]);
    if id == active {
      StageInOk(world.caches[active], layer);
      FindIsStaged(world.caches[active], hash);
      FindIsStaged(StageIn(world.caches[active], layer), hash);
      LatestAppend(Staged(world.caches[active]), layer.flat, hash);
    }
  }

  /** A window's loader finds what was staged into the window last. */
  lemma StagedIsFound(world: World, w: nat, layer: Layer, hash: Hash)
    requires WellFormed(world) && w in world.windows && LayerOk(layer) && Agrees(layer)
    requires Latest(layer.flat, hash).Some?
    ensures var after := Next(world, StageLayer(w, layer));
            WellFormed(after) && w in after.windows && Resolve(after, w, hash) == Latest(layer.flat, hash)
  {
    var (after, active) := (Next(world, StageLayer(w, layer)), world.windows[w].active);
    assert FrameOk(world, w, world.windows[w]);
    StepWellFormed(world, StageLayer(w, layer));
    StageInOk(world.caches[active], layer);
    FindIsStaged(StageIn(world.caches[active], layer), hash);
    LatestAppend(Staged(world.caches[active]), layer.flat, hash);
    SearchInMore(after.caches, world.windows[w].pending, active, hash);
  }

  /** And over the store, what was saved last, when none of its caches holds the hash. */
  lemma SavedIsFound(world: World, w: nat, record: Record)
    requires WellFormed(world) && w in world.windows && world.windows[w].base == Store
    requires SearchIn(world.caches, Ids(world.windows[w]), record.hash).None?
    ensures var after := Next(world, SaveRecord(record));
            WellFormed(after) && w in after.windows && Resolve(after, w, record.hash) == Some(record.data)
  {
    StepWellFormed(world, SaveRecord(record));
  }

  /** The own part of an answer before and after staging, where staging is safe. */
  lemma StagedOwn(world: World, w: nat, layer: Layer, u: nat, hash: Hash)
    requires WellFormed(world) && Applicable(world, StageLayer(w, layer)) && u in world.windows
             && StageSafe(world, w, layer, hash)
    ensures var (before, after) :=
            (SearchIn(world.caches, Ids(world.windows[u]), hash),
             SearchIn(Next(world, StageLayer(w, layer)).caches, Ids(world.windows[u]), hash));
            after == before || (after.Some? && (Resolve(world, u, hash).None? || Resolve(world, u, hash) == after))
  {
    if Touches(world, StageLayer(w, layer), u) {
      StagedSearch(world, w, layer, Ids(world.windows[u]), hash);
    } else {
      UntouchedSame(world, StageLayer(w, layer), u, hash);
    }
  }

  lemma {:induction false} StageKeeps(world: World, w: nat, layer: Layer, u: nat, hash: Hash)
    requires WellFormed(world) && Applicable(world, StageLayer(w, layer)) && u in world.windows
    requires StageSafe(world, w, layer, hash) && WellFormed(Next(world, StageLayer(w, layer)))
    ensures Kept(world, Next(world, StageLayer(w, layer)), u, hash)
    decreases u
  {
    StagedOwn(world, w, layer, u, hash);
    if world.windows[u].base.Via? {
      assert FrameOk(world, u, world.windows[u]);
      StageKeeps(world, w, layer, world.windows[u].base.window, hash);
    }
  }

  // Runs.

  /** The conditions on the bytes, step by step; opening, folding and freezing have none. */
  ghost predicate Steady(world: World, step: Step, hash: Hash)
    requires WellFormed(world) && Applicable(world, step)
  {
    match step
    case StageLayer(w, layer) => StageSafe(world, w, layer, hash)
    case SaveRecord(record) => record.hash != hash || hash !in world.store || world.store[hash] == record.data
    case Attach(dst, moved) => AttachSafe(world, dst, moved, hash)
    case Redirect(src, dst, _) => RedirectSafe(world, src, dst, hash)
    case Finish(w, done) => FinishSafe(world, w, done, hash)
    case _ => true
  }

  lemma ChangedKept(world: World, step: Step, v: nat, hash: Hash)
    requires WellFormed(world) && Applicable(world, step) && Steady(world, step, hash) && !step.StageLayer?
    requires v in world.windows && Touches(world, step, v) && WellFormed(Next(world, step))
             && v in Next(world, step).windows
    ensures Kept(world, Next(world, step), v, hash)
  {
    match step
    case Attach(dst, moved) => AttachExactly(world, dst, moved, hash);
    case Redirect(src, dst, spare) => RedirectExactly(world, src, dst, spare, hash);
    case Finish(w, done) => FinishExactly(world, w, done, hash);
  }

  /** A step that meets its condition keeps every handed-out loader's answer for the hash. */
  lemma StepKeeps(world: World, step: Step, u: nat, hash: Hash)
    requires WellFormed(world) && u in world.windows && (Applicable(world, step) ==> Steady(world, step, hash))
    ensures WellFormed(Next(world, step)) && u in Next(world, step).windows && Kept(world, Next(world, step), u, hash)
  {
    StepWellFormed(world, step);
    if Applicable(world, step) {
      if step.StageLayer? {
        StageKeeps(world, step.w, step.layer, u, hash);
      } else {
        var after := Next(world, step);
        forall v | v in world.windows
          ensures SameSource(world, after, v, hash) || Kept(world, after, v, hash)
        {
          if Touches(world, step, v) {
            ChangedKept(world, step, v, hash);
          } else {
            UntouchedSame(world, step, v, hash);
          }
        }
        assert StoreKept(world, after, hash);
        LoadersKeep(world, after, u, hash);
      }
    }
  }

  ghost function Run(world: World, steps: seq<Step>): (r: World)
    requires WellFormed(world)
    ensures WellFormed(r) && world.windows.Keys <= r.windows.Keys
  {
    if steps == [] then world
    else
      var before := Run(world, steps[..|steps| - 1]);
      StepWellFormed(before, steps[|steps| - 1]);
      Next(before, steps[|steps| - 1])
  }

  ghost predicate SteadyAt(world: World, steps: seq<Step>, n: nat, hash: Hash)
    requires WellFormed(world) && n < |steps|
  {
    var before := Run(world, steps[..n]);
    Applicable(before, steps[n]) ==> Steady(before, steps[n], hash)
  }

  lemma {:induction false} KeptUpTo(world: World, steps: seq<Step>, n: nat, u: nat, hash: Hash)
    requires WellFormed(world) && u in world.windows && n <= |steps|
    requires forall k :: 0 <= k < n ==> SteadyAt(world, steps, k, hash)
    ensures Kept(world, Run(world, steps[..n]), u, hash)
    decreases n
  {
    if n > 0 {
      KeptUpTo(world, steps, n - 1, u, hash);
      assert SteadyAt(world, steps, n - 1, hash);
      RunNext(world, steps, n);
      KeptByStep(world, Run(world, steps[..n - 1]), steps[n - 1], u, hash);
    }
  }

  lemma RunNext(world: World, steps: seq<Step>, n: nat)
    requires WellFormed(world) && 0 < n <= |steps|
    ensures Run(world, steps[..n]) == Next(Run(world, steps[..n - 1]), steps[n - 1])
  {
    assert steps[..n][..n - 1] == steps[..n - 1];
  }

  lemma KeptByStep(world: World, before: World, step: Step, u: nat, hash: Hash)
    requires WellFormed(world) && WellFormed(before) && u in world.windows && u in before.windows
             && Kept(world, before, u, hash)
    requires Applicable(before, step) ==> Steady(before, step, hash)
    ensures WellFormed(Next(before, step)) && u in Next(before, step).windows
            && Kept(world, Next(before, step), u, hash)
  {
    StepKeeps(before, step, u, hash);
  }

  /**
   Over every run whose steps meet their conditions for a hash, every loader goes on returning the bytes it returned.
  */
  lemma LoadersKeepBytes(world: World, steps: seq<Step>, u: nat, hash: Hash)
    requires WellFormed(world) && u in world.windows
    requires forall n :: 0 <= n < |steps| ==> SteadyAt(world, steps, n, hash)
    ensures Kept(world, Run(world, steps), u, hash)
  {
    KeptUpTo(world, steps, |steps|, u, hash);
    assert steps[..|steps|] == steps;
  }

  // The hand-off of an archive window: its caches are adopted by the run's window and it is redirected there.

  ghost function HandOff(world: World, dst: nat, src: nat, spare: CacheId): (r: World)
    requires WellFormed(world) && src in world.windows && dst in world.windows && dst < src && spare !in world.caches
    ensures WellFormed(r) && src in r.windows
  {
    var attach := Attach(dst, Populated(world.caches, Ids(world.windows[src])));
    StepWellFormed(world, attach);
    StepWellFormed(Next(world, attach), Redirect(src, dst, spare));
    Next(Next(world, attach), Redirect(src, dst, spare))
  }

  lemma HandOffIs(world: World, dst: nat, src: nat, spare: CacheId)
    requires WellFormed(world) && src in world.windows && dst in world.windows && dst < src && spare !in world.caches
    ensures var moved := Populated(world.caches, Ids(world.windows[src]));
            && Applicable(world, Attach(dst, moved))
            && WellFormed(Next(world, Attach(dst, moved)))
            && Applicable(Next(world, Attach(dst, moved)), Redirect(src, dst, spare))
  {
    var moved := Populated(world.caches, Ids(world.windows[src]));
    PopulatedIn(world, dst, src, moved);
    AttachLeaves(world, dst, moved);
    StepWellFormed(world, Attach(dst, moved));
  }

  lemma PopulatedIn(world: World, dst: nat, src: nat, moved: seq<CacheId>)
    requires WellFormed(world) && dst in world.windows && src in world.windows
    requires moved == Populated(world.caches, Ids(world.windows[src]))
    ensures Applicable(world, Attach(dst, moved))
  {
    assert FrameOk(world, src, world.windows[src]);
    PopulatedSearch(world.caches, Ids(world.windows[src]), Hash(0, 0));
  }

  lemma AttachLeaves(world: World, dst: nat, moved: seq<CacheId>)
    requires WellFormed(world) && Applicable(world, Attach(dst, moved))
    ensures var after := Next(world, Attach(dst, moved));
            after.caches == world.caches && after.windows.Keys == world.windows.Keys
  {
  }

  lemma RunTwo(world: World, first: Step, second: Step)
    requires WellFormed(world)
    ensures WellFormed(Next(world, first)) && Run(world, [first, second]) == Next(Next(world, first), second)
  {
    var steps := [first, second];
    assert steps[..2] == steps && steps[..0] == [];
    RunNext(world, steps, 1);
    RunNext(world, steps, 2);
    StepWellFormed(world, first);
  }

  /**
   A hash staged through the handed-off window keeps its bytes exactly when the receiving
   active cache holds nothing else for it; any other hash is read from the same place as before.
  */
  lemma HandOffExactly(world: World, dst: nat, src: nat, spare: CacheId, hash: Hash)
    requires WellFormed(world) && src in world.windows && dst in world.windows && dst < src && spare !in world.caches
    ensures var staged := SearchIn(world.caches, Ids(world.windows[src]), hash);
            var receiving := Find(Named(world.caches, world.windows[dst].active), hash);
            var after := Resolve(HandOff(world, dst, src, spare), src, hash);
            if staged.Some?
            then after == Resolve(world, src, hash) <==> receiving.None? || receiving == staged
            else after == Resolve(world, dst, hash)
  {
    var moved := Populated(world.caches, Ids(world.windows[src]));
    HandOffIs(world, dst, src, spare);
    PopulatedSearch(world.caches, Ids(world.windows[src]), hash);
    AttachedAnswer(world, dst, moved, hash);
    RedirectedAnswer(Next(world, Attach(dst, moved)), src, dst, spare, hash);
    OwnSearch(world.caches, world.windows[dst], hash);
  }

  // It does change one: the older window's active cache has other bytes for a hash of the handed-off one.

  function LayerOf(record: Record): (layer: Layer) {
    Layer([record], false, None, [None], |record.data|)
  }

  function Holding(record: Record): (c: Cache) {
    StageIn(EMPTY, LayerOf(record))
  }

  /** Opens a window and stages the record into it. */
  function Filling(w: nat, base: Base, id: CacheId, record: Record): (steps: seq<Step>) {
    [Open(w, base, id), StageLayer(w, LayerOf(record))]
  }

  lemma HoldingFinds(record: Record)
    requires record.data != []
    ensures Find(Holding(record), record.hash) == Some(record.data)
  {
    EmptyIsOk();
    LayerOfAgrees(record);
    StageInOk(EMPTY, LayerOf(record));
    FindIsStaged(Holding(record), record.hash);
    assert [] + [record] == [record] && [record][..0] == [];
  }

  lemma LayerOfAgrees(record: Record)
    ensures LayerOk(LayerOf(record)) && Agrees(LayerOf(record))
  {
    var layer := LayerOf(record);
    assert layer.flat[..0] == [];
    forall h
      ensures LayerData(layer, h) == Latest(layer.flat, h)
    {
      if h == record.hash {
        assert Picks(layer, h, 0);
      } else {
        assert Absent(layer.flat, h);
      }
    }
  }

  function Having(world: World, w: nat, base: Base, id: CacheId, c: Cache): (r: World) {
    world.(caches := world.caches[id := c], windows := world.windows[w := Frame(id, [], base)])
  }

  lemma OpenNext(world: World, w: nat, base: Base, id: CacheId)
    requires WellFormed(world) && Applicable(world, Open(w, base, id))
    ensures Next(world, Open(w, base, id)) == Having(world, w, base, id, EMPTY)
  {
  }

  lemma StageNext(world: World, w: nat, layer: Layer)
    requires WellFormed(world) && w in world.windows && world.windows[w].active in world.caches && LayerOk(layer)
             && Agrees(layer)
    ensures var active := world.windows[w].active;
            Next(world, StageLayer(w, layer))
                == world.(caches := world.caches[active := StageIn(world.caches[active], layer)])
  {
  }

  lemma HavingTwice(world: World, w: nat, base: Base, id: CacheId, c: Cache, d: Cache)
    ensures var r := Having(world, w, base, id, c); r.(caches := r.caches[id := d]) == Having(world, w, base, id, d)
  {
    assert world.caches[id := c][id := d] == world.caches[id := d];
  }

  lemma FillingRuns(world: World, w: nat, base: Base, id: CacheId, record: Record)
    requires WellFormed(world) && Applicable(world, Open(w, base, id))
    ensures Run(world, Filling(w, base, id, record)) == Having(world, w, base, id, Holding(record))
  {
    LayerOfAgrees(record);
    RunTwo(world, Open(w, base, id), StageLayer(w, LayerOf(record)));
    OpenNext(world, w, base, id);
    StageNext(Having(world, w, base, id, EMPTY), w, LayerOf(record));
    HavingTwice(world, w, base, id, EMPTY, Holding(record));
  }

  lemma {:induction false} RunAppend(world: World, a: seq<Step>, b: seq<Step>)
    requires WellFormed(world)
    ensures Run(world, a + b) == Run(Run(world, a), b)
    decreases |b|
  {
    if b == [] {
      assert a + b == a;
    } else {
      assert (a + b)[..|a + b| - 1] == a + b[..|b| - 1];
      RunAppend(world, a, b[..|b| - 1]);
    }
  }

  const NOTHING: World := World(map[], map[], map[])

  function TwoFilled(a: Record, b: Record): (steps: seq<Step>) {
    Filling(0, Store, 0, a) + Filling(1, Via(0), 1, b)
  }

  ghost predicate Holds(world: World, w: nat, record: Record) {
    && w in world.windows && world.windows[w].active in world.caches
    && world.caches[world.windows[w].active] == Holding(record)
  }

  ghost predicate TwoHolding(world: World, a: Record, b: Record) {
    2 !in world.caches && Holds(world, 0, a) && Holds(world, 1, b)
  }

  lemma TwoFilledRuns(a: Record, b: Record)
    ensures WellFormed(NOTHING) && TwoHolding(Run(NOTHING, TwoFilled(a, b)), a, b)
  {
    var below := Having(NOTHING, 0, Store, 0, Holding(a));
    RunAppend(NOTHING, Filling(0, Store, 0, a), Filling(1, Via(0), 1, b));
    OneFilledRuns(a);
    FillingRuns(below, 1, Via(0), 1, b);
    TwoHave(a, b);
  }

  lemma TwoHave(a: Record, b: Record)
    ensures var below := Having(NOTHING, 0, Store, 0, Holding(a));
            TwoHolding(Having(below, 1, Via(0), 1, Holding(b)), a, b)
  {
    var below := Having(NOTHING, 0, Store, 0, Holding(a));
    HavingHolds(NOTHING, 0, Store, 0, a);
    HavingHolds(below, 1, Via(0), 1, b);
    StillHolds(below, 1, Via(0), 1, b, 0, a);
  }

  lemma HavingHolds(world: World, w: nat, base: Base, id: CacheId, record: Record)
    ensures Holds(Having(world, w, base, id, Holding(record)), w, record)
  {
  }

  lemma StillHolds(world: World, w: nat, base: Base, id: CacheId, record: Record, v: nat, other: Record)
    requires Holds(world, v, other) && v != w && world.windows[v].active != id
    ensures Holds(Having(world, w, base, id, Holding(record)), v, other)
  {
  }

  lemma OneFilledRuns(a: Record)
    ensures var below := Having(NOTHING, 0, Store, 0, Holding(a));
            && WellFormed(NOTHING) && Run(NOTHING, Filling(0, Store, 0, a)) == below
            && WellFormed(below) && Applicable(below, Open(1, Via(0), 1))
  {
    FillingRuns(NOTHING, 0, Store, 0, a);
  }

  /** The window's loader finds the hash, and finds other bytes or none once the window is handed off. */
  ghost predicate HandOffChanges(world: World, dst: nat, src: nat, spare: CacheId, hash: Hash) {
    && WellFormed(world) && dst in world.windows && src in world.windows && dst < src && spare !in world.caches
    && Resolve(world, src, hash).Some?
    && Resolve(HandOff(world, dst, src, spare), src, hash) != Resolve(world, src, hash)
  }

  /**
   From nothing, two windows with other bytes for one hash: the hand-off of the newer to the older changes its answer.
  */
  lemma HandOffCanChange(hash: Hash, older: Encoding, newer: Encoding)
    requires older != [] && newer != [] && older != newer
    ensures WellFormed(NOTHING)
    ensures HandOffChanges(Run(NOTHING, TwoFilled(Record(hash, older), Record(hash, newer))), 0, 1, 2, hash)
  {
    TwoFilledRuns(Record(hash, older), Record(hash, newer));
    HeldChanges(hash, older, newer, Run(NOTHING, TwoFilled(Record(hash, older), Record(hash, newer))));
  }

  lemma HeldIsFound(world: World, w: nat, record: Record)
    requires WellFormed(world) && Holds(world, w, record) && record.data != []
    ensures Find(Named(world.caches, world.windows[w].active), record.hash) == Some(record.data)
    ensures SearchIn(world.caches, Ids(world.windows[w]), record.hash) == Some(record.data)
            == Resolve(world, w, record.hash)
  {
    HoldingFinds(record);
    OwnSearch(world.caches, world.windows[w], record.hash);
  }

  lemma HeldChanges(hash: Hash, older: Encoding, newer: Encoding, world: World)
    requires older != [] && newer != [] && older != newer
    requires WellFormed(world) && TwoHolding(world, Record(hash, older), Record(hash, newer))
    ensures HandOffChanges(world, 0, 1, 2, hash)
  {
    HeldIsFound(world, 0, Record(hash, older));
    HeldIsFound(world, 1, Record(hash, newer));
    HandOffExactly(world, 0, 1, 2, hash);
  }
}
