/**
 * The cache of states for compressed broadcasts (service/master_state_cache.go): a bounded map
 * with a queue of (key, version) slots in which replaced and deleted entries leave stale slots.
 * Valid says that every entry has its one live slot, that slots rise by version and entries age
 * with it; the operations are stated on the map alone.
 */
module StateCache {
  import opened Common

  type Key = nat

  datatype Entry<S> = Entry(state: S, storedAt: int, version: nat)

  datatype Slot = Slot(key: Key, version: nat)

  type Entries<S> = map<Key, Entry<S>>

  /** Three minutes. */
  const CACHE_TTL: int := 180

  predicate Fresh(storedAt: int, now: int) {
    storedAt + CACHE_TTL > now
  }

  function Unexpired<S>(entries: Entries<S>, now: int): (r: Entries<S>)
    ensures forall k :: k in r <==> k in entries && now - entries[k].storedAt < 180
    ensures forall k :: k in r ==> r[k] == entries[k]
  {
    map k | k in entries && Fresh(entries[k].storedAt, now) :: entries[k]
  }

  predicate Live<S>(entries: Entries<S>, slot: Slot) {
    slot.key in entries && entries[slot.key].version == slot.version
  }

  predicate Rising(slots: seq<Slot>) {
    forall i, j :: 0 <= i < j < |slots| ==> slots[i].version < slots[j].version
  }

  predicate UpTo(slots: seq<Slot>, version: nat) {
    forall i :: 0 <= i < |slots| ==> slots[i].version <= version
  }

  /** Every entry has a slot of its version. */
  ghost predicate Tracked<S>(entries: Entries<S>, slots: seq<Slot>) {
    forall k :: k in entries ==> Slot(k, entries[k].version) in slots
  }

  /** Later versions were stored no earlier. */
  ghost predicate AgeOrdered<S>(entries: Entries<S>) {
    forall j, k {:trigger InAge(entries, j, k)} :: j in entries && k in entries ==> InAge(entries, j, k)
  }

  ghost predicate InAge<S>(entries: Entries<S>, j: Key, k: Key)
    requires j in entries && k in entries
  {
    entries[j].version <= entries[k].version ==> entries[j].storedAt <= entries[k].storedAt
  }

  ghost predicate Aged<S>(entries: Entries<S>, version: nat, latest: int) {
    && AgeOrdered(entries)
    && forall k :: k in entries ==> entries[k].version <= version && entries[k].storedAt <= latest
  }

  ghost predicate Within<S>(a: Entries<S>, b: Entries<S>) {
    forall k :: k in a ==> k in b && a[k] == b[k]
  }

  /** Exactly one slot of the queue stands for an entry. */
  lemma OneLiveSlot<S>(entries: Entries<S>, slots: seq<Slot>, k: Key)
    requires Tracked(entries, slots) && Rising(slots) && k in entries
    ensures exists i :: 0 <= i < |slots| && Live(entries, slots[i]) && slots[i].key == k
    ensures forall i, j ::
              0 <= i < |slots| && 0 <= j < |slots| && Live(entries, slots[i]) && Live(entries, slots[j])
              && slots[i].key == slots[j].key == k ==>
                i == j
  {
    var i :| 0 <= i < |slots| && slots[i] == Slot(k, entries[k].version);
    assert Live(entries, slots[i]);
  }

  /** A stale first slot may go. */
  lemma SkipStale<S>(entries: Entries<S>, slots: seq<Slot>)
    requires Tracked(entries, slots) && slots != [] && !Live(entries, slots[0])
    ensures Tracked(entries, slots[1..])
  {
    forall k | k in entries
      ensures Slot(k, entries[k].version) in slots[1..]
    {
      var i :| 0 <= i < |slots| && slots[i] == Slot(k, entries[k].version);
      assert i > 0 && slots[1..][i - 1] == slots[i];
    }
  }

  /** A live first slot goes with its entry. */
  lemma DropFirst<S>(entries: Entries<S>, slots: seq<Slot>)
    requires Tracked(entries, slots) && slots != [] && Live(entries, slots[0])
    ensures Tracked(entries - {slots[0].key}, slots[1..])
  {
    var left := entries - {slots[0].key};
    forall k | k in left
      ensures Slot(k, left[k].version) in slots[1..]
    {
      var i :| 0 <= i < |slots| && slots[i] == Slot(k, entries[k].version);
      assert i > 0 && slots[1..][i - 1] == slots[i];
    }
  }

  /** The first live slot is that of the oldest entry. */
  lemma FirstIsOldest<S>(entries: Entries<S>, slots: seq<Slot>)
    requires Tracked(entries, slots) && Rising(slots) && slots != [] && Live(entries, slots[0])
    ensures forall k :: k in entries ==> slots[0].version <= entries[k].version
  {
    forall k | k in entries
      ensures slots[0].version <= entries[k].version
    {
      var i :| 0 <= i < |slots| && slots[i] == Slot(k, entries[k].version);
    }
  }

  /** The head moves past a slot, with its entry if it is live. */
  lemma HeadPasses<S>(entries: Entries<S>, order: seq<Slot>, h: nat)
    requires h < |order| && Tracked(entries, order[h..])
    ensures if Live(entries, order[h]) then Tracked(entries - {order[h].key}, order[h + 1..])
            else Tracked(entries, order[h + 1..])
  {
    assert order[h..][1..] == order[h + 1..];
    if Live(entries, order[h]) {
      DropFirst(entries, order[h..]);
    } else {
      SkipStale(entries, order[h..]);
    }
  }

  lemma HeadIsOldest<S>(entries: Entries<S>, order: seq<Slot>, h: nat)
    requires h < |order| && Tracked(entries, order[h..]) && Rising(order) && Live(entries, order[h])
    ensures forall k :: k in entries ==> order[h].version <= entries[k].version
  {
    FirstIsOldest(entries, order[h..]);
  }

  ghost predicate OnlyExpiredGone<S>(before: Entries<S>, after: Entries<S>, now: int) {
    Within(after, before) && forall k :: k in before && k !in after ==> !Fresh(before[k].storedAt, now)
  }

  /** Once the head has passed every slot the queue starts over. */
  function Reset(order: seq<Slot>, head: nat): (r: (seq<Slot>, nat)) {
    if head == |order| then ([], 0) else (order, head)
  }

  /** Drops the expired entries, which stand first in the queue. */
  method PruneExpired<S>(entries: Entries<S>, order: seq<Slot>, head: nat, now: int)
    returns (left: Entries<S>, o: seq<Slot>, h: nat)
    requires head <= |order| && Tracked(entries, order[head..]) && Rising(order)
    requires AgeOrdered(entries)
    ensures o in {order, []} && h <= |o| && |o| - h <= |order| - head && Tracked(left, o[h..])
    ensures left == Unexpired(entries, now)
  {
    if entries == map[] {
      return entries, [], 0;
    }
    left, h := SkipExpired(entries, order, head, now);
    o, h := Reset(order, h).0, Reset(order, h).1;
  }

  /** Moves the head past stale slots and expired entries. */
  method SkipExpired<S>(entries: Entries<S>, order: seq<Slot>, head: nat, now: int) returns (left: Entries<S>, h: nat)
    requires head <= |order| && Tracked(entries, order[head..]) && Rising(order)
    requires AgeOrdered(entries)
    ensures head <= h <= |order| && Tracked(left, order[h..])
    ensures left == Unexpired(entries, now)
  {
    left, h := entries, head;
    while h < |order|
      invariant head <= h <= |order| && Tracked(left, order[h..]) && OnlyExpiredGone(entries, left, now)
      decreases |order| - h
    {
      var oldest := order[h];
      HeadPasses(left, order, h);
      if !Live(left, oldest) {
        h := h + 1;
        continue;
      }
      if Fresh(left[oldest.key].storedAt, now) {
        HeadIsOldest(left, order, h);
        OldestIsFresh(entries, left, oldest, now);
        return;
      }
      left := left - {oldest.key};
      h := h + 1;
    }
    assert forall k :: k !in left by {
      assert order[h..] == [];
    }
    assert left == Unexpired(entries, now);
  }

  lemma OldestIsFresh<S>(entries: Entries<S>, left: Entries<S>, oldest: Slot, now: int)
    requires OnlyExpiredGone(entries, left, now) && Live(left, oldest) && Fresh(left[oldest.key].storedAt, now)
    requires forall k :: k in left ==> oldest.version <= left[k].version
    requires AgeOrdered(entries)
    ensures left == Unexpired(entries, now)
  {
    forall k | k in left
      ensures Fresh(left[k].storedAt, now)
    {
      assert InAge(entries, oldest.key, k) && entries[oldest.key].version <= entries[k].version;
    }
  }

  /** Deletes the oldest entry. */
  method EvictOldest<S>(entries: Entries<S>, order: seq<Slot>, head: nat)
    returns (left: Entries<S>, o: seq<Slot>, h: nat)
    requires head <= |order| && Tracked(entries, order[head..]) && Rising(order)
    ensures o in {order, []} && h <= |o| && |o| - h <= |order| - head && Tracked(left, o[h..])
    ensures entries == map[] ==> left == entries
    ensures entries != map[] ==> exists k :: Oldest(entries, k) && left == entries - {k}
  {
    left, h := DropFirstLive(entries, order, head);
    o, h := Reset(order, h).0, Reset(order, h).1;
  }

  /** Moves the head past the first live slot and deletes its entry. */
  method DropFirstLive<S>(entries: Entries<S>, order: seq<Slot>, head: nat) returns (left: Entries<S>, h: nat)
    requires head <= |order| && Tracked(entries, order[head..]) && Rising(order)
    ensures head <= h <= |order| && Tracked(left, order[h..])
    ensures entries == map[] ==> left == entries
    ensures entries != map[] ==> exists k :: Oldest(entries, k) && left == entries - {k}
  {
    left, h := entries, head;
    while h < |order|
      invariant head <= h <= |order| && Tracked(entries, order[h..]) && left == entries
      decreases |order| - h
    {
      var oldest := order[h];
      HeadPasses(entries, order, h);
      h := h + 1;
      if !Live(entries, oldest) {
        continue;
      }
      HeadIsOldest(entries, order, h - 1);
      left := entries - {oldest.key};
      assert Oldest(entries, oldest.key);
      return;
    }
    assert order[h..] == [];
  }

  ghost predicate Oldest<S>(entries: Entries<S>, k: Key) {
    k in entries && forall j :: j in entries ==> entries[k].version <= entries[j].version
  }

  /** Rewrites the queue to its live slots. */
  method Compact<S>(entries: Entries<S>, slots: seq<Slot>) returns (kept: seq<Slot>)
    requires Tracked(entries, slots) && Rising(slots)
    ensures Tracked(entries, kept) && Rising(kept) && |kept| <= |entries|
    ensures forall slot :: slot in kept <==> slot in slots && Live(entries, slot)
  {
    kept := [];
    for i := 0 to |slots|
      invariant forall slot :: slot in kept <==> slot in slots[..i] && Live(entries, slot)
      invariant Rising(kept) && forall j :: 0 <= j < |kept| ==> i < |slots| ==> kept[j].version < slots[i].version
    {
      assert slots[..i + 1] == slots[..i] + [slots[i]];
      if Live(entries, slots[i]) {
        kept := kept + [slots[i]];
      }
    }
    assert slots[..|slots|] == slots;
    LiveSlotsFit(entries, kept);
  }

  lemma {:induction false} LiveSlotsFit<S>(entries: Entries<S>, kept: seq<Slot>)
    requires Rising(kept) && forall i :: 0 <= i < |kept| ==> Live(entries, kept[i])
    ensures |kept| <= |entries|
  {
    if kept != [] {
      var last := kept[|kept| - 1];
      var left := entries - {last.key};
      assert left.Keys == entries.Keys - {last.key};
      LiveSlotsFit(left, kept[..|kept| - 1]);
    }
  }

  // The cache.

  /** What a store leaves of the entries: the unexpired ones, and beyond the limit all but the oldest. */
  ghost predicate Remembered<S>(before: Entries<S>, after: Entries<S>, limit: nat, now: int) {
    var kept := Unexpired(before, now);
    if |kept| <= limit then after == kept else exists k :: Oldest(kept, k) && after == kept - {k}
  }

  lemma StoredIsAged<S>(entries: Entries<S>, key: Key, state: S, version: nat, latest: int, now: int)
    requires Aged(entries, version, latest) && latest <= now
    ensures Aged(entries[key := Entry(state, now, version + 1)], version + 1, now)
  {
    var after := entries[key := Entry(state, now, version + 1)];
    forall j, k | j in after && k in after
      ensures InAge(after, j, k)
    {
      assert j in entries && k in entries ==> InAge(entries, j, k);
    }
  }

  lemma StoredIsTracked<S>(entries: Entries<S>, slots: seq<Slot>, key: Key, e: Entry<S>)
    requires Tracked(entries, slots)
    ensures Tracked(entries[key := e], slots + [Slot(key, e.version)])
  {
  }

  lemma SubAged<S>(a: Entries<S>, b: Entries<S>, version: nat, latest: int)
    requires Within(a, b) && Aged(b, version, latest)
    ensures Aged(a, version, latest)
  {
    forall j, k | j in a && k in a
      ensures InAge(a, j, k)
    {
      assert InAge(b, j, k);
    }
  }

  /** The queue serves the entries: rising slots up to the version, one for each entry. */
  ghost predicate Serves<S>(order: seq<Slot>, head: nat, entries: Entries<S>, version: nat) {
    head <= |order| && Rising(order) && UpTo(order, version) && Tracked(entries, order[head..])
  }

  ghost predicate Bounded<S>(order: seq<Slot>, head: nat, entries: Entries<S>, limit: nat) {
    limit > 0 && |entries| <= limit && |order| - head <= 2 * limit
  }

  /** Appends the new version's slot, moving the queue to the front first when its storage is full. */
  method Append<S>(order: seq<Slot>, head: nat, ghost entries: Entries<S>, key: Key, e: Entry<S>, shift: bool)
    returns (o: seq<Slot>, h: nat)
    requires e.version > 0 && Serves(order, head, entries, e.version - 1)
    ensures Serves(o, h, entries[key := e], e.version) && |o| - h == |order| - head + 1
  {
    o, h := order, head;
    if shift {
      o, h := order[head..], 0;
    }
    ghost var window := o[h..];
    assert window == order[head..];
    o := o + [Slot(key, e.version)];
    assert o[h..] == window + [Slot(key, e.version)];
    StoredIsTracked(entries, window, key, e);
  }

  /** Drops the oldest when one entry is too many. */
  method EvictOver<S>(entries: Entries<S>, order: seq<Slot>, head: nat, limit: nat, ghost version: nat)
    returns (left: Entries<S>, o: seq<Slot>, h: nat)
    requires Serves(order, head, entries, version) && |entries| <= limit + 1
    ensures Serves(o, h, left, version) && |left| <= limit
    ensures if |entries| <= limit then left == entries else exists k :: Oldest(entries, k) && left == entries - {k}
  {
    left, o, h := entries, order, head;
    while |left| > limit
      invariant Serves(o, h, left, version) && |left| <= limit + 1
      invariant |left| > limit ==> left == entries
      invariant |left| <= limit ==>
                  if |entries| <= limit then left == entries
                  else exists k :: Oldest(entries, k) && left == entries - {k}
      decreases |left|
    {
      left, o, h := EvictOldest(left, o, h);
      ghost var k :| Oldest(entries, k) && left == entries - {k};
      assert left.Keys == entries.Keys - {k};
    }
  }

  method CompactOver<S>(entries: Entries<S>, order: seq<Slot>, head: nat, limit: nat, ghost version: nat)
    returns (o: seq<Slot>, h: nat)
    requires Serves(order, head, entries, version) && |entries| <= limit && limit > 0
    ensures Serves(o, h, entries, version) && Bounded(o, h, entries, limit)
  {
    o, h := order, head;
    if |order| - head > 2 * limit {
      o := Compact(entries, order[head..]);
      h := 0;
      assert o[0..] == o;
      forall i | 0 <= i < |o|
        ensures o[i].version <= version
      {
        assert o[i] in order[head..];
      }
    }
  }

  ghost predicate CacheOk<S>(limit: nat, entries: Entries<S>, order: seq<Slot>, head: nat, version: nat, latest: int) {
    Serves(order, head, entries, version) && Aged(entries, version, latest) && Bounded(order, head, entries, limit)
  }

  class CompressedStateCache<S> {
    const limit: nat
    var cache: Entries<S>
    var order: seq<Slot>
    var head: nat
    var version: nat
    ghost var latest: int

    ghost predicate Valid()
      reads this
    {
      CacheOk(limit, cache, order, head, version, latest)
    }

    constructor (limit: nat)
      requires limit > 0
      ensures Valid() && cache == map[] && this.limit == limit
    {
      this.limit := limit;
      cache, order, head, version, latest := map[], [], 0, 0, 0;
    }

    /**
     * RememberCompressedBlockState; shift says that the queue's storage was full, so that it is moved to the front.
     * The new state is among those kept.
     */
    method Remember(key: Key, state: Option<S>, now: int, shift: bool) returns (stored: bool)
      requires Valid() && latest <= now
      modifies this
      ensures Valid() && stored == state.Some?
      ensures !stored ==> cache == old(cache) && version == old(version)
      ensures stored ==>
                version == old(version) + 1
                && Remembered(old(cache)[key := Entry(state.value, now, version)], cache, limit, now)
      ensures stored ==> key in cache && cache[key] == Entry(state.value, now, version)
    {
      if state.None? {
        return false;
      }
      var e := Entry(state.value, now, version + 1);
      var c, o, h := StoreIn(cache, order, head, key, e, limit, shift, latest);
      cache, order, head, version, latest := c, o, h, version + 1, now;
      return true;
    }

    method Forget(key: Key)
      requires Valid()
      modifies this`cache
      ensures Valid() && cache == old(cache) - {key}
    {
      DropKeeps(cache, order, head, key, version, latest, limit);
      cache := cache - {key};
    }

    /** cachedCompressedBlockState: an expired state is dropped, never returned. */
    method Get(key: Key, now: int) returns (r: Option<S>)
      requires Valid()
      modifies this
      ensures Valid() && version == old(version)
      ensures r.Some? <==> key in old(cache) && now - old(cache)[key].storedAt < 180
      ensures r.Some? ==> r.value == old(cache)[key].state
      ensures cache == if r.Some? then old(cache) else old(cache) - {key}
    {
      r := if key in cache && Fresh(cache[key].storedAt, now) then Some(cache[key].state) else None;
      if r.None? {
        Forget(key);
      }
    }
  }

  lemma DropKeeps<S>(entries: Entries<S>, order: seq<Slot>, head: nat, key: Key, version: nat, latest: int, limit: nat)
    requires CacheOk(limit, entries, order, head, version, latest)
    ensures CacheOk(limit, entries - {key}, order, head, version, latest)
  {
    SubAged(entries - {key}, entries, version, latest);
    SubSize((entries - {key}).Keys, entries.Keys);
  }

  /** Inserts, prunes the expired, evicts and compacts. */
  method StoreIn<S>(entries: Entries<S>, order: seq<Slot>, head: nat, key: Key, e: Entry<S>, limit: nat, shift: bool,
                    ghost latest: int)
    returns (left: Entries<S>, o: seq<Slot>, h: nat)
    requires e.version > 0 && latest <= e.storedAt && CacheOk(limit, entries, order, head, e.version - 1, latest)
    ensures CacheOk(limit, left, o, h, e.version, e.storedAt)
    ensures Remembered(entries[key := e], left, limit, e.storedAt)
    ensures key in left && left[key] == e
  {
    ghost var all := entries[key := e];
    StoredIsAged(entries, key, e.state, e.version - 1, latest, e.storedAt);
    SizeAfterStore(entries, key, e, e.storedAt);
    left, o, h := AppendAndPrune(entries, order, head, key, e, shift);
    left, o, h := Trim(left, o, h, limit, e.version);
    SubAged(left, all, e.version, e.storedAt);
    NewestStays(all, left, key, limit, e.storedAt);
  }

  method AppendAndPrune<S>(entries: Entries<S>, order: seq<Slot>, head: nat, key: Key, e: Entry<S>, shift: bool)
    returns (left: Entries<S>, o: seq<Slot>, h: nat)
    requires e.version > 0 && Serves(order, head, entries, e.version - 1) && AgeOrdered(entries[key := e])
    ensures Serves(o, h, left, e.version) && left == Unexpired(entries[key := e], e.storedAt)
  {
    o, h := Append(order, head, entries, key, e, shift);
    left, o, h := PruneExpired(entries[key := e], o, h, e.storedAt);
  }

  /** Evicts and compacts what one store may have made too many. */
  method Trim<S>(entries: Entries<S>, order: seq<Slot>, head: nat, limit: nat, ghost version: nat)
    returns (left: Entries<S>, o: seq<Slot>, h: nat)
    requires Serves(order, head, entries, version) && |entries| <= limit + 1 && limit > 0
    ensures Serves(o, h, left, version) && Bounded(o, h, left, limit)
    ensures if |entries| <= limit then left == entries else exists k :: Oldest(entries, k) && left == entries - {k}
  {
    left, o, h := EvictOver(entries, order, head, limit, version);
    o, h := CompactOver(left, o, h, limit, version);
  }

  lemma SizeAfterStore<S>(before: Entries<S>, key: Key, e: Entry<S>, now: int)
    ensures |Unexpired(before[key := e], now)| <= |before| + 1
  {
    var after := Unexpired(before[key := e], now);
    assert after.Keys <= before.Keys + {key};
    SubSize(after.Keys, before.Keys + {key});
  }

  lemma {:induction false} SubSize(a: set<Key>, b: set<Key>)
    requires a <= b
    ensures |a| <= |b|
    decreases |a|
  {
    if k :| k in a {
      SubSize(a - {k}, b - {k});
    }
  }

  /** The newest entry is neither expired nor the oldest of several. */
  lemma NewestStays<S>(all: Entries<S>, after: Entries<S>, key: Key, limit: nat, now: int)
    requires limit > 0 && key in all && all[key].storedAt == now && Remembered(all, after, limit, now)
    requires forall k :: k in all && k != key ==> all[k].version < all[key].version
    ensures key in after && after[key] == all[key]
  {
    var kept := Unexpired(all, now);
    assert key in kept;
    if |kept| > limit {
      var k :| Oldest(kept, k) && after == kept - {k};
      if k == key {
        OnlyOne(kept, key);
      }
    }
  }

  lemma OnlyOne<S>(entries: Entries<S>, key: Key)
    requires forall j :: j in entries ==> j == key
    ensures |entries| <= 1
  {
    SubSize(entries.Keys, {key});
  }
}
