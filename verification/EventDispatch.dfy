/**
 * Block-applied events of an archive window (service/archive_import_apply.go): collected by
 * concurrent workers, validated and put in order by beginBlockAppliedDispatch, then delivered
 * one by one.  Main results: a dispatch begins exactly when the collected events match the
 * accepted range; the delivered order is the one strictly rising order of the collected events
 * (by master seqno, masters before their shards, then by block id), so that neither it nor the
 * decision to begin depends on the order in which workers appended; a finished dispatch has
 * delivered every event once, and whatever happens afterwards nothing is delivered again.
 */
module EventDispatch {
  import opened Common

  datatype BlockId = BlockId(seqno: nat, workchain: int, shard: int, rootHash: nat, fileHash: nat)

  /** An event: its block, the state root it carries, and for shard blocks the including master. */
  datatype Event = Event(hasMeta: bool, id: BlockId, state: nat, inclusion: Option<BlockId>, inclusionState: nat)

  datatype MasterState = MasterState(block: BlockId, cell: nat)

  datatype Window = Window(startSeqno: nat, masterStates: map<nat, MasterState>, shardBlocksApplied: nat)

  datatype Head = Head(seqno: nat, master: BlockId)

  datatype Phase = Collecting | Dispatching | Dispatched

  type Shards = map<nat, seq<Event>>

  datatype Events = Events(phase: Phase, configured: bool, enabled: bool, masters: seq<Event>, shards: Shards)

  function At(shards: Shards, seqno: nat): (r: seq<Event>) {
    if seqno in shards then shards[seqno] else []
  }

  // The order of block ids: seqno, workchain, shard, root hash, file hash.

  predicate IdLess(a: BlockId, b: BlockId) {
    if a.seqno != b.seqno then a.seqno < b.seqno
    else if a.workchain != b.workchain then a.workchain < b.workchain
    else if a.shard != b.shard then a.shard < b.shard
    else if a.rootHash != b.rootHash then a.rootHash < b.rootHash
    else a.fileHash < b.fileHash
  }

  function Insert(sorted: seq<Event>, e: Event): (r: seq<Event>) {
    if sorted == [] then [e]
    else
      var (init, last) := (sorted[..|sorted| - 1], sorted[|sorted| - 1]);
      if IdLess(e.id, last.id) then Insert(init, e) + [last] else sorted + [e]
  }

  /** A stable sort of the events by block id. */
  function Sorted(events: seq<Event>): (r: seq<Event>) {
    if events == [] then [] else Insert(Sorted(events[..|events| - 1]), events[|events| - 1])
  }

  lemma {:induction false} InsertIsPermutation(sorted: seq<Event>, e: Event)
    ensures multiset(Insert(sorted, e)) == multiset(sorted) + multiset{e}
  {
    if sorted != [] {
      var (init, last) := (sorted[..|sorted| - 1], sorted[|sorted| - 1]);
      assert sorted == init + [last];
      if IdLess(e.id, last.id) {
        InsertIsPermutation(init, e);
      }
    }
  }

  lemma {:induction false} SortedIsPermutation(events: seq<Event>)
    ensures multiset(Sorted(events)) == multiset(events)
  {
    if events != [] {
      var (init, last) := (events[..|events| - 1], events[|events| - 1]);
      assert events == init + [last];
      SortedIsPermutation(init);
      InsertIsPermutation(Sorted(init), last);
    }
  }

  predicate Rising(events: seq<Event>) {
    forall i, j :: 0 <= i < j < |events| ==> IdLess(events[i].id, events[j].id)
  }

  /** Events are told apart by the root hash of their block. */
  predicate DistinctKeys(events: seq<Event>) {
    forall i, j :: 0 <= i < j < |events| ==> events[i].id.rootHash != events[j].id.rootHash
  }

  lemma {:induction false} InsertKeepsRising(sorted: seq<Event>, e: Event)
    requires Rising(sorted) && forall i :: 0 <= i < |sorted| ==> sorted[i].id != e.id
    ensures Rising(Insert(sorted, e))
  {
    if sorted != [] {
      var (init, last) := (sorted[..|sorted| - 1], sorted[|sorted| - 1]);
      if IdLess(e.id, last.id) {
        InsertKeepsRising(init, e);
        InsertIsPermutation(init, e);
        forall i | 0 <= i < |Insert(init, e)|
          ensures IdLess(Insert(init, e)[i].id, last.id)
        {
          assert Insert(init, e)[i] in multiset(Insert(init, e));
          assert Insert(init, e)[i] in init || Insert(init, e)[i] == e;
        }
      }
    }
  }

  lemma {:induction false} SortedIsRising(events: seq<Event>)
    requires DistinctKeys(events)
    ensures Rising(Sorted(events))
  {
    if events != [] {
      var (init, last) := (events[..|events| - 1], events[|events| - 1]);
      SortedIsRising(init);
      SortedIsPermutation(init);
      forall i | 0 <= i < |Sorted(init)|
        ensures Sorted(init)[i].id != last.id
      {
        assert Sorted(init)[i] in multiset(init);
      }
      InsertKeepsRising(Sorted(init), last);
    }
  }

  // What is delivered.

  datatype Item = Master(event: Event) | Shard(master: nat, event: Event)

  function MasterSeqno(item: Item): (n: nat) {
    match item
    case Master(e) => e.id.seqno
    case Shard(n, _) => n
  }

  /** Causal order: by master seqno, a master before its shards, shards by block id. */
  predicate Before(a: Item, b: Item) {
    if MasterSeqno(a) != MasterSeqno(b) then MasterSeqno(a) < MasterSeqno(b)
    else if a.Master? then b.Shard?
    else b.Shard? && IdLess(a.event.id, b.event.id)
  }

  function ShardItems(seqno: nat, events: seq<Event>): (r: seq<Item>) {
    seq(|events|, i requires 0 <= i < |events| => Shard(seqno, events[i]))
  }

  /** The batches of the first k masters, flattened: each master, then its shards in order. */
  function Ordered(start: nat, masters: seq<Event>, shards: Shards, k: nat): (r: seq<Item>)
    requires k <= |masters|
  {
    if k == 0 then []
    else
      Ordered(start, masters, shards, k - 1)
      + [Master(masters[k - 1])]
      + ShardItems(start + k - 1, Sorted(At(shards, start + k - 1)))
  }

  /** The collected events of the first k masters, as appended. */
  function Collected(start: nat, masters: seq<Event>, shards: Shards, k: nat): (r: seq<Event>)
    requires k <= |masters|
  {
    if k == 0 then []
    else Collected(start, masters, shards, k - 1) + [masters[k - 1]] + At(shards, start + k - 1)
  }

  // When a dispatch may begin.

  predicate MasterOk(e: Event, m: MasterState) {
    e.hasMeta && e.id == m.block && e.state == m.cell
  }

  predicate ShardOk(e: Event, m: MasterState) {
    e.hasMeta && e.inclusion == Some(m.block) && e.inclusionState == m.cell
  }

  predicate BatchOk(w: Window, masters: seq<Event>, shards: Shards, idx: nat)
    requires idx < |masters|
  {
    var seqno := w.startSeqno + idx;
    && seqno in w.masterStates
    && MasterOk(masters[idx], w.masterStates[seqno])
    && forall i :: 0 <= i < |At(shards, seqno)| ==> ShardOk(At(shards, seqno)[i], w.masterStates[seqno])
  }

  predicate RangeOk(w: Window, current: Option<Head>, next: Option<Head>) {
    && current.Some? && next.Some?
    && next.value.seqno > current.value.seqno
    && w.startSeqno == current.value.seqno + 1
    && next.value.seqno in w.masterStates && next.value.master == w.masterStates[next.value.seqno].block
  }

  ghost function Lengths(shards: Shards): (r: map<nat, nat>) {
    map n | n in shards :: |shards[n]|
  }

  ghost function ShardCount(shards: Shards): (n: nat) {
    MapSum(Lengths(shards))
  }

  ghost predicate Accepts(w: Window, e: Events, current: Option<Head>, next: Option<Head>) {
    && RangeOk(w, current, next)
    && |e.masters| == next.value.seqno - current.value.seqno
    && (forall n :: n in e.shards ==> w.startSeqno <= n <= next.value.seqno)
    && ShardCount(e.shards) == w.shardBlocksApplied
    && (forall i :: 0 <= i < |e.masters| ==> BatchOk(w, e.masters, e.shards, i))
    && DistinctKeys(Collected(w.startSeqno, e.masters, e.shards, |e.masters|))
  }

  /** The window's master states are filed under their own seqnos. */
  ghost predicate WindowOk(w: Window) {
    forall n :: n in w.masterStates ==> w.masterStates[n].block.seqno == n
  }

  // The delivered order.

  predicate RisingItems(items: seq<Item>) {
    forall i, j :: 0 <= i < j < |items| ==> Before(items[i], items[j])
  }

  lemma ShardItemsRise(seqno: nat, events: seq<Event>)
    requires DistinctKeys(events)
    ensures RisingItems(ShardItems(seqno, Sorted(events)))
    ensures forall x :: x in ShardItems(seqno, Sorted(events)) <==> x.Shard? && x.master == seqno && x.event in events
  {
    SortedIsRising(events);
    SortedIsPermutation(events);
    var sorted := Sorted(events);
    forall x
      ensures x in ShardItems(seqno, sorted) <==> x.Shard? && x.master == seqno && x.event in events
    {
      assert x.event in events <==> x.event in multiset(events);
      assert x.event in sorted <==> x.event in multiset(sorted);
      if x.Shard? && x.master == seqno && x.event in sorted {
        var i :| 0 <= i < |sorted| && sorted[i] == x.event;
        assert ShardItems(seqno, sorted)[i] == x;
      }
    }
  }

  lemma DistinctParts(x: seq<Event>, y: seq<Event>)
    requires DistinctKeys(x + y)
    ensures DistinctKeys(x) && DistinctKeys(y)
  {
    assert forall i :: 0 <= i < |x| ==> x[i] == (x + y)[i];
    assert forall i :: 0 <= i < |y| ==> y[i] == (x + y)[|x| + i];
  }

  lemma {:induction false} CollectedParts(start: nat, masters: seq<Event>, shards: Shards, k: nat)
    requires k <= |masters| && DistinctKeys(Collected(start, masters, shards, k))
    ensures PartsDistinct(start, shards, k)
  {
    if k > 0 {
      var before := Collected(start, masters, shards, k - 1);
      DistinctParts(before + [masters[k - 1]], At(shards, start + k - 1));
      DistinctParts(before, [masters[k - 1]]);
      CollectedParts(start, masters, shards, k - 1);
    }
  }

  /** What the batches of the first k masters hold. */
  predicate Holds(start: nat, masters: seq<Event>, shards: Shards, k: nat, x: Item)
    requires k <= |masters|
  {
    match x
    case Master(e) => e in masters[..k]
    case Shard(n, e) => start <= n < start + k && e in At(shards, n)
  }

  ghost predicate MastersInOrder(start: nat, masters: seq<Event>) {
    forall i :: 0 <= i < |masters| ==> masters[i].id.seqno == start + i
  }

  ghost predicate PartsDistinct(start: nat, shards: Shards, k: nat) {
    forall n: nat :: start <= n < start + k ==> DistinctKeys(At(shards, n))
  }

  lemma {:induction false} OrderedHolds(start: nat, masters: seq<Event>, shards: Shards, k: nat, x: Item)
    requires k <= |masters| && PartsDistinct(start, shards, k)
    ensures x in Ordered(start, masters, shards, k) <==> Holds(start, masters, shards, k, x)
  {
    if k > 0 {
      OrderedHolds(start, masters, shards, k - 1, x);
      ShardItemsRise(start + k - 1, At(shards, start + k - 1));
      assert masters[..k] == masters[..k - 1] + [masters[k - 1]];
    }
  }

  lemma OrderedBelow(start: nat, masters: seq<Event>, shards: Shards, k: nat)
    requires k <= |masters| && PartsDistinct(start, shards, k) && MastersInOrder(start, masters)
    ensures forall i :: 0 <= i < |Ordered(start, masters, shards, k)| ==>
            MasterSeqno(Ordered(start, masters, shards, k)[i]) < start + k
  {
    var items := Ordered(start, masters, shards, k);
    forall i | 0 <= i < |items|
      ensures MasterSeqno(items[i]) < start + k
    {
      assert items[i] in items;
      OrderedHolds(start, masters, shards, k, items[i]);
    }
  }

  lemma BatchRises(seqno: nat, events: seq<Event>)
    requires DistinctKeys(events)
    ensures var tail := ShardItems(seqno, Sorted(events));
            RisingItems(tail) && forall i :: 0 <= i < |tail| ==> tail[i].Shard? && MasterSeqno(tail[i]) == seqno
  {
    ShardItemsRise(seqno, events);
    var tail := ShardItems(seqno, Sorted(events));
    assert forall i :: 0 <= i < |tail| ==> tail[i] in tail;
  }

  lemma {:induction false} OrderedRises(start: nat, masters: seq<Event>, shards: Shards, k: nat)
    requires k <= |masters| && PartsDistinct(start, shards, k) && MastersInOrder(start, masters)
    ensures RisingItems(Ordered(start, masters, shards, k))
  {
    if k > 0 {
      OrderedRises(start, masters, shards, k - 1);
      OrderedStep(start, masters, shards, k);
    }
  }

  lemma OrderedStep(start: nat, masters: seq<Event>, shards: Shards, k: nat)
    requires 0 < k <= |masters| && PartsDistinct(start, shards, k) && MastersInOrder(start, masters)
    requires RisingItems(Ordered(start, masters, shards, k - 1))
    ensures RisingItems(Ordered(start, masters, shards, k))
  {
    var (before, seqno) := (Ordered(start, masters, shards, k - 1), start + k - 1);
    var items := before + [Master(masters[k - 1])] + ShardItems(seqno, Sorted(At(shards, seqno)));
    assert RisingItems(items) by {
      OrderedBelow(start, masters, shards, k - 1);
      BatchAppendRises(before, Master(masters[k - 1]), seqno, At(shards, seqno));
    }
    assert Ordered(start, masters, shards, k) == items;
  }

  lemma BatchAppendRises(before: seq<Item>, m: Item, seqno: nat, events: seq<Event>)
    requires RisingItems(before) && m.Master? && MasterSeqno(m) == seqno && DistinctKeys(events)
    requires forall i :: 0 <= i < |before| ==> MasterSeqno(before[i]) < seqno
    ensures RisingItems(before + [m] + ShardItems(seqno, Sorted(events)))
  {
    BatchRises(seqno, events);
    AppendRises(before, m, ShardItems(seqno, Sorted(events)));
  }

  lemma AppendRises(before: seq<Item>, m: Item, tail: seq<Item>)
    requires RisingItems(before) && RisingItems(tail) && m.Master?
    requires forall i :: 0 <= i < |before| ==> MasterSeqno(before[i]) < MasterSeqno(m)
    requires forall i :: 0 <= i < |tail| ==> tail[i].Shard? && MasterSeqno(tail[i]) == MasterSeqno(m)
    ensures RisingItems(before + [m] + tail)
  {
  }

  /** A strict order fixes a rising sequence by its members. */
  lemma {:induction false} RisingIsUnique(a: seq<Item>, b: seq<Item>)
    requires RisingItems(a) && RisingItems(b) && forall x :: x in a <==> x in b
    ensures a == b
    decreases |a|
  {
    SomeMember(a);
    SomeMember(b);
    if a != [] {
      var (x, y) := (a[|a| - 1], b[|b| - 1]);
      LastIsLast(a, y);
      LastIsLast(b, x);
      assert x == y;
      var (a', b') := (a[..|a| - 1], b[..|b| - 1]);
      WithoutLast(a);
      WithoutLast(b);
      forall item: Item
        ensures item in a' <==> item in b'
      {
        assert item in a <==> item in b;
      }
      RisingIsUnique(a', b');
      assert a == a' + [x] && b == b' + [x];
    }
  }

  lemma SomeMember(items: seq<Item>)
    ensures items != [] ==> exists x :: x in items
  {
    if items != [] {
      assert items[0] in items;
    }
  }

  lemma LastIsLast(a: seq<Item>, x: Item)
    requires RisingItems(a) && x in a
    ensures x == a[|a| - 1] || Before(x, a[|a| - 1])
  {
  }

  lemma WithoutLast(a: seq<Item>)
    requires RisingItems(a) && a != []
    ensures forall x :: x in a[..|a| - 1] <==> x in a && x != a[|a| - 1]
  {
    assert a == a[..|a| - 1] + [a[|a| - 1]];
  }

  lemma AcceptedIsOrdered(w: Window, e: Events, current: Option<Head>, next: Option<Head>)
    requires WindowOk(w) && Accepts(w, e, current, next)
    ensures PartsDistinct(w.startSeqno, e.shards, |e.masters|) && MastersInOrder(w.startSeqno, e.masters)
  {
    CollectedParts(w.startSeqno, e.masters, e.shards, |e.masters|);
    forall i | 0 <= i < |e.masters|
      ensures e.masters[i].id.seqno == w.startSeqno + i
    {
      assert BatchOk(w, e.masters, e.shards, i);
    }
  }

  /**
   * An accepted dispatch delivers every collected event exactly once, masters in seqno order, each before
   * its shards: the order rises strictly, and its members are all masters and all shard events.
   */
  lemma EveryEventOnce(w: Window, e: Events, current: Option<Head>, next: Option<Head>, x: Item)
    requires WindowOk(w) && Accepts(w, e, current, next)
    ensures var order := Ordered(w.startSeqno, e.masters, e.shards, |e.masters|);
            && RisingItems(order)
            && (x in order <==> match x case Master(m) => m in e.masters case Shard(n, s) =>
                  n in e.shards && s in e.shards[n])
  {
    AcceptedIsOrdered(w, e, current, next);
    OrderedRises(w.startSeqno, e.masters, e.shards, |e.masters|);
    OrderedHolds(w.startSeqno, e.masters, e.shards, |e.masters|, x);
    assert e.masters[..|e.masters|] == e.masters;
  }

  /** The order does not depend on the order in which the events were appended. */
  lemma AppendOrderIsIrrelevant(w: Window, a: Events, b: Events, current: Option<Head>, next: Option<Head>)
    requires WindowOk(w) && Accepts(w, a, current, next) && Accepts(w, b, current, next)
    requires forall m :: m in a.masters <==> m in b.masters
    requires forall n, s :: s in At(a.shards, n) <==> s in At(b.shards, n)
    ensures Ordered(w.startSeqno, a.masters, a.shards, |a.masters|)
            == Ordered(w.startSeqno, b.masters, b.shards, |b.masters|)
  {
    var (x, y) := (Ordered(w.startSeqno, a.masters, a.shards, |a.masters|),
                   Ordered(w.startSeqno, b.masters, b.shards, |b.masters|));
    forall item
      ensures item in x <==> item in y
    {
      EveryEventOnce(w, a, current, next, item);
      EveryEventOnce(w, b, current, next, item);
      if item.Shard? {
        assert item.event in At(a.shards, item.master) <==> item.event in At(b.shards, item.master);
      }
    }
    EveryEventOnce(w, a, current, next, Shard(0, Event(false, BlockId(0, 0, 0, 0, 0), 0, None, 0)));
    EveryEventOnce(w, b, current, next, Shard(0, Event(false, BlockId(0, 0, 0, 0, 0), 0, None, 0)));
    RisingIsUnique(x, y);
  }

  // Collecting and dispatching.

  /** What beginning a dispatch gives: an error, nothing more to do, or the items to deliver. */
  datatype Outcome = Failed | Already | Batches(items: seq<Item>)

  predicate KeysApart(events: seq<Event>, seen: set<nat>) {
    forall i :: 0 <= i < |events| ==> events[i].id.rootHash !in seen
  }

  function KeysOf(events: seq<Event>): (r: set<nat>) {
    set i | 0 <= i < |events| :: events[i].id.rootHash
  }

  /** Every event has metadata, names the master as including it and carries that master's state. */
  predicate ShardsOk(events: seq<Event>, m: MasterState) {
    forall i :: 0 <= i < |events| ==>
      events[i].hasMeta && events[i].inclusion == Some(m.block) && events[i].inclusionState == m.cell
  }

  lemma DistinctAppend(x: seq<Event>, y: seq<Event>)
    ensures DistinctKeys(x + y) <==> DistinctKeys(x) && DistinctKeys(y) && KeysApart(y, KeysOf(x))
    ensures KeysOf(x + y) == KeysOf(x) + KeysOf(y)
  {
    var z := x + y;
    assert forall i :: 0 <= i < |x| ==> z[i] == x[i];
    assert forall i :: 0 <= i < |y| ==> z[|x| + i] == y[i];
    if DistinctKeys(z) {
      DistinctParts(x, y);
    }
    forall key
      ensures key in KeysOf(z) <==> key in KeysOf(x) + KeysOf(y)
    {
      if key in KeysOf(y) {
        var i :| 0 <= i < |y| && y[i].id.rootHash == key;
        assert z[|x| + i].id.rootHash == key;
      }
    }
  }

  /** One master's shard events: all with metadata and its inclusion, none seen before. */
  method CheckShards(events: seq<Event>, m: MasterState, seen: set<nat>) returns (ok: bool, r: set<nat>)
    ensures ok <==> ShardsOk(events, m) && DistinctKeys(events) && KeysApart(events, seen)
    ensures ok ==> r == seen + KeysOf(events)
  {
    r := seen;
    for i := 0 to |events|
      invariant ShardsOk(events[..i], m) && DistinctKeys(events[..i]) && KeysApart(events[..i], seen)
      invariant r == seen + KeysOf(events[..i])
    {
      var e := events[i];
      assert events[..i + 1] == events[..i] + [e];
      DistinctAppend(events[..i], [e]);
      if !e.hasMeta || e.id.rootHash in r {
        if e.id.rootHash in KeysOf(events[..i]) {
          var j :| 0 <= j < i && events[..i][j].id.rootHash == e.id.rootHash;
          assert events[j].id.rootHash == events[i].id.rootHash;
        }
        return false, r;
      }
      r := r + {e.id.rootHash};
      if e.inclusion != Some(m.block) || e.inclusionState != m.cell {
        return false, r;
      }
      assert KeysOf([e]) == {e.id.rootHash} by {
        assert [e][0] == e;
      }
    }
    assert events[..|events|] == events;
    ok := true;
  }

  lemma {:induction false} CollectedPrefix(start: nat, masters: seq<Event>, shards: Shards, k: nat, n: nat)
    requires k <= n <= |masters| && DistinctKeys(Collected(start, masters, shards, n))
    ensures DistinctKeys(Collected(start, masters, shards, k))
    decreases n
  {
    if k < n {
      var before := Collected(start, masters, shards, n - 1);
      DistinctParts(before + [masters[n - 1]], At(shards, start + n - 1));
      DistinctParts(before, [masters[n - 1]]);
      CollectedPrefix(start, masters, shards, k, n - 1);
    }
  }

  /** Sorting in place changes no more than the order within a seqno. */
  ghost predicate SameShards(a: Shards, b: Shards) {
    a.Keys == b.Keys && forall n :: n in a ==> multiset(a[n]) == multiset(b[n])
  }

  ghost predicate Checked(w: Window, masters: seq<Event>, shards: Shards, k: nat)
    requires k <= |masters|
  {
    (forall i :: 0 <= i < k ==> BatchOk(w, masters, shards, i))
        && DistinctKeys(Collected(w.startSeqno, masters, shards, k))
  }

  /** One master with its shards. */
  method CheckBatch(w: Window, masters: seq<Event>, shards: Shards, k: nat, seen: set<nat>)
    returns (ok: bool, r: set<nat>)
    requires k < |masters| && Checked(w, masters, shards, k)
             && seen == KeysOf(Collected(w.startSeqno, masters, shards, k))
    ensures ok <==> Checked(w, masters, shards, k + 1)
    ensures ok ==> r == KeysOf(Collected(w.startSeqno, masters, shards, k + 1))
  {
    var seqno := w.startSeqno + k;
    var m := masters[k];
    r := seen;
    ghost var before := Collected(w.startSeqno, masters, shards, k);
    DistinctAppend(before, [m]);
    DistinctAppend(before + [m], At(shards, seqno));
    assert KeysOf([m]) == {m.id.rootHash} by {
      assert [m][0] == m;
    }
    if seqno !in w.masterStates {
      assert !BatchOk(w, masters, shards, k);
      return false, r;
    }
    var state := w.masterStates[seqno];
    if !m.hasMeta || m.id.rootHash in r || m.id != state.block || m.state != state.cell {
      assert m.id.rootHash in r ==> !KeysApart([m], KeysOf(before)) by {
        assert [m][0] == m;
      }
      assert m.id.rootHash !in r ==> !BatchOk(w, masters, shards, k);
      return false, r;
    }
    r := r + {m.id.rootHash};
    ok, r := CheckShards(At(shards, seqno), state, r);
    assert ShardsOk(At(shards, seqno), state) <==> BatchOk(w, masters, shards, k);
  }

  method CheckBatches(w: Window, masters: seq<Event>, shards: Shards)
    returns (ok: bool, after: Shards, items: seq<Item>)
    ensures ok <==> Checked(w, masters, shards, |masters|)
    ensures ok ==> items == Ordered(w.startSeqno, masters, shards, |masters|)
    ensures SameShards(shards, after)
  {
    after, items := shards, [];
    var seen: set<nat> := {};
    for k := 0 to |masters|
      invariant Checked(w, masters, shards, k) && seen == KeysOf(Collected(w.startSeqno, masters, shards, k))
      invariant items == Ordered(w.startSeqno, masters, shards, k)
      invariant after == SortFirst(shards, w.startSeqno, k)
    {
      ok, seen := CheckBatch(w, masters, shards, k, seen);
      if !ok {
        NotChecked(w, masters, shards, k + 1);
        SortingIsSame(shards, w.startSeqno, k);
        return;
      }
      after := SortAt(after, shards, w.startSeqno + k);
      items := items + [Master(masters[k])] + ShardItems(w.startSeqno + k, Sorted(At(shards, w.startSeqno + k)));
    }
    SortingIsSame(shards, w.startSeqno, |masters|);
    ok := true;
  }

  /** The shard events with the first k seqnos sorted. */
  function SortFirst(shards: Shards, start: nat, k: nat): (r: Shards) {
    if k == 0 then shards else SortAt(SortFirst(shards, start, k - 1), shards, start + k - 1)
  }

  function SortAt(after: Shards, shards: Shards, seqno: nat): (r: Shards) {
    if seqno in after then after[seqno := Sorted(At(shards, seqno))] else after
  }

  lemma {:induction false} SortingIsSame(shards: Shards, start: nat, k: nat)
    ensures SameShards(shards, SortFirst(shards, start, k))
  {
    if k > 0 {
      SortingIsSame(shards, start, k - 1);
      SortedIsPermutation(At(shards, start + k - 1));
    }
  }

  lemma NotChecked(w: Window, masters: seq<Event>, shards: Shards, k: nat)
    requires k <= |masters| && !Checked(w, masters, shards, k)
    ensures !Checked(w, masters, shards, |masters|)
  {
    if DistinctKeys(Collected(w.startSeqno, masters, shards, |masters|)) {
      CollectedPrefix(w.startSeqno, masters, shards, k, |masters|);
    }
  }

  method CountShards(shards: Shards) returns (n: nat)
    ensures n == ShardCount(shards)
  {
    n := 0;
    var rest := shards;
    while rest != map[]
      invariant n + ShardCount(rest) == ShardCount(shards)
      decreases |rest|
    {
      var s :| s in rest;
      CountWithout(rest, s);
      n := n + |rest[s]|;
      rest := rest - {s};
    }
    assert Lengths(rest) == map[];
  }

  lemma CountWithout(shards: Shards, s: nat)
    requires s in shards
    ensures ShardCount(shards) == |shards[s]| + ShardCount(shards - {s}) && |shards - {s}| == |shards| - 1
  {
    MapSumRemove(Lengths(shards), s);
    assert (shards - {s}).Keys == shards.Keys - {s};
    assert Lengths(shards) - {s} == Lengths(shards - {s});
  }

  class BlockAppliedEvents {
    var phase: Phase
    var configured: bool
    var enabled: bool
    var masters: seq<Event>
    var shards: Shards

    function Contents(): (e: Events)
      reads this
    {
      Events(phase, configured, enabled, masters, shards)
    }

    constructor ()
      ensures Contents() == Events(Collecting, false, false, [], map[])
    {
      phase, configured, enabled, masters, shards := Collecting, false, false, [], map[];
    }

    /** False when dispatch has begun, events came first, or the capability changed. */
    method Configure(on: bool) returns (ok: bool)
      modifies this
      ensures Contents() == Configured(old(Contents()), on) && ok == ConfigureOk(old(Contents()), on)
    {
      if phase != Collecting {
        return false;
      }
      if configured {
        return enabled == on;
      }
      if masters != [] || shards != map[] {
        return false;
      }
      configured, enabled := true, on;
      ok := true;
    }

    method DeferMaster(event: Event)
      modifies this
      ensures Contents() == WithMaster(old(Contents()), event)
    {
      if phase != Collecting {
        return;
      }
      masters := masters + [event];
    }

    method DeferShard(seqno: nat, event: Event)
      modifies this
      ensures Contents() == WithShard(old(Contents()), seqno, event)
    {
      if phase != Collecting {
        return;
      }
      shards := shards[seqno := At(shards, seqno) + [event]];
    }

    /** beginBlockAppliedDispatch. */
    method Begin(w: Window, current: Option<Head>, next: Option<Head>) returns (r: Outcome)
      modifies this
      ensures BeginsTo(w, old(Contents()), current, next, Contents(), r)
      ensures old(enabled) ==>
                (r.Batches? <==> && old(phase).Collecting? && old(configured) && current.Some? && next.Some?
                                 && Fits(w, old(Contents()), current.value, next.value))
    {
      if enabled {
        BeginsExactly(w, Contents(), current, next);
      }
      if phase == Dispatching {
        return Failed;
      }
      if phase == Dispatched {
        return Already;
      }
      if !configured {
        return Failed;
      }
      if !enabled {
        if masters != [] || shards != map[] {
          return Failed;
        }
        phase := Dispatching;
        return Batches([]);
      }
      if !RangeOk(w, current, next) {
        return Failed;
      }
      if |masters| != next.value.seqno - current.value.seqno {
        return Failed;
      }
      if exists n :: n in shards && !(w.startSeqno <= n <= next.value.seqno) {
        return Failed;
      }
      var count := CountShards(shards);
      if count != w.shardBlocksApplied {
        return Failed;
      }
      var ok, after, items := CheckBatches(w, masters, shards);
      shards := after;
      if !ok {
        return Failed;
      }
      phase := Dispatching;
      return Batches(items);
    }

    method Finish()
      modifies this
      ensures Contents() == Events(Dispatched, old(configured), old(enabled), [], map[])
    {
      phase, masters, shards := Dispatched, [], map[];
    }
  }

  predicate ConfigureOk(e: Events, on: bool) {
    e.phase.Collecting? && if e.configured then e.enabled == on else e.masters == [] && e.shards == map[]
  }

  function Configured(e: Events, on: bool): (r: Events) {
    if ConfigureOk(e, on) then e.(configured := true, enabled := on) else e
  }

  function WithMaster(e: Events, event: Event): (r: Events) {
    if e.phase.Collecting? then e.(masters := e.masters + [event]) else e
  }

  function WithShard(e: Events, seqno: nat, event: Event): (r: Events) {
    if e.phase.Collecting? then e.(shards := e.shards[seqno := At(e.shards, seqno) + [event]]) else e
  }

  /** A dispatch begins exactly when the events are disabled and none came, or enabled and accepted. */
  ghost predicate Begins(w: Window, e: Events, current: Option<Head>, next: Option<Head>) {
    && e.phase.Collecting? && e.configured
    && if e.enabled then Accepts(w, e, current, next) else e.masters == [] && e.shards == map[]
  }

  ghost predicate BeginsTo(w: Window, e: Events, current: Option<Head>, next: Option<Head>, after: Events, r: Outcome) {
    && (r.Batches? <==> Begins(w, e, current, next))
    && (r.Already? <==> e.phase.Dispatched?)
    && (r.Batches? ==> r.items == if e.enabled then Ordered(w.startSeqno, e.masters, e.shards, |e.masters|) else [])
    && after.phase == (if r.Batches? then Dispatching else e.phase)
    && after.configured == e.configured && after.enabled == e.enabled && after.masters == e.masters
    && SameShards(e.shards, after.shards)
  }

  // Acceptance does not depend on the order of appending either.

  /** Keys are distinct exactly when there are as many as events, which a permutation does not change. */
  lemma {:induction false} DistinctIsCounted(events: seq<Event>)
    ensures |KeysOf(events)| <= |events|
    ensures DistinctKeys(events) <==> |KeysOf(events)| == |events|
  {
    if events == [] {
      assert KeysOf(events) == {};
    } else {
      var (init, last) := (events[..|events| - 1], events[|events| - 1]);
      assert events == init + [last];
      DistinctIsCounted(init);
      DistinctAppend(init, [last]);
      assert [last][0] == last;
      assert KeysOf([last]) == {last.id.rootHash};
    }
  }

  lemma SameKeys(a: seq<Event>, b: seq<Event>)
    requires multiset(a) == multiset(b)
    ensures KeysOf(a) <= KeysOf(b)
  {
    forall key | key in KeysOf(a)
      ensures key in KeysOf(b)
    {
      var i :| 0 <= i < |a| && a[i].id.rootHash == key;
      assert a[i] in multiset(b);
      var j :| 0 <= j < |b| && b[j] == a[i];
      assert b[j].id.rootHash == key;
    }
  }

  lemma PermutedDistinct(a: seq<Event>, b: seq<Event>)
    requires multiset(a) == multiset(b)
    ensures DistinctKeys(a) <==> DistinctKeys(b)
  {
    SameKeys(a, b);
    SameKeys(b, a);
    assert KeysOf(a) == KeysOf(b) && |a| == |multiset(a)| == |b|;
    DistinctIsCounted(a);
    DistinctIsCounted(b);
  }

  lemma BatchIsPermuted(a: seq<Event>, b: seq<Event>, m: Event, x: seq<Event>, y: seq<Event>)
    requires multiset(a) == multiset(b) && multiset(x) == multiset(y)
    ensures multiset(a + [m] + x) == multiset(b + [m] + y)
  {
  }

  lemma {:induction false} CollectedPermuted(start: nat, masters: seq<Event>, a: Shards, b: Shards, k: nat)
    requires k <= |masters| && SameShards(a, b)
    ensures multiset(Collected(start, masters, a, k)) == multiset(Collected(start, masters, b, k))
  {
    if k > 0 {
      CollectedPermuted(start, masters, a, b, k - 1);
      BatchIsPermuted(Collected(start, masters, a, k - 1), Collected(start, masters, b, k - 1), masters[k - 1],
                      At(a, start + k - 1), At(b, start + k - 1));
    }
  }

  lemma BatchPermuted(w: Window, masters: seq<Event>, a: Shards, b: Shards, idx: nat)
    requires idx < |masters| && SameShards(a, b)
    ensures BatchOk(w, masters, a, idx) ==> BatchOk(w, masters, b, idx)
  {
    var (x, y) := (At(a, w.startSeqno + idx), At(b, w.startSeqno + idx));
    assert multiset(x) == multiset(y);
    forall i | 0 <= i < |y|
      ensures y[i] in x
    {
      assert y[i] in multiset(x);
    }
  }

  lemma SameLengths(a: Shards, b: Shards)
    requires SameShards(a, b)
    ensures ShardCount(a) == ShardCount(b)
  {
    forall n | n in a
      ensures |a[n]| == |b[n]|
    {
      assert |a[n]| == |multiset(a[n])| == |multiset(b[n])|;
    }
    assert Lengths(a) == Lengths(b);
  }

  /** Workers that appended the same shard events in another order are accepted or refused alike. */
  lemma AcceptsPermuted(w: Window, a: Events, b: Events, current: Option<Head>, next: Option<Head>)
    requires a.masters == b.masters && SameShards(a.shards, b.shards)
    ensures Accepts(w, a, current, next) ==> Accepts(w, b, current, next)
  {
    SameLengths(a.shards, b.shards);
    CollectedPermuted(w.startSeqno, a.masters, a.shards, b.shards, |a.masters|);
    PermutedDistinct(Collected(w.startSeqno, a.masters, a.shards, |a.masters|),
                     Collected(w.startSeqno, a.masters, b.shards, |a.masters|));
    forall i | 0 <= i < |a.masters|
      ensures BatchOk(w, a.masters, a.shards, i) ==> BatchOk(w, a.masters, b.shards, i)
    {
      BatchPermuted(w, a.masters, a.shards, b.shards, i);
    }
  }

  lemma SameShardsBack(a: Shards, b: Shards)
    requires SameShards(a, b)
    ensures SameShards(b, a) && forall n, s :: s in At(a, n) <==> s in At(b, n)
  {
    forall n, s
      ensures s in At(a, n) <==> s in At(b, n)
    {
      assert s in At(a, n) <==> s in multiset(At(a, n));
      assert s in At(b, n) <==> s in multiset(At(b, n));
    }
  }

  lemma BeginsPermuted(w: Window, a: Events, b: Events, current: Option<Head>, next: Option<Head>)
    requires WindowOk(w) && a.masters == b.masters && SameShards(a.shards, b.shards)
    requires a.phase == b.phase && a.configured == b.configured && a.enabled == b.enabled
    ensures Begins(w, a, current, next) <==> Begins(w, b, current, next)
    ensures Begins(w, a, current, next) ==> OrderOf(w, a) == OrderOf(w, b)
  {
    SameShardsBack(a.shards, b.shards);
    AcceptsPermuted(w, a, b, current, next);
    AcceptsPermuted(w, b, a, current, next);
    if a.enabled && Accepts(w, a, current, next) {
      AppendOrderIsIrrelevant(w, a, b, current, next);
    }
  }

  // Whole runs over one window: collection by any workers, attempts to dispatch, deliveries that may fail.

  /** The events, the deliveries made, what the attempt under way has left, and the events it began with. */
  datatype State = State(events: Events, delivered: seq<Item>, left: Option<seq<Item>>, begun: Events)

  datatype Step =
    | Configure(on: bool)
    | DeferMaster(event: Event)
    | DeferShard(seqno: nat, event: Event)
    | Begin(current: Option<Head>, next: Option<Head>, after: Events, outcome: Outcome)
    | Deliver(accepted: bool)
    | Finish

  function Initial(): (s: State) {
    State(Events(Collecting, false, false, [], map[]), [], None, Events(Collecting, false, false, [], map[]))
  }

  /** The order in which these events are delivered. */
  function OrderOf(w: Window, e: Events): (r: seq<Item>) {
    if e.enabled then Ordered(w.startSeqno, e.masters, e.shards, |e.masters|) else []
  }

  ghost predicate Enabled(w: Window, s: State, step: Step) {
    match step
    case Begin(current, next, after, outcome) => BeginsTo(w, s.events, current, next, after, outcome)
    case Deliver(_) => s.left.Some? && s.left.value != []
    case Finish => s.left == Some([])
    case _ => true
  }

  /** An accepted delivery moves one item; a refused one ends the attempt. */
  ghost function Next(w: Window, s: State, step: Step): (r: State) {
    if !Enabled(w, s, step) then s
    else
      match step
      case Configure(on) => s.(events := Configured(s.events, on))
      case DeferMaster(event) => s.(events := WithMaster(s.events, event))
      case DeferShard(seqno, event) => s.(events := WithShard(s.events, seqno, event))
      case Begin(_, _, after, outcome) =>
        if outcome.Batches? then State(after, s.delivered, Some(outcome.items), s.events) else s.(events := after)
      case Deliver(accepted) =>
        if accepted then s.(delivered := s.delivered + [s.left.value[0]], left := Some(s.left.value[1..]))
          else s.(left := None)
      case Finish => s.(events := Events(Dispatched, s.events.configured, s.events.enabled, [], map[]), left := None)
  }

  ghost function Run(w: Window, steps: seq<Step>): (s: State) {
    if steps == [] then Initial() else Next(w, Run(w, steps[..|steps| - 1]), steps[|steps| - 1])
  }

  ghost predicate Inv(w: Window, s: State) {
    && (!s.events.phase.Collecting? ==> exists current, next :: Begins(w, s.begun, current, next))
    && match s.events.phase
       case Collecting => s.delivered == [] && s.left.None?
       case Dispatching => s.delivered <= OrderOf(w, s.begun)
           && (s.left.Some? ==> OrderOf(w, s.begun) == s.delivered + s.left.value)
       case Dispatched => s.delivered == OrderOf(w, s.begun) && s.left.None?
  }

  lemma StepKeepsInv(w: Window, s: State, step: Step)
    requires Inv(w, s)
    ensures Inv(w, Next(w, s, step))
    ensures !s.events.phase.Collecting? ==>
              !Next(w, s, step).events.phase.Collecting? && Next(w, s, step).begun == s.begun
  {
    if Enabled(w, s, step) && step.Deliver? {
      var left := s.left.value;
      assert left == [left[0]] + left[1..];
      assert s.delivered + left == (s.delivered + [left[0]]) + left[1..];
    }
  }

  lemma {:induction false} RunKeepsInv(w: Window, steps: seq<Step>)
    ensures Inv(w, Run(w, steps))
  {
    if steps != [] {
      RunKeepsInv(w, steps[..|steps| - 1]);
      StepKeepsInv(w, Run(w, steps[..|steps| - 1]), steps[|steps| - 1]);
    }
  }

  /**
   At every moment the deliveries are a beginning of the accepted order, and a finished dispatch has made them all.
  */
  lemma DeliveredInOrder(w: Window, steps: seq<Step>)
    ensures var s := Run(w, steps);
            && (s.events.phase.Collecting? ==> s.delivered == [])
            && (!s.events.phase.Collecting? ==> s.delivered <= OrderOf(w, s.begun) && exists current, next ::
                Begins(w, s.begun, current, next))
            && (s.events.phase.Dispatched? ==> s.delivered == OrderOf(w, s.begun))
  {
    RunKeepsInv(w, steps);
  }

  /** So a finished dispatch of enabled events has delivered each collected event exactly once, in causal order. */
  lemma ExactlyOnce(w: Window, steps: seq<Step>, x: Item)
    requires WindowOk(w) && Run(w, steps).events.phase.Dispatched? && Run(w, steps).begun.enabled
    ensures var s := Run(w, steps);
            && RisingItems(s.delivered)
            && (x in s.delivered <==>
                  match x case Master(m) => m in s.begun.masters case Shard(n, e) =>
                    n in s.begun.shards && e in s.begun.shards[n])
  {
    RunKeepsInv(w, steps);
    var begun := Run(w, steps).begun;
    var current, next :| Begins(w, begun, current, next);
    EveryEventOnce(w, begun, current, next, x);
  }

  // What is delivered, event by event.

  /** A master's event is of the window's block of some seqno, with the state applied for it. */
  ghost predicate MasterCarries(w: Window, n: nat, e: Event) {
    && n in w.masterStates && e.hasMeta
    && e.id == w.masterStates[n].block && e.state == w.masterStates[n].cell
  }

  /** A shard's event names the master it is filed under as including it, with that master's state. */
  ghost predicate ShardCarries(w: Window, n: nat, e: Event) {
    && n in w.masterStates && e.hasMeta
    && e.inclusion == Some(w.masterStates[n].block) && e.inclusionState == w.masterStates[n].cell
  }

  ghost predicate Carries(w: Window, x: Item) {
    match x
    case Master(e) => exists n :: MasterCarries(w, n, e)
    case Shard(n, e) => ShardCarries(w, n, e)
  }

  lemma AcceptedCarries(w: Window, e: Events, current: Option<Head>, next: Option<Head>, x: Item)
    requires Accepts(w, e, current, next) && x in Ordered(w.startSeqno, e.masters, e.shards, |e.masters|)
    ensures Carries(w, x)
  {
    CollectedParts(w.startSeqno, e.masters, e.shards, |e.masters|);
    OrderedHolds(w.startSeqno, e.masters, e.shards, |e.masters|, x);
    match x
    case Master(m) =>
      assert e.masters[..|e.masters|] == e.masters;
      var i :| 0 <= i < |e.masters| && e.masters[i] == m;
      assert BatchOk(w, e.masters, e.shards, i) && MasterCarries(w, w.startSeqno + i, m);
    case Shard(n, s) =>
      assert BatchOk(w, e.masters, e.shards, n - w.startSeqno);
      var i :| 0 <= i < |At(e.shards, n)| && At(e.shards, n)[i] == s;
      assert ShardOk(At(e.shards, n)[i], w.masterStates[n]);
  }

  /** At every moment of every run, each delivered event carries what the window has for its master. */
  lemma DeliveredCarries(w: Window, steps: seq<Step>, x: Item)
    requires x in Run(w, steps).delivered
    ensures Carries(w, x)
  {
    RunKeepsInv(w, steps);
    var s := Run(w, steps);
    var current, next :| Begins(w, s.begun, current, next);
    assert x in OrderOf(w, s.begun);
    AcceptedCarries(w, s.begun, current, next, x);
  }

  /** Of two shard events of one master the one of the lower block comes first; at equal heights the ids decide. */
  lemma DeliveredByHeight(w: Window, steps: seq<Step>, i: nat, j: nat)
    requires WindowOk(w) && Run(w, steps).begun.enabled && i < j < |Run(w, steps).delivered|
    requires var d := Run(w, steps).delivered; d[i].Shard? && d[j].Shard? && d[i].master == d[j].master
    ensures var (a, b) := (Run(w, steps).delivered[i].event.id, Run(w, steps).delivered[j].event.id);
            || a.seqno < b.seqno
            || (a.seqno == b.seqno && a.workchain < b.workchain)
            || (a.seqno == b.seqno && a.workchain == b.workchain && a.shard < b.shard)
            || (a.seqno == b.seqno && a.workchain == b.workchain && a.shard == b.shard && a.rootHash < b.rootHash)
            || (a.seqno == b.seqno && a.workchain == b.workchain && a.shard == b.shard && a.rootHash == b.rootHash
                && a.fileHash < b.fileHash)
  {
    DeliveredRises(w, steps);
    assert Before(Run(w, steps).delivered[i], Run(w, steps).delivered[j]);
  }

  lemma DeliveredRises(w: Window, steps: seq<Step>)
    requires WindowOk(w) && Run(w, steps).begun.enabled && Run(w, steps).delivered != []
    ensures RisingItems(Run(w, steps).delivered)
  {
    RunKeepsInv(w, steps);
    var s := Run(w, steps);
    var current, next :| Begins(w, s.begun, current, next);
    EveryEventOnce(w, s.begun, current, next, s.delivered[0]);
    assert s.delivered <= OrderOf(w, s.begun);
  }

  /** The collected events fit the accepted range, field by field: one master for each seqno up to the new head. */
  ghost predicate Fits(w: Window, e: Events, current: Head, next: Head) {
    && w.startSeqno == current.seqno + 1 && current.seqno < next.seqno
    && |e.masters| == next.seqno - current.seqno
    && (forall i :: 0 <= i < |e.masters| ==> MasterCarries(w, current.seqno + 1 + i, e.masters[i]))
    && next.seqno in w.masterStates && next.master == w.masterStates[next.seqno].block
    && (forall n :: n in e.shards ==> current.seqno < n <= next.seqno)
    && (forall n, i :: n in e.shards && 0 <= i < |e.shards[n]| ==> ShardCarries(w, n, e.shards[n][i]))
    && ShardCount(e.shards) == w.shardBlocksApplied
    && DistinctKeys(Collected(w.startSeqno, e.masters, e.shards, |e.masters|))
  }

  lemma AcceptedFits(w: Window, e: Events, current: Option<Head>, next: Option<Head>)
    requires Accepts(w, e, current, next)
    ensures current.Some? && next.Some? && Fits(w, e, current.value, next.value)
  {
    forall i | 0 <= i < |e.masters|
      ensures MasterCarries(w, current.value.seqno + 1 + i, e.masters[i])
    {
      assert BatchOk(w, e.masters, e.shards, i);
    }
    forall n, i | n in e.shards && 0 <= i < |e.shards[n]|
      ensures ShardCarries(w, n, e.shards[n][i])
    {
      assert BatchOk(w, e.masters, e.shards, n - w.startSeqno) && At(e.shards, n) == e.shards[n];
      assert ShardOk(At(e.shards, n)[i], w.masterStates[n]);
    }
  }

  lemma FittingIsAccepted(w: Window, e: Events, current: Head, next: Head)
    requires Fits(w, e, current, next)
    ensures Accepts(w, e, Some(current), Some(next))
  {
    forall i | 0 <= i < |e.masters|
      ensures BatchOk(w, e.masters, e.shards, i)
    {
      assert MasterCarries(w, current.seqno + 1 + i, e.masters[i]);
      var events := At(e.shards, w.startSeqno + i);
      forall k | 0 <= k < |events|
        ensures ShardOk(events[k], w.masterStates[w.startSeqno + i])
      {
        assert ShardCarries(w, w.startSeqno + i, e.shards[w.startSeqno + i][k]);
      }
    }
  }

  /** A dispatch of enabled events begins exactly when there are both heads and the events fit between them. */
  lemma BeginsExactly(w: Window, e: Events, current: Option<Head>, next: Option<Head>)
    requires e.enabled
    ensures Begins(w, e, current, next) <==>
            && e.phase.Collecting? && e.configured
            && current.Some? && next.Some? && Fits(w, e, current.value, next.value)
  {
    if Accepts(w, e, current, next) {
      AcceptedFits(w, e, current, next);
    }
    if current.Some? && next.Some? && Fits(w, e, current.value, next.value) {
      FittingIsAccepted(w, e, current.value, next.value);
    }
  }

  // And a dispatch that begins can be carried through.

  function Deliveries(n: nat): (steps: seq<Step>) {
    if n == 0 then [] else Deliveries(n - 1) + [Deliver(true)]
  }

  function BeginWith(w: Window, e: Events, current: Option<Head>, next: Option<Head>): (step: Step) {
    Begin(current, next, e.(phase := Dispatching), Batches(OrderOf(w, e)))
  }

  lemma RunNext(w: Window, steps: seq<Step>, step: Step)
    ensures Run(w, steps + [step]) == Next(w, Run(w, steps), step)
  {
    assert (steps + [step])[..|steps|] == steps;
  }

  lemma {:induction false} DeliversFirst(w: Window, steps: seq<Step>, order: seq<Item>, n: nat)
    requires var s := Run(w, steps); s.left == Some(order) && s.delivered == [] && n <= |order|
    ensures var s := Run(w, steps + Deliveries(n));
            s.delivered == order[..n] && s.left == Some(order[n..]) && s.events == Run(w, steps).events
  {
    if n == 0 {
      assert steps + Deliveries(0) == steps;
    } else {
      DeliversFirst(w, steps, order, n - 1);
      assert steps + Deliveries(n) == steps + Deliveries(n - 1) + [Deliver(true)];
      RunNext(w, steps + Deliveries(n - 1), Deliver(true));
      assert order[..n] == order[..n - 1] + [order[n - 1..][0]] && order[n - 1..][1..] == order[n..];
    }
  }

  /** If every delivery is accepted, all the events are delivered in order and the dispatch finishes. */
  lemma DispatchCompletes(w: Window, steps: seq<Step>, current: Option<Head>, next: Option<Head>)
    requires Begins(w, Run(w, steps).events, current, next)
    ensures var e := Run(w, steps).events;
            var s := Run(w, steps + [BeginWith(w, e, current, next)] + Deliveries(|OrderOf(w, e)|) + [Finish]);
            s.events.phase.Dispatched? && s.delivered == OrderOf(w, e)
  {
    RunKeepsInv(w, steps);
    var (e, order) := (Run(w, steps).events, OrderOf(w, Run(w, steps).events));
    var begun := steps + [BeginWith(w, e, current, next)];
    RunNext(w, steps, BeginWith(w, e, current, next));
    DeliversFirst(w, begun, order, |order|);
    assert order[..|order|] == order && order[|order|..] == [];
    RunNext(w, begun + Deliveries(|order|), Finish);
  }

  // And what a dispatch began with is what the workers deferred.

  function MasterEvents(steps: seq<Step>): (r: seq<Event>) {
    if steps == [] then []
    else
      var last := steps[|steps| - 1];
      MasterEvents(steps[..|steps| - 1]) + if last.DeferMaster? then [last.event] else []
  }

  function ShardEvents(steps: seq<Step>, seqno: nat): (r: seq<Event>) {
    if steps == [] then []
    else
      var last := steps[|steps| - 1];
      ShardEvents(steps[..|steps| - 1], seqno) + if last.DeferShard? && last.seqno == seqno then [last.event] else []
  }

  ghost predicate IsDeferred(e: Events, steps: seq<Step>) {
    && e.masters == MasterEvents(steps)
    && forall n :: multiset(At(e.shards, n)) == multiset(ShardEvents(steps, n))
  }

  lemma {:induction false} CollectedIsDeferred(w: Window, steps: seq<Step>)
    ensures Run(w, steps).events.phase.Collecting? ==> IsDeferred(Run(w, steps).events, steps)
  {
    if steps != [] {
      var (init, step) := (steps[..|steps| - 1], steps[|steps| - 1]);
      var s := Run(w, init);
      CollectedIsDeferred(w, init);
      RunKeepsInv(w, init);
      StepKeepsInv(w, s, step);
      if Run(w, steps).events.phase.Collecting? {
        NextEvents(w, s, step);
        DeferredStep(s.events, init, step, Run(w, steps).events);
        assert steps == init + [step];
      }
    }
  }

  lemma StepEvents(init: seq<Step>, step: Step, n: nat)
    ensures MasterEvents(init + [step]) == MasterEvents(init) + if step.DeferMaster? then [step.event] else []
    ensures ShardEvents(init + [step], n) == ShardEvents(init, n) + if step.DeferShard? && step.seqno == n
            then [step.event] else []
  {
    assert (init + [step])[..|init|] == init;
  }

  /** How a step that leaves the phase collecting changes the events. */
  ghost predicate EventsAfter(before: Events, step: Step, after: Events) {
    if step.DeferMaster? then after == WithMaster(before, step.event)
    else if step.DeferShard? then after == WithShard(before, step.seqno, step.event)
    else after.masters == before.masters && SameShards(before.shards, after.shards)
  }

  lemma NextEvents(w: Window, s: State, step: Step)
    requires Next(w, s, step).events.phase.Collecting?
    ensures EventsAfter(s.events, step, Next(w, s, step).events)
  {
  }

  lemma DeferredStep(before: Events, init: seq<Step>, step: Step, after: Events)
    requires IsDeferred(before, init) && before.phase.Collecting? && EventsAfter(before, step, after)
    ensures IsDeferred(after, init + [step])
  {
    StepEvents(init, step, 0);
    forall n
      ensures multiset(At(after.shards, n)) == multiset(ShardEvents(init + [step], n))
    {
      DeferredShard(before, init, step, after, n);
    }
  }

  lemma DeferredShard(before: Events, init: seq<Step>, step: Step, after: Events, n: nat)
    requires multiset(At(before.shards, n)) == multiset(ShardEvents(init, n)) && before.phase.Collecting?
             && EventsAfter(before, step, after)
    ensures multiset(At(after.shards, n)) == multiset(ShardEvents(init + [step], n))
  {
    var (was, now) := (ShardEvents(init, n), ShardEvents(init + [step], n));
    StepEvents(init, step, n);
    if step.DeferShard? && step.seqno == n {
      assert At(after.shards, n) == At(before.shards, n) + [step.event] && now == was + [step.event];
    } else {
      assert now == was;
      assert multiset(At(after.shards, n)) == multiset(At(before.shards, n));
    }
  }

  ghost predicate NoneEmpty(shards: Shards) {
    forall n :: n in shards ==> shards[n] != []
  }

  lemma StepNoneEmpty(w: Window, s: State, step: Step)
    requires NoneEmpty(s.events.shards)
    ensures NoneEmpty(Next(w, s, step).events.shards)
  {
    var after := Next(w, s, step).events.shards;
    if Enabled(w, s, step) && step.Begin? {
      forall n | n in after
        ensures after[n] != []
      {
        assert |after[n]| == |multiset(after[n])| == |multiset(s.events.shards[n])| == |s.events.shards[n]|;
      }
    }
  }

  lemma {:induction false} RunNoneEmpty(w: Window, steps: seq<Step>)
    ensures NoneEmpty(Run(w, steps).events.shards)
  {
    if steps != [] {
      RunNoneEmpty(w, steps[..|steps| - 1]);
      StepNoneEmpty(w, Run(w, steps[..|steps| - 1]), steps[|steps| - 1]);
    }
  }

  /** Two runs deferred the same masters, and for every master the same shard events in some order. */
  ghost predicate SameDeferrals(a: seq<Step>, b: seq<Step>) {
    MasterEvents(a) == MasterEvents(b) && forall n :: multiset(ShardEvents(a, n)) == multiset(ShardEvents(b, n))
  }

  lemma DeferralsGiveShards(a: Events, b: Events, s: seq<Step>, t: seq<Step>)
    requires IsDeferred(a, s) && IsDeferred(b, t) && SameDeferrals(s, t) && NoneEmpty(a.shards) && NoneEmpty(b.shards)
    ensures a.masters == b.masters && SameShards(a.shards, b.shards)
  {
    forall n: nat
      ensures SameFor(a.shards, b.shards, n)
    {
      assert multiset(ShardEvents(s, n)) == multiset(ShardEvents(t, n));
      SameAt(a.shards, b.shards, n);
    }
    forall n | n in a.shards || n in b.shards
      ensures n in a.shards && n in b.shards && multiset(a.shards[n]) == multiset(b.shards[n])
    {
      assert SameFor(a.shards, b.shards, n);
    }
  }

  ghost predicate SameFor(a: Shards, b: Shards, n: nat) {
    multiset(At(a, n)) == multiset(At(b, n)) && (n in a <==> n in b)
  }

  lemma SameAt(a: Shards, b: Shards, n: nat)
    requires NoneEmpty(a) && NoneEmpty(b) && multiset(At(a, n)) == multiset(At(b, n))
    ensures n in a <==> n in b
  {
    assert |At(a, n)| == |multiset(At(a, n))| == |multiset(At(b, n))| == |At(b, n)|;
  }

  /**
   * Two runs still collecting, with the same capability, whose workers deferred the same events in any order:
   * a dispatch begins in the one exactly when it begins in the other, with the same order of delivery.
   */
  lemma RunsAgree(w: Window, a: seq<Step>, b: seq<Step>, current: Option<Head>, next: Option<Head>)
    requires WindowOk(w) && SameDeferrals(a, b)
    requires Run(w, a).events.phase.Collecting? && Run(w, b).events.phase.Collecting?
    requires Run(w, a).events.configured == Run(w, b).events.configured
             && Run(w, a).events.enabled == Run(w, b).events.enabled
    ensures var (x, y) := (Run(w, a).events, Run(w, b).events);
            && (Begins(w, x, current, next) <==> Begins(w, y, current, next))
            && (Begins(w, x, current, next) ==> OrderOf(w, x) == OrderOf(w, y))
  {
    CollectedIsDeferred(w, a);
    CollectedIsDeferred(w, b);
    RunNoneEmpty(w, a);
    RunNoneEmpty(w, b);
    DeferralsGiveShards(Run(w, a).events, Run(w, b).events, a, b);
    BeginsPermuted(w, Run(w, a).events, Run(w, b).events, current, next);
  }

  /**
   Configuring succeeds exactly while collecting, and then if it repeats the capability set before or, for the first
   time, if no event has come yet; whatever fails changes nothing.
  */
  lemma ConfiguresExactly(w: Window, s: State, on: bool)
    ensures var r := Next(w, s, Configure(on)).events;
            if s.events.phase.Collecting?
               && if s.events.configured then s.events.enabled == on
                  else s.events.masters == [] && forall n :: n !in s.events.shards
            then r == s.events.(configured := true, enabled := on) else r == s.events
  {
    assert (forall n :: n !in s.events.shards) <==> s.events.shards == map[];
  }

  /** The capability is settled once: every later attempt to configure agrees with it or fails, and it never changes. */
  lemma {:induction false} CapabilityIsSettled(w: Window, steps: seq<Step>, more: seq<Step>, on: bool)
    requires Run(w, steps).events.configured
    ensures var (s, t) := (Run(w, steps).events, Run(w, steps + more).events);
            && t.configured && t.enabled == s.enabled && (ConfigureOk(t, on) ==> on == s.enabled)
    decreases |more|
  {
    if more == [] {
      assert steps + more == steps;
    } else {
      assert (steps + more)[..|steps + more| - 1] == steps + more[..|more| - 1];
      CapabilityIsSettled(w, steps, more[..|more| - 1], on);
    }
  }

  /** A dispatch began with exactly what had been deferred by some earlier moment, in some order. */
  lemma {:induction false} BegunIsDeferred(w: Window, steps: seq<Step>)
    ensures !Run(w, steps).events.phase.Collecting? ==> exists n ::
              0 <= n <= |steps| && IsDeferred(Run(w, steps).begun, steps[..n])
  {
    if steps != [] && !Run(w, steps).events.phase.Collecting? {
      var (init, step) := (steps[..|steps| - 1], steps[|steps| - 1]);
      var s := Run(w, init);
      RunKeepsInv(w, init);
      StepKeepsInv(w, s, step);
      if s.events.phase.Collecting? {
        CollectedIsDeferred(w, init);
        BeginRecords(w, s, step);
        assert init == steps[..|steps| - 1];
      } else {
        BegunIsDeferred(w, init);
        var n :| 0 <= n <= |init| && IsDeferred(s.begun, init[..n]);
        assert steps[..n] == init[..n];
      }
    }
  }

  lemma BeginRecords(w: Window, s: State, step: Step)
    requires Inv(w, s) && s.events.phase.Collecting? && !Next(w, s, step).events.phase.Collecting?
    ensures Next(w, s, step).begun == s.events
  {
  }

  /** Once an attempt has failed or finished, nothing more is ever delivered. */
  lemma {:induction false} NothingAgain(w: Window, steps: seq<Step>, more: seq<Step>)
    requires var s := Run(w, steps); !s.events.phase.Collecting? && s.left.None?
    ensures var t := Run(w, steps + more);
            !t.events.phase.Collecting? && t.left.None? && t.delivered == Run(w, steps).delivered
  {
    if more == [] {
      assert steps + more == steps;
    } else {
      var init := more[..|more| - 1];
      assert (steps + more)[..|steps + more| - 1] == steps + init;
      NothingAgain(w, steps, init);
      var s := Run(w, steps + init);
      assert !s.events.phase.Collecting? ==> forall current, next :: !Begins(w, s.events, current, next);
    }
  }
}
