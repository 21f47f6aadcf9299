/**
 * The queue of masterchain blocks waiting for their turn (service/current_state.go): prepared
 * blocks and broadcast candidates, each a map by the previous block's key with an index by the
 * block's own seqno and a byte counter.  The abstract contents are just the two maps; Valid
 * says that the indexes and counters are exact, the two sides disjoint and the totals within
 * limits, and every operation keeps it.
 */
module MasterQueue {
  import opened Common

  type Key = nat

  /** A queued block: its own seqno, the seqno of the block it builds on, when it came, its size. */
  datatype Entry = Entry(seqno: nat, prevSeqno: nat, queuedAt: int, bytes: nat, body: nat)

  type Entries = map<Key, Entry>

  datatype Side = Side(entries: Entries, bySeqno: map<nat, Key>, bytes: int)

  const EMPTY: Side := Side(map[], map[], 0)

  // What a side stands for.

  ghost function Sizes(entries: Entries): (r: map<Key, nat>) {
    map k | k in entries :: entries[k].bytes
  }

  ghost function Bytes(entries: Entries): (total: nat) {
    MapSum(Sizes(entries))
  }

  /** The index is the exact inverse of the map, and the counter its sum. */
  ghost predicate SideOk(s: Side) {
    && (forall k :: k in s.entries ==> s.entries[k].seqno in s.bySeqno && s.bySeqno[s.entries[k].seqno] == k)
    && (forall n :: n in s.bySeqno ==> s.bySeqno[n] in s.entries && s.entries[s.bySeqno[n]].seqno == n)
    && s.bytes == Bytes(s.entries)
  }

  ghost predicate Disjoint(a: Entries, b: Entries) {
    && a.Keys !! b.Keys
    && forall j, k :: j in a && k in b ==> a[j].seqno != b[k].seqno
  }

  /** deleteQueuedMasterchain…Locked. */
  function Deleted(s: Side, key: Key): (r: Side) {
    if key !in s.entries then s
    else
      var entry := s.entries[key];
      Side(s.entries - {key},
           if entry.seqno in s.bySeqno && s.bySeqno[entry.seqno] == key then s.bySeqno - {entry.seqno} else s.bySeqno,
           s.bytes - entry.bytes)
  }

  function Inserted(s: Side, key: Key, entry: Entry): (r: Side) {
    Side(s.entries[key := entry], s.bySeqno[entry.seqno := key], s.bytes + entry.bytes)
  }

  lemma BytesWithout(entries: Entries, key: Key)
    requires key in entries
    ensures Bytes(entries) == entries[key].bytes + Bytes(entries - {key})
  {
    MapSumRemove(Sizes(entries), key);
    assert Sizes(entries) - {key} == Sizes(entries - {key});
  }

  lemma DeletedOk(s: Side, key: Key)
    requires SideOk(s)
    ensures SideOk(Deleted(s, key)) && Deleted(s, key).entries == s.entries - {key}
  {
    if key in s.entries {
      BytesWithout(s.entries, key);
      assert s.entries - {key} == Deleted(s, key).entries;
    } else {
      assert s.entries - {key} == s.entries;
    }
  }

  lemma InsertedOk(s: Side, key: Key, entry: Entry)
    requires SideOk(s) && key !in s.entries && entry.seqno !in s.bySeqno
    ensures SideOk(Inserted(s, key, entry))
  {
    var r := Inserted(s, key, entry);
    BytesWithout(r.entries, key);
    assert r.entries - {key} == s.entries;
  }

  predicate Behind(head: Option<nat>, prevSeqno: nat) {
    head.Some? && prevSeqno < head.value
  }

  predicate TooFarFromHead(head: Option<nat>, prevSeqno: nat, limit: nat) {
    head.Some? && prevSeqno > head.value && prevSeqno - head.value >= limit
  }

  predicate Stale(e: Entry, now: int, ttl: int, head: Option<nat>) {
    now - e.queuedAt >= ttl || Behind(head, e.prevSeqno)
  }

  function Live(entries: Entries, now: int, ttl: int, head: Option<nat>): (r: Entries) {
    map k | k in entries && !Stale(entries[k], now, ttl, head) :: entries[k]
  }

  /** What pruning leaves: the entries younger than the time to live that build on the head or past it. */
  lemma LiveExactly(entries: Entries, now: int, ttl: int, head: Option<nat>, k: Key)
    ensures var r := Live(entries, now, ttl, head);
            && (k in r <==> && k in entries && now - entries[k].queuedAt < ttl
                            && (head.None? || head.value <= entries[k].prevSeqno))
            && (k in r ==> r[k] == entries[k])
  {
  }

  /** Some queued block is at least the limit behind. */
  ghost predicate TooFar(queue: Entries, candidates: Entries, prevSeqno: nat, limit: nat) {
    || (exists k :: k in queue && prevSeqno >= queue[k].prevSeqno + limit)
    || (exists k :: k in candidates && prevSeqno >= candidates[k].prevSeqno + limit)
  }

  // Loops over one side.

  method PruneSide(s: Side, now: int, ttl: int, head: Option<nat>) returns (r: Side)
    requires SideOk(s)
    ensures SideOk(r) && r.entries == Live(s.entries, now, ttl, head)
  {
    r := s;
    var rest := s.entries.Keys;
    while rest != {}
      invariant SideOk(r) && rest <= s.entries.Keys
      invariant forall k :: k in r.entries <==> k in s.entries && (k in rest || !Stale(s.entries[k], now, ttl, head))
      invariant forall k :: k in r.entries ==> r.entries[k] == s.entries[k]
      decreases |rest|
    {
      var key :| key in rest;
      if Stale(s.entries[key], now, ttl, head) {
        DeletedOk(r, key);
        r := Deleted(r, key);
      }
      rest := rest - {key};
    }
  }

  /** The lowest previous seqno of a map, or None when it is empty. */
  method LowestPrev(entries: Entries) returns (least: Option<nat>)
    ensures least.None? <==> entries == map[]
    ensures least.Some? ==> (forall k :: k in entries ==> least.value <= entries[k].prevSeqno)
                            && exists k :: k in entries && entries[k].prevSeqno == least.value
  {
    least := None;
    var rest := entries.Keys;
    while rest != {}
      invariant rest <= entries.Keys && (least.None? <==> rest == entries.Keys)
      invariant least.Some? ==> forall k :: k in entries.Keys - rest ==> least.value <= entries[k].prevSeqno
      invariant least.Some? ==> exists k :: k in entries && entries[k].prevSeqno == least.value
      decreases |rest|
    {
      var key :| key in rest;
      if least.None? || entries[key].prevSeqno < least.value {
        least := Some(entries[key].prevSeqno);
      }
      rest := rest - {key};
    }
  }

  method IsTooFar(queue: Entries, candidates: Entries, prevSeqno: nat, limit: nat) returns (far: bool)
    requires limit > 0
    ensures far == TooFar(queue, candidates, prevSeqno, limit)
  {
    var a := LowestPrev(queue);
    var b := LowestPrev(candidates);
    if a.None? && b.None? {
      return false;
    }
    var least := if a.None? then b.value else if b.None? then a.value else if b.value < a.value then b.value
        else a.value;
    far := prevSeqno > least && prevSeqno - least >= limit;
  }

  /** A key with the highest previous seqno, or None when the map is empty. */
  method Farthest(entries: Entries) returns (key: Option<Key>)
    ensures key.None? <==> entries == map[]
    ensures key.Some? ==> key.value in entries && forall k :: k in entries ==>
            entries[k].prevSeqno <= entries[key.value].prevSeqno
  {
    key := None;
    var rest := entries.Keys;
    while rest != {}
      invariant rest <= entries.Keys && (key.None? <==> rest == entries.Keys)
      invariant key.Some? ==> key.value in entries && forall k :: k in entries.Keys - rest ==>
                entries[k].prevSeqno <= entries[key.value].prevSeqno
      decreases |rest|
    {
      var k :| k in rest;
      if key.None? || entries[k].prevSeqno > entries[key.value].prevSeqno {
        key := Some(k);
      }
      rest := rest - {k};
    }
  }

  /** What is left when only this key may stand for the seqno. */
  function WithoutOther(entries: Entries, key: Key, seqno: nat): (r: Entries) {
    map k | k in entries && (k == key || entries[k].seqno != seqno) :: entries[k]
  }

  /** Drops the entry of another key with the same seqno, found through the index. */
  method DropOther(s: Side, key: Key, seqno: nat) returns (r: Side)
    requires SideOk(s)
    ensures SideOk(r) && r.entries == WithoutOther(s.entries, key, seqno)
  {
    r := s;
    if seqno in s.bySeqno && s.bySeqno[seqno] != key {
      DeletedOk(s, s.bySeqno[seqno]);
      r := Deleted(s, s.bySeqno[seqno]);
    }
    assert r.entries == WithoutOther(s.entries, key, seqno);
  }

  // Making room.

  ghost predicate Fits(q: Entries, c: Entries, bytes: nat, limit: nat, maxBytes: nat) {
    |q| + |c| < limit && Bytes(q) + Bytes(c) + bytes <= maxBytes
  }

  predicate Within(a: Entries, b: Entries) {
    forall k :: k in a ==> k in b && a[k] == b[k]
  }

  /** No evicted block is nearer than a kept one. */
  ghost predicate FarthestGone(q0: Entries, c0: Entries, q: Entries, c: Entries) {
    forall g, k :: g in q0 + c0 && g !in q + c && k in q + c ==> (q + c)[k].prevSeqno <= (q0 + c0)[g].prevSeqno
  }

  /** The last eviction was called for. */
  ghost predicate Needed(q0: Entries, c0: Entries, q: Entries, c: Entries, bytes: nat, limit: nat, maxBytes: nat) {
    || (q == q0 && c == c0)
    || exists g :: g in q0 + c0 && g !in q + c
                   && (|q| + |c| + 1 >= limit || Bytes(q) + Bytes(c) + (q0 + c0)[g].bytes + bytes > maxBytes)
  }

  ghost predicate RoomMade(q0: Entries, c0: Entries, q: Entries, c: Entries, bytes: nat, limit: nat, maxBytes: nat) {
    && Within(q, q0) && Within(c, c0)
    && Fits(q, c, bytes, limit, maxBytes)
    && FarthestGone(q0, c0, q, c)
    && Needed(q0, c0, q, c, bytes, limit, maxBytes)
  }

  /** evictFarthestQueuedMasterchainBlockLocked: whether there was anything, and the two sides without it. */
  method EvictFarthest(q0: Side, c0: Side) returns (ok: bool, q: Side, c: Side, ghost gone: Key)
    requires SideOk(q0) && SideOk(c0) && q0.entries.Keys !! c0.entries.Keys
    ensures ok <==> q0.entries != map[] || c0.entries != map[]
    ensures SideOk(q) && SideOk(c)
    ensures !ok ==> q == q0 && c == c0
    ensures ok ==> gone in q0.entries + c0.entries
                   && q.entries == q0.entries - {gone} && c.entries == c0.entries - {gone}
    ensures ok ==> forall k :: k in q0.entries + c0.entries ==>
            (q0.entries + c0.entries)[k].prevSeqno <= (q0.entries + c0.entries)[gone].prevSeqno
  {
    ok, q, c, gone := true, q0, c0, 0;
    var a := Farthest(q0.entries);
    var b := Farthest(c0.entries);
    if b.Some? && (a.None? || c0.entries[b.value].prevSeqno > q0.entries[a.value].prevSeqno) {
      DeletedOk(c0, b.value);
      c, gone := Deleted(c0, b.value), b.value;
      assert q0.entries - {gone} == q0.entries;
    } else if a.Some? {
      DeletedOk(q0, a.value);
      q, gone := Deleted(q0, a.value), a.value;
      assert c0.entries - {gone} == c0.entries;
    } else {
      ok := false;
    }
  }

  lemma Less(entries: Entries, gone: Key)
    ensures gone in entries ==>
              |entries - {gone}| == |entries| - 1 && Bytes(entries - {gone}) == Bytes(entries) - entries[gone].bytes
    ensures gone !in entries ==> entries - {gone} == entries
  {
    if gone in entries {
      assert (entries - {gone}).Keys == entries.Keys - {gone};
      BytesWithout(entries, gone);
    }
  }

  lemma OneLess(q: Entries, c: Entries, gone: Key)
    requires q.Keys !! c.Keys && gone in q + c
    ensures |q - {gone}| + |c - {gone}| == |q| + |c| - 1
    ensures Bytes(q - {gone}) + Bytes(c - {gone}) == Bytes(q) + Bytes(c) - (q + c)[gone].bytes
  {
    Less(q, gone);
    Less(c, gone);
  }

  lemma NoBytes(entries: Entries)
    ensures entries == map[] ==> Bytes(entries) == 0
  {
    assert entries == map[] ==> Sizes(entries) == map[];
  }

  /** With room still wanting, something is queued: an admissible block always finds its place. */
  lemma SomethingToEvict(q: Entries, c: Entries, bytes: nat, limit: nat, maxBytes: nat)
    requires limit > 0 && bytes <= maxBytes && !Fits(q, c, bytes, limit, maxBytes)
    ensures q != map[] || c != map[]
  {
    NoBytes(q);
    NoBytes(c);
  }

  /** Evicting the farthest keeps the evicted beyond the kept. */
  lemma FarthestStays(q0: Entries, c0: Entries, q: Entries, c: Entries, gone: Key)
    requires Within(q, q0) && Within(c, c0) && q0.Keys !! c0.Keys && FarthestGone(q0, c0, q, c)
    requires gone in q + c && forall k :: k in q + c ==> (q + c)[k].prevSeqno <= (q + c)[gone].prevSeqno
    ensures FarthestGone(q0, c0, q - {gone}, c - {gone})
  {
    var q': Entries := q - {gone};
    var c': Entries := c - {gone};
    forall g, k | g in q0 + c0 && g !in q' + c' && k in q' + c'
      ensures (q' + c')[k].prevSeqno <= (q0 + c0)[g].prevSeqno
    {
      assert k in q + c && (q + c)[k] == (q' + c')[k];
      if g == gone {
        assert (q + c)[g] == (q0 + c0)[g];
      } else {
        assert g !in q + c;
      }
    }
  }

  lemma EvictionNeeded(q0: Entries, c0: Entries, q: Entries, c: Entries, gone: Key, bytes: nat, limit: nat,
                       maxBytes: nat)
    requires Within(q, q0) && Within(c, c0) && q0.Keys !! c0.Keys && gone in q + c
    requires !Fits(q, c, bytes, limit, maxBytes)
    ensures Needed(q0, c0, q - {gone}, c - {gone}, bytes, limit, maxBytes)
  {
    OneLess(q, c, gone);
    assert (q + c)[gone] == (q0 + c0)[gone];
    assert gone in q0 + c0 && gone !in (q - {gone}) + (c - {gone});
  }

  /** The eviction loop: it ends, and it never finds the queue empty while it needs room. */
  method MakeRoom(q0: Side, c0: Side, bytes: nat, limit: nat, maxBytes: nat) returns (ok: bool, q: Side, c: Side)
    requires SideOk(q0) && SideOk(c0) && q0.entries.Keys !! c0.entries.Keys
    requires limit > 0 && bytes <= maxBytes
    ensures ok && SideOk(q) && SideOk(c)
    ensures RoomMade(q0.entries, c0.entries, q.entries, c.entries, bytes, limit, maxBytes)
  {
    q, c := q0, c0;
    while |q.entries| + |c.entries| >= limit || q.bytes + c.bytes + bytes > maxBytes
      invariant SideOk(q) && SideOk(c)
      invariant Within(q.entries, q0.entries) && Within(c.entries, c0.entries)
      invariant FarthestGone(q0.entries, c0.entries, q.entries, c.entries)
      invariant Needed(q0.entries, c0.entries, q.entries, c.entries, bytes, limit, maxBytes)
      decreases |q.entries| + |c.entries|
    {
      SomethingToEvict(q.entries, c.entries, bytes, limit, maxBytes);
      ghost var (before, beforeC) := (q.entries, c.entries);
      ghost var gone;
      ok, q, c, gone := EvictFarthest(q, c);
      if !ok {
        return;
      }
      OneLess(before, beforeC, gone);
      FarthestStays(q0.entries, c0.entries, before, beforeC, gone);
      EvictionNeeded(q0.entries, c0.entries, before, beforeC, gone, bytes, limit, maxBytes);
    }
    ok := true;
  }

  // The queue.

  /** What queueing a prepared block leaves, for a block that is not refused outright. */
  ghost predicate BlockQueued(q0: Entries, c0: Entries, key: Key, e: Entry, limit: nat, maxBytes: nat, q: Entries,
                              c: Entries)
  {
    var queue := WithoutOther(q0, key, e.seqno);
    var candidates := WithoutSeqno(c0 - {key}, e.seqno);
    if key !in queue && TooFar(queue, candidates, e.prevSeqno, limit)
    then q == queue && c == candidates
    else key in q && q[key] == e && RoomMade(queue - {key}, candidates, q - {key}, c, e.bytes, limit, maxBytes)
  }

  /** The same for a candidate: a queued block of its seqno wins. */
  ghost predicate CandidateQueued(q0: Entries, c0: Entries, key: Key, e: Entry, limit: nat, maxBytes: nat, q: Entries,
                                  c: Entries)
  {
    var candidates := WithoutOther(c0, key, e.seqno);
    if HasSeqno(q0, e.seqno) then q == q0 && c == c0
    else if key !in candidates && TooFar(q0, candidates, e.prevSeqno, limit) then q == q0 && c == candidates
    else key in c && c[key] == e && RoomMade(q0, candidates - {key}, q, c - {key}, e.bytes, limit, maxBytes)
  }

  function WithoutSeqno(entries: Entries, seqno: nat): (r: Entries) {
    map k | k in entries && entries[k].seqno != seqno :: entries[k]
  }

  ghost predicate HasSeqno(entries: Entries, seqno: nat) {
    exists k :: k in entries && entries[k].seqno == seqno
  }

  predicate Refused(e: Entry, head: Option<nat>, limit: nat, maxBytes: nat) {
    e.bytes > maxBytes || Behind(head, e.prevSeqno) || TooFarFromHead(head, e.prevSeqno, limit)
  }

  /** What may be queued: blocks within the size limit that build on the head or on less than the limit past it. */
  lemma AdmittedExactly(e: Entry, head: Option<nat>, limit: nat, maxBytes: nat)
    requires limit > 0
    ensures !Refused(e, head, limit, maxBytes) <==>
            && e.bytes <= maxBytes
            && (head.Some? ==> head.value <= e.prevSeqno < head.value + limit)
  {
  }

  /** A block that is admitted and not too far from what is queued takes its place, whatever it displaces. */
  lemma BlockIsQueued(q0: Entries, c0: Entries, key: Key, e: Entry, limit: nat, maxBytes: nat, q: Entries, c: Entries)
    requires BlockQueued(q0, c0, key, e, limit, maxBytes, q, c)
    requires forall k :: k in q0 + c0 ==> e.prevSeqno < (q0 + c0)[k].prevSeqno + limit
    requires q0.Keys !! c0.Keys
    ensures key in q && q[key] == e && key !in c
    ensures forall k :: k in q && k != key ==> q[k].seqno != e.seqno && k in q0 && q[k] == q0[k]
    ensures forall k :: k in c ==> c[k].seqno != e.seqno && k in c0 && c[k] == c0[k]
  {
    var (queue, candidates) := (WithoutOther(q0, key, e.seqno), WithoutSeqno(c0 - {key}, e.seqno));
    forall k | k in queue || k in candidates
      ensures k in queue ==> e.prevSeqno < queue[k].prevSeqno + limit
      ensures k in candidates ==> e.prevSeqno < candidates[k].prevSeqno + limit
    {
      assert k in q0 + c0;
    }
    forall k | k in q && k != key
      ensures q[k].seqno != e.seqno && k in q0 && q[k] == q0[k]
    {
      assert k in q - {key};
    }
  }

  ghost predicate QueueOk(q: Side, c: Side, limit: nat, maxBytes: nat) {
    && SideOk(q) && SideOk(c)
    && Disjoint(q.entries, c.entries)
    && |q.entries| + |c.entries| <= limit
    && q.bytes + c.bytes <= maxBytes
  }

  lemma {:induction false} SubBytes(a: Entries, b: Entries)
    requires Within(a, b)
    ensures |a| <= |b| && Bytes(a) <= Bytes(b)
    decreases |b|
  {
    if k :| k in b {
      assert (b - {k}).Keys == b.Keys - {k};
      Less(a, k);
      Less(b, k);
      SubBytes(a - {k}, b - {k});
    } else {
      assert a == b;
    }
  }

  /** Taking entries away keeps a queue in order. */
  lemma SubQueueOk(q0: Side, c0: Side, q: Side, c: Side, limit: nat, maxBytes: nat)
    requires QueueOk(q0, c0, limit, maxBytes) && SideOk(q) && SideOk(c)
    requires Within(q.entries, q0.entries) && Within(c.entries, c0.entries)
    ensures QueueOk(q, c, limit, maxBytes)
  {
    SubBytes(q.entries, q0.entries);
    SubBytes(c.entries, c0.entries);
  }

  lemma DeleteQueueOk(q: Side, c: Side, key: Key, limit: nat, maxBytes: nat)
    requires QueueOk(q, c, limit, maxBytes)
    ensures QueueOk(Deleted(q, key), c, limit, maxBytes) && Deleted(q, key).entries == q.entries - {key}
  {
    DeletedOk(q, key);
    SubQueueOk(q, c, Deleted(q, key), c, limit, maxBytes);
  }

  lemma InsertCounts(s: Side, key: Key, e: Entry)
    requires key !in s.entries
    ensures |Inserted(s, key, e).entries| == |s.entries| + 1 && Inserted(s, key, e).entries - {key} == s.entries
  {
    var after: Entries := s.entries[key := e];
    assert after.Keys == s.entries.Keys + {key};
    assert after - {key} == s.entries;
  }

  class MasterchainQueue {
    const limit: nat
    const maxBytes: nat
    const ttl: int
    var queue: Side
    var candidates: Side

    ghost predicate Valid()
      reads this
    {
      limit > 0 && QueueOk(queue, candidates, limit, maxBytes)
    }

    constructor (limit: nat, maxBytes: nat, ttl: int)
      requires limit > 0
      ensures Valid() && queue == EMPTY && candidates == EMPTY
      ensures this.limit == limit && this.maxBytes == maxBytes && this.ttl == ttl
    {
      this.limit, this.maxBytes, this.ttl := limit, maxBytes, ttl;
      queue, candidates := EMPTY, EMPTY;
      new;
      NoBytes(map[]);
    }

    method Prune(now: int, head: Option<nat>)
      requires Valid()
      modifies this
      ensures Valid()
      ensures queue.entries == Live(old(queue.entries), now, ttl, head)
      ensures candidates.entries == Live(old(candidates.entries), now, ttl, head)
    {
      var q := PruneSide(queue, now, ttl, head);
      var c := PruneSide(candidates, now, ttl, head);
      SubQueueOk(queue, candidates, q, c, limit, maxBytes);
      queue, candidates := q, c;
    }

    /** queuePreparedMasterchainBlockFromSource, for a block of the masterchain. */
    method QueueBlock(key: Key, seqno: nat, prevSeqno: nat, bytes: nat, body: nat, now: int, head: Option<nat>)
      requires Valid()
      modifies this
      ensures Valid()
      ensures var (q0, c0) := (Live(old(queue.entries), now, ttl, head), Live(old(candidates.entries), now, ttl, head));
              var e := Entry(seqno, prevSeqno, now, bytes, body);
              if Refused(e, head, limit, maxBytes) then queue.entries == q0 && candidates.entries == c0
              else BlockQueued(q0, c0, key, e, limit, maxBytes, queue.entries, candidates.entries)
    {
      Prune(now, head);
      var e := Entry(seqno, prevSeqno, now, bytes, body);
      if Refused(e, head, limit, maxBytes) {
        return;
      }
      ghost var (q0, c0) := (queue.entries, candidates.entries);
      queue, candidates := AddBlock(queue, candidates, key, e, limit, maxBytes);
      assert BlockQueued(q0, c0, key, e, limit, maxBytes, queue.entries, candidates.entries);
    }

    /** queueMasterchainBroadcastCandidateFromSource, for a cacheable candidate. */
    method QueueCandidate(key: Key, seqno: nat, prevSeqno: nat, bytes: nat, body: nat, now: int, head: Option<nat>)
      requires Valid()
      modifies this
      ensures Valid()
      ensures key in old(queue.entries) ==> queue == old(queue) && candidates == old(candidates)
      ensures key !in old(queue.entries) ==>
                var (q0, c0) := (Live(old(queue.entries), now, ttl, head),
                                 Live(old(candidates.entries), now, ttl, head));
                var e := Entry(seqno, prevSeqno, now, bytes, body);
                if Refused(e, head, limit, maxBytes) then queue.entries == q0 && candidates.entries == c0
                else CandidateQueued(q0, c0, key, e, limit, maxBytes, queue.entries, candidates.entries)
    {
      if key in queue.entries {
        return;
      }
      Prune(now, head);
      var e := Entry(seqno, prevSeqno, now, bytes, body);
      if Refused(e, head, limit, maxBytes) {
        return;
      }
      queue, candidates := AddCandidate(queue, candidates, key, e, limit, maxBytes);
    }

    /** takeQueuedMasterchainBlock: the block leaves the queue whether or not it suits the target. */
    method TakeBlock(key: Key, prevSeqno: nat, targetSeqno: nat, now: int, head: Option<nat>) returns (r: Option<Entry>)
      requires Valid()
      modifies this
      ensures Valid()
      ensures var q0 := Live(old(queue.entries), now, ttl, head);
              && queue.entries == q0 - {key}
              && candidates.entries == Live(old(candidates.entries), now, ttl, head)
              && (r.Some? <==> key in q0 && prevSeqno < q0[key].seqno <= targetSeqno)
              && (r.Some? ==> r.value == q0[key])
    {
      Prune(now, head);
      var q := queue.entries;
      r := if key in q && prevSeqno < q[key].seqno <= targetSeqno then Some(q[key]) else None;
      DropBlock(key);
    }

    method DropBlock(key: Key)
      requires Valid()
      modifies this`queue
      ensures Valid() && queue.entries == old(queue.entries) - {key}
    {
      DeleteQueueOk(queue, candidates, key, limit, maxBytes);
      queue := Deleted(queue, key);
    }

    method DropCandidate(key: Key)
      requires Valid()
      modifies this
      ensures Valid() && queue == old(queue) && candidates.entries == old(candidates.entries) - {key}
    {
      DeletedOk(candidates, key);
      SubQueueOk(queue, candidates, queue, Deleted(candidates, key), limit, maxBytes);
      candidates := Deleted(candidates, key);
    }

    /** The first seqno after prevSeqno that nothing queued has: queuedMasterchainFuture's walk over the indexes. */
    method LowestMissing(prevSeqno: nat) returns (n: nat)
      requires Valid() && prevSeqno < MAX_SEQNO
      ensures IsLowestMissing(queue.entries, candidates.entries, prevSeqno, n)
    {
      n := prevSeqno + 1;
      while (n in queue.bySeqno || n in candidates.bySeqno) && n < MAX_SEQNO
        invariant prevSeqno < n <= MAX_SEQNO
        invariant forall m :: prevSeqno < m < n ==> HasSeqno(queue.entries, m) || HasSeqno(candidates.entries, m)
        decreases MAX_SEQNO - n
      {
        n := n + 1;
      }
    }

    /** queuedMasterchainFuture: what is missing after prev and how far ahead the queue reaches, if it does. */
    method QueuedFuture(ofMasterchain: bool, prevSeqno: nat, now: int, head: Option<nat>) returns (r: Option<Future>)
      requires Valid() && prevSeqno <= MAX_SEQNO
      modifies this
      ensures Valid()
      ensures if !ofMasterchain || prevSeqno == MAX_SEQNO then r.None? && queue == old(queue)
              && candidates == old(candidates)
              else && queue.entries == Live(old(queue.entries), now, ttl, head)
                   && candidates.entries == Live(old(candidates.entries), now, ttl, head)
                   && (r.None? <==> NothingAhead(queue.entries, candidates.entries, prevSeqno))
      ensures r.Some? ==> && FarthestAhead(queue.entries, candidates.entries, prevSeqno, r.value.block)
                          && IsLowestMissing(queue.entries, candidates.entries, prevSeqno, r.value.lowestMissing)
    {
      if !ofMasterchain || prevSeqno == MAX_SEQNO {
        return None;
      }
      Prune(now, head);
      var missing := LowestMissing(prevSeqno);
      var best := AheadIn(queue, prevSeqno, None);
      best := AheadIn(candidates, prevSeqno, best);
      r := if best.Some? then Some(Future(missing, best.value)) else None;
    }
  }

  datatype Future = Future(lowestMissing: nat, block: Entry)

  ghost predicate Holds(entries: Entries, e: Entry) {
    exists k :: k in entries && entries[k] == e
  }

  ghost predicate NothingAhead(queue: Entries, candidates: Entries, prevSeqno: nat) {
    (forall k :: k in queue ==> queue[k].seqno <= prevSeqno) && forall k :: k in candidates ==>
        candidates[k].seqno <= prevSeqno
  }

  ghost predicate FarthestAhead(queue: Entries, candidates: Entries, prevSeqno: nat, e: Entry) {
    e.seqno > prevSeqno && (Holds(queue, e) || Holds(candidates, e)) && NothingAhead(queue, candidates, e.seqno)
  }

  ghost predicate IsLowestMissing(queue: Entries, candidates: Entries, prevSeqno: nat, n: nat) {
    && prevSeqno < n <= MAX_SEQNO
    && (forall m :: prevSeqno < m < n ==> HasSeqno(queue, m) || HasSeqno(candidates, m))
    && (n == MAX_SEQNO || !(HasSeqno(queue, n) || HasSeqno(candidates, n)))
  }

  /** The farther of the best so far and the side's farthest block beyond prev. */
  method AheadIn(side: Side, prevSeqno: nat, best: Option<Entry>) returns (r: Option<Entry>)
    requires SideOk(side) && (best.Some? ==> best.value.seqno > prevSeqno)
    ensures r.Some? ==> r.value.seqno > prevSeqno && (r == best || Holds(side.entries, r.value))
    ensures best.Some? ==> r.Some? && best.value.seqno <= r.value.seqno
    ensures forall k :: k in side.entries ==> side.entries[k].seqno <= if r.Some? then r.value.seqno else prevSeqno
  {
    r := best;
    var rest := side.bySeqno;
    while rest != map[]
      invariant forall n :: n in rest ==> n in side.bySeqno && rest[n] == side.bySeqno[n]
      invariant r.Some? ==> r.value.seqno > prevSeqno && (r == best || Holds(side.entries, r.value))
      invariant best.Some? ==> r.Some? && best.value.seqno <= r.value.seqno
      invariant forall n :: n in side.bySeqno && n !in rest ==> n <= if r.Some? then r.value.seqno else prevSeqno
      decreases |rest|
    {
      var n :| n in rest;
      var e := side.entries[rest[n]];
      if e.seqno > prevSeqno && (r.None? || e.seqno > r.value.seqno) {
        r := Some(e);
      }
      assert (rest - {n}).Keys == rest.Keys - {n};
      rest := rest - {n};
    }
  }

  const MAX_SEQNO: nat := 0xFFFF_FFFF

  method AddBlock(q0: Side, c0: Side, key: Key, e: Entry, limit: nat, maxBytes: nat) returns (q: Side, c: Side)
    requires QueueOk(q0, c0, limit, maxBytes) && limit > 0 && e.bytes <= maxBytes
    ensures QueueOk(q, c, limit, maxBytes)
    ensures BlockQueued(q0.entries, c0.entries, key, e, limit, maxBytes, q.entries, c.entries)
  {
    q, c := ClearForBlock(q0, c0, key, e.seqno, limit, maxBytes);
    if key !in q.entries {
      var far := IsTooFar(q.entries, c.entries, e.prevSeqno, limit);
      if far {
        return;
      }
    }
    q, c := PlaceBlock(q, c, key, e, limit, maxBytes);
  }

  /** Whatever else stands for the block's key or seqno goes. */
  method ClearForBlock(q0: Side, c0: Side, key: Key, seqno: nat, ghost limit: nat, ghost maxBytes: nat)
    returns (q: Side, c: Side)
    requires QueueOk(q0, c0, limit, maxBytes)
    ensures QueueOk(q, c, limit, maxBytes)
    ensures q.entries == WithoutOther(q0.entries, key, seqno) && c.entries == WithoutSeqno(c0.entries - {key}, seqno)
  {
    DeletedOk(c0, key);
    c := DropOther(Deleted(c0, key), key, seqno);
    OtherIsSeqno(c0.entries, key, seqno);
    q := DropOther(q0, key, seqno);
    SubQueueOk(q0, c0, q, c, limit, maxBytes);
  }

  lemma OtherIsSeqno(entries: Entries, key: Key, seqno: nat)
    ensures WithoutOther(entries - {key}, key, seqno) == WithoutSeqno(entries - {key}, seqno)
  {
  }

  /** Replaces the key's block, evicting for the new one. */
  method PlaceBlock(q0: Side, c0: Side, key: Key, e: Entry, limit: nat, maxBytes: nat) returns (q: Side, c: Side)
    requires QueueOk(q0, c0, limit, maxBytes) && limit > 0 && e.bytes <= maxBytes
    requires key !in c0.entries && !HasSeqno(c0.entries, e.seqno)
    requires forall k :: k in q0.entries && k != key ==> q0.entries[k].seqno != e.seqno
    ensures QueueOk(q, c, limit, maxBytes) && key in q.entries && q.entries[key] == e
    ensures RoomMade(q0.entries - {key}, c0.entries, q.entries - {key}, c.entries, e.bytes, limit, maxBytes)
  {
    DeletedOk(q0, key);
    var ok;
    ok, q, c := MakeRoom(Deleted(q0, key), c0, e.bytes, limit, maxBytes);
    InsertBlockOk(q, c, key, e, limit, maxBytes);
    q := Inserted(q, key, e);
  }

  lemma InsertBlockOk(q: Side, c: Side, key: Key, e: Entry, limit: nat, maxBytes: nat)
    requires SideOk(q) && SideOk(c) && Disjoint(q.entries, c.entries)
    requires Fits(q.entries, c.entries, e.bytes, limit, maxBytes)
    requires key !in q.entries && key !in c.entries
    requires !HasSeqno(q.entries, e.seqno) && !HasSeqno(c.entries, e.seqno)
    ensures QueueOk(Inserted(q, key, e), c, limit, maxBytes) && QueueOk(c, Inserted(q, key, e), limit, maxBytes)
    ensures Inserted(q, key, e).entries - {key} == q.entries
  {
    InsertCounts(q, key, e);
    InsertedOk(q, key, e);
  }

  method AddCandidate(q0: Side, c0: Side, key: Key, e: Entry, limit: nat, maxBytes: nat) returns (q: Side, c: Side)
    requires QueueOk(q0, c0, limit, maxBytes) && limit > 0 && e.bytes <= maxBytes && key !in q0.entries
    ensures QueueOk(q, c, limit, maxBytes)
    ensures CandidateQueued(q0.entries, c0.entries, key, e, limit, maxBytes, q.entries, c.entries)
  {
    q, c := q0, c0;
    if e.seqno in q0.bySeqno {
      assert HasSeqno(q0.entries, e.seqno);
      return;
    }
    c := DropOther(c0, key, e.seqno);
    SubQueueOk(q0, c0, q, c, limit, maxBytes);
    if key !in c.entries {
      var far := IsTooFar(q.entries, c.entries, e.prevSeqno, limit);
      if far {
        return;
      }
    }
    q, c := PlaceCandidate(q, c, key, e, limit, maxBytes);
  }

  /** Replaces the key's candidate, evicting for the new one. */
  method PlaceCandidate(q0: Side, c0: Side, key: Key, e: Entry, limit: nat, maxBytes: nat) returns (q: Side, c: Side)
    requires QueueOk(q0, c0, limit, maxBytes) && limit > 0 && e.bytes <= maxBytes
    requires key !in q0.entries && !HasSeqno(q0.entries, e.seqno)
    requires forall k :: k in c0.entries && k != key ==> c0.entries[k].seqno != e.seqno
    ensures QueueOk(q, c, limit, maxBytes) && key in c.entries && c.entries[key] == e
    ensures RoomMade(q0.entries, c0.entries - {key}, q.entries, c.entries - {key}, e.bytes, limit, maxBytes)
  {
    DeletedOk(c0, key);
    var ok;
    ok, q, c := MakeRoom(q0, Deleted(c0, key), e.bytes, limit, maxBytes);
    InsertBlockOk(c, q, key, e, limit, maxBytes);
    c := Inserted(c, key, e);
  }
}
