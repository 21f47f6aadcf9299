/**
 * The table of shard description hints (service/shard_description_hints.go): a map of hints,
 * the order in which blocks entered it, and the (count, maxSeq) generation that stands for
 * its contents.  A dropped hint leaves its order position behind, so a key may occur in the
 * order several times.  Main result: two snapshots report the same generation exactly when
 * they hold the same hints in the same order.
 */
module ShardHints {
  import opened Common

  type Key = nat

  datatype Hint<T> = Hint(description: T, receivedAt: int, seqno: nat)

  datatype Table<T> = Table(hints: map<Key, Hint<T>>, order: seq<Key>)

  datatype Generation = Generation(count: nat, maxSeq: nat)

  /** Three minutes. */
  const HINT_TTL: int := 180

  // What the table stands for.

  function Filter(order: seq<Key>, keep: set<Key>): (r: seq<Key>) {
    if order == [] then []
    else
      var (init, last) := (order[..|order| - 1], order[|order| - 1]);
      Filter(init, keep) + if last in keep then [last] else []
  }

  lemma {:induction false} FilterMembers(order: seq<Key>, keep: set<Key>)
    ensures |Filter(order, keep)| <= |order|
    ensures forall k :: k in Filter(order, keep) <==> k in order && k in keep
  {
    if order != [] {
      FilterMembers(order[..|order| - 1], keep);
      assert order == order[..|order| - 1] + [order[|order| - 1]];
    }
  }

  function SeqAt<T>(hints: map<Key, Hint<T>>, k: Key): (seqno: nat) {
    if k in hints then hints[k].seqno else 0
  }

  function MaxSeq<T>(hints: map<Key, Hint<T>>, order: seq<Key>): (m: nat) {
    if order == [] then 0
    else
      var (m, at) := (MaxSeq(hints, order[..|order| - 1]), SeqAt(hints, order[|order| - 1]));
      if at > m then at else m
  }

  lemma {:induction false} MaxSeqIsMax<T>(hints: map<Key, Hint<T>>, order: seq<Key>)
    ensures forall k :: k in order ==> SeqAt(hints, k) <= MaxSeq(hints, order)
    ensures order != [] ==> exists k :: k in order && SeqAt(hints, k) == MaxSeq(hints, order)
  {
    if order != [] {
      var (init, last) := (order[..|order| - 1], order[|order| - 1]);
      MaxSeqIsMax(hints, init);
      assert order == init + [last];
      if SeqAt(hints, last) > MaxSeq(hints, init) || init == [] {
        assert last in order && SeqAt(hints, last) == MaxSeq(hints, order);
      }
    }
  }

  function GenerationOf<T>(t: Table<T>): (g: Generation) {
    Generation(|t.order|, MaxSeq(t.hints, t.order))
  }

  /** The live hints in order: what a snapshot copies. */
  function Listed<T>(hints: map<Key, Hint<T>>, order: seq<Key>): (r: seq<Hint<T>>) {
    if order == [] then []
    else
      var (init, last) := (order[..|order| - 1], order[|order| - 1]);
      Listed(hints, init) + if last in hints then [hints[last]] else []
  }

  function Unexpired<T>(hints: map<Key, Hint<T>>, cutoff: int): (keep: set<Key>) {
    set k | k in hints && hints[k].receivedAt >= cutoff
  }

  function Restrict<T>(hints: map<Key, Hint<T>>, keep: set<Key>): (r: map<Key, Hint<T>>) {
    map k | k in hints && k in keep :: hints[k]
  }

  function SetOf(keys: seq<Key>): (r: set<Key>) {
    set k | k in keys
  }

  function Unexpire<T>(t: Table<T>, cutoff: int): (r: Table<T>) {
    Table(Restrict(t.hints, Unexpired(t.hints, cutoff)), Filter(t.order, Unexpired(t.hints, cutoff)))
  }

  /** Evicts the oldest order positions beyond the limit, with the hints they name. */
  function Cut<T>(t: Table<T>, limit: nat): (r: Table<T>) {
    if |t.order| <= limit then t
    else
      var overflow := |t.order| - limit;
      Table(t.hints - SetOf(t.order[..overflow]), t.order[overflow..])
  }

  function Pruned<T>(t: Table<T>, limit: nat, cutoff: int): (r: Table<T>) {
    if t.hints == map[] then Table(map[], []) else Cut(Unexpire(t, cutoff), limit)
  }

  function Stored<T>(t: Table<T>, k: Key, hint: Hint<T>): (r: Table<T>) {
    Table(t.hints[k := hint], if k in t.hints then t.order else t.order + [k])
  }

  ghost predicate Covered<T>(t: Table<T>) {
    forall k :: k in t.hints ==> k in t.order
  }

  // The table itself.

  class HintTable<T(0)> {
    var hints: map<Key, Hint<T>>
    var order: seq<Key>
    const limit: nat

    ghost predicate Valid()
      reads this
    {
      Covered(Contents()) && |order| <= limit
    }

    function Contents(): (t: Table<T>)
      reads this
    {
      Table(hints, order)
    }

    constructor (limit: nat)
      ensures Valid() && Contents() == Table(map[], []) && this.limit == limit
    {
      this.limit := limit;
      hints := map[];
      order := [];
    }

    /** Drops expired hints, compacting the order in place; reports the newest kept and where it stands. */
    method Compact(cutoff: int) returns (maxSeq: nat, maxAt: int)
      requires Covered(Contents())
      modifies this
      ensures Contents() == Unexpire(old(Contents()), cutoff)
      ensures Covered(Contents()) && forall k :: k in order ==> k in hints
      ensures Newest(hints, order, maxSeq, maxAt)
    {
      ghost var keep := Unexpired(hints, cutoff);
      FilterMembers(order, keep);
      NewestKept(hints, Filter(order, keep), keep);
      hints, order, maxSeq, maxAt := Sift(hints, order, cutoff);
    }

    /** Evicts what exceeds the limit; reports the newest of the rest. */
    method Evict(maxSeq: nat, maxAt: int) returns (m: nat)
      requires Covered(Contents()) && (forall k :: k in order ==> k in hints) && Newest(hints, order, maxSeq, maxAt)
      modifies this
      ensures Contents() == Cut(old(Contents()), limit)
      ensures m == MaxSeq(hints, order)
    {
      m := maxSeq;
      if |order| <= limit {
        NewestIsMax(hints, order, maxSeq, maxAt);
        return;
      }
      var overflow := |order| - limit;
      ghost var before := Contents();
      hints := DeleteFirst(hints, order, overflow);
      order := order[overflow..];
      if maxAt < overflow {
        m := 0;
        for i := 0 to |order|
          invariant Contents() == Cut(before, limit)
          invariant m == MaxSeq(hints, order[..i])
        {
          var seqno := SeqAt(hints, order[i]);
          assert order[..i + 1][..i] == order[..i];
          MaxOfOne(hints, order[..i], order[i]);
          m := if seqno > m then seqno else m;
        }
        assert order[..|order|] == order;
      } else {
        NewestSurvives(before, limit, maxSeq, maxAt);
      }
    }

    /** pruneShardDescriptionHintsLocked: the generation is that of the table it leaves. */
    method Prune(now: int) returns (gen: Generation)
      requires Covered(Contents())
      modifies this
      ensures Contents() == Pruned(old(Contents()), limit, now - HINT_TTL)
      ensures gen == GenerationOf(Contents())
    {
      if |hints| == 0 {
        order := [];
        return Generation(0, 0);
      }
      var maxSeq, maxAt := Compact(now - HINT_TTL);
      var m := Evict(maxSeq, maxAt);
      gen := Generation(|order|, m);
    }

    method Store(key: Key, hint: Hint<T>, now: int)
      requires Valid()
      modifies this
      ensures Valid() && Contents() == Pruned(Stored(old(Contents()), key, hint), limit, now - HINT_TTL)
      ensures key in hints ==> hints[key] == hint
    {
      if key !in hints {
        order := order + [key];
      }
      hints := hints[key := hint];
      var _ := Prune(now);
      PrunedIsCovered(Stored(old(Contents()), key, hint), limit, now - HINT_TTL);
      PrunedExactly(Stored(old(Contents()), key, hint), limit, now - HINT_TTL, key);
    }

    method Drop(key: Key)
      requires Valid()
      modifies this
      ensures Valid() && Contents() == Table(old(hints) - {key}, old(order))
    {
      hints := hints - {key};
    }

    /** Copies the live hints, or hands back the caller's slice when its generation still stands. */
    method Snapshot(now: int, dst: seq<Hint<T>>, seen: Generation)
      returns (out: seq<Hint<T>>, gen: Generation, changed: bool)
      requires Valid()
      modifies this
      ensures Valid() && Contents() == Pruned(old(Contents()), limit, now - HINT_TTL)
      ensures gen == GenerationOf(Contents()) && changed == (gen != seen)
      ensures out == if changed then Listed(hints, order) else dst
    {
      gen := Prune(now);
      PrunedIsCovered(old(Contents()), limit, now - HINT_TTL);
      if gen == seen {
        return dst, gen, false;
      }
      out := [];
      changed := true;
      for i := 0 to |order|
        invariant Contents() == Pruned(old(Contents()), limit, now - HINT_TTL)
        invariant out == Listed(hints, order[..i])
      {
        assert order[..i + 1][..i] == order[..i];
        if order[i] in hints {
          out := out + [hints[order[i]]];
        }
      }
      assert order[..|order|] == order;
    }
  }

  /** maxAt is the first position of the highest number, or -1 in an empty order. */
  ghost predicate Newest<T>(hints: map<Key, Hint<T>>, order: seq<Key>, maxSeq: nat, maxAt: int) {
    if order == [] then maxAt == -1 && maxSeq == 0
    else
      && 0 <= maxAt < |order|
      && SeqAt(hints, order[maxAt]) == maxSeq
      && (forall i :: 0 <= i < |order| ==> SeqAt(hints, order[i]) <= maxSeq)
      && (forall i :: 0 <= i < maxAt ==> SeqAt(hints, order[i]) < maxSeq)
  }

  lemma FilterOne(order: seq<Key>, k: Key, keep: set<Key>)
    ensures Filter(order + [k], keep) == Filter(order, keep) + if k in keep then [k] else []
  {
    assert (order + [k])[..|order|] == order;
  }

  /** The newest after one more position. */
  lemma NewestOne<T>(hints: map<Key, Hint<T>>, order: seq<Key>, maxSeq: nat, maxAt: int, k: Key)
    requires Newest(hints, order, maxSeq, maxAt)
    ensures if maxAt < 0 || SeqAt(hints, k) > maxSeq then Newest(hints, order + [k], SeqAt(hints, k), |order|)
            else Newest(hints, order + [k], maxSeq, maxAt)
  {
  }

  lemma NewestKept<T>(hints: map<Key, Hint<T>>, order: seq<Key>, keep: set<Key>)
    requires forall k :: k in order ==> k in keep
    ensures forall m, at :: Newest(hints, order, m, at) ==> Newest(Restrict(hints, keep), order, m, at)
  {
    assert forall i :: 0 <= i < |order| ==> order[i] in order;
  }

  ghost function Expired(order: seq<Key>, keep: set<Key>): (r: set<Key>) {
    SetOf(order) - keep
  }

  /** One more position: an expired hint goes, a live one is kept, a dropped one is passed over. */
  lemma SiftOne<T>(hints: map<Key, Hint<T>>, order: seq<Key>, key: Key, cutoff: int)
    ensures var keep := Unexpired(hints, cutoff);
            var (left, after) := (hints - Expired(order, keep), hints - Expired(order + [key], keep));
            && after == (if key in left && left[key].receivedAt < cutoff then left - {key} else left)
            && Filter(order + [key], keep) == Filter(order, keep)
                + (if key in left && left[key].receivedAt >= cutoff then [key] else [])
  {
    var keep := Unexpired(hints, cutoff);
    FilterOne(order, key, keep);
    assert Expired(order + [key], keep) == Expired(order, keep) + ({key} - keep);
  }

  lemma SiftAll<T>(hints: map<Key, Hint<T>>, order: seq<Key>, keep: set<Key>)
    requires Covered(Table(hints, order))
    ensures hints - Expired(order, keep) == Restrict(hints, keep)
  {
  }

  /** One pass over the order: what is kept of it, the hints without the expired ones, and the newest kept. */
  method Sift<T>(hints: map<Key, Hint<T>>, order: seq<Key>, cutoff: int)
    returns (left: map<Key, Hint<T>>, kept: seq<Key>, maxSeq: nat, maxAt: int)
    requires Covered(Table(hints, order))
    ensures Table(left, kept) == Unexpire(Table(hints, order), cutoff)
    ensures Newest(hints, kept, maxSeq, maxAt)
  {
    ghost var keep := Unexpired(hints, cutoff);
    left, kept, maxSeq, maxAt := hints, [], 0, -1;
    for i := 0 to |order|
      invariant kept == Filter(order[..i], keep)
      invariant left == hints - Expired(order[..i], keep)
      invariant Newest(hints, kept, maxSeq, maxAt)
    {
      var key := order[i];
      assert order[..i + 1] == order[..i] + [key];
      SiftOne(hints, order[..i], key, cutoff);
      if key in left {
        var hint := left[key];
        if hint.receivedAt < cutoff {
          left := left - {key};
        } else {
          NewestOne(hints, kept, maxSeq, maxAt, key);
          if maxAt < 0 || hint.seqno > maxSeq {
            maxSeq, maxAt := hint.seqno, |kept|;
          }
          kept := kept + [key];
        }
      }
    }
    assert order[..|order|] == order;
    SiftAll(hints, order, keep);
  }

  method DeleteFirst<T>(hints: map<Key, Hint<T>>, order: seq<Key>, n: nat) returns (r: map<Key, Hint<T>>)
    requires n <= |order|
    ensures r == hints - SetOf(order[..n])
  {
    r := hints;
    for i := 0 to n
      invariant r == hints - SetOf(order[..i])
    {
      assert order[..i + 1] == order[..i] + [order[i]];
      r := r - {order[i]};
    }
  }

  lemma MaxOfOne<T>(hints: map<Key, Hint<T>>, order: seq<Key>, k: Key)
    ensures MaxSeq(hints, order + [k]) == if SeqAt(hints, k) > MaxSeq(hints, order) then SeqAt(hints, k)
            else MaxSeq(hints, order)
  {
    assert (order + [k])[..|order|] == order;
  }

  lemma MaxIs<T>(hints: map<Key, Hint<T>>, order: seq<Key>, m: nat)
    requires forall i :: 0 <= i < |order| ==> SeqAt(hints, order[i]) <= m
    requires exists i :: 0 <= i < |order| && SeqAt(hints, order[i]) == m
    ensures MaxSeq(hints, order) == m
  {
    MaxSeqIsMax(hints, order);
    var i :| 0 <= i < |order| && SeqAt(hints, order[i]) == m;
    assert order[i] in order;
  }

  lemma NewestIsMax<T>(hints: map<Key, Hint<T>>, order: seq<Key>, maxSeq: nat, maxAt: int)
    requires Newest(hints, order, maxSeq, maxAt)
    ensures MaxSeq(hints, order) == maxSeq
  {
    if order != [] {
      MaxIs(hints, order, maxSeq);
    }
  }

  /** A newest hint past the evicted positions occurs in none of them. */
  lemma NewestSurvives<T>(t: Table<T>, limit: nat, maxSeq: nat, maxAt: int)
    requires Newest(t.hints, t.order, maxSeq, maxAt) && |t.order| > limit && maxAt >= |t.order| - limit
    ensures MaxSeq(Cut(t, limit).hints, Cut(t, limit).order) == maxSeq
  {
    var overflow := |t.order| - limit;
    var r := Cut(t, limit);
    assert t.order[maxAt] !in t.order[..overflow];
    assert r.order[maxAt - overflow] == t.order[maxAt];
    assert forall i :: 0 <= i < |r.order| ==> r.order[i] == t.order[overflow + i];
    MaxIs(r.hints, r.order, maxSeq);
  }

  lemma PrunedIsCovered<T>(t: Table<T>, limit: nat, cutoff: int)
    requires Covered(t)
    ensures Covered(Pruned(t, limit, cutoff)) && |Pruned(t, limit, cutoff).order| <= limit
  {
    var u := Unexpire(t, cutoff);
    FilterMembers(t.order, Unexpired(t.hints, cutoff));
    if |u.order| > limit {
      var overflow := |u.order| - limit;
      assert u.order == u.order[..overflow] + u.order[overflow..];
    }
  }

  // Runs.  Numbers come from a process-wide counter taken under the table's lock, so each store's
  // number is above the earlier ones, with gaps where other tables took theirs.

  /** A snapshot taken: its generation, what the pruned table held, and the counter at the time. */
  datatype Taken<T> = Taken(gen: Generation, hints: map<Key, Hint<T>>, order: seq<Key>, at: nat)

  datatype State<T> = State(table: Table<T>, counter: nat, taken: seq<Taken<T>>)

  datatype Step<T> =
    | Store(key: Key, hint: Hint<T>, now: int)
    | Drop(key: Key)
    | Snapshot(now: int)

  /** A caller starts with no hints and the zero generation. */
  function Initial<T>(): (s: State<T>) {
    State(Table(map[], []), 0, [Taken(Generation(0, 0), map[], [], 0)])
  }

  function Next<T>(limit: nat, s: State<T>, step: Step<T>): (r: State<T>) {
    match step
    case Store(key, hint, now) =>
      if hint.seqno <= s.counter then s
      else s.(table := Pruned(Stored(s.table, key, hint), limit, now - HINT_TTL), counter := hint.seqno)
    case Drop(key) => s.(table := Table(s.table.hints - {key}, s.table.order))
    case Snapshot(now) =>
      var t := Pruned(s.table, limit, now - HINT_TTL);
      s.(table := t, taken := s.taken + [Taken(GenerationOf(t), t.hints, t.order, s.counter)])
  }

  function Run<T>(limit: nat, steps: seq<Step<T>>): (s: State<T>) {
    if steps == [] then Initial() else Next(limit, Run(limit, steps[..|steps| - 1]), steps[|steps| - 1])
  }

  ghost predicate TableOk<T>(limit: nat, t: Table<T>, counter: nat) {
    Covered(t) && |t.order| <= limit && forall k :: k in t.hints ==> t.hints[k].seqno <= counter
  }

  ghost predicate TakenOk<T>(p: Taken<T>, counter: nat) {
    && p.at <= counter
    && p.gen == GenerationOf(Table(p.hints, p.order))
    && forall k :: k in p.order ==> k in p.hints && p.hints[k].seqno <= p.at
  }

  /** The keys whose hint has stood since the counter was at n. */
  ghost function Since<T>(hints: map<Key, Hint<T>>, n: nat): (r: set<Key>) {
    set k | k in hints && hints[k].seqno <= n
  }

  /** What has stood since a snapshot is as it was then, and stands in the same order. */
  ghost predicate Related<T>(p: Taken<T>, t: Table<T>) {
    && (forall k :: k in Since(t.hints, p.at) ==> k in p.hints && p.hints[k] == t.hints[k])
    && Filter(t.order, Since(t.hints, p.at)) == Filter(p.order, Since(t.hints, p.at))
  }

  ghost predicate SameWhenEqual<T>(a: Taken<T>, b: Taken<T>) {
    a.gen == b.gen ==> Listed(a.hints, a.order) == Listed(b.hints, b.order)
  }

  ghost predicate Inv<T>(limit: nat, s: State<T>) {
    && TableOk(limit, s.table, s.counter)
    && Standing(s.taken, s.counter, s.table)
    && Telling(s.taken)
  }

  ghost predicate Standing<T>(taken: seq<Taken<T>>, counter: nat, t: Table<T>) {
    forall i :: 0 <= i < |taken| ==> TakenOk(taken[i], counter) && Related(taken[i], t)
  }

  ghost predicate Telling<T>(taken: seq<Taken<T>>) {
    forall i, j :: 0 <= i < j < |taken| ==> SameWhenEqual(taken[i], taken[j])
  }

  lemma {:induction false} FilterTwice(order: seq<Key>, a: set<Key>, b: set<Key>)
    requires a <= b
    ensures Filter(Filter(order, b), a) == Filter(order, a)
  {
    if order != [] {
      var (init, last) := (order[..|order| - 1], order[|order| - 1]);
      FilterTwice(init, a, b);
      assert order == init + [last];
      FilterOne(init, last, a);
      FilterOne(init, last, b);
      if last in b {
        FilterOne(Filter(init, b), last, a);
      } else {
        assert Filter(order, b) == Filter(init, b) && Filter(order, a) == Filter(init, a);
      }
    }
  }

  lemma {:induction false} FilterSplit(x: seq<Key>, y: seq<Key>, a: set<Key>)
    ensures Filter(x + y, a) == Filter(x, a) + Filter(y, a)
  {
    if y == [] {
      assert x + y == x;
    } else {
      var (init, last) := (y[..|y| - 1], y[|y| - 1]);
      assert x + y == (x + init) + [last] && y == init + [last];
      FilterSplit(x, init, a);
      FilterOne(x + init, last, a);
    }
  }

  lemma {:induction false} FilterNone(order: seq<Key>, a: set<Key>)
    requires forall k :: k in order ==> k !in a
    ensures Filter(order, a) == []
  {
    if order != [] {
      assert order[|order| - 1] in order;
      FilterNone(order[..|order| - 1], a);
    }
  }

  lemma {:induction false} FilterFull(order: seq<Key>, a: set<Key>)
    requires |Filter(order, a)| == |order|
    ensures Filter(order, a) == order
  {
    if order != [] {
      FilterMembers(order[..|order| - 1], a);
      FilterFull(order[..|order| - 1], a);
    }
  }

  lemma {:induction false} FilterAll(order: seq<Key>, a: set<Key>)
    requires forall k :: k in order ==> k in a
    ensures Filter(order, a) == order
  {
    if order != [] {
      var (init, last) := (order[..|order| - 1], order[|order| - 1]);
      assert order == init + [last] && last in a;
      FilterAll(init, a);
    }
  }

  /** Dropping hints, and order positions whose hints are gone, keeps what has stood. */
  lemma RelatedShrinks<T>(p: Taken<T>, t: Table<T>, r: Table<T>)
    requires Related(p, t)
    requires forall k :: k in r.hints ==> k in t.hints && r.hints[k] == t.hints[k]
    requires Filter(r.order, r.hints.Keys) == Filter(t.order, r.hints.Keys)
    ensures Related(p, r)
  {
    var (before, after) := (Since(t.hints, p.at), Since(r.hints, p.at));
    assert after <= before && after <= r.hints.Keys;
    calc {
      Filter(r.order, after);
      { FilterTwice(r.order, after, r.hints.Keys); }
      Filter(Filter(r.order, r.hints.Keys), after);
      { FilterTwice(t.order, after, r.hints.Keys); }
      Filter(t.order, after);
      { FilterTwice(t.order, after, before); }
      Filter(Filter(t.order, before), after);
      { FilterTwice(p.order, after, before); }
      Filter(p.order, after);
    }
  }

  lemma UnexpireShrinks<T>(t: Table<T>, cutoff: int)
    ensures var r := Unexpire(t, cutoff); Filter(r.order, r.hints.Keys) == Filter(t.order, r.hints.Keys)
  {
    var r := Unexpire(t, cutoff);
    assert r.hints.Keys == Unexpired(t.hints, cutoff);
    FilterTwice(t.order, r.hints.Keys, r.hints.Keys);
  }

  lemma CutShrinks<T>(t: Table<T>, limit: nat)
    ensures var r := Cut(t, limit); Filter(r.order, r.hints.Keys) == Filter(t.order, r.hints.Keys)
  {
    if |t.order| > limit {
      var overflow := |t.order| - limit;
      var keep := Cut(t, limit).hints.Keys;
      assert t.order == t.order[..overflow] + t.order[overflow..];
      FilterSplit(t.order[..overflow], t.order[overflow..], keep);
      FilterNone(t.order[..overflow], keep);
    }
  }

  lemma PrunedRelated<T>(p: Taken<T>, t: Table<T>, limit: nat, cutoff: int)
    requires Related(p, t)
    ensures Related(p, Pruned(t, limit, cutoff))
  {
    if t.hints == map[] {
      var gone: Table<T> := Table(map[], []);
      FilterNone(t.order, gone.hints.Keys);
      RelatedShrinks(p, t, gone);
    } else {
      UnexpireShrinks(t, cutoff);
      RelatedShrinks(p, t, Unexpire(t, cutoff));
      CutShrinks(Unexpire(t, cutoff), limit);
      RelatedShrinks(p, Unexpire(t, cutoff), Pruned(t, limit, cutoff));
    }
  }

  lemma StoredRelated<T>(p: Taken<T>, t: Table<T>, key: Key, hint: Hint<T>)
    requires Related(p, t) && hint.seqno > p.at
    ensures Related(p, Stored(t, key, hint))
  {
    var r := Stored(t, key, hint);
    var dropped := Table(t.hints - {key}, t.order);
    RelatedShrinks(p, t, dropped);
    assert Since(r.hints, p.at) == Since(dropped.hints, p.at);
    FilterOne(t.order, key, Since(r.hints, p.at));
  }

  lemma {:induction false} SameList<T>(a: map<Key, Hint<T>>, b: map<Key, Hint<T>>, order: seq<Key>)
    requires forall k :: k in order ==> k in a && k in b && a[k] == b[k]
    ensures Listed(a, order) == Listed(b, order)
  {
    if order != [] {
      assert order[|order| - 1] in order;
      SameList(a, b, order[..|order| - 1]);
    }
  }

  /** A snapshot's own prune evicts nothing, so every order position it keeps is live. */
  lemma SnapshotIsLive<T>(limit: nat, t: Table<T>, counter: nat, cutoff: int)
    requires TableOk(limit, t, counter)
    ensures var r := Pruned(t, limit, cutoff); TableOk(limit, r, counter) && forall k :: k in r.order ==> k in r.hints
  {
    PrunedIsCovered(t, limit, cutoff);
    FilterMembers(t.order, Unexpired(t.hints, cutoff));
  }

  /** A new snapshot reporting an old generation holds that snapshot's hints. */
  lemma EqualGenerations<T>(p: Taken<T>, t: Table<T>, counter: nat)
    requires TakenOk(p, counter) && Related(p, t) && forall k :: k in t.order ==> k in t.hints
    requires p.gen == GenerationOf(t)
    ensures p.order == t.order && Listed(p.hints, p.order) == Listed(t.hints, t.order)
  {
    var stood := Since(t.hints, p.at);
    MaxSeqIsMax(p.hints, p.order);
    MaxSeqIsMax(t.hints, t.order);
    assert p.gen.maxSeq <= p.at;
    forall k | k in t.order
      ensures k in stood
    {
      assert SeqAt(t.hints, k) <= p.gen.maxSeq;
    }
    FilterAll(t.order, stood);
    FilterFull(p.order, stood);
    SameList(p.hints, t.hints, p.order);
  }

  lemma PrunedStanding<T>(taken: seq<Taken<T>>, counter: nat, t: Table<T>, limit: nat, cutoff: int)
    requires Standing(taken, counter, t)
    ensures Standing(taken, counter, Pruned(t, limit, cutoff))
  {
    forall i | 0 <= i < |taken|
      ensures Related(taken[i], Pruned(t, limit, cutoff))
    {
      PrunedRelated(taken[i], t, limit, cutoff);
    }
  }

  lemma StoredStanding<T>(taken: seq<Taken<T>>, counter: nat, t: Table<T>, key: Key, hint: Hint<T>)
    requires Standing(taken, counter, t) && hint.seqno > counter
    ensures Standing(taken, hint.seqno, Stored(t, key, hint))
  {
    forall i | 0 <= i < |taken|
      ensures TakenOk(taken[i], hint.seqno) && Related(taken[i], Stored(t, key, hint))
    {
      StoredRelated(taken[i], t, key, hint);
    }
  }

  lemma StillTelling<T>(taken: seq<Taken<T>>, counter: nat, t: Table<T>, p: Taken<T>)
    requires Telling(taken) && Standing(taken, counter, t) && (forall k :: k in t.order ==> k in t.hints)
    requires p.gen == GenerationOf(t) && p.hints == t.hints && p.order == t.order
    ensures Telling(taken + [p])
  {
    forall i, j | 0 <= i < j < |taken + [p]|
      ensures SameWhenEqual((taken + [p])[i], (taken + [p])[j])
    {
      if j < |taken| {
        assert SameWhenEqual(taken[i], taken[j]);
      } else if taken[i].gen == p.gen {
        EqualGenerations(taken[i], t, counter);
      }
    }
  }

  lemma TakeKeepsInv<T>(limit: nat, s: State<T>, t: Table<T>)
    requires TableOk(limit, t, s.counter) && (forall k :: k in t.order ==> k in t.hints)
    requires Standing(s.taken, s.counter, t) && Telling(s.taken)
    ensures Inv(limit, State(t, s.counter, s.taken + [Taken(GenerationOf(t), t.hints, t.order, s.counter)]))
  {
    var p := Taken(GenerationOf(t), t.hints, t.order, s.counter);
    StillTelling(s.taken, s.counter, t, p);
    assert TakenOk(p, s.counter) && Related(p, t);
  }

  lemma SnapshotKeepsInv<T>(limit: nat, s: State<T>, now: int)
    requires Inv(limit, s)
    ensures Inv(limit, Next(limit, s, Snapshot(now)))
  {
    SnapshotIsLive(limit, s.table, s.counter, now - HINT_TTL);
    PrunedStanding(s.taken, s.counter, s.table, limit, now - HINT_TTL);
    TakeKeepsInv(limit, s, Pruned(s.table, limit, now - HINT_TTL));
  }

  lemma StoredTableOk<T>(limit: nat, t: Table<T>, counter: nat, key: Key, hint: Hint<T>, cutoff: int)
    requires TableOk(limit, t, counter) && hint.seqno > counter
    ensures TableOk(limit, Pruned(Stored(t, key, hint), limit, cutoff), hint.seqno)
  {
    PrunedIsCovered(Stored(t, key, hint), limit, cutoff);
  }

  lemma StoreKeepsInv<T>(limit: nat, s: State<T>, key: Key, hint: Hint<T>, now: int)
    requires Inv(limit, s)
    ensures Inv(limit, Next(limit, s, Store(key, hint, now)))
  {
    if hint.seqno > s.counter {
      var t := Pruned(Stored(s.table, key, hint), limit, now - HINT_TTL);
      assert TableOk(limit, t, hint.seqno) by {
        StoredTableOk(limit, s.table, s.counter, key, hint, now - HINT_TTL);
      }
      assert Standing(s.taken, hint.seqno, t) by {
        StoredStanding(s.taken, s.counter, s.table, key, hint);
        PrunedStanding(s.taken, hint.seqno, Stored(s.table, key, hint), limit, now - HINT_TTL);
      }
      assert Next(limit, s, Store(key, hint, now)) == State(t, hint.seqno, s.taken);
    }
  }

  lemma DropKeepsInv<T>(limit: nat, s: State<T>, key: Key)
    requires Inv(limit, s)
    ensures Inv(limit, Next(limit, s, Drop(key)))
  {
    forall i | 0 <= i < |s.taken|
      ensures Related(s.taken[i], Table(s.table.hints - {key}, s.table.order))
    {
      RelatedShrinks(s.taken[i], s.table, Table(s.table.hints - {key}, s.table.order));
    }
  }

  lemma {:induction false} RunKeepsInv<T>(limit: nat, steps: seq<Step<T>>)
    ensures Inv(limit, Run(limit, steps))
  {
    if steps != [] {
      var s := Run(limit, steps[..|steps| - 1]);
      RunKeepsInv(limit, steps[..|steps| - 1]);
      match steps[|steps| - 1]
      case Store(key, hint, now) => StoreKeepsInv(limit, s, key, hint, now);
      case Drop(key) => DropKeepsInv(limit, s, key);
      case Snapshot(now) => SnapshotKeepsInv(limit, s, now);
    }
  }

  ghost function MaxListed<T>(list: seq<Hint<T>>): (m: nat) {
    if list == [] then 0
    else
      var (m, at) := (MaxListed(list[..|list| - 1]), list[|list| - 1].seqno);
      if at > m then at else m
  }

  lemma {:induction false} ListTellsGeneration<T>(hints: map<Key, Hint<T>>, order: seq<Key>)
    requires forall k :: k in order ==> k in hints
    ensures |Listed(hints, order)| == |order|
    ensures MaxListed(Listed(hints, order)) == MaxSeq(hints, order)
  {
    if order != [] {
      var (init, last) := (order[..|order| - 1], order[|order| - 1]);
      assert last in order;
      ListTellsGeneration(hints, init);
      assert Listed(hints, order)[..|init|] == Listed(hints, init);
    }
  }

  /** In every run: equal generations if and only if equal hints in equal order, repeats included. */
  lemma GenerationsTell<T>(limit: nat, steps: seq<Step<T>>, i: nat, j: nat)
    requires i < |Run(limit, steps).taken| && j < |Run(limit, steps).taken|
    ensures var (a, b) := (Run(limit, steps).taken[i], Run(limit, steps).taken[j]);
            a.gen == b.gen <==> Listed(a.hints, a.order) == Listed(b.hints, b.order)
  {
    RunKeepsInv(limit, steps);
    var (a, b) := (Run(limit, steps).taken[i], Run(limit, steps).taken[j]);
    assert i < j ==> SameWhenEqual(a, b);
    assert j < i ==> SameWhenEqual(b, a);
    assert TakenOk(a, Run(limit, steps).counter) && TakenOk(b, Run(limit, steps).counter);
    ListTellsGeneration(a.hints, a.order);
    ListTellsGeneration(b.hints, b.order);
  }

  /** So the slice a caller gets back, old or new, is always the table's list. */
  lemma OldSliceIsCurrent<T>(limit: nat, steps: seq<Step<T>>, i: nat, now: int)
    requires i < |Run(limit, steps).taken|
    ensures var (p, t) := (Run(limit, steps).taken[i], Pruned(Run(limit, steps).table, limit, now - HINT_TTL));
            p.gen == GenerationOf(t) ==> Listed(p.hints, p.order) == Listed(t.hints, t.order)
  {
    RunKeepsInv(limit, steps);
    CurrentIfEqual(limit, Run(limit, steps), i, now - HINT_TTL);
  }

  lemma CurrentIfEqual<T>(limit: nat, s: State<T>, i: nat, cutoff: int)
    requires Inv(limit, s) && i < |s.taken|
    ensures var (p, t) := (s.taken[i], Pruned(s.table, limit, cutoff));
            p.gen == GenerationOf(t) ==> Listed(p.hints, p.order) == Listed(t.hints, t.order)
  {
    var (p, t) := (s.taken[i], Pruned(s.table, limit, cutoff));
    SnapshotIsLive(limit, s.table, s.counter, cutoff);
    PrunedRelated(p, s.table, limit, cutoff);
    if p.gen == GenerationOf(t) {
      EqualGenerations(p, t, s.counter);
    }
  }

  // What a table holds: for each block the hint stored last, until it is dropped, expires or is evicted.

  /** At some live position with at least `limit` live positions after it. */
  ghost predicate EvictedFrom(live: seq<Key>, limit: nat, k: Key) {
    exists i :: 0 <= i < |live| - limit && live[i] == k
  }

  /** Too old, or evicted. */
  ghost predicate Removed<T>(t: Table<T>, limit: nat, cutoff: int, k: Key)
    requires k in t.hints
  {
    t.hints[k].receivedAt < cutoff || EvictedFrom(Filter(t.order, Unexpired(t.hints, cutoff)), limit, k)
  }

  /** Pruning keeps every hint as it is, unless it is too old or evicted. */
  lemma PrunedExactly<T>(t: Table<T>, limit: nat, cutoff: int, k: Key)
    ensures var r := Pruned(t, limit, cutoff);
            && (k in r.hints <==> k in t.hints && !Removed(t, limit, cutoff, k))
            && (k in r.hints ==> r.hints[k] == t.hints[k])
  {
    var u := Unexpire(t, cutoff);
    if |u.order| > limit {
      var overflow := |u.order| - limit;
      assert k in SetOf(u.order[..overflow]) <==> EvictedFrom(u.order, limit, k);
    }
  }

  /** A block not in the table before is in it after its store, as the newest, if its description is recent. */
  lemma StoredIsHeld<T>(limit: nat, s: State<T>, key: Key, hint: Hint<T>, now: int)
    requires limit > 0 && hint.seqno > s.counter && hint.receivedAt >= now - HINT_TTL && key !in s.table.order
    requires Covered(s.table)
    ensures var t := Next(limit, s, Store(key, hint, now)).table;
            && key in t.hints && t.hints[key] == hint
            && t.order != [] && t.order[|t.order| - 1] == key && MaxSeq(t.hints, t.order) >= hint.seqno
  {
    var stored := Stored(s.table, key, hint);
    NewIsLast(s.table, key, hint, now - HINT_TTL);
    LastSurvives(Unexpire(stored, now - HINT_TTL), limit, key);
    var t := Cut(Unexpire(stored, now - HINT_TTL), limit);
    assert key in stored.hints && Next(limit, s, Store(key, hint, now)).table == t;
    MaxSeqIsMax(t.hints, t.order);
    assert t.order[|t.order| - 1] in t.order;
  }

  /** The key stands at the last position and nowhere else. */
  ghost predicate OnlyLast<T>(t: Table<T>, key: Key, hint: Hint<T>) {
    && key in t.hints && t.hints[key] == hint
    && t.order != [] && t.order[|t.order| - 1] == key && key !in t.order[..|t.order| - 1]
  }

  lemma NewIsLast<T>(t: Table<T>, key: Key, hint: Hint<T>, cutoff: int)
    requires Covered(t) && key !in t.order && hint.receivedAt >= cutoff
    ensures OnlyLast(Unexpire(Stored(t, key, hint), cutoff), key, hint)
  {
    var keep := Unexpired(Stored(t, key, hint).hints, cutoff);
    FilterOne(t.order, key, keep);
    FilterMembers(t.order, keep);
    assert (Filter(t.order, keep) + [key])[..|Filter(t.order, keep)|] == Filter(t.order, keep);
  }

  lemma LastSurvives<T>(t: Table<T>, limit: nat, key: Key)
    requires limit > 0 && key in t.hints && OnlyLast(t, key, t.hints[key])
    ensures var r := Cut(t, limit);
            && key in r.hints && r.hints[key] == t.hints[key] && r.order != [] && r.order[|r.order| - 1] == key
  {
    if |t.order| > limit {
      var overflow := |t.order| - limit;
      assert t.order[..|t.order| - 1][..overflow] == t.order[..overflow];
    }
  }

  /** A newer description of a block replaces the one held. */
  lemma StoreReplaces<T>(limit: nat, s: State<T>, key: Key, hint: Hint<T>, now: int)
    requires hint.seqno > s.counter
    ensures var t := Next(limit, s, Store(key, hint, now)).table; key in t.hints ==> t.hints[key] == hint
  {
    PrunedExactly(Stored(s.table, key, hint), limit, now - HINT_TTL, key);
  }

  /** The hint stored last for the block, unless it was dropped since. */
  function LastHint<T>(limit: nat, steps: seq<Step<T>>, key: Key): (r: Option<Hint<T>>) {
    if steps == [] then None
    else
      var (init, last) := (steps[..|steps| - 1], steps[|steps| - 1]);
      match last
      case Store(k, hint, _) =>
        if k == key && hint.seqno > Run(limit, init).counter then Some(hint) else LastHint(limit, init, key)
      case Drop(k) => if k == key then None else LastHint(limit, init, key)
      case Snapshot(_) => LastHint(limit, init, key)
  }

  /** The table that a step prunes, and with which cutoff. */
  function ToPrune<T>(s: State<T>, step: Step<T>): (r: Option<(Table<T>, int)>) {
    match step
    case Store(key, hint, now) =>
      if hint.seqno > s.counter then Some((Stored(s.table, key, hint), now - HINT_TTL)) else None
    case Drop(_) => None
    case Snapshot(now) => Some((s.table, now - HINT_TTL))
  }

  /** The step takes the block's hint away because of its age or of the limit. */
  ghost predicate RemovedBy<T>(limit: nat, s: State<T>, step: Step<T>, key: Key) {
    var p := ToPrune(s, step);
    p.Some? && key in p.value.0.hints && Removed(p.value.0, limit, p.value.1, key)
  }

  /** That has happened to the block since its last store. */
  ghost predicate Lost<T>(limit: nat, steps: seq<Step<T>>, key: Key) {
    steps != [] &&
    var (init, last) := (steps[..|steps| - 1], steps[|steps| - 1]);
    || RemovedBy(limit, Run(limit, init), last, key)
    || (Lost(limit, init, key) && !(last.Store? && last.key == key && last.hint.seqno > Run(limit, init).counter))
  }

  ghost predicate HoldsLast<T>(t: Table<T>, last: Option<Hint<T>>, lost: bool, key: Key) {
    && (key in t.hints <==> last.Some? && !lost)
    && (key in t.hints ==> last == Some(t.hints[key]))
  }

  lemma HoldsNext<T>(limit: nat, steps: seq<Step<T>>, step: Step<T>, key: Key)
    requires HoldsLast(Run(limit, steps).table, LastHint(limit, steps, key), Lost(limit, steps, key), key)
    ensures HoldsLast(Run(limit, steps + [step]).table, LastHint(limit, steps + [step], key),
                      Lost(limit, steps + [step], key), key)
  {
    RunNext(limit, steps, step);
    assert (steps + [step])[..|steps|] == steps;
    var s := Run(limit, steps);
    if ToPrune(s, step).Some? {
      var (t, cutoff) := ToPrune(s, step).value;
      PrunedExactly(t, limit, cutoff, key);
    }
  }

  /**
   In every run the table holds a block's hint exactly when one was stored and neither dropped nor taken away by
   age or by the limit since, and it is the one stored last.
  */
  lemma {:induction false} HintsAreLast<T>(limit: nat, steps: seq<Step<T>>, key: Key)
    ensures HoldsLast(Run(limit, steps).table, LastHint(limit, steps, key), Lost(limit, steps, key), key)
  {
    if steps != [] {
      HintsAreLast(limit, steps[..|steps| - 1], key);
      HoldsNext(limit, steps[..|steps| - 1], steps[|steps| - 1], key);
      assert steps == steps[..|steps| - 1] + [steps[|steps| - 1]];
    }
  }

  /** A snapshot lists exactly the hints held, each the last stored for its block and at most three minutes old. */
  lemma SnapshotListsLast<T>(limit: nat, steps: seq<Step<T>>, now: int, key: Key)
    ensures var s := Run(limit, steps + [Snapshot(now)]);
            var p := s.taken[|s.taken| - 1];
            && p.hints == s.table.hints && p.order == s.table.order
            && (key in p.hints ==>
                  && LastHint(limit, steps, key) == Some(p.hints[key]) && p.hints[key].receivedAt >= now - 180
                  && p.hints[key] in Listed(p.hints, p.order))
  {
    var s := Run(limit, steps + [Snapshot(now)]);
    RunNext(limit, steps, Snapshot(now));
    HintsAreLast(limit, steps, key);
    RunKeepsInv(limit, steps);
    PrunedExactly(Run(limit, steps).table, limit, now - HINT_TTL, key);
    SnapshotIsLive(limit, Run(limit, steps).table, Run(limit, steps).counter, now - HINT_TTL);
    if key in s.table.hints {
      ListedHas(s.table.hints, s.table.order, key);
    }
  }

  lemma {:induction false} ListedHas<T>(hints: map<Key, Hint<T>>, order: seq<Key>, k: Key)
    requires k in hints && k in order
    ensures hints[k] in Listed(hints, order)
  {
    var (init, last) := (order[..|order| - 1], order[|order| - 1]);
    if k != last {
      assert order == init + [last];
      ListedHas(hints, init, k);
    }
  }

  // The value computed inside a store, which the code throws away.  It may count a position whose hint was
  // just evicted, so that it can repeat a snapshot's generation over other contents.

  /** An order position that the eviction takes away names the same block as a kept one. */
  ghost predicate EvictedRecurs<T>(t: Table<T>, limit: nat) {
    exists i, j :: 0 <= i < |t.order| - limit <= j < |t.order| && t.order[i] == t.order[j]
  }

  lemma LiveUnlessRecurs<T>(t: Table<T>, limit: nat)
    requires forall k :: k in t.order ==> k in t.hints
    ensures (forall k :: k in Cut(t, limit).order ==> k in Cut(t, limit).hints) <==> !EvictedRecurs(t, limit)
  {
    if |t.order| > limit {
      var (overflow, r) := (|t.order| - limit, Cut(t, limit));
      assert forall j :: overflow <= j < |t.order| ==> r.order[j - overflow] == t.order[j];
      if i, j :| 0 <= i < overflow <= j < |t.order| && t.order[i] == t.order[j] {
        assert t.order[..overflow][i] in SetOf(t.order[..overflow]);
        assert r.order[j - overflow] in r.order && r.order[j - overflow] !in r.hints;
      }
    }
  }

  lemma {:induction false} DeadShortens<T>(hints: map<Key, Hint<T>>, order: seq<Key>)
    ensures |Listed(hints, order)| <= |order|
    ensures |Listed(hints, order)| == |order| <==> forall k :: k in order ==> k in hints
  {
    if order != [] {
      var (init, last) := (order[..|order| - 1], order[|order| - 1]);
      assert order == init + [last];
      DeadShortens(hints, init);
    }
  }

  /**
   * For every run, snapshot and store: when the store's value repeats the snapshot's generation, the contents are
   * the snapshot's if and only if no evicted key stands at a kept position too.
   */
  lemma StoreGenerationTellsExactly<T>(limit: nat, steps: seq<Step<T>>, i: nat, key: Key, hint: Hint<T>, now: int)
    requires i < |Run(limit, steps).taken| && hint.seqno > Run(limit, steps).counter
    ensures var p := Run(limit, steps).taken[i];
            var stored := Stored(Run(limit, steps).table, key, hint);
            var t := Pruned(stored, limit, now - HINT_TTL);
            p.gen == GenerationOf(t) ==>
              (Listed(p.hints, p.order) == Listed(t.hints, t.order) <==>
               !EvictedRecurs(Unexpire(stored, now - HINT_TTL), limit))
  {
    RunKeepsInv(limit, steps);
    StoreTells(limit, Run(limit, steps), i, key, hint, now - HINT_TTL);
  }

  lemma StoreTells<T>(limit: nat, s: State<T>, i: nat, key: Key, hint: Hint<T>, cutoff: int)
    requires Inv(limit, s) && i < |s.taken| && hint.seqno > s.counter
    ensures var (p, stored) := (s.taken[i], Stored(s.table, key, hint));
            var t := Pruned(stored, limit, cutoff);
            p.gen == GenerationOf(t) ==>
              (Listed(p.hints, p.order) == Listed(t.hints, t.order) <==>
               !EvictedRecurs(Unexpire(stored, cutoff), limit))
  {
    var (p, stored) := (s.taken[i], Stored(s.table, key, hint));
    var t := Pruned(stored, limit, cutoff);
    assert key in stored.hints;
    FilterMembers(stored.order, Unexpired(stored.hints, cutoff));
    LiveUnlessRecurs(Unexpire(stored, cutoff), limit);
    if p.gen == GenerationOf(t) {
      DeadShortens(p.hints, p.order);
      DeadShortens(t.hints, t.order);
      StoredRelated(p, s.table, key, hint);
      PrunedRelated(p, stored, limit, cutoff);
      if forall k :: k in t.order ==> k in t.hints {
        EqualGenerations(p, t, s.counter);
      }
    }
  }

  // And it does happen: fill the table, take a snapshot, drop the first block and store it again.

  function HintOf(n: nat): (h: Hint<nat>) {
    Hint(0, 0, n)
  }

  function FillSteps(n: nat): (steps: seq<Step<nat>>) {
    if n == 0 then [] else FillSteps(n - 1) + [Store(n, HintOf(n), 0)]
  }

  /** The blocks 1 to n, each with its own number, in that order. */
  ghost predicate Full(t: Table<nat>, n: nat) {
    && |t.order| == n && (forall i :: 0 <= i < n ==> t.order[i] == i + 1)
    && (forall k :: k in t.hints <==> 1 <= k <= n) && forall k :: k in t.hints ==> t.hints[k] == HintOf(k)
  }

  lemma NothingExpires(t: Table<nat>)
    requires forall k :: k in t.hints ==> t.hints[k].receivedAt == 0
    requires forall k :: k in t.order ==> k in t.hints
    ensures Unexpire(t, -HINT_TTL) == t
  {
    FilterAll(t.order, Unexpired(t.hints, -HINT_TTL));
  }

  lemma FullStays(t: Table<nat>, n: nat, limit: nat)
    requires 0 < n <= limit && Full(t, n)
    ensures Pruned(t, limit, -HINT_TTL) == t && GenerationOf(t) == Generation(n, n)
  {
    assert n in t.hints;
    NothingExpires(t);
    assert SeqAt(t.hints, t.order[n - 1]) == n;
    MaxIs(t.hints, t.order, n);
  }

  lemma RunNext<T>(limit: nat, steps: seq<Step<T>>, step: Step<T>)
    ensures Run(limit, steps + [step]) == Next(limit, Run(limit, steps), step)
  {
    assert (steps + [step])[..|steps|] == steps;
  }

  lemma FullStored(t: Table<nat>, n: nat)
    requires n > 0 && Full(t, n - 1)
    ensures Full(Stored(t, n, HintOf(n)), n)
  {
  }

  ghost predicate Filled(s: State<nat>, n: nat) {
    Full(s.table, n) && s.counter == n && |s.taken| == 1
  }

  lemma FillNext(limit: nat, s: State<nat>, n: nat)
    requires 0 < n <= limit && Filled(s, n - 1)
    ensures Filled(Next(limit, s, Store(n, HintOf(n), 0)), n)
  {
    FullStored(s.table, n);
    FullStays(Stored(s.table, n, HintOf(n)), n, limit);
  }

  lemma FillOne(limit: nat, steps: seq<Step<nat>>, n: nat)
    requires 0 < n <= limit && Filled(Run(limit, steps), n - 1)
    ensures Filled(Run(limit, steps + [Store(n, HintOf(n), 0)]), n)
  {
    RunNext(limit, steps, Store(n, HintOf(n), 0));
    FillNext(limit, Run(limit, steps), n);
  }

  lemma {:induction false} FillRuns(limit: nat, n: nat)
    requires n <= limit
    ensures Filled(Run(limit, FillSteps(n)), n)
  {
    if n > 0 {
      FillRuns(limit, n - 1);
      FillOne(limit, FillSteps(n - 1), n);
    }
  }

  /** Storing the dropped first block again: its new position is kept, its hint evicted with the old one. */
  lemma RestoredFirst(t: Table<nat>, limit: nat)
    requires limit >= 2 && Full(t, limit)
    ensures var stored := Stored(Table(t.hints - {1}, t.order), 1, HintOf(limit + 1));
            && EvictedRecurs(Unexpire(stored, -HINT_TTL), limit)
            && GenerationOf(Pruned(stored, limit, -HINT_TTL)) == Generation(limit, limit)
  {
    var stored := Stored(Table(t.hints - {1}, t.order), 1, HintOf(limit + 1));
    assert stored.order == t.order + [1] && 1 in stored.hints;
    NothingExpires(stored);
    assert stored.order[0] == stored.order[limit];
    CutGeneration(stored, limit);
  }

  lemma CutGeneration(stored: Table<nat>, limit: nat)
    requires limit >= 2 && |stored.order| == limit + 1 && forall i :: 0 <= i < limit ==> stored.order[i] == i + 1
    requires stored.order[limit] == 1
    requires forall k :: k in stored.hints && k != 1 ==> k <= limit && stored.hints[k].seqno == k
    requires limit in stored.hints
    ensures GenerationOf(Cut(stored, limit)) == Generation(limit, limit)
  {
    var r := Cut(stored, limit);
    assert stored.order[..1] == [1];
    assert forall i :: 0 <= i < limit ==> r.order[i] == stored.order[i + 1];
    assert SeqAt(r.hints, r.order[limit - 2]) == limit;
    MaxIs(r.hints, r.order, limit);
  }

  lemma DroppedFirst(limit: nat, s: State<nat>)
    requires limit >= 2 && Filled(s, limit)
    ensures var r := Next(limit, Next(limit, s, Snapshot(0)), Drop(1));
            && r.table == Table(s.table.hints - {1}, s.table.order) && r.counter == limit
            && |r.taken| == 2 && r.taken[1].gen == Generation(limit, limit)
  {
    FullStays(s.table, limit, limit);
  }

  ghost predicate RepeatsWrongly(s: State<nat>, i: nat, t: Table<nat>) {
    && i < |s.taken| && s.taken[i].gen == GenerationOf(t)
    && Listed(s.taken[i].hints, s.taken[i].order) != Listed(t.hints, t.order)
  }

  lemma RestoreRepeats(limit: nat, s: State<nat>, full: Table<nat>)
    requires limit >= 2 && Full(full, limit) && Inv(limit, s)
    requires s.table == Table(full.hints - {1}, full.order) && s.counter == limit
    requires |s.taken| == 2 && s.taken[1].gen == Generation(limit, limit)
    ensures RepeatsWrongly(s, 1, Next(limit, s, Store(1, HintOf(limit + 1), 0)).table)
  {
    RestoredFirst(full, limit);
    StoreTells(limit, s, 1, 1, HintOf(limit + 1), -HINT_TTL);
  }

  /**
   * For every limit from two on, the code's own included: a run after which a store's value repeats a
   * snapshot's generation over other contents.
   */
  lemma StoreGenerationIsNotEnough(limit: nat)
    requires limit >= 2
    ensures var s := Run(limit, FillSteps(limit) + [Snapshot(0)] + [Drop(1)]);
            RepeatsWrongly(s, 1, Next(limit, s, Store(1, HintOf(limit + 1), 0)).table)
  {
    var (fill, full) := (FillSteps(limit), Run(limit, FillSteps(limit)));
    FillRuns(limit, limit);
    RunNext(limit, fill, Snapshot(0));
    RunNext(limit, fill + [Snapshot(0)], Drop(1));
    RunKeepsInv(limit, fill + [Snapshot(0)] + [Drop(1)]);
    DroppedFirst(limit, full);
    RestoreRepeats(limit, Run(limit, fill + [Snapshot(0)] + [Drop(1)]), full.table);
  }
}
