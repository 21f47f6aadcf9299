/**
 * Archive shard import plans (service/archive_import_storage.go).  Main result: the plans list,
 * prefix by prefix, exactly the wanted blocks that overlap it, each root hash once, with no empty plan.
 */
module ArchivePlans {
  import opened Common
  import opened ShardPrefixes

  datatype Block = Block(workchain: int, shard: Word, seqno: nat, rootHash: nat, fileHash: nat)

  datatype Plan = Plan(shard: ShardId, splitDepth: nat, needed: seq<Block>)

  type Starts = map<(int, nat), Block>

  /** The start block of each shard; a later one replaces an earlier one. */
  function StartsOf(blocks: seq<Block>): (r: Starts) {
    if blocks == [] then map[]
    else
      var last := blocks[|blocks| - 1];
      StartsOf(blocks[..|blocks| - 1])[(last.workchain, last.shard) := last]
  }

  /** A basechain block past the zerostate that the window does not start with and that is still missing. */
  predicate Wanted(starts: Starts, missing: Block -> bool, b: Block) {
    && b.seqno != 0
    && b.workchain == 0
    && !((b.workchain, b.shard) in starts && starts[(b.workchain, b.shard)] == b)
    && missing(b)
  }

  predicate Overlaps(splitDepth: nat, b: Block, idx: nat)
    requires splitDepth <= 62
  {
    b.shard > 0 && IndexRange(splitDepth, b.shard).0 <= idx < IndexRange(splitDepth, b.shard).1
  }

  /** Blocks are told apart by their root hash. */
  function Keys(blocks: seq<Block>): (r: set<nat>) {
    set b | b in blocks :: b.rootHash
  }

  /** What one prefix needs: the wanted blocks that overlap it, in order of first occurrence. */
  function Needed(splitDepth: nat, starts: Starts, missing: Block -> bool, blocks: seq<Block>,
                  idx: nat): (r: seq<Block>)
    requires splitDepth <= 62
  {
    if blocks == [] then []
    else
      var (init, last) := (blocks[..|blocks| - 1], blocks[|blocks| - 1]);
      var before := Needed(splitDepth, starts, missing, init, idx);
      if Wanted(starts, missing, last) && Overlaps(splitDepth, last, idx) && last.rootHash !in Keys(before)
        then before + [last] else before
  }

  /** The plans of the first n prefixes that need anything. */
  function PlansUpTo(splitDepth: nat, starts: Starts, missing: Block -> bool, blocks: seq<Block>,
                     n: nat): (r: seq<Plan>)
    requires splitDepth <= 62 && n <= Shl(1, splitDepth)
  {
    if n == 0 then []
    else
      var needed := Needed(splitDepth, starts, missing, blocks, n - 1);
      PlansUpTo(splitDepth, starts, missing, blocks, n - 1)
      + if needed != [] then [Plan(PrefixShard(splitDepth, n - 1), splitDepth, needed)] else []
  }

  function Concat(parts: seq<seq<Block>>): (r: seq<Block>) {
    if parts == [] then [] else Concat(parts[..|parts| - 1]) + parts[|parts| - 1]
  }

  ghost predicate Bad(starts: Starts, missing: Block -> bool, blocks: seq<Block>) {
    exists b :: b in blocks && Wanted(starts, missing, b) && b.shard == 0
  }

  method StartMap(blocks: seq<Block>) returns (r: Starts)
    ensures r == StartsOf(blocks)
  {
    r := map[];
    for i := 0 to |blocks|
      invariant r == StartsOf(blocks[..i])
    {
      assert blocks[..i + 1][..i] == blocks[..i];
      r := r[(blocks[i].workchain, blocks[i].shard) := blocks[i]];
    }
    assert blocks[..|blocks|] == blocks;
  }

  function WithBlock(needed: seq<Block>, b: Block, overlaps: bool): (r: seq<Block>) {
    if overlaps && b.rootHash !in Keys(needed) then needed + [b] else needed
  }

  ghost predicate SeenOk(needed: seq<Block>, seen: set<nat>) {
    seen == Keys(needed)
  }

  lemma KeysOne(blocks: seq<Block>, b: Block)
    ensures Keys(blocks + [b]) == Keys(blocks) + {b.rootHash}
  {
    assert b in blocks + [b];
    forall key | key in Keys(blocks) + {b.rootHash}
      ensures key in Keys(blocks + [b])
    {
      if key != b.rootHash {
        var x :| x in blocks && x.rootHash == key;
        assert x in blocks + [b];
      }
    }
  }

  /** Adds a block to every prefix of a range that has not seen it. */
  method AddToRange(plans: array<seq<Block>>, seen: array<set<nat>>, start: nat, end: nat, b: Block)
    requires plans.Length == seen.Length && start <= end <= plans.Length
    requires forall i :: 0 <= i < plans.Length ==> SeenOk(plans[i], seen[i])
    modifies plans, seen
    ensures forall i :: 0 <= i < plans.Length ==> SeenOk(plans[i], seen[i])
    ensures forall i :: 0 <= i < plans.Length ==> plans[i] == WithBlock(old(plans[i]), b, start <= i < end)
  {
    for idx := start to end
      invariant forall i :: 0 <= i < plans.Length ==> SeenOk(plans[i], seen[i])
      invariant forall i :: 0 <= i < plans.Length ==> plans[i] == WithBlock(old(plans[i]), b, start <= i < idx)
    {
      if b.rootHash !in seen[idx] {
        KeysOne(plans[idx], b);
        seen[idx] := seen[idx] + {b.rootHash};
        plans[idx] := plans[idx] + [b];
      }
    }
  }

  ghost predicate Filled(plans: array<seq<Block>>, splitDepth: nat, starts: Starts, missing: Block -> bool,
                         blocks: seq<Block>)
    requires splitDepth <= 62
    reads plans
  {
    forall i: nat :: i < plans.Length ==> plans[i] == Needed(splitDepth, starts, missing, blocks, i)
  }

  lemma NeededOne(splitDepth: nat, starts: Starts, missing: Block -> bool, blocks: seq<Block>, b: Block, idx: nat)
    requires splitDepth <= 62
    ensures Needed(splitDepth, starts, missing, blocks + [b], idx)
            == WithBlock(Needed(splitDepth, starts, missing, blocks, idx), b, Wanted(starts, missing, b)
                         && Overlaps(splitDepth, b, idx))
  {
    assert (blocks + [b])[..|blocks|] == blocks;
  }

  /** One block of the window: false when a wanted block's shard id is invalid. */
  method PlaceBlock(plans: array<seq<Block>>, seen: array<set<nat>>, splitDepth: nat, starts: Starts,
                    missing: Block -> bool, b: Block, ghost done: seq<Block>)
    returns (ok: bool)
    requires splitDepth <= 62 && plans.Length == seen.Length == Shl(1, splitDepth)
    requires forall i :: 0 <= i < plans.Length ==> SeenOk(plans[i], seen[i])
    requires Filled(plans, splitDepth, starts, missing, done)
    modifies plans, seen
    ensures forall i :: 0 <= i < plans.Length ==> SeenOk(plans[i], seen[i])
    ensures ok == !(Wanted(starts, missing, b) && b.shard == 0)
    ensures ok ==> Filled(plans, splitDepth, starts, missing, done + [b])
  {
    forall i: nat | i < plans.Length
      ensures Needed(splitDepth, starts, missing, done + [b], i)
              == WithBlock(Needed(splitDepth, starts, missing, done, i), b, Wanted(starts, missing, b)
                           && Overlaps(splitDepth, b, i))
    {
      NeededOne(splitDepth, starts, missing, done, b, i);
    }
    ok := true;
    if Wanted(starts, missing, b) {
      if b.shard == 0 {
        return false;
      }
      var (start, end) := IndexRange(splitDepth, b.shard);
      RangeInBounds(splitDepth, b.shard);
      AddToRange(plans, seen, start, end, b);
    }
  }

  /** The nested loops over the window's states: false on the first invalid shard id of a wanted block. */
  method Fill(plans: array<seq<Block>>, seen: array<set<nat>>, splitDepth: nat, starts: Starts, missing: Block -> bool,
              stateBlocks: seq<seq<Block>>)
    returns (ok: bool)
    requires splitDepth <= 62 && plans.Length == seen.Length == Shl(1, splitDepth)
    requires forall i :: 0 <= i < plans.Length ==> plans[i] == [] && seen[i] == {}
    modifies plans, seen
    ensures ok <==> !Bad(starts, missing, Concat(stateBlocks))
    ensures ok ==> Filled(plans, splitDepth, starts, missing, Concat(stateBlocks))
  {
    ok := true;
    for i := 0 to |stateBlocks|
      invariant forall i :: 0 <= i < plans.Length ==> SeenOk(plans[i], seen[i])
      invariant Filled(plans, splitDepth, starts, missing, Concat(stateBlocks[..i]))
                && !Bad(starts, missing, Concat(stateBlocks[..i]))
    {
      ghost var before := Concat(stateBlocks[..i]);
      var blocks := stateBlocks[i];
      assert blocks[..0] == [] && before + [] == before;
      for j := 0 to |blocks|
        invariant forall i :: 0 <= i < plans.Length ==> SeenOk(plans[i], seen[i])
        invariant Filled(plans, splitDepth, starts, missing, before + blocks[..j])
                  && !Bad(starts, missing, before + blocks[..j])
      {
        assert before + blocks[..j + 1] == (before + blocks[..j]) + [blocks[j]];
        ok := PlaceBlock(plans, seen, splitDepth, starts, missing, blocks[j], before + blocks[..j]);
        if !ok {
          InConcat(stateBlocks, i, j);
          return;
        }
      }
      assert blocks[..|blocks|] == blocks;
      assert stateBlocks[..i + 1][..i] == stateBlocks[..i];
    }
    assert stateBlocks[..|stateBlocks|] == stateBlocks;
    ok := true;
  }

  lemma {:induction false} InConcat(parts: seq<seq<Block>>, i: nat, j: nat)
    requires i < |parts| && j < |parts[i]|
    ensures parts[i][j] in Concat(parts)
  {
    if i < |parts| - 1 {
      InConcat(parts[..|parts| - 1], i, j);
    }
  }

  /** archiveShardImportPlansForBlockStatesMatching. */
  method ImportPlans(splitDepth: nat, startBlocks: seq<Block>, stateBlocks: seq<seq<Block>>, missing: Block -> bool)
    returns (r: Option<seq<Plan>>)
    requires splitDepth <= 62
    ensures r.None? <==> Bad(StartsOf(startBlocks), missing, Concat(stateBlocks))
    ensures r.Some? ==> r.value == PlansUpTo(splitDepth, StartsOf(startBlocks), missing, Concat(stateBlocks),
                                             Shl(1, splitDepth))
  {
    var starts := StartMap(startBlocks);
    var count := Shl(1, splitDepth);
    var plansByPrefix := new seq<Block>[count](_ => []);
    var seenByPrefix := new set<nat>[count](_ => {});
    var ok := Fill(plansByPrefix, seenByPrefix, splitDepth, starts, missing, stateBlocks);
    if !ok {
      return None;
    }
    var plans: seq<Plan> := [];
    for i := 0 to count
      invariant plans == PlansUpTo(splitDepth, starts, missing, Concat(stateBlocks), i)
    {
      if |plansByPrefix[i]| > 0 {
        plans := plans + [Plan(PrefixShard(splitDepth, i), splitDepth, plansByPrefix[i])];
      }
    }
    return Some(plans);
  }

  // What the plans mean.

  /** A wanted block whose shard is an ancestor or a descendant of the prefix, or the prefix itself. */
  ghost predicate Candidate(splitDepth: nat, starts: Starts, missing: Block -> bool, idx: nat, b: Block)
    requires splitDepth <= 62 && idx < Shl(1, splitDepth)
  {
    Wanted(starts, missing, b) && b.shard > 0 && Related(b.shard, PrefixShard(splitDepth, idx))
  }

  /** Some candidate of the blocks has the root hash. */
  ghost predicate Listed(splitDepth: nat, starts: Starts, missing: Block -> bool, blocks: seq<Block>, idx: nat,
                         key: nat)
    requires splitDepth <= 62 && idx < Shl(1, splitDepth)
  {
    exists i :: 0 <= i < |blocks| && Candidate(splitDepth, starts, missing, idx, blocks[i]) && blocks[i].rootHash == key
  }

  /** The block is a candidate, and no candidate before it has its root hash. */
  ghost predicate First(splitDepth: nat, starts: Starts, missing: Block -> bool, blocks: seq<Block>, idx: nat, b: Block)
    requires splitDepth <= 62 && idx < Shl(1, splitDepth)
  {
    && Candidate(splitDepth, starts, missing, idx, b)
    && exists i :: 0 <= i < |blocks| && blocks[i] == b
        && !Listed(splitDepth, starts, missing, blocks[..i], idx, b.rootHash)
  }

  lemma ListedOne(splitDepth: nat, starts: Starts, missing: Block -> bool, blocks: seq<Block>, last: Block, idx: nat,
                  key: nat)
    requires splitDepth <= 62 && idx < Shl(1, splitDepth)
    ensures Listed(splitDepth, starts, missing, blocks + [last], idx, key) <==>
            || Listed(splitDepth, starts, missing, blocks, idx, key)
            || (Candidate(splitDepth, starts, missing, idx, last) && last.rootHash == key)
  {
    var all := blocks + [last];
    assert forall i :: 0 <= i < |blocks| ==> all[i] == blocks[i];
    assert all[|blocks|] == last;
  }

  lemma FirstOne(splitDepth: nat, starts: Starts, missing: Block -> bool, blocks: seq<Block>, last: Block, idx: nat,
                 b: Block)
    requires splitDepth <= 62 && idx < Shl(1, splitDepth)
    ensures First(splitDepth, starts, missing, blocks + [last], idx, b) <==>
            || First(splitDepth, starts, missing, blocks, idx, b)
            || (&& b == last && Candidate(splitDepth, starts, missing, idx, b)
                && !Listed(splitDepth, starts, missing, blocks, idx, b.rootHash))
  {
    var all := blocks + [last];
    assert forall i :: 0 <= i < |blocks| ==> all[i] == blocks[i] && all[..i] == blocks[..i];
    assert all[|blocks|] == last && all[..|blocks|] == blocks;
  }

  lemma OverlapIsRelated(splitDepth: nat, starts: Starts, missing: Block -> bool, b: Block, idx: nat)
    requires splitDepth <= 62 && idx < Shl(1, splitDepth)
    ensures Wanted(starts, missing, b) && Overlaps(splitDepth, b, idx) <==>
            Candidate(splitDepth, starts, missing, idx, b)
  {
    if b.shard > 0 {
      RangeIsExact(splitDepth, b.shard, idx);
    }
  }

  lemma {:induction false} NeededKeys(splitDepth: nat, starts: Starts, missing: Block -> bool, blocks: seq<Block>,
                                      idx: nat, key: nat)
    requires splitDepth <= 62 && idx < Shl(1, splitDepth)
    ensures key in Keys(Needed(splitDepth, starts, missing, blocks, idx)) <==>
            Listed(splitDepth, starts, missing, blocks, idx, key)
  {
    if blocks != [] {
      var (init, last) := (blocks[..|blocks| - 1], blocks[|blocks| - 1]);
      assert blocks == init + [last];
      NeededKeys(splitDepth, starts, missing, init, idx, key);
      OverlapIsRelated(splitDepth, starts, missing, last, idx);
      ListedOne(splitDepth, starts, missing, init, last, idx, key);
      KeysOne(Needed(splitDepth, starts, missing, init, idx), last);
    }
  }

  /** A prefix needs exactly the wanted blocks related to it, the first of each root hash. */
  lemma {:induction false} NeededIsRelated(splitDepth: nat, starts: Starts, missing: Block -> bool, blocks: seq<Block>,
                                           idx: nat, b: Block)
    requires splitDepth <= 62 && idx < Shl(1, splitDepth)
    ensures b in Needed(splitDepth, starts, missing, blocks, idx) <==>
            First(splitDepth, starts, missing, blocks, idx, b)
  {
    if blocks != [] {
      var (init, last) := (blocks[..|blocks| - 1], blocks[|blocks| - 1]);
      assert blocks == init + [last];
      NeededIsRelated(splitDepth, starts, missing, init, idx, b);
      NeededKeys(splitDepth, starts, missing, init, idx, last.rootHash);
      OverlapIsRelated(splitDepth, starts, missing, last, idx);
      FirstOne(splitDepth, starts, missing, init, last, idx, b);
    }
  }

  /** No two blocks of the window share a root hash. */
  ghost predicate KeysTell(blocks: seq<Block>) {
    forall i, j :: 0 <= i < j < |blocks| && blocks[i].rootHash == blocks[j].rootHash ==> blocks[i] == blocks[j]
  }

  lemma FirstIsAny(splitDepth: nat, starts: Starts, missing: Block -> bool, blocks: seq<Block>, idx: nat, b: Block)
    requires splitDepth <= 62 && idx < Shl(1, splitDepth) && KeysTell(blocks)
    ensures First(splitDepth, starts, missing, blocks, idx, b) <==>
              b in blocks && Candidate(splitDepth, starts, missing, idx, b)
  {
    if b in blocks && Candidate(splitDepth, starts, missing, idx, b) {
      var i := FirstAt(blocks, b);
      FirstAtBound(blocks, b);
      assert forall j :: 0 <= j < i ==> blocks[..i][j] == blocks[j] && blocks[j] in blocks[..i];
    }
  }

  predicate NoRepeats(blocks: seq<Block>) {
    forall i, j :: 0 <= i < j < |blocks| ==> blocks[i].rootHash != blocks[j].rootHash
  }

  lemma {:induction false} NeededHasNoRepeats(splitDepth: nat, starts: Starts, missing: Block -> bool,
                                              blocks: seq<Block>, idx: nat)
    requires splitDepth <= 62
    ensures NoRepeats(Needed(splitDepth, starts, missing, blocks, idx))
  {
    if blocks != [] {
      NeededHasNoRepeats(splitDepth, starts, missing, blocks[..|blocks| - 1], idx);
    }
  }

  /** Where a block first occurs in the window. */
  function FirstAt(blocks: seq<Block>, b: Block): (i: nat)
    requires b in blocks
  {
    if b in blocks[..|blocks| - 1] then FirstAt(blocks[..|blocks| - 1], b) else |blocks| - 1
  }

  lemma {:induction false} FirstAtBound(blocks: seq<Block>, b: Block)
    requires b in blocks
    ensures FirstAt(blocks, b) < |blocks| && blocks[FirstAt(blocks, b)] == b && b !in blocks[..FirstAt(blocks, b)]
  {
    var init := blocks[..|blocks| - 1];
    if b in init {
      FirstAtBound(init, b);
      assert blocks[..FirstAt(blocks, b)] == init[..FirstAt(init, b)];
    } else {
      assert blocks == init + [blocks[|blocks| - 1]];
    }
  }

  /** A prefix lists its blocks in the order in which the window first names them. */
  lemma {:induction false} NeededInOrder(splitDepth: nat, starts: Starts, missing: Block -> bool, blocks: seq<Block>,
                                         idx: nat, i: nat, j: nat)
    requires splitDepth <= 62 && idx < Shl(1, splitDepth) && i < j < |Needed(splitDepth, starts, missing, blocks, idx)|
    ensures var needed := Needed(splitDepth, starts, missing, blocks, idx);
            needed[i] in blocks && needed[j] in blocks && FirstAt(blocks, needed[i]) < FirstAt(blocks, needed[j])
  {
    var (init, last) := (blocks[..|blocks| - 1], blocks[|blocks| - 1]);
    var (before, needed) := (Needed(splitDepth, starts, missing, init, idx),
                             Needed(splitDepth, starts, missing, blocks, idx));
    assert blocks == init + [last];
    NeededIsRelated(splitDepth, starts, missing, init, idx, needed[i]);
    NeededIsRelated(splitDepth, starts, missing, init, idx, needed[j]);
    if j < |before| {
      NeededInOrder(splitDepth, starts, missing, init, idx, i, j);
    } else {
      assert needed[i] == before[i] && needed[i] in init;
      FirstAtBound(init, needed[i]);
      NeededKeys(splitDepth, starts, missing, init, idx, last.rootHash);
      assert last !in init by {
        if last in init {
          var k :| 0 <= k < |init| && init[k] == last;
          NeededIsRelated(splitDepth, starts, missing, blocks, idx, last);
        }
      }
    }
  }

  ghost predicate IsPlanOf(splitDepth: nat, starts: Starts, missing: Block -> bool, blocks: seq<Block>, plan: Plan,
                           idx: nat)
    requires splitDepth <= 62
  {
    && idx < Shl(1, splitDepth)
    && plan.needed == Needed(splitDepth, starts, missing, blocks, idx) != []
    && plan == Plan(PrefixShard(splitDepth, idx), splitDepth, plan.needed)
  }

  /** The plans are those of the prefixes that need something, one each. */
  lemma {:induction false} PlansOfPrefixes(splitDepth: nat, starts: Starts, missing: Block -> bool, blocks: seq<Block>,
                                           n: nat, plan: Plan)
    requires splitDepth <= 62 && n <= Shl(1, splitDepth)
    ensures plan in PlansUpTo(splitDepth, starts, missing, blocks, n) <==>
            exists idx: nat :: idx < n && IsPlanOf(splitDepth, starts, missing, blocks, plan, idx)
  {
    if n > 0 {
      PlansOfPrefixes(splitDepth, starts, missing, blocks, n - 1, plan);
      var (init, all) := (PlansUpTo(splitDepth, starts, missing, blocks, n - 1),
                          PlansUpTo(splitDepth, starts, missing, blocks, n));
      if plan in all && plan !in init {
        assert IsPlanOf(splitDepth, starts, missing, blocks, plan, n - 1);
      }
      if idx: nat :| idx < n && IsPlanOf(splitDepth, starts, missing, blocks, plan, idx) {
        if idx == n - 1 {
          assert all == init + [plan];
        }
      }
    }
  }

  /** Shard ids of later plans are higher, so no prefix has two plans. */
  lemma {:induction false} PlansAscend(splitDepth: nat, starts: Starts, missing: Block -> bool, blocks: seq<Block>,
                                       n: nat, i: nat, j: nat)
    requires splitDepth <= 62 && n <= Shl(1, splitDepth)
    requires i < j < |PlansUpTo(splitDepth, starts, missing, blocks, n)|
    ensures var plans := PlansUpTo(splitDepth, starts, missing, blocks, n); plans[i].shard < plans[j].shard
  {
    var (init, all) := (PlansUpTo(splitDepth, starts, missing, blocks, n - 1),
                        PlansUpTo(splitDepth, starts, missing, blocks, n));
    if j < |init| {
      PlansAscend(splitDepth, starts, missing, blocks, n - 1, i, j);
    } else {
      assert all[i] == init[i] && init[i] in init;
      PlansOfPrefixes(splitDepth, starts, missing, blocks, n - 1, init[i]);
      var idx: nat :| idx < n - 1 && IsPlanOf(splitDepth, starts, missing, blocks, init[i], idx);
      ShardsAscend(splitDepth, idx, n - 1);
    }
  }

  lemma ShardsAscend(splitDepth: nat, a: nat, b: nat)
    requires splitDepth <= 62 && a < b < Shl(1, splitDepth)
    ensures PrefixShard(splitDepth, a) < PrefixShard(splitDepth, b)
  {
    ShlLe(b * 2 + 1, a * 2 + 1, 63 - splitDepth);
  }

  /** What a plan lists: the first block of each root hash that is wanted and related to its shard. */
  ghost predicate PlanCovers(splitDepth: nat, starts: Starts, missing: Block -> bool, blocks: seq<Block>, plan: Plan,
                             b: Block)
    requires splitDepth <= 62
  {
    && plan.needed != [] && NoRepeats(plan.needed)
    && (b in plan.needed ==> b in blocks && Wanted(starts, missing, b) && b.shard > 0 && Related(b.shard, plan.shard))
    && (b in blocks && Wanted(starts, missing, b) && b.shard > 0 && Related(b.shard, plan.shard) ==>
          b.rootHash in Keys(plan.needed) && (KeysTell(blocks) ==> b in plan.needed))
  }

  lemma NeededCovers(splitDepth: nat, starts: Starts, missing: Block -> bool, blocks: seq<Block>, idx: nat, plan: Plan,
                     b: Block)
    requires splitDepth <= 62 && IsPlanOf(splitDepth, starts, missing, blocks, plan, idx)
    ensures PlanCovers(splitDepth, starts, missing, blocks, plan, b)
  {
    NeededIsRelated(splitDepth, starts, missing, blocks, idx, b);
    NeededKeys(splitDepth, starts, missing, blocks, idx, b.rootHash);
    NeededHasNoRepeats(splitDepth, starts, missing, blocks, idx);
    if KeysTell(blocks) {
      FirstIsAny(splitDepth, starts, missing, blocks, idx, b);
    }
  }

  /**
   * Coverage: every plan is for some wanted block and lists only wanted blocks related to its shard, no root hash
   * twice, and each of them by its root hash; every wanted block with a valid shard id is listed so in some plan.
   * Where no two blocks of the window share a root hash, the plans list the blocks themselves.
   */
  lemma PlansCover(splitDepth: nat, starts: Starts, missing: Block -> bool, blocks: seq<Block>, b: Block)
    requires splitDepth <= 62
    ensures var plans := PlansUpTo(splitDepth, starts, missing, blocks, Shl(1, splitDepth));
            && (forall plan :: plan in plans ==> PlanCovers(splitDepth, starts, missing, blocks, plan, b))
            && (b in blocks && Wanted(starts, missing, b) && b.shard > 0 ==>
                  exists plan :: plan in plans && b.rootHash in Keys(plan.needed)
                      && (KeysTell(blocks) ==> b in plan.needed))
  {
    var plans := PlansUpTo(splitDepth, starts, missing, blocks, Shl(1, splitDepth));
    forall plan | plan in plans
      ensures PlanCovers(splitDepth, starts, missing, blocks, plan, b)
    {
      PlansOfPrefixes(splitDepth, starts, missing, blocks, Shl(1, splitDepth), plan);
      var idx: nat :| idx < Shl(1, splitDepth) && IsPlanOf(splitDepth, starts, missing, blocks, plan, idx);
      NeededCovers(splitDepth, starts, missing, blocks, idx, plan, b);
    }
    if b in blocks && Wanted(starts, missing, b) && b.shard > 0 {
      SomePlanHas(splitDepth, starts, missing, blocks, b);
    }
  }

  lemma SomePlanHas(splitDepth: nat, starts: Starts, missing: Block -> bool, blocks: seq<Block>, b: Block)
    requires splitDepth <= 62 && b in blocks && Wanted(starts, missing, b) && b.shard > 0
    ensures exists plan :: && plan in PlansUpTo(splitDepth, starts, missing, blocks, Shl(1, splitDepth))
                           && b.rootHash in Keys(plan.needed) && (KeysTell(blocks) ==> b in plan.needed)
  {
    RangeInBounds(splitDepth, b.shard);
    var idx := IndexRange(splitDepth, b.shard).0;
    OverlapIsRelated(splitDepth, starts, missing, b, idx);
    NeededKeys(splitDepth, starts, missing, blocks, idx, b.rootHash);
    var plan := Plan(PrefixShard(splitDepth, idx), splitDepth, Needed(splitDepth, starts, missing, blocks, idx));
    assert IsPlanOf(splitDepth, starts, missing, blocks, plan, idx);
    NeededCovers(splitDepth, starts, missing, blocks, idx, plan, b);
    PlansOfPrefixes(splitDepth, starts, missing, blocks, Shl(1, splitDepth), plan);
  }

  /** The window starts with the block: it is the last start block of its shard. */
  ghost predicate StartsWith(startBlocks: seq<Block>, b: Block) {
    exists i :: StartsAt(startBlocks, b, i)
  }

  ghost predicate StartsAt(startBlocks: seq<Block>, b: Block, i: int) {
    && 0 <= i < |startBlocks| && startBlocks[i] == b
    && forall j :: i < j < |startBlocks| ==>
         startBlocks[j].workchain != b.workchain || startBlocks[j].shard != b.shard
  }

  lemma {:induction false} StartsAreLast(startBlocks: seq<Block>, b: Block)
    ensures StartsWith(startBlocks, b) <==>
            var starts := StartsOf(startBlocks);
            (b.workchain, b.shard) in starts && starts[(b.workchain, b.shard)] == b
  {
    if startBlocks != [] {
      var (init, last) := (startBlocks[..|startBlocks| - 1], startBlocks[|startBlocks| - 1]);
      StartsAreLast(init, b);
      if last.workchain == b.workchain && last.shard == b.shard {
        assert last == b ==> StartsAt(startBlocks, b, |init|);
        assert forall i :: StartsAt(startBlocks, b, i) ==> i == |init|;
      } else {
        forall i
          ensures StartsAt(startBlocks, b, i) <==> StartsAt(init, b, i)
        {
          StartsStep(startBlocks, b, i);
        }
      }
    }
  }

  lemma StartsStep(startBlocks: seq<Block>, b: Block, i: int)
    requires startBlocks != []
    requires var last := startBlocks[|startBlocks| - 1]; last.workchain != b.workchain || last.shard != b.shard
    ensures StartsAt(startBlocks, b, i) <==> StartsAt(startBlocks[..|startBlocks| - 1], b, i)
  {
  }

  /** What is wanted: basechain blocks past the zerostate that are missing and that the window does not start with. */
  lemma WantedExactly(startBlocks: seq<Block>, missing: Block -> bool, b: Block)
    ensures Wanted(StartsOf(startBlocks), missing, b) <==>
            b.workchain == 0 && b.seqno > 0 && missing(b) && !StartsWith(startBlocks, b)
  {
    StartsAreLast(startBlocks, b);
  }
}
