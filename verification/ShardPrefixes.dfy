/**
 * Shard ids and their prefixes (service/shard/shard.go, service/archive_import_storage.go).
 *
 * A shard id is a 64-bit word whose lowest set bit ends its prefix; it covers the addresses
 * from the id minus that bit up to, but not including, the id plus that bit.  Main result: the
 * computed index range is exactly the prefixes whose shard is an ancestor, a descendant or
 * equal, for every split depth the 64 bits allow.
 */
module ShardPrefixes {
  const TWO_64: nat := 0x1_0000_0000_0000_0000

  type Word = n: nat | n < TWO_64

  type ShardId = n: nat | 0 < n < TWO_64 witness 1

  // Shifts.  The source's words never overflow here, so they are shifts of naturals.

  function Shl(x: nat, n: nat): (r: nat) {
    if n == 0 then x else 2 * Shl(x, n - 1)
  }

  function Shr(x: nat, n: nat): (r: nat) {
    if n == 0 then x else Shr(x / 2, n - 1)
  }

  lemma {:induction false} ShlShl(x: nat, a: nat, b: nat)
    ensures Shl(Shl(x, a), b) == Shl(x, a + b)
  {
    if b > 0 {
      ShlShl(x, a, b - 1);
    }
  }

  lemma {:induction false} ShlAdd(x: nat, y: nat, n: nat)
    ensures Shl(x + y, n) == Shl(x, n) + Shl(y, n)
  {
    if n > 0 {
      ShlAdd(x, y, n - 1);
    }
  }

  lemma {:induction false} ShlPositive(x: nat, n: nat)
    ensures Shl(x, n) >= x
  {
    if n > 0 {
      ShlPositive(x, n - 1);
    }
  }

  lemma {:induction false} ShlLe(x: nat, y: nat, n: nat)
    ensures Shl(x, n) <= Shl(y, n) <==> x <= y
  {
    if n > 0 {
      ShlLe(x, y, n - 1);
    }
  }

  /** Shifting right is dividing: the quotient is the multiple at or below. */
  lemma {:induction false} ShrIs(x: nat, n: nat, q: nat)
    ensures Shr(x, n) == q <==> Shl(q, n) <= x < Shl(q + 1, n)
  {
    if n > 0 {
      ShrIs(x / 2, n - 1, q);
    }
  }

  /** Comparing multiples with x is comparing with its quotient. */
  lemma FloorLe(x: nat, p: nat, n: nat, m: nat)
    requires Shl(p, n) <= x < Shl(p + 1, n)
    ensures Shl(m, n) <= x <==> m <= p
  {
    if m <= p {
      ShlLe(m, p, n);
    } else {
      ShlLe(p + 1, m, n);
    }
  }

  lemma ShlByte(x: nat)
    ensures Shl(x, 8) == 256 * x
  {
    assert Shl(x, 1) == 2 * x;
    assert Shl(x, 2) == 4 * x;
    assert Shl(x, 3) == 8 * x;
    assert Shl(x, 4) == 16 * x;
    assert Shl(x, 5) == 32 * x;
    assert Shl(x, 6) == 64 * x;
    assert Shl(x, 7) == 128 * x;
  }

  lemma {:induction false} Shl64()
    ensures Shl(1, 64) == TWO_64
  {
    forall k | 1 <= k <= 8
      ensures Shl(1, 8 * k) == 256 * Shl(1, 8 * k - 8)
    {
      ShlByte(Shl(1, 8 * k - 8));
      ShlShl(1, 8 * k - 8, 8);
    }
    assert Shl(1, 8 * 1) == 0x100;
    assert Shl(1, 8 * 2) == 0x1_0000;
    assert Shl(1, 8 * 3) == 0x100_0000;
    assert Shl(1, 8 * 4) == 0x1_0000_0000;
    assert Shl(1, 8 * 5) == 0x100_0000_0000;
    assert Shl(1, 8 * 6) == 0x1_0000_0000_0000;
    assert Shl(1, 8 * 7) == 0x100_0000_0000_0000;
    assert Shl(1, 8 * 8) == TWO_64;
  }

  // Shard ids.

  /** bits.TrailingZeros64 of a non-zero word. */
  function TrailingZeros(id: nat): (z: nat)
    requires id > 0
  {
    if id % 2 == 1 then 0 else 1 + TrailingZeros(id / 2)
  }

  function OddPart(id: nat): (odd: nat)
    requires id > 0
  {
    if id % 2 == 1 then id else OddPart(id / 2)
  }

  lemma {:induction false} Factored(id: nat)
    requires id > 0
    ensures id == Shl(OddPart(id), TrailingZeros(id)) && OddPart(id) % 2 == 1
  {
    if id % 2 == 0 {
      Factored(id / 2);
    }
  }

  lemma TrailingZerosBound(id: ShardId)
    ensures TrailingZeros(id) <= 63
  {
    var z := TrailingZeros(id);
    Factored(id);
    ShlLe(1, OddPart(id), z);
    if z > 63 {
      Shl64();
      ShlShl(1, z - 64, 64);
      ShlPositive(1, z - 64);
      ShlLe(1, Shl(1, z - 64), 64);
    }
  }

  /** The prefix bits before the tag bit: 63 minus the trailing zeros. */
  function PrefixLength(id: ShardId): (d: nat)
    ensures d <= 63
  {
    TrailingZerosBound(id);
    63 - TrailingZeros(id)
  }

  /** The tag bit. */
  function Tag(id: ShardId): (low: nat) {
    Shl(1, 63 - PrefixLength(id))
  }

  // The addresses a shard covers.

  function First(id: ShardId): (a: int) {
    id - Tag(id)
  }

  function Limit(id: ShardId): (a: nat) {
    id + Tag(id)
  }

  /** a is an ancestor of b, or b itself. */
  predicate Ancestor(a: ShardId, b: ShardId) {
    First(a) <= First(b) && Limit(b) <= Limit(a)
  }

  predicate Related(a: ShardId, b: ShardId) {
    Ancestor(a, b) || Ancestor(b, a)
  }

  predicate Covers(id: ShardId, address: int) {
    First(id) <= address < Limit(id)
  }

  /** The prefix of a shard as a number. */
  function Prefix(id: ShardId): (p: nat) {
    OddPart(id) / 2
  }

  function SpanBits(id: ShardId): (n: nat) {
    64 - PrefixLength(id)
  }

  /** A shard's addresses are one aligned block: from its prefix to the next one, shifted to its span. */
  lemma Aligned(id: ShardId)
    ensures First(id) == Shl(Prefix(id), SpanBits(id)) && Limit(id) == Shl(Prefix(id) + 1, SpanBits(id))
    ensures First(id) <= id < Limit(id) && Shr(id, SpanBits(id)) == Prefix(id)
  {
    Factored(id);
    AlignedBlock(Prefix(id), 63 - PrefixLength(id));
    ShrIs(id, SpanBits(id), Prefix(id));
  }

  lemma {:induction false} AlignedBlock(p: nat, z: nat)
    ensures Shl(2 * p + 1, z) - Shl(1, z) == Shl(p, z + 1) && Shl(2 * p + 1, z) + Shl(1, z) == Shl(p + 1, z + 1)
    ensures Shl(1, z) > 0
  {
    if z == 0 {
      assert Shl(p, 1) == 2 * Shl(p, 0) && Shl(p + 1, 1) == 2 * Shl(p + 1, 0);
    } else {
      AlignedBlock(p, z - 1);
    }
  }

  lemma PrefixBound(id: ShardId)
    ensures Prefix(id) < Shl(1, PrefixLength(id))
  {
    Aligned(id);
    Shl64();
    ShlShl(1, PrefixLength(id), SpanBits(id));
    ShlLe(Shl(1, PrefixLength(id)), Prefix(id), SpanBits(id));
  }

  /** Of two aligned blocks the larger holds the smaller, or they are apart. */
  lemma Nested(p: nat, i: nat, n: nat, e: nat)
    ensures (Shl(p, n + e) <= Shl(i, n) && Shl(i + 1, n) <= Shl(p + 1, n + e)) <==> Shl(p, e) <= i < Shl(p + 1, e)
    ensures !(Shl(p, e) <= i < Shl(p + 1, e)) ==> Shl(i + 1, n) <= Shl(p, n + e) || Shl(p + 1, n + e) <= Shl(i, n)
  {
    ShlShl(p, e, n);
    ShlShl(p + 1, e, n);
    ShlLe(Shl(p, e), i, n);
    ShlLe(i + 1, Shl(p + 1, e), n);
    ShlLe(i + 1, Shl(p, e), n);
    ShlLe(Shl(p + 1, e), i, n);
  }

  /** A shallower shard is related to a deeper one exactly when it is its ancestor. */
  lemma RelatedDown(a: ShardId, b: ShardId)
    requires PrefixLength(a) <= PrefixLength(b)
    ensures var e := PrefixLength(b) - PrefixLength(a);
            && (Related(a, b) <==> Shl(Prefix(a), e) <= Prefix(b) < Shl(Prefix(a) + 1, e))
            && (!Related(a, b) ==> Limit(b) <= First(a) || Limit(a) <= First(b))
  {
    Aligned(a);
    Aligned(b);
    Nested(Prefix(a), Prefix(b), SpanBits(b), PrefixLength(b) - PrefixLength(a));
    if Ancestor(b, a) {
      LargerHolds(a, b);
    }
  }

  lemma LargerHolds(a: ShardId, b: ShardId)
    requires PrefixLength(a) <= PrefixLength(b) && Ancestor(b, a)
    ensures Ancestor(a, b)
  {
    var e := PrefixLength(b) - PrefixLength(a);
    Aligned(a);
    Aligned(b);
    ShlAdd(Prefix(a), 1, SpanBits(a));
    ShlAdd(Prefix(b), 1, SpanBits(b));
    ShlShl(1, e, SpanBits(b));
    ShlPositive(1, e);
    ShlLe(1, Shl(1, e), SpanBits(b));
  }

  /** Related is the same as having an address in common. */
  lemma RelatedIsOverlap(a: ShardId, b: ShardId)
    ensures Related(a, b) <==> exists address :: Covers(a, address) && Covers(b, address)
  {
    Aligned(a);
    Aligned(b);
    if PrefixLength(a) <= PrefixLength(b) {
      RelatedDown(a, b);
    } else {
      RelatedDown(b, a);
    }
    if Ancestor(a, b) {
      assert Covers(a, b) && Covers(b, b);
    }
    if Ancestor(b, a) {
      assert Covers(a, a) && Covers(b, a);
    }
  }

  // Index ranges.

  /** archiveShardIDForPrefixIndex. */
  function PrefixShard(splitDepth: nat, idx: nat): (id: ShardId)
    requires splitDepth <= 62 && idx < Shl(1, splitDepth)
  {
    PrefixShardFits(splitDepth, idx);
    Shl(idx * 2 + 1, 63 - splitDepth)
  }

  lemma PrefixShardFits(splitDepth: nat, idx: nat)
    requires splitDepth <= 62 && idx < Shl(1, splitDepth)
    ensures 0 < Shl(idx * 2 + 1, 63 - splitDepth) < TWO_64
  {
    Shl64();
    ShlShl(1, splitDepth + 1, 63 - splitDepth);
    ShlLe(Shl(1, splitDepth + 1), idx * 2 + 1, 63 - splitDepth);
    ShlPositive(idx * 2 + 1, 63 - splitDepth);
  }

  lemma {:induction false} OddShifted(odd: nat, z: nat)
    requires odd % 2 == 1
    ensures Shl(odd, z) > 0 && TrailingZeros(Shl(odd, z)) == z && OddPart(Shl(odd, z)) == odd
  {
    if z > 0 {
      OddShifted(odd, z - 1);
    }
  }

  lemma PrefixShardIs(splitDepth: nat, idx: nat)
    requires splitDepth <= 62 && idx < Shl(1, splitDepth)
    ensures PrefixLength(PrefixShard(splitDepth, idx)) == splitDepth && Prefix(PrefixShard(splitDepth, idx)) == idx
  {
    OddShifted(idx * 2 + 1, 63 - splitDepth);
  }

  /** archiveShardPrefixIndexRange, for a valid id. */
  function IndexRange(splitDepth: nat, id: ShardId): (r: (nat, nat))
    requires splitDepth <= 62
  {
    var depth := PrefixLength(id);
    if depth == 0 then (0, Shl(1, splitDepth))
    else if depth >= splitDepth then
      var idx := Shr(id, 64 - splitDepth);
      (idx, idx + 1)
    else
      var prefix := Shr(id, 64 - depth);
      var start := Shl(prefix, splitDepth - depth);
      (start, start + Shl(1, splitDepth - depth))
  }

  /** The deeper shard's place among the prefixes. */
  lemma IndexOfDeeper(splitDepth: nat, id: ShardId, idx: nat)
    requires PrefixLength(id) >= splitDepth
    ensures var e := PrefixLength(id) - splitDepth;
            Shr(id, 64 - splitDepth) == idx <==> Shl(idx, e) <= Prefix(id) < Shl(idx + 1, e)
  {
    var (n, e) := (SpanBits(id), PrefixLength(id) - splitDepth);
    Aligned(id);
    ShrIs(id, n + e, idx);
    ShlShl(idx, e, n);
    ShlShl(idx + 1, e, n);
    FloorLe(id, Prefix(id), n, Shl(idx, e));
    FloorLe(id, Prefix(id), n, Shl(idx + 1, e));
  }

  lemma DeeperInBounds(splitDepth: nat, id: ShardId)
    requires splitDepth <= 62
    ensures Shr(id, 64 - splitDepth) < Shl(1, splitDepth)
  {
    var (n, idx) := (64 - splitDepth, Shr(id, 64 - splitDepth));
    Shl64();
    ShlShl(1, splitDepth, n);
    ShrIs(id, n, idx);
    ShlLe(Shl(1, splitDepth), idx, n);
  }

  lemma ShallowerInBounds(splitDepth: nat, id: ShardId)
    requires PrefixLength(id) <= splitDepth <= 62
    ensures var e := splitDepth - PrefixLength(id); Shl(Prefix(id), e) + Shl(1, e) <= Shl(1, splitDepth)
  {
    var e := splitDepth - PrefixLength(id);
    PrefixBound(id);
    ShlAdd(Prefix(id), 1, e);
    ShlShl(1, PrefixLength(id), e);
    ShlLe(Prefix(id) + 1, Shl(1, PrefixLength(id)), e);
  }

  /** The range is never empty and stays within the prefixes. */
  lemma RangeInBounds(splitDepth: nat, id: ShardId)
    requires splitDepth <= 62
    ensures 0 <= IndexRange(splitDepth, id).0 < IndexRange(splitDepth, id).1 <= Shl(1, splitDepth)
  {
    ShlPositive(1, splitDepth);
    if PrefixLength(id) >= splitDepth {
      DeeperInBounds(splitDepth, id);
    } else {
      Aligned(id);
      ShallowerInBounds(splitDepth, id);
      ShlPositive(1, splitDepth - PrefixLength(id));
    }
  }

  /** For every split depth and shard: the range is exactly the related prefixes. */
  lemma RangeIsExact(splitDepth: nat, id: ShardId, idx: nat)
    requires splitDepth <= 62 && idx < Shl(1, splitDepth)
    ensures IndexRange(splitDepth, id).0 <= idx < IndexRange(splitDepth, id).1 <==>
            Related(id, PrefixShard(splitDepth, idx))
  {
    RangeIs(splitDepth, id);
    if PrefixLength(id) == 0 || PrefixLength(id) < splitDepth {
      ShallowerIsExact(splitDepth, id, idx);
    } else {
      DeeperIsExact(splitDepth, id, idx);
    }
  }

  /** The three cases of the range are two: the root is a shallow shard like any other. */
  lemma RangeIs(splitDepth: nat, id: ShardId)
    requires splitDepth <= 62
    ensures var (depth, r) := (PrefixLength(id), IndexRange(splitDepth, id));
            if depth == 0 || depth < splitDepth
            then r == (Shl(Prefix(id), splitDepth - depth),
                       Shl(Prefix(id), splitDepth - depth) + Shl(1, splitDepth - depth))
            else r == (Shr(id, 64 - splitDepth), Shr(id, 64 - splitDepth) + 1)
  {
    if PrefixLength(id) == 0 {
      PrefixBound(id);
      ShlZero(splitDepth);
    } else {
      Aligned(id);
    }
  }

  lemma {:induction false} ShlZero(n: nat)
    ensures Shl(0, n) == 0
  {
    if n > 0 {
      ShlZero(n - 1);
    }
  }

  lemma ShallowerIsExact(splitDepth: nat, id: ShardId, idx: nat)
    requires PrefixLength(id) <= splitDepth <= 62 && idx < Shl(1, splitDepth)
    ensures var e := splitDepth - PrefixLength(id);
            Shl(Prefix(id), e) <= idx < Shl(Prefix(id), e) + Shl(1, e) <==> Related(id, PrefixShard(splitDepth, idx))
  {
    PrefixShardIs(splitDepth, idx);
    RelatedDown(id, PrefixShard(splitDepth, idx));
    ShlAdd(Prefix(id), 1, splitDepth - PrefixLength(id));
  }

  lemma DeeperIsExact(splitDepth: nat, id: ShardId, idx: nat)
    requires splitDepth <= 62 && PrefixLength(id) >= splitDepth && idx < Shl(1, splitDepth)
    ensures Shr(id, 64 - splitDepth) == idx <==> Related(id, PrefixShard(splitDepth, idx))
  {
    PrefixShardIs(splitDepth, idx);
    RelatedDown(PrefixShard(splitDepth, idx), id);
    IndexOfDeeper(splitDepth, id, idx);
  }

  /** shard.Intersects: equal bits above the shallower tag. */
  predicate Intersects(left: ShardId, right: ShardId) {
    var depth := if PrefixLength(right) < PrefixLength(left) then PrefixLength(right) else PrefixLength(left);
    depth == 0 || Shr(left, 64 - depth) == Shr(right, 64 - depth)
  }

  lemma IntersectsDown(a: ShardId, b: ShardId)
    requires PrefixLength(a) <= PrefixLength(b)
    ensures Related(a, b) <==> PrefixLength(a) == 0 || Shr(a, 64 - PrefixLength(a)) == Shr(b, 64 - PrefixLength(a))
  {
    RelatedDown(a, b);
    if PrefixLength(a) == 0 {
      RootHoldsAll(a, b);
    } else {
      Aligned(a);
      IndexOfDeeper(PrefixLength(a), b, Prefix(a));
    }
  }

  lemma RootHoldsAll(a: ShardId, b: ShardId)
    requires PrefixLength(a) == 0
    ensures Shl(Prefix(a), PrefixLength(b)) <= Prefix(b) < Shl(Prefix(a) + 1, PrefixLength(b))
  {
    PrefixBound(a);
    PrefixBound(b);
    ShlZero(PrefixLength(b));
  }

  /** The bit comparison decides kinship. */
  lemma IntersectsIsRelated(a: ShardId, b: ShardId)
    ensures Intersects(a, b) <==> Related(a, b)
  {
    if PrefixLength(a) <= PrefixLength(b) {
      IntersectsDown(a, b);
    } else {
      IntersectsDown(b, a);
    }
  }
}
