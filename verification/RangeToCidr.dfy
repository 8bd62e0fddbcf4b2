/** Turning an inclusive IPv4 range into CIDR blocks. */
module RangeToCidr {
  import opened Powers
  import opened Cidr

  datatype RangeResult = Blocks(prefixes: seq<Prefix>) | StartsAfterEnd

  // The largest exponent reachable by doubling while aligned and inside the range.
  function Grow(start: nat, remaining: nat, k: nat): (r: nat)
    decreases 32 - k
  {
    if k < 32 && Pow2(k + 1) <= remaining && Aligned(start, k + 1) then Grow(start, remaining, k + 1) else k
  }

  lemma {:induction false} GrowIsLargest(start: nat, remaining: nat, k: nat)
    requires k <= 32 && Pow2(k) <= remaining && Aligned(start, k)
    ensures var r := Grow(start, remaining, k);
            && k <= r <= 32 && Pow2(r) <= remaining && Aligned(start, r)
            && forall j: nat :: r < j <= 32 ==> !(Pow2(j) <= remaining && Aligned(start, j))
    decreases 32 - k
  {
    if k < 32 && Pow2(k + 1) <= remaining && Aligned(start, k + 1) {
      GrowIsLargest(start, remaining, k + 1);
    } else {
      forall j: nat | k < j <= 32
        ensures !(Pow2(j) <= remaining && Aligned(start, j))
      {
        if Pow2(j) <= remaining && Aligned(start, j) {
          Pow2Monotone(k + 1, j);
          AlignedDown(start, k + 1, j);
        }
      }
    }
  }

  function FirstExponent(start: nat, end: nat): (k: nat)
    requires start <= end
  {
    Grow(start, end - start + 1, 0)
  }

  lemma FirstExponentFits(start: nat, end: nat)
    requires start <= end
    ensures var k := FirstExponent(start, end);
            && k <= 32 && start + Pow2(k) <= end + 1 && Aligned(start, k)
            && forall j: nat :: k < j <= 32 ==> !(Pow2(j) <= end - start + 1 && Aligned(start, j))
  {
    AlignedToOne(start);
    GrowIsLargest(start, end - start + 1, 0);
  }

  // The greedy decomposition of [start, end].
  function RangeBlocks(start: nat, end: nat): (r: seq<Prefix>)
    requires end < SPACE
    decreases end + 1 - start
  {
    if start > end then []
    else
      var k := FirstExponent(start, end);
      assert k <= 32 by { FirstExponentFits(start, end); }
      [Prefix(start, 32 - k)] + RangeBlocks(start + Pow2(k), end)
  }

  lemma FirstBlock(start: nat, end: nat)
    requires start <= end < SPACE
    ensures var k := FirstExponent(start, end);
            && k <= 32
            && Masked(Prefix(start, 32 - k)) && AddressCount(Prefix(start, 32 - k)) == Pow2(k)
            && start + Pow2(k) <= end + 1
            && RangeBlocks(start, end) == [Prefix(start, 32 - k)] + RangeBlocks(start + Pow2(k), end)
            && RangeBlocks(start, end)[1..] == RangeBlocks(start + Pow2(k), end)
            && |RangeBlocks(start, end)| == 1 + |RangeBlocks(start + Pow2(k), end)|
  {
    hide Aligned, Pow2, FirstExponent;
    FirstExponentFits(start, end);
  }

  // Consecutive blocks filling [lo, hi) without gap or overlap.
  ghost predicate Tiles(ps: seq<Prefix>, lo: nat, hi: nat)
    requires AllMasked(ps)
  {
    if ps == [] then lo == hi
    else ps[0].base == lo && Tiles(ps[1..], lo + AddressCount(ps[0]), hi)
  }

  lemma {:induction false} TilesCover(ps: seq<Prefix>, lo: nat, hi: nat)
    requires AllMasked(ps) && Tiles(ps, lo, hi)
    ensures lo <= hi
    ensures forall a: int :: Covered(ps, a) <==> lo <= a < hi
    decreases |ps|
  {
    if ps != [] {
      var mid := lo + AddressCount(ps[0]);
      TilesCover(ps[1..], mid, hi);
      forall a: int
        ensures Covered(ps, a) <==> lo <= a < hi
      {
        CoveredCons(ps, a);
      }
    }
  }

  lemma {:induction false} TilesDisjoint(ps: seq<Prefix>, lo: nat, hi: nat, i: nat, j: nat, a: int)
    requires AllMasked(ps) && Tiles(ps, lo, hi)
    requires i < j < |ps| && Contains(ps[i], a)
    ensures !Contains(ps[j], a)
    decreases i
  {
    var mid := lo + AddressCount(ps[0]);
    if i == 0 {
      TilesCover(ps[1..], mid, hi);
      assert !Covered(ps[1..], a);
      assert ps[1..][j - 1] == ps[j];
    } else {
      TilesDisjoint(ps[1..], mid, hi, i - 1, j - 1, a);
    }
  }

  /** The blocks are aligned, adjacent and cover exactly [start, end]. */
  lemma {:induction false} RangeBlocksTile(start: nat, end: nat)
    requires start <= end + 1 && end < SPACE
    ensures AllMasked(RangeBlocks(start, end))
    ensures Tiles(RangeBlocks(start, end), start, end + 1)
    decreases end + 1 - start
  {
    hide Aligned, Pow2, FirstExponent;
    if start <= end {
      FirstBlock(start, end);
      RangeBlocksTile(start + Pow2(FirstExponent(start, end)), end);
    }
  }

  lemma RangeCoveredExactly(start: nat, end: nat)
    requires start <= end < SPACE
    ensures AllMasked(RangeBlocks(start, end))
    ensures forall a: int :: Covered(RangeBlocks(start, end), a) <==> start <= a <= end
    ensures forall i: nat, j: nat, a: int :: i < j < |RangeBlocks(start, end)| && Contains(RangeBlocks(start, end)[i], a)
              ==> !Contains(RangeBlocks(start, end)[j], a)
  {
    var ps := RangeBlocks(start, end);
    RangeBlocksTile(start, end);
    TilesCover(ps, start, end + 1);
    forall i: nat, j: nat, a: int | i < j < |ps| && Contains(ps[i], a)
      ensures !Contains(ps[j], a)
    {
      TilesDisjoint(ps, start, end + 1, i, j, a);
    }
  }

  // ---- Minimality ----

  ghost predicate SetMasked(qs: set<Prefix>) {
    forall q :: q in qs ==> Masked(q)
  }

  ghost predicate SetCovers(qs: set<Prefix>, a: int)
    requires SetMasked(qs)
  {
    exists q :: q in qs && Contains(q, a)
  }

  ghost predicate ExactlyCovers(qs: set<Prefix>, start: nat, end: nat)
    requires SetMasked(qs)
  {
    forall a: int :: SetCovers(qs, a) <==> start <= a <= end
  }

  // A member of an exact cover that touches the first greedy block lies inside it.
  lemma TouchingIsInside(q: Prefix, start: nat, end: nat, a: int)
    requires start <= end < SPACE && Masked(q)
    requires forall x: int :: Contains(q, x) ==> start <= x <= end
    requires start <= a < start + Pow2(FirstExponent(start, end)) && Contains(q, a)
    ensures forall x: int :: Contains(q, x) ==> start <= x < start + Pow2(FirstExponent(start, end))
  {
    hide Aligned, Pow2, FirstExponent;
    var k := FirstExponent(start, end);
    FirstExponentFits(start, end);
    FirstBlock(start, end);
    var b := Prefix(start, 32 - k);
    assert Contains(q, q.base) && Contains(q, q.base + AddressCount(q) - 1);
    if q.bits < b.bits {
      Laminar(q, b, a);
      assert false;
    }
    Laminar(b, q, a);
  }

  /** No set of CIDR blocks with the same union is smaller. */
  lemma {:induction false} RangeBlocksMinimal(start: nat, end: nat, qs: set<Prefix>)
    requires start <= end + 1 && end < SPACE && SetMasked(qs)
    requires ExactlyCovers(qs, start, end)
    ensures |RangeBlocks(start, end)| <= |qs|
    decreases end + 1 - start
  {
    hide Aligned, Pow2, FirstExponent;
    if start <= end {
      FirstBlock(start, end);
      var k := FirstExponent(start, end);
      var next := start + Pow2(k);
      var first := set q | q in qs && q.base < next;
      var rest := qs - first;
      assert SetCovers(qs, start);
      var w :| w in qs && Contains(w, start);
      assert w in first;
      forall a: int
        ensures SetCovers(rest, a) <==> next <= a <= end
      {
        if SetCovers(rest, a) {
          var q :| q in rest && Contains(q, a);
          assert SetCovers(qs, a);
        }
        if next <= a <= end {
          assert SetCovers(qs, a);
          var q :| q in qs && Contains(q, a);
          if q in first {
            forall x: int | Contains(q, x) ensures start <= x <= end { assert SetCovers(qs, x); }
            assert Contains(q, q.base);
            TouchingIsInside(q, start, end, q.base);
            assert false;
          }
        }
      }
      RangeBlocksMinimal(next, end, rest);
      assert |first| >= 1;
      assert |qs| == |first| + |rest|;
    }
  }

  // ---- At most 62 blocks ----

  // Once the start is aligned beyond what remains, block sizes strictly fall.
  lemma {:induction false} DescendingBound(start: nat, end: nat, k: nat)
    requires start <= end + 1 && end < SPACE && k <= 32
    requires end + 1 - start < Pow2(k) && Aligned(start, k)
    ensures |RangeBlocks(start, end)| <= k
    decreases end + 1 - start
  {
    hide Aligned, Pow2, FirstExponent;
    if start <= end {
      var j := FirstExponent(start, end);
      FirstExponentFits(start, end);
      FirstBlock(start, end);
      if j >= k {
        Pow2Monotone(k, j);
        assert false;
      }
      AlignedDown(start, j + 1, k);
      AlignedPow2(j, j);
      AlignedAdd(start, Pow2(j), j);
      NextPower(j);
      DescendingBound(start + Pow2(j), end, j);
    }
  }

  lemma NextPower(j: nat)
    ensures Pow2(j + 1) == 2 * Pow2(j)
  {
  }

  // Inside [start, m) the block size is limited by alignment alone, and alignment rises.
  lemma ClimbStep(start: nat, end: nat, m: nat, k: nat, a: nat) returns (j: nat)
    requires a <= k <= 32 && start < m <= end + 1 && end < SPACE
    requires Aligned(m, k) && m < start + Pow2(k) && Aligned(start, a)
    ensures j == FirstExponent(start, end) && a <= j < k
    ensures start + Pow2(j) <= m && Aligned(start + Pow2(j), j + 1)
  {
    hide Aligned, Pow2, FirstExponent;
    j := FirstExponent(start, end);
    FirstExponentFits(start, end);
    if j >= k {
      AlignedDown(start, k, j);
      AlignedGap(start, m, k);
      assert false;
    }
    AlignedDown(m, a, k);
    AlignedGap(start, m, a);
    AlignedDown(m, j, k);
    AlignedGap(start, m, j);
    if Aligned(start, j + 1) {
      AlignedDown(m, j + 1, k);
      AlignedGap(start, m, j + 1);
      assert false;
    }
    AlignedOrNext(start, j);
  }

  // While the start climbs to an aligned point m inside the range, alignment strictly rises.
  lemma {:induction false} AscendingBound(start: nat, end: nat, m: nat, k: nat, a: nat)
    requires a <= k <= 32 && start <= m <= end + 1 && end < SPACE
    requires Aligned(m, k) && m < start + Pow2(k) && Aligned(start, a)
    ensures |RangeBlocks(start, end)| <= (k - a) + |RangeBlocks(m, end)|
    decreases m - start
  {
    hide Aligned, Pow2, FirstExponent, RangeBlocks;
    if start < m {
      var j := ClimbStep(start, end, m, k, a);
      FirstBlock(start, end);
      AscendingBound(start + Pow2(j), end, m, k, j + 1);
    }
  }

  // A range filling an aligned block, or starting where one starts.
  lemma FromAlignedStart(start: nat, end: nat, k: nat)
    requires start <= end < SPACE && k <= 32
    requires end + 1 - start <= Pow2(k) && Aligned(start, k)
    ensures |RangeBlocks(start, end)| <= (if k == 0 then 1 else k)
  {
    if end + 1 - start < Pow2(k) {
      DescendingBound(start, end, k);
    } else {
      hide Aligned, Pow2;
      FirstExponentFits(start, end);
      Pow2Monotone(k, FirstExponent(start, end));
      FirstBlock(start, end);
    }
  }

  // A range inside one aligned block of size 2^k.
  lemma {:induction false} BlockCountBound(base: nat, start: nat, end: nat, k: nat)
    requires 1 <= k <= 32 && Aligned(base, k)
    requires base <= start <= end < base + Pow2(k) && end < SPACE
    ensures |RangeBlocks(start, end)| <= (if k == 1 then 1 else 2 * k - 2)
    decreases k
  {
    hide Aligned, RangeBlocks;
    var half := Pow2(k - 1);
    var mid := base + half;
    AlignedDown(base, k - 1, k);
    AlignedPow2(k - 1, k - 1);
    AlignedAdd(base, half, k - 1);
    if start == base {
      FromAlignedStart(start, end, k);
    } else if start >= mid {
      if k == 1 {
        FromAlignedStart(start, end, 0);
      } else {
        BlockCountBound(mid, start, end, k - 1);
      }
    } else if end < mid {
      BlockCountBound(base, start, end, k - 1);
    } else {
      AlignedToOne(start);
      AscendingBound(start, end, mid, k - 1, 0);
      FromAlignedStart(mid, end, k - 1);
    }
  }

  /** Never more than 62 blocks, whatever the IPv4 range. */
  lemma RangeBlocksAtMost62(start: nat, end: nat)
    requires start <= end < SPACE
    ensures |RangeBlocks(start, end)| <= 62
  {
    Pow2Values();
    BlockCountBound(0, start, end, 32);
  }

  // ---- The loops ----

  // The block size found by doubling, with its exponent.
  method GrowBlock(start: nat, endNumber: nat) returns (block: nat, ghost k: nat)
    requires start <= endNumber < SPACE
    ensures k == FirstExponent(start, endNumber)
    ensures block == Pow2(FirstExponent(start, endNumber))
  {
    var remaining := endNumber - start + 1;
    block := 1;
    k := 0;
    Pow2Values();
    AlignedToOne(start);
    while block * 2 <= remaining && start % (block * 2) == 0 && block < SPACE
      invariant k <= 32 && block == Pow2(k) && block <= remaining
      invariant Grow(start, remaining, k) == FirstExponent(start, endNumber)
      decreases remaining - block
    {
      block := block * 2;
      k := k + 1;
    }
    if k < 32 {
      Pow2Monotone(k + 1, 32);
    }
  }

  // The mask length that belongs to a block size.
  method MaskLength(block: nat, ghost k: nat) returns (bits: nat)
    requires k <= 32 && block == Pow2(k)
    ensures bits == 32 - k
  {
    bits := 32;
    var size := block;
    ghost var left: nat := k;
    while size > 1
      invariant left <= k && bits == 32 - (k - left) && size == Pow2(left)
      decreases size
    {
      size := size / 2;
      bits := bits - 1;
      left := left - 1;
    }
  }

  /** parseRange on the two endpoint numbers. */
  method ParseRange(startNumber: nat, endNumber: nat) returns (r: RangeResult)
    requires startNumber < SPACE && endNumber < SPACE
    ensures startNumber > endNumber ==> r == StartsAfterEnd
    ensures startNumber <= endNumber ==> r == Blocks(RangeBlocks(startNumber, endNumber))
  {
    hide Aligned, Pow2, FirstExponent;
    if startNumber > endNumber {
      return StartsAfterEnd;
    }
    var start := startNumber;
    var prefixes: seq<Prefix> := [];
    while start <= endNumber
      invariant startNumber <= start <= endNumber + 1
      invariant prefixes + RangeBlocks(start, endNumber) == RangeBlocks(startNumber, endNumber)
      decreases endNumber + 1 - start
    {
      FirstBlock(start, endNumber);
      ghost var before := prefixes;
      ghost var rest := RangeBlocks(start + Pow2(FirstExponent(start, endNumber)), endNumber);
      var block, k := GrowBlock(start, endNumber);
      var bits := MaskLength(block, k);
      prefixes := prefixes + [Prefix(start, bits)];
      assert prefixes + rest == before + ([Prefix(start, bits)] + rest);
      if block == SPACE {
        assert rest == [];
        break;
      }
      start := start + block;
    }
    r := Blocks(prefixes);
  }
}
