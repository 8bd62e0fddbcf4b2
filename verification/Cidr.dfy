/** Powers of two, alignment, and the CIDR block algebra every planner stage rests on. */
module Powers {
  function Pow2(n: nat): (r: nat)
    ensures r >= 1
  {
    if n == 0 then 1 else 2 * Pow2(n - 1)
  }

  predicate Aligned(x: nat, k: nat) {
    x % Pow2(k) == 0
  }

  lemma AlignedToOne(x: nat)
    ensures Pow2(0) == 1 && Aligned(x, 0)
  {
  }

  lemma {:induction false} Pow2Monotone(a: nat, b: nat)
    requires a <= b
    ensures Pow2(a) <= Pow2(b)
    ensures a < b ==> 2 * Pow2(a) <= Pow2(b)
    decreases b
  {
    if a < b {
      Pow2Monotone(a, b - 1);
    }
  }

  lemma Pow2Values()
    ensures Pow2(8) == 256 && Pow2(16) == 65536 && Pow2(24) == 0x100_0000 && Pow2(32) == 0x1_0000_0000
  {
    assert Pow2(4) == 16;
    assert Pow2(8) == 256;
    assert Pow2(12) == 4096;
    assert Pow2(16) == 65536;
    assert Pow2(20) == 0x10_0000;
    assert Pow2(24) == 0x100_0000;
    assert Pow2(28) == 0x1000_0000;
  }

  lemma {:induction false} MultipleOf(q: nat, m: nat)
    requires m > 0
    ensures (q * m) % m == 0
  {
    if q > 0 {
      MultipleOf(q - 1, m);
      AddPeriod((q - 1) * m, m);
      assert q * m == (q - 1) * m + m;
    }
  }

  lemma AddPeriod(x: nat, m: nat)
    requires m > 0
    ensures (x + m) % m == x % m
  {
    var q := x / m;
    assert x + m == (q + 1) * m + x % m;
    DivisionUnique(x + m, m, q + 1, x % m);
  }

  lemma DivisionUnique(x: nat, m: nat, q: nat, r: nat)
    requires m > 0 && x == q * m + r && r < m
    ensures x / m == q && x % m == r
  {
    var q', r' := x / m, x % m;
    assert x == q' * m + r';
    if q' < q {
      MulGap(q', q, m);
    } else if q < q' {
      MulGap(q, q', m);
    }
  }

  lemma {:induction false} MulGap(a: nat, b: nat, m: nat)
    requires a < b
    ensures a * m + m <= b * m
    decreases b
  {
    if a + 1 < b {
      MulGap(a, b - 1, m);
    }
    assert b * m == (b - 1) * m + m;
  }

  lemma {:induction false} AlignedDown(x: nat, j: nat, k: nat)
    requires j <= k && Aligned(x, k)
    ensures Aligned(x, j)
    decreases k
  {
    if j < k {
      var m := Pow2(k - 1);
      var q := x / (2 * m);
      assert x == (2 * q) * m;
      MultipleOf(2 * q, m);
      AlignedDown(x, j, k - 1);
    }
  }

  lemma AlignedAdd(x: nat, y: nat, k: nat)
    requires Aligned(x, k) && Aligned(y, k)
    ensures Aligned(x + y, k)
  {
    var m := Pow2(k);
    assert x + y == (x / m + y / m) * m;
    MultipleOf(x / m + y / m, m);
  }

  // Two multiples of the same power are at least that power apart.
  lemma AlignedGap(x: nat, y: nat, k: nat)
    requires Aligned(x, k) && Aligned(y, k) && x < y
    ensures x + Pow2(k) <= y
  {
    var m := Pow2(k);
    assert x == (x / m) * m && y == (y / m) * m;
    var qx, qy := x / m, y / m;
    if qx < qy {
      MulGap(qx, qy, m);
    } else if qy < qx {
      MulGap(qy, qx, m);
    }
  }

  lemma AlignedPow2(j: nat, k: nat)
    requires j <= k
    ensures Aligned(Pow2(k), j)
  {
    MultipleOf(1, Pow2(k));
    AlignedDown(Pow2(k), j, k);
  }

  // The midpoint between consecutive multiples of 2^k is a multiple of 2^(k+1) on one side.
  lemma AlignedOrNext(x: nat, k: nat)
    requires Aligned(x, k) && !Aligned(x, k + 1)
    ensures Aligned(x + Pow2(k), k + 1)
  {
    var m := Pow2(k);
    var q := x / m;
    assert x == q * m;
    var h := q / 2;
    Regroup(h, m);
    MultipleOf(h, 2 * m);
    MultipleOf(h + 1, 2 * m);
    if q != 2 * h {
      assert q == 2 * h + 1;
      assert x + m == (2 * h) * m + m + m;
      assert x + m == (h + 1) * (2 * m);
    }
  }

  lemma Regroup(h: nat, m: nat)
    ensures (2 * h) * m == h * (2 * m)
    ensures (2 * h + 1) * m == (2 * h) * m + m
    ensures (h + 1) * (2 * m) == h * (2 * m) + 2 * m
  {
  }
}

module Cidr {
  import opened Powers

  const SPACE: nat := 0x1_0000_0000

  // A network prefix: base address and mask length.
  datatype Prefix = Prefix(base: nat, bits: nat)

  function AddressCount(p: Prefix): (r: nat)
    requires p.bits <= 32
    ensures r >= 1
  {
    Pow2(32 - p.bits)
  }

  // What Parse guarantees: an IPv4 address with its host bits cleared.
  predicate Masked(p: Prefix) {
    && p.bits <= 32
    && p.base < SPACE
    && Aligned(p.base, 32 - p.bits)
  }

  ghost predicate AllMasked(ps: seq<Prefix>) {
    forall i :: 0 <= i < |ps| ==> Masked(ps[i])
  }

  predicate Contains(p: Prefix, a: int)
    requires p.bits <= 32
  {
    p.base <= a < p.base + AddressCount(p)
  }

  // The address `a` belongs to some prefix of the list.
  ghost predicate Covered(ps: seq<Prefix>, a: int)
    requires AllMasked(ps)
  {
    exists i :: 0 <= i < |ps| && Contains(ps[i], a)
  }

  lemma CoveredCons(ps: seq<Prefix>, a: int)
    requires AllMasked(ps) && ps != []
    ensures Covered(ps, a) <==> Contains(ps[0], a) || Covered(ps[1..], a)
  {
    if Covered(ps, a) && !Contains(ps[0], a) {
      var i :| 0 <= i < |ps| && Contains(ps[i], a);
      assert ps[1..][i - 1] == ps[i];
    }
    if Covered(ps[1..], a) {
      var i :| 0 <= i < |ps[1..]| && Contains(ps[1..][i], a);
      assert ps[i + 1] == ps[1..][i];
    }
  }

  ghost predicate SameCoverage(ps: seq<Prefix>, qs: seq<Prefix>)
    requires AllMasked(ps) && AllMasked(qs)
  {
    forall a: int :: Covered(ps, a) <==> Covered(qs, a)
  }

  lemma MaskedFits(p: Prefix)
    requires Masked(p)
    ensures p.base + AddressCount(p) <= SPACE
  {
    Pow2Values();
    AlignedPow2(32 - p.bits, 32);
    AlignedGap(p.base, SPACE, 32 - p.bits);
  }

  // Laminarity: two CIDR blocks that share an address are nested, the wider one outside.
  lemma Laminar(p: Prefix, q: Prefix, a: int)
    requires Masked(p) && Masked(q) && Contains(p, a) && Contains(q, a)
    requires p.bits <= q.bits
    ensures p.base <= q.base && q.base + AddressCount(q) <= p.base + AddressCount(p)
    ensures forall x: int :: Contains(q, x) ==> Contains(p, x)
  {
    var k := 32 - q.bits;
    AlignedDown(p.base, k, 32 - p.bits);
    AlignedPow2(k, 32 - p.bits);
    AlignedAdd(p.base, AddressCount(p), k);
    if q.base < p.base {
      AlignedGap(q.base, p.base, k);
      assert false;
    }
    AlignedGap(q.base, p.base + AddressCount(p), k);
  }

  ghost function AddressSet(p: Prefix): set<int>
    requires p.bits <= 32
  {
    Interval(p.base, p.base + AddressCount(p))
  }

  ghost function Interval(lo: int, hi: int): (s: set<int>)
    ensures forall a: int :: a in s <==> lo <= a < hi
    decreases hi - lo
  {
    if lo >= hi then {} else Interval(lo, hi - 1) + {hi - 1}
  }

  lemma {:induction false} IntervalSize(lo: int, hi: int)
    requires lo <= hi
    ensures |Interval(lo, hi)| == hi - lo
    decreases hi - lo
  {
    if lo < hi {
      IntervalSize(lo, hi - 1);
    }
  }
}
