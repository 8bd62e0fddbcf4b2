/** The host list sent with a target: sorted prefixes merged into inclusive ranges. */
module HostSpecs {
  import opened Powers
  import opened Cidr
  import opened Planner

  // One printed host specification; a single host when start == end.
  datatype HostRange = HostRange(start: nat, end: nat)

  // The last address of a prefix: its masked address with every host bit set.
  function PrefixEnd(p: Prefix): nat
    requires p.bits <= 32
  {
    p.base - p.base % AddressCount(p) + (AddressCount(p) - 1)
  }

  lemma PrefixEndOfMasked(p: Prefix)
    requires Masked(p)
    ensures PrefixEnd(p) == p.base + AddressCount(p) - 1 < SPACE
  {
    MaskedFits(p);
  }

  // end.Next() is invalid after the last IPv4 address.
  predicate Joins(start: nat, end: nat) {
    start <= end || (end < SPACE - 1 && start == end + 1)
  }

  ghost function Merge(ps: seq<Prefix>, start: nat, end: nat): seq<HostRange>
    requires AllMasked(ps)
  {
    if ps == [] then [HostRange(start, end)]
    else if Joins(ps[0].base, end) then
      Merge(ps[1..], start, if PrefixEnd(ps[0]) > end then PrefixEnd(ps[0]) else end)
    else [HostRange(start, end)] + Merge(ps[1..], ps[0].base, PrefixEnd(ps[0]))
  }

  ghost function HostRanges(ps: seq<Prefix>): seq<HostRange>
    requires AllMasked(ps)
  {
    SortedMasked(ps);
    var ordered := Sorted(ps);
    if ordered == [] then [] else Merge(ordered[1..], ordered[0].base, PrefixEnd(ordered[0]))
  }

  method GmpHostSpecifications(prefixes: seq<Prefix>) returns (result: seq<HostRange>)
    requires AllMasked(prefixes)
    ensures result == HostRanges(prefixes)
  {
    hide Aligned, Pow2, PrefixEnd;
    SortedMasked(prefixes);
    var ordered := Sorted(prefixes);
    assert |ordered| == |multiset(ordered)| == |multiset(prefixes)| == |prefixes|;
    if |prefixes| == 0 {
      return [];
    }
    result := [];
    var start := ordered[0].base;
    var end := PrefixEnd(ordered[0]);
    for i := 1 to |ordered|
      invariant result + Merge(ordered[i..], start, end) == HostRanges(prefixes)
    {
      assert ordered[i..][0] == ordered[i] && ordered[i..][1..] == ordered[i + 1..];
      var currentStart := ordered[i].base;
      var currentEnd := PrefixEnd(ordered[i]);
      if Joins(currentStart, end) {
        if currentEnd > end {
          end := currentEnd;
        }
      } else {
        ghost var rest := Merge(ordered[i + 1..], currentStart, currentEnd);
        assert result + ([HostRange(start, end)] + rest) == (result + [HostRange(start, end)]) + rest;
        result := result + [HostRange(start, end)];
        start, end := currentStart, currentEnd;
      }
    }
    result := result + [HostRange(start, end)];
  }

  // ---- Canonical range lists ----

  // Ascending ranges with at least one uncovered address between neighbours.
  ghost predicate Canonical(rs: seq<HostRange>) {
    && (forall i :: 0 <= i < |rs| ==> rs[i].start <= rs[i].end)
    && (forall i, j :: 0 <= i < j < |rs| ==> rs[i].end + 1 < rs[j].start)
  }

  ghost predicate RangesCover(rs: seq<HostRange>, a: int) {
    exists i :: 0 <= i < |rs| && rs[i].start <= a <= rs[i].end
  }

  lemma RangesCoverCons(rs: seq<HostRange>, a: int)
    requires rs != []
    ensures RangesCover(rs, a) <==> rs[0].start <= a <= rs[0].end || RangesCover(rs[1..], a)
  {
    if i :| 0 <= i < |rs| && rs[i].start <= a <= rs[i].end {
      if i > 0 { assert rs[1..][i - 1] == rs[i]; }
    }
    if i :| 0 <= i < |rs[1..]| && rs[1..][i].start <= a <= rs[1..][i].end {
      assert rs[i + 1] == rs[1..][i];
    }
  }

  lemma CanonicalTail(rs: seq<HostRange>)
    requires Canonical(rs) && rs != []
    ensures Canonical(rs[1..])
    ensures forall a: int :: RangesCover(rs[1..], a) ==> a > rs[0].end + 1
  {
    assert forall i :: 0 <= i < |rs[1..]| ==> rs[1..][i] == rs[i + 1];
  }

  lemma CanonicalCons(r: HostRange, rs: seq<HostRange>)
    requires r.start <= r.end && Canonical(rs)
    requires rs != [] ==> r.end + 1 < rs[0].start
    ensures Canonical([r] + rs)
  {
    var s := [r] + rs;
    forall i, j | 0 <= i < j < |s| ensures s[i].end + 1 < s[j].start {
      assert s[j] == rs[j - 1];
      if i > 0 { assert s[i] == rs[i - 1]; } else if j > 1 { assert rs[0].end + 1 < rs[j - 1].start; }
    }
  }

  lemma {:induction false} MergeLaws(ps: seq<Prefix>, start: nat, end: nat)
    requires AllMasked(ps) && Ordered(ps) && start <= end < SPACE
    requires forall i :: 0 <= i < |ps| ==> start <= ps[i].base
    ensures var r := Merge(ps, start, end);
            && Canonical(r) && r != [] && r[0].start == start
            && forall a: int :: RangesCover(r, a) <==> start <= a <= end || Covered(ps, a)
    decreases |ps|
  {
    hide Aligned, Pow2, PrefixEnd;
    var r := Merge(ps, start, end);
    if ps == [] {
      forall a: int ensures RangesCover(r, a) <==> start <= a <= end { RangesCoverCons(r, a); }
    } else {
      var p := ps[0];
      PrefixEndOfMasked(p);
      assert AddressCount(p) >= 1;
      forall i | 0 <= i < |ps[1..]| ensures p.base <= ps[1..][i].base { assert InOrder(ps[0], ps[i + 1]); }
      assert Ordered(ps[1..]) by { assert forall i :: 0 <= i < |ps[1..]| ==> ps[1..][i] == ps[i + 1]; }
      if Joins(p.base, end) {
        MergeLaws(ps[1..], start, if PrefixEnd(p) > end then PrefixEnd(p) else end);
      } else {
        var tail := Merge(ps[1..], p.base, PrefixEnd(p));
        MergeLaws(ps[1..], p.base, PrefixEnd(p));
        CanonicalCons(HostRange(start, end), tail);
        assert r[1..] == tail;
      }
      forall a: int ensures RangesCover(r, a) <==> start <= a <= end || Covered(ps, a) {
        CoveredCons(ps, a);
        if !Joins(p.base, end) { RangesCoverCons(r, a); }
      }
    }
  }

  /** The printed ranges are canonical and cover exactly the prefixes. */
  lemma HostRangesExact(ps: seq<Prefix>)
    requires AllMasked(ps)
    ensures Canonical(HostRanges(ps))
    ensures forall a: int :: RangesCover(HostRanges(ps), a) <==> Covered(ps, a)
  {
    hide Aligned, Pow2, PrefixEnd, Sorted;
    SortedMasked(ps);
    var s := Sorted(ps);
    var r := HostRanges(ps);
    if s != [] {
      PrefixEndOfMasked(s[0]);
      assert AddressCount(s[0]) >= 1;
      assert Ordered(s[1..]) by { assert forall i :: 0 <= i < |s[1..]| ==> s[1..][i] == s[i + 1]; }
      forall i | 0 <= i < |s[1..]| ensures s[0].base <= s[1..][i].base { assert InOrder(s[0], s[i + 1]); }
      MergeLaws(s[1..], s[0].base, PrefixEnd(s[0]));
    }
    forall a: int ensures RangesCover(r, a) <==> Covered(ps, a) {
      if s != [] { CoveredCons(s, a); }
      SameElementsCover(s, ps, a);
    }
  }

  lemma SameElementsCover(ps: seq<Prefix>, qs: seq<Prefix>, a: int)
    requires AllMasked(ps) && AllMasked(qs) && multiset(ps) == multiset(qs)
    ensures Covered(ps, a) <==> Covered(qs, a)
  {
    if i :| 0 <= i < |ps| && Contains(ps[i], a) {
      assert ps[i] in multiset(qs);
      var j :| 0 <= j < |qs| && qs[j] == ps[i];
    }
    if i :| 0 <= i < |qs| && Contains(qs[i], a) {
      assert qs[i] in multiset(ps);
      var j :| 0 <= j < |ps| && ps[j] == qs[i];
    }
  }

  lemma FirstCovered(rs: seq<HostRange>)
    requires Canonical(rs) && rs != []
    ensures RangesCover(rs, rs[0].start)
  {
    assert rs[0].start <= rs[0].start <= rs[0].end;
  }

  lemma SameFirstRange(rs: seq<HostRange>, qs: seq<HostRange>)
    requires Canonical(rs) && Canonical(qs) && rs != [] && qs != []
    requires forall a: int :: RangesCover(rs, a) <==> RangesCover(qs, a)
    ensures rs[0] == qs[0]
  {
    FirstCovered(rs);
    FirstCovered(qs);
    CanonicalTail(rs);
    CanonicalTail(qs);
    hide RangesCover;
    RangesCoverCons(rs, qs[0].start);
    RangesCoverCons(qs, rs[0].start);
    assert rs[0].start == qs[0].start;
    RangesCoverCons(rs, qs[0].end + 1);
    RangesCoverCons(qs, qs[0].end + 1);
    RangesCoverCons(qs, rs[0].end + 1);
    RangesCoverCons(rs, rs[0].end + 1);
  }

  lemma {:induction false} CanonicalUnique(rs: seq<HostRange>, qs: seq<HostRange>)
    requires Canonical(rs) && Canonical(qs)
    requires forall a: int :: RangesCover(rs, a) <==> RangesCover(qs, a)
    ensures rs == qs
    decreases |rs|
  {
    if rs != [] {
      FirstCovered(rs);
    }
    if qs != [] {
      FirstCovered(qs);
    }
    assert rs == [] <==> qs == [];
    if rs != [] {
      SameFirstRange(rs, qs);
      CanonicalTail(rs);
      CanonicalTail(qs);
      hide Canonical, RangesCover;
      forall a: int ensures RangesCover(rs[1..], a) <==> RangesCover(qs[1..], a) {
        RangesCoverCons(rs, a);
        RangesCoverCons(qs, a);
      }
      CanonicalUnique(rs[1..], qs[1..]);
      assert rs == [rs[0]] + rs[1..] && qs == [qs[0]] + qs[1..];
    }
  }

  /** Prefix lists with the same union print the same host specifications. */
  lemma SameUnionSameHosts(ps: seq<Prefix>, qs: seq<Prefix>)
    requires AllMasked(ps) && AllMasked(qs) && SameCoverage(ps, qs)
    ensures HostRanges(ps) == HostRanges(qs)
  {
    HostRangesExact(ps);
    HostRangesExact(qs);
    CanonicalUnique(HostRanges(ps), HostRanges(qs));
  }

  // ---- Fewest ranges ----

  ghost predicate RangeSetCovers(qs: set<HostRange>, a: int) {
    exists q :: q in qs && q.start <= a <= q.end
  }

  lemma {:induction false} CanonicalFewest(rs: seq<HostRange>, qs: set<HostRange>)
    requires Canonical(rs)
    requires forall a: int :: RangesCover(rs, a) <==> RangeSetCovers(qs, a)
    ensures |rs| <= |qs|
    decreases |rs|
  {
    if rs != [] {
      var edge := rs[0].end;
      var first := set q | q in qs && q.start <= edge;
      var rest := qs - first;
      CanonicalTail(rs);
      assert RangesCover(rs, rs[0].start);
      var w :| w in qs && w.start <= rs[0].start <= w.end;
      assert w in first;
      RangesCoverCons(rs, edge + 1);
      assert !RangeSetCovers(qs, edge + 1);
      assert forall q :: q in first ==> q.end <= edge;
      forall a: int ensures RangesCover(rs[1..], a) <==> RangeSetCovers(rest, a) {
        RangesCoverCons(rs, a);
        if RangeSetCovers(rest, a) {
          var q :| q in rest && q.start <= a <= q.end;
          assert RangeSetCovers(qs, a);
        }
        if RangesCover(rs[1..], a) {
          assert RangeSetCovers(qs, a);
          var q :| q in qs && q.start <= a <= q.end;
          assert q in rest;
        }
      }
      CanonicalFewest(rs[1..], rest);
      assert |qs| == |first| + |rest|;
    }
  }

  /** No set of ranges with the same union has fewer members. */
  lemma HostRangesFewest(ps: seq<Prefix>, qs: set<HostRange>)
    requires AllMasked(ps)
    requires forall a: int :: Covered(ps, a) <==> RangeSetCovers(qs, a)
    ensures |HostRanges(ps)| <= |qs|
  {
    HostRangesExact(ps);
    CanonicalFewest(HostRanges(ps), qs);
  }
}
