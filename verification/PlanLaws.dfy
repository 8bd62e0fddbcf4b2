/** What a finished network plan guarantees about addresses, classes and target sizes. */
module PlanLaws {
  import opened NetworkClass
  import opened Powers
  import opened Cidr
  import opened RangeToCidr
  import opened Planner

  // ---- Coverage under concatenation and rearrangement ----

  lemma CoveredBy(ps: seq<Prefix>, p: Prefix, a: int)
    requires AllMasked(ps) && p in ps && Contains(p, a)
    ensures Covered(ps, a)
  {
    var i :| 0 <= i < |ps| && ps[i] == p;
    assert Contains(ps[i], a);
  }

  lemma CoveredConcat(ps: seq<Prefix>, qs: seq<Prefix>, a: int)
    requires AllMasked(ps) && AllMasked(qs)
    ensures AllMasked(ps + qs)
    ensures Covered(ps + qs, a) <==> Covered(ps, a) || Covered(qs, a)
  {
    if Covered(ps + qs, a) {
      var i :| 0 <= i < |ps + qs| && Contains((ps + qs)[i], a);
      if i < |ps| {
        CoveredBy(ps, ps[i], a);
      } else {
        CoveredBy(qs, qs[i - |ps|], a);
      }
    }
    if Covered(ps, a) {
      var i :| 0 <= i < |ps| && Contains(ps[i], a);
      CoveredBy(ps + qs, (ps + qs)[i], a);
    }
    if Covered(qs, a) {
      var i :| 0 <= i < |qs| && Contains(qs[i], a);
      assert (ps + qs)[|ps| + i] == qs[i];
      CoveredBy(ps + qs, qs[i], a);
    }
  }

  lemma CoveredRearranged(ps: seq<Prefix>, qs: seq<Prefix>, a: int)
    requires AllMasked(ps) && AllMasked(qs)
    requires multiset(ps) == multiset(qs) && Covered(ps, a)
    ensures Covered(qs, a)
  {
    var i :| 0 <= i < |ps| && Contains(ps[i], a);
    assert ps[i] in multiset(qs);
    CoveredBy(qs, ps[i], a);
  }

  // ---- Splitting ----

  ghost predicate Wide(p: Prefix) {
    p.bits < 8
  }

  lemma WideMeansTooMany(p: Prefix)
    requires Masked(p) && p.bits < 24
    ensures Pow2(24 - p.bits) > MAX_EXPANDED_PREFIXES <==> Wide(p)
  {
    Pow2Values();
    if Wide(p) {
      Pow2Monotone(16, 24 - p.bits);
    } else {
      Pow2Monotone(24 - p.bits, 16);
    }
  }

  ghost function SplitAll(ps: seq<Prefix>): seq<Prefix>
    requires AllMasked(ps)
  {
    if ps == [] then [] else SplitPieces(ps[0]) + SplitAll(ps[1..])
  }

  ghost predicate Narrow(ps: seq<Prefix>) {
    forall i :: 0 <= i < |ps| ==> 24 <= ps[i].bits <= 32
  }

  lemma {:induction false} SplitAllMasked(ps: seq<Prefix>)
    requires AllMasked(ps)
    ensures AllMasked(SplitAll(ps)) && Narrow(SplitAll(ps))
  {
    if ps != [] {
      SplitMasked(ps[0]);
      SplitAllMasked(ps[1..]);
    }
  }

  // A split network covers exactly the network.
  lemma SplitCovers(p: Prefix, a: int)
    requires Masked(p)
    ensures AllMasked(SplitPieces(p))
    ensures Covered(SplitPieces(p), a) <==> Contains(p, a)
  {
    SplitMasked(p);
    var pieces := SplitPieces(p);
    if p.bits >= 24 {
      assert pieces[0] == p;
    } else {
      Pow2Values();
      PowerSum(8, 24 - p.bits);
      if Contains(p, a) {
        var i := (a - p.base) / 256;
        assert i < Pow2(24 - p.bits);
        assert Contains(pieces[i], a);
      }
      if Covered(pieces, a) {
        var i :| 0 <= i < |pieces| && Contains(pieces[i], a);
        PieceMasked(p, i);
      }
    }
  }

  lemma {:induction false} SplitAllCovers(ps: seq<Prefix>, a: int)
    requires AllMasked(ps)
    ensures AllMasked(SplitAll(ps))
    ensures Covered(SplitAll(ps), a) <==> Covered(ps, a)
  {
    SplitAllMasked(ps);
    if ps != [] {
      SplitCovers(ps[0], a);
      SplitAllMasked(ps[1..]);
      SplitAllCovers(ps[1..], a);
      CoveredConcat(SplitPieces(ps[0]), SplitAll(ps[1..]), a);
      CoveredCons(ps, a);
    }
  }

  // ---- parseAndExpand: when it succeeds and what it yields ----

  ghost predicate Fits(input: NetworkInput)
    requires InputOK(input)
  {
    && Expand(input).Blocks?
    && forall i :: 0 <= i < |Expand(input).prefixes| ==> !Wide(Expand(input).prefixes[i])
  }

  ghost predicate AllFit(inputs: seq<NetworkInput>)
    requires InputsOK(inputs)
  {
    forall i :: 0 <= i < |inputs| ==> Fits(inputs[i])
  }

  ghost function Pieces(input: NetworkInput): (r: seq<Prefix>)
    requires InputOK(input)
  {
    if Expand(input).Blocks? then
      ExpandMasked(input);
      SplitAll(Expand(input).prefixes)
    else []
  }

  ghost function AllPieces(inputs: seq<NetworkInput>): seq<Prefix>
    requires InputsOK(inputs)
  {
    if inputs == [] then [] else Pieces(inputs[0]) + AllPieces(inputs[1..])
  }

  lemma {:induction false} AddPrefixesOutcome(ps: seq<Prefix>, acc: seq<Prefix>)
    requires AllMasked(ps) && |acc| <= MAX_EXPANDED_PREFIXES
    ensures AddPrefixes(ps, acc).Prefixes? <==>
            (forall i :: 0 <= i < |ps| ==> !Wide(ps[i])) && |acc| + |SplitAll(ps)| <= MAX_EXPANDED_PREFIXES
    ensures AddPrefixes(ps, acc).Prefixes? ==> AddPrefixes(ps, acc).prefixes == acc + SplitAll(ps)
  {
    hide Pow2, Aligned;
    if ps != [] {
      if ps[0].bits < 24 {
        WideMeansTooMany(ps[0]);
      }
      var more := acc + SplitPieces(ps[0]);
      if |more| <= MAX_EXPANDED_PREFIXES {
        AddPrefixesOutcome(ps[1..], more);
        assert more + SplitAll(ps[1..]) == acc + SplitAll(ps);
      }
      assert (forall i :: 0 <= i < |ps| ==> !Wide(ps[i])) <==>
             !Wide(ps[0]) && (forall i :: 0 <= i < |ps[1..]| ==> !Wide(ps[1..][i])) by {
        assert forall i :: 1 <= i < |ps| ==> ps[i] == ps[1..][i - 1];
      }
    }
  }

  lemma AllFitHead(inputs: seq<NetworkInput>)
    requires InputsOK(inputs) && inputs != []
    ensures AllFit(inputs) <==> Fits(inputs[0]) && AllFit(inputs[1..])
  {
    hide Fits, InputOK;
    assert forall i :: 1 <= i < |inputs| ==> inputs[i] == inputs[1..][i - 1];
  }

  // One input after another: the first outcome, then the rest from where it left off.
  lemma {:induction false} AddInputsOutcome(inputs: seq<NetworkInput>, acc: seq<Prefix>)
    requires InputsOK(inputs) && |acc| <= MAX_EXPANDED_PREFIXES
    ensures AddInputs(inputs, acc).Prefixes? <==>
            AllFit(inputs) && |acc| + |AllPieces(inputs)| <= MAX_EXPANDED_PREFIXES
    ensures AddInputs(inputs, acc).Prefixes? ==> AddInputs(inputs, acc).prefixes == acc + AllPieces(inputs)
  {
    hide SplitAll, AddPrefixes, Expand, InputOK, Masked, AllFit, Wide;
    if inputs == [] {
      assert AllFit(inputs) by { NoneFit(); }
    } else {
      AllFitHead(inputs);
      if Expand(inputs[0]).Blocks? {
        ExpandMasked(inputs[0]);
        var ps := Expand(inputs[0]).prefixes;
        AddPrefixesOutcome(ps, acc);
        if AddPrefixes(ps, acc).Prefixes? {
          var more := AddPrefixes(ps, acc).prefixes;
          AddInputsOutcome(inputs[1..], more);
          assert more + AllPieces(inputs[1..]) == acc + (Pieces(inputs[0]) + AllPieces(inputs[1..]));
        }
      }
    }
  }

  lemma NoneFit()
    ensures AllFit([])
  {
  }

  lemma {:induction false} AllPiecesMasked(inputs: seq<NetworkInput>)
    requires InputsOK(inputs)
    ensures AllMasked(AllPieces(inputs)) && Narrow(AllPieces(inputs))
  {
    if inputs != [] {
      if Expand(inputs[0]).Blocks? {
        ExpandMasked(inputs[0]);
        SplitAllMasked(Expand(inputs[0]).prefixes);
      }
      AllPiecesMasked(inputs[1..]);
    }
  }

  // The addresses an input names.
  ghost predicate InputNames(input: NetworkInput, a: int)
    requires InputOK(input)
  {
    match input
    case Network(p) => Contains(p, a)
    case AddressRange(start, end) => start <= a <= end
  }

  ghost predicate InputsName(inputs: seq<NetworkInput>, a: int)
    requires InputsOK(inputs)
  {
    exists i :: 0 <= i < |inputs| && InputNames(inputs[i], a)
  }

  lemma PiecesCover(input: NetworkInput, a: int)
    requires InputOK(input)
    ensures AllMasked(Pieces(input))
    ensures Covered(Pieces(input), a) <==> InputNames(input, a)
  {
    if Expand(input).Blocks? {
      ExpandMasked(input);
      SplitAllCovers(Expand(input).prefixes, a);
      match input
      case Network(p) =>
        assert Expand(input).prefixes == [p];
        CoveredCons([p], a);
      case AddressRange(start, end) =>
        RangeCoveredExactly(start, end);
    }
  }

  lemma {:induction false} AllPiecesCover(inputs: seq<NetworkInput>, a: int)
    requires InputsOK(inputs)
    ensures AllMasked(AllPieces(inputs))
    ensures Covered(AllPieces(inputs), a) <==> InputsName(inputs, a)
  {
    AllPiecesMasked(inputs);
    if inputs != [] {
      PiecesCover(inputs[0], a);
      AllPiecesCover(inputs[1..], a);
      CoveredConcat(Pieces(inputs[0]), AllPieces(inputs[1..]), a);
      if InputsName(inputs, a) && !InputNames(inputs[0], a) {
        var i :| 0 <= i < |inputs| && InputNames(inputs[i], a);
        assert inputs[1..][i - 1] == inputs[i];
      }
      if InputsName(inputs[1..], a) {
        var i :| 0 <= i < |inputs[1..]| && InputNames(inputs[1..][i], a);
        assert inputs[i + 1] == inputs[1..][i];
      }
    }
  }

  // ---- Overlap removal ----

  ghost predicate Separated(ps: seq<Prefix>)
    requires AllMasked(ps)
  {
    forall i, j :: 0 <= i < j < |ps| ==> ps[i].base + AddressCount(ps[i]) <= ps[j].base
  }

  // Overlap removal drops only what the last kept block contains.
  lemma {:induction false} SweepLaws(ps: seq<Prefix>, last: Prefix)
    requires AllMasked(ps) && Masked(last) && Ordered([last] + ps)
    ensures var r := Sweep(ps, last.base + AddressCount(last) - 1);
            && AllMasked(r) && Separated([last] + r)
            && forall a: int :: Contains(last, a) || Covered(r, a) <==> Contains(last, a) || Covered(ps, a)
  {
    hide Aligned, Pow2;
    var end := last.base + AddressCount(last) - 1;
    var r := Sweep(ps, end);
    SweepFrom(ps, end);
    if ps != [] {
      var p := ps[0];
      assert [last] + ps == [last] + ([p] + ps[1..]);
      assert InOrder(([last] + ps)[0], ([last] + ps)[1]);
      forall a: int ensures Covered(ps, a) <==> Contains(p, a) || Covered(ps[1..], a) { CoveredCons(ps, a); }
      if p.base <= end {
        assert Contains(last, p.base) && Contains(p, p.base);
        DroppedIsInside(last, p);
        assert Ordered([last] + ps[1..]) by {
          forall i, j | 0 <= i < j < |[last] + ps[1..]| ensures InOrder(([last] + ps[1..])[i], ([last] + ps[1..])[j]) {
            assert ([last] + ps[1..])[j] == ([last] + ps)[j + 1];
            assert ([last] + ps[1..])[i] == ([last] + ps)[if i == 0 then 0 else i + 1];
          }
        }
        SweepLaws(ps[1..], last);
      } else {
        assert Ordered([p] + ps[1..]) by {
          assert [p] + ps[1..] == ps;
          assert forall i :: 0 <= i < |ps| ==> ps[i] == ([last] + ps)[i + 1];
        }
        SweepLaws(ps[1..], p);
        var tail := Sweep(ps[1..], p.base + AddressCount(p) - 1);
        assert r == [p] + tail;
        SweepFrom(ps[1..], p.base + AddressCount(p) - 1);
        forall a: int ensures Covered(r, a) <==> Contains(p, a) || Covered(tail, a) {
          assert r[1..] == tail;
          CoveredCons(r, a);
        }
        assert Separated([last] + r) by {
          var s := [last] + r;
          forall i, j | 0 <= i < j < |s| ensures s[i].base + AddressCount(s[i]) <= s[j].base {
            assert s[j] == r[j - 1];
            if i > 0 { assert s[i] == r[i - 1]; } else if j > 1 { assert r[0].base + AddressCount(r[0]) <= r[j - 1].base; }
          }
        }
      }
    }
  }

  lemma DroppedIsInside(kept: Prefix, p: Prefix)
    requires Masked(kept) && Masked(p) && InOrder(kept, p) && Contains(kept, p.base)
    ensures forall a: int :: Contains(p, a) ==> Contains(kept, a)
  {
    assert Contains(p, p.base) by { assert AddressCount(p) >= 1; }
    if p.bits < kept.bits {
      Laminar(p, kept, p.base);
    } else {
      Laminar(kept, p, p.base);
    }
  }

  /** Removing overlaps keeps the union and leaves ascending, pairwise disjoint blocks. */
  lemma WithoutOverlapsLaws(ps: seq<Prefix>)
    requires AllMasked(ps)
    ensures Separated(WithoutOverlaps(ps))
    ensures SameCoverage(WithoutOverlaps(ps), ps)
    ensures forall p :: p in WithoutOverlaps(ps) ==> p in ps
  {
    hide Aligned, Pow2, Sorted;
    SortedMasked(ps);
    var s := Sorted(ps);
    var r := WithoutOverlaps(ps);
    SweepFrom(s, -1);
    forall p | p in r ensures p in ps {
      assert p in multiset(s);
    }
    if s != [] {
      assert s == [s[0]] + s[1..];
      SweepLaws(s[1..], s[0]);
      var tail := Sweep(s[1..], s[0].base + AddressCount(s[0]) - 1);
      assert r == [s[0]] + tail;
      forall a: int ensures Covered(r, a) <==> Covered(s, a) {
        CoveredCons(s, a);
        assert r[1..] == tail;
        CoveredCons(r, a);
      }
    }
    forall a: int ensures Covered(r, a) <==> Covered(ps, a) {
      if Covered(s, a) { CoveredRearranged(s, ps, a); }
      if Covered(ps, a) { CoveredRearranged(ps, s, a); }
    }
  }

  // ---- Classes ----

  /** The two endpoints decide for every address of a block no wider than /24. */
  lemma EndpointsDecide(p: Prefix, a: int)
    requires Masked(p) && 24 <= p.bits && Contains(p, a)
    ensures Classify(p) == AddressVerdict(a)
  {
    SameTwentyFour(p, a);
    SameTwentyFour(p, p.base);
    SameTwentyFour(p, p.base + AddressCount(p) - 1);
    MaskedFits(p);
    var q := p.base / 256;
    VerdictOfTwentyFour(q, a);
    VerdictOfTwentyFour(q, p.base);
    VerdictOfTwentyFour(q, p.base + AddressCount(p) - 1);
  }

  lemma SameTwentyFour(p: Prefix, a: int)
    requires Masked(p) && 24 <= p.bits && Contains(p, a)
    ensures 256 * (p.base / 256) <= a < 256 * (p.base / 256) + 256
  {
    Pow2Values();
    var outer := Prefix(256 * (p.base / 256), 24);
    MultipleOf(p.base / 256, 256);
    assert Masked(outer);
    Laminar(outer, p, p.base);
  }

  // Private space, global-unicast space and every special block begin and end on /24 boundaries.
  lemma VerdictOfTwentyFour(q: nat, a: int)
    requires 256 * q <= a < 256 * q + 256 && a < SPACE
    ensures IsPrivate(a) == IsPrivate(256 * q)
    ensures IsSpecial(a) == IsSpecial(256 * q)
    ensures !IsGlobalUnicast(a) ==> IsSpecial(a)
  {
  }

  // ---- Sizes ----

  ghost function AddressesOf(ps: seq<Prefix>): set<int>
    requires AllMasked(ps)
  {
    if ps == [] then {} else AddressesOf(ps[..|ps| - 1]) + AddressSet(ps[|ps| - 1])
  }

  lemma {:induction false} AddressesAreCovered(ps: seq<Prefix>, a: int)
    requires AllMasked(ps)
    ensures a in AddressesOf(ps) <==> Covered(ps, a)
  {
    if ps != [] {
      var front, last := ps[..|ps| - 1], ps[|ps| - 1];
      AddressesAreCovered(front, a);
      assert ps == front + [last];
      CoveredConcat(front, [last], a);
      assert Covered([last], a) <==> Contains(last, a) by {
        CoveredCons([last], a);
      }
    }
  }

  lemma SeparatedLast(ps: seq<Prefix>)
    requires AllMasked(ps) && Separated(ps) && ps != []
    ensures Separated(ps[..|ps| - 1])
    ensures AddressesOf(ps[..|ps| - 1]) !! AddressSet(ps[|ps| - 1])
  {
    hide Aligned, Pow2;
    var front, last := ps[..|ps| - 1], ps[|ps| - 1];
    forall a | a in AddressesOf(front) ensures a !in AddressSet(last) {
      AddressesAreCovered(front, a);
      var i :| 0 <= i < |front| && Contains(front[i], a);
      assert ps[i] == front[i];
    }
  }

  lemma {:induction false} SeparatedSize(ps: seq<Prefix>)
    requires AllMasked(ps) && Separated(ps)
    ensures |AddressesOf(ps)| == TotalCount(ps)
  {
    hide Aligned, Pow2, Separated, Interval;
    if ps != [] {
      var last := ps[|ps| - 1];
      SeparatedLast(ps);
      SeparatedSize(ps[..|ps| - 1]);
      IntervalSize(last.base, last.base + AddressCount(last));
    }
  }

  lemma {:induction false} OfClassMembers(ps: seq<Prefix>, cls: Class)
    requires AllMasked(ps)
    ensures AllMasked(OfClass(ps, cls))
    ensures forall p :: p in OfClass(ps, cls) <==> p in ps && Classify(p) == Classified(cls)
  {
    hide Aligned, Pow2, Classify;
    if ps != [] {
      var front, last := ps[..|ps| - 1], ps[|ps| - 1];
      OfClassMembers(front, cls);
      assert ps == front + [last];
    }
  }

  lemma SeparatedAppend(ps: seq<Prefix>, last: Prefix)
    requires AllMasked(ps) && Masked(last) && Separated(ps)
    requires forall p :: p in ps ==> p.base + AddressCount(p) <= last.base
    ensures Separated(ps + [last])
  {
    hide Aligned, Pow2;
    assert forall i :: 0 <= i < |ps| ==> ps[i] in ps;
  }

  lemma SeparatedFront(ps: seq<Prefix>)
    requires AllMasked(ps) && Separated(ps) && ps != []
    ensures Separated(ps[..|ps| - 1])
    ensures forall p :: p in ps[..|ps| - 1] ==> p.base + AddressCount(p) <= ps[|ps| - 1].base
  {
    hide Aligned, Pow2;
    var front := ps[..|ps| - 1];
    assert forall i :: 0 <= i < |front| ==> front[i] == ps[i];
  }

  // Keeping one class of a separated list leaves it separated.
  lemma {:induction false} OfClassLaws(ps: seq<Prefix>, cls: Class)
    requires AllMasked(ps)
    ensures AllMasked(OfClass(ps, cls))
    ensures forall p :: p in OfClass(ps, cls) <==> p in ps && Classify(p) == Classified(cls)
    ensures Separated(ps) ==> Separated(OfClass(ps, cls))
  {
    hide Aligned, Pow2, Classify, Separated;
    OfClassMembers(ps, cls);
    if ps == [] {
      NoneSeparated();
    } else if Separated(ps) {
      var front := ps[..|ps| - 1];
      SeparatedFront(ps);
      OfClassLaws(front, cls);
      SeparatedAppend(OfClass(front, cls), ps[|ps| - 1]);
      assert OfClass(front, cls) + [] == OfClass(front, cls);
    }
  }

  lemma NoneSeparated()
    ensures Separated([])
  {
  }

  // ---- Packing ----

  ghost function Flatten(groups: seq<seq<Prefix>>): seq<Prefix> {
    if groups == [] then [] else groups[0] + Flatten(groups[1..])
  }

  lemma {:induction false} TotalConcat(ps: seq<Prefix>, qs: seq<Prefix>)
    requires AllMasked(ps) && AllMasked(qs)
    ensures AllMasked(ps + qs)
    ensures TotalCount(ps + qs) == TotalCount(ps) + TotalCount(qs)
  {
    if qs == [] {
      assert ps + qs == ps;
    } else {
      TotalConcat(ps, qs[..|qs| - 1]);
      assert (ps + qs)[..|ps + qs| - 1] == ps + qs[..|qs| - 1];
    }
  }

  lemma TotalOne(p: Prefix)
    requires Masked(p)
    ensures TotalCount([p]) == AddressCount(p)
  {
    assert [p][..0] == [];
  }

  lemma TotalPositive(ps: seq<Prefix>)
    requires AllMasked(ps)
    ensures TotalCount(ps) > 0 <==> ps != []
  {
  }

  lemma NarrowCount(p: Prefix)
    requires Masked(p) && 24 <= p.bits
    ensures AddressCount(p) <= 256
  {
    Pow2Values();
    Pow2Monotone(32 - p.bits, 8);
  }

  /** pack keeps order and loses nothing. */
  lemma {:induction false} GroupsKeepOrder(ps: seq<Prefix>, current: seq<Prefix>, limit: nat)
    requires AllMasked(ps) && AllMasked(current)
    ensures Flatten(Groups(ps, current, limit)) == current + ps
    ensures forall g :: g in Groups(ps, current, limit) ==> g != []
    decreases |ps|
  {
    hide Aligned, Pow2, TotalCount;
    if ps != [] {
      TotalPositive(current);
      GroupsKeepOrder(ps[1..], [ps[0]], limit);
      GroupsKeepOrder(ps[1..], current + [ps[0]], limit);
      assert [ps[0]] + ps[1..] == ps;
      assert (current + [ps[0]]) + ps[1..] == current + ps;
      assert current + ([ps[0]] + ps[1..]) == current + ps;
    } else {
      assert Flatten([current]) == current + Flatten([][..]);
      assert current + ps == current;
    }
  }

  ghost function Max(a: nat, b: nat): nat {
    if a > b then a else b
  }

  /** No group of /24-or-narrower blocks exceeds the limit, or 256 when the limit is below that. */
  lemma {:induction false} GroupsBounded(ps: seq<Prefix>, current: seq<Prefix>, limit: nat)
    requires AllMasked(ps) && AllMasked(current) && Narrow(ps)
    requires TotalCount(current) <= Max(limit, 256)
    ensures GroupsMasked(Groups(ps, current, limit))
    ensures forall i :: 0 <= i < |Groups(ps, current, limit)| ==> TotalCount(Groups(ps, current, limit)[i]) <= Max(limit, 256)
    decreases |ps|
  {
    GroupsStayMasked(ps, current, limit);
    if ps != [] {
      TotalOne(ps[0]);
      NarrowCount(ps[0]);
      TotalConcat(current, [ps[0]]);
      GroupsStayMasked(ps[1..], [ps[0]], limit);
      GroupsStayMasked(ps[1..], current + [ps[0]], limit);
      if TotalCount(current) > 0 && TotalCount(current) + AddressCount(ps[0]) > limit {
        GroupsBounded(ps[1..], [ps[0]], limit);
      } else {
        GroupsBounded(ps[1..], current + [ps[0]], limit);
      }
    }
  }

  // A group closes only because the next block no longer fits.
  lemma {:induction false} FirstGroup(ps: seq<Prefix>, current: seq<Prefix>, limit: nat) returns (n: nat)
    requires AllMasked(ps) && AllMasked(current) && current != []
    ensures n <= |ps|
    ensures Groups(ps, current, limit) == [current + ps[..n]] + Groups(ps[n..], [], limit)
    ensures AllMasked(current + ps[..n])
    ensures n < |ps| ==> TotalCount(current + ps[..n]) + AddressCount(ps[n]) > limit
    decreases |ps|
  {
    hide Aligned, Pow2, TotalCount;
    TotalPositive(current);
    if ps == [] {
      n := 0;
      assert current + ps[..0] == current;
    } else if TotalCount(current) + AddressCount(ps[0]) > limit {
      n := 0;
      assert current + ps[..0] == current && ps[0..] == ps;
      NoGroups(limit);
      assert Groups(ps, [], limit) == Groups(ps[1..], [ps[0]], limit) by {
        assert [] + [ps[0]] == [ps[0]];
      }
    } else {
      var m := FirstGroup(ps[1..], current + [ps[0]], limit);
      n := m + 1;
      assert (current + [ps[0]]) + ps[1..][..m] == current + ps[..n];
      assert ps[1..][m..] == ps[n..];
    }
  }

  lemma FirstGroupOf(ps: seq<Prefix>, limit: nat) returns (n: nat)
    requires AllMasked(ps) && ps != []
    ensures 1 <= n <= |ps|
    ensures Groups(ps, [], limit) == [ps[..n]] + Groups(ps[n..], [], limit)
    ensures n < |ps| ==> TotalCount(ps[..n]) + AddressCount(ps[n]) > limit
  {
    hide Aligned, Pow2, TotalCount;
    assert [] + [ps[0]] == [ps[0]];
    NoGroups(limit);
    var m := FirstGroup(ps[1..], [ps[0]], limit);
    n := m + 1;
    assert [ps[0]] + ps[1..][..m] == ps[..n];
    assert ps[1..][m..] == ps[n..];
  }

  // A group another packer could have formed: under the limit, or a single block.
  ghost predicate Admissible(group: seq<Prefix>, limit: nat)
    requires AllMasked(group)
  {
    |group| <= 1 || TotalCount(group) <= limit
  }

  lemma PrefixTotal(ps: seq<Prefix>, m: nat, n: nat)
    requires AllMasked(ps) && m < n <= |ps|
    ensures TotalCount(ps[..m]) + AddressCount(ps[m]) <= TotalCount(ps[..n])
  {
    TotalOne(ps[m]);
    assert ps[..m + 1] == ps[..m] + [ps[m]];
    TotalConcat(ps[..m], [ps[m]]);
    assert ps[..n] == ps[..m + 1] + ps[m + 1..n];
    TotalConcat(ps[..m + 1], ps[m + 1..n]);
  }

  /** No contiguous split into admissible groups uses fewer groups; `ps` may even start later. */
  lemma {:induction false} GroupsFewest(ps: seq<Prefix>, other: seq<seq<Prefix>>, skipped: seq<Prefix>, limit: nat)
    requires AllMasked(ps) && GroupsMasked(other)
    requires Flatten(other) == skipped + ps
    requires forall i :: 0 <= i < |other| ==> Admissible(other[i], limit)
    ensures |Groups(ps, [], limit)| <= |other|
    decreases |other|
  {
    hide Aligned, Pow2, TotalCount, Groups;
    if ps == [] {
      NoGroups(limit);
    } else if other != [] {
      var head, rest := other[0], Flatten(other[1..]);
      assert head + rest == skipped + ps;
      if |ps| <= |rest| {
        var cut := |rest| - |ps|;
        assert rest == rest[..cut] + ps by {
          assert (skipped + ps)[|head|..] == rest;
          assert rest[cut..] == ps;
        }
        GroupsFewest(ps, other[1..], rest[..cut], limit);
      } else {
        var k := |ps| - |rest|;
        assert ps[..k] == head[|head| - k..] && ps[k..] == rest by {
          assert (head + rest)[|skipped|..] == ps;
        }
        var n := FirstGroupOf(ps, limit);
        if n < k {
          PrefixTotal(ps, n, k);
          SuffixTotal(head, |head| - k);
          assert false;
        }
        assert Flatten(other[1..]) == ps[k..n] + ps[n..];
        GroupsFewest(ps[n..], other[1..], ps[k..n], limit);
      }
    }
  }

  lemma SuffixTotal(ps: seq<Prefix>, i: nat)
    requires AllMasked(ps) && i <= |ps|
    ensures AllMasked(ps[i..]) && TotalCount(ps[i..]) <= TotalCount(ps)
  {
    assert ps == ps[..i] + ps[i..];
    TotalConcat(ps[..i], ps[i..]);
  }

  /** Every group but the last is nearly full, which bounds how many there are. */
  lemma {:induction false} GroupsNearlyFull(ps: seq<Prefix>, limit: nat)
    requires AllMasked(ps) && Narrow(ps) && limit >= 256
    ensures var n := |Groups(ps, [], limit)|;
            n > 0 ==> (n - 1) * (limit - 255) < TotalCount(ps)
    decreases |ps|
  {
    hide Aligned, Pow2, TotalCount, Groups;
    if ps == [] {
      NoGroups(limit);
    } else {
      var n := FirstGroupOf(ps, limit);
      assert ps == ps[..n] + ps[n..];
      TotalConcat(ps[..n], ps[n..]);
      TotalPositive(ps);
      if n < |ps| {
        GroupsNearlyFull(ps[n..], limit);
        NarrowCount(ps[n]);
        TotalPositive(ps[n..]);
        var rest := |Groups(ps[n..], [], limit)|;
        var m := FirstGroupOf(ps[n..], limit);
        assert rest * (limit - 255) == (rest - 1) * (limit - 255) + (limit - 255);
      } else {
        assert ps[n..] == [];
        NoGroups(limit);
      }
    }
  }

  lemma NoGroups(limit: nat)
    ensures Groups([], [], limit) == [] && TotalCount([]) == 0
  {
  }

  /** At the default limit, at most ceil(total / 3840) targets per class. */
  lemma DefaultTargetCount(ps: seq<Prefix>)
    requires AllMasked(ps) && Narrow(ps)
    ensures |Groups(ps, [], DEFAULT_MAX_ADDRESSES)| <= (TotalCount(ps) + 3839) / 3840
  {
    GroupsNearlyFull(ps, DEFAULT_MAX_ADDRESSES);
  }
}
