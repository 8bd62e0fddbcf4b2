/** The plan does not depend on input order, survives replanning its own output, and is the
    same for the form's raw entries and for the expanded prefixes the store keeps. */
module PlanStability {
  import opened NetworkClass
  import opened Powers
  import opened Cidr
  import opened RangeToCidr
  import opened Planner
  import opened PlanLaws
  import opened PlanTheorems

  // ---- Sorting is canonical ----

  lemma SortedHead(ps: seq<Prefix>, p: Prefix)
    requires Ordered(ps) && p in multiset(ps)
    ensures InOrder(ps[0], p)
  {
    var i :| 0 <= i < |ps| && ps[i] == p;
  }

  lemma SameHead(p: Prefix, q: Prefix)
    requires InOrder(p, q) && InOrder(q, p)
    ensures p == q
  {
  }

  lemma SplitHead<T>(xs: seq<T>)
    requires xs != []
    ensures xs == [xs[0]] + xs[1..]
    ensures multiset(xs) == multiset(xs[1..]) + multiset{xs[0]}
    ensures xs[0] in multiset(xs)
  {
    assert xs == [xs[0]] + xs[1..];
  }

  lemma SortedTail(ps: seq<Prefix>)
    requires Ordered(ps) && ps != []
    ensures Ordered(ps[1..])
  {
    assert forall i :: 0 <= i < |ps[1..]| ==> ps[1..][i] == ps[i + 1];
  }

  lemma {:induction false} SortedUnique(ps: seq<Prefix>, qs: seq<Prefix>)
    requires Ordered(ps) && Ordered(qs) && multiset(ps) == multiset(qs)
    ensures ps == qs
  {
    hide Ordered, InOrder;
    assert |ps| == |multiset(ps)| == |multiset(qs)| == |qs|;
    if ps != [] {
      SplitHead(ps);
      SplitHead(qs);
      SortedHead(ps, qs[0]);
      SortedHead(qs, ps[0]);
      SameHead(ps[0], qs[0]);
      CancelOne(multiset(ps[1..]), multiset(qs[1..]), ps[0]);
      SortedTail(ps);
      SortedTail(qs);
      SortedUnique(ps[1..], qs[1..]);
    }
  }

  lemma CancelOne<T>(a: multiset<T>, b: multiset<T>, x: T)
    requires a + multiset{x} == b + multiset{x}
    ensures a == b
  {
    forall y ensures a[y] == b[y] {
      assert (a + multiset{x})[y] == (b + multiset{x})[y];
    }
  }

  lemma RearrangedKeepsSame(ps: seq<Prefix>, qs: seq<Prefix>)
    requires AllMasked(ps) && AllMasked(qs) && multiset(ps) == multiset(qs)
    ensures WithoutOverlaps(ps) == WithoutOverlaps(qs)
  {
    SortedUnique(Sorted(ps), Sorted(qs));
  }

  // ---- Rearranged inputs ----

  lemma {:induction false} AllPiecesConcat(xs: seq<NetworkInput>, ys: seq<NetworkInput>)
    requires InputsOK(xs) && InputsOK(ys)
    ensures InputsOK(xs + ys)
    ensures AllPieces(xs + ys) == AllPieces(xs) + AllPieces(ys)
  {
    hide Pieces, InputOK;
    if xs == [] {
      assert xs + ys == ys;
    } else {
      AllPiecesConcat(xs[1..], ys);
      assert (xs + ys)[1..] == xs[1..] + ys;
    }
  }

  lemma PickOut(xs: seq<NetworkInput>, ys: seq<NetworkInput>) returns (before: seq<NetworkInput>, after: seq<NetworkInput>)
    requires xs != [] && multiset(xs) == multiset(ys)
    ensures ys == before + ([xs[0]] + after) && multiset(xs[1..]) == multiset(before + after)
  {
    assert xs[0] in multiset(ys);
    var i :| 0 <= i < |ys| && ys[i] == xs[0];
    before, after := ys[..i], ys[i + 1..];
    assert ys == before + ([xs[0]] + after);
    assert xs == [xs[0]] + xs[1..];
    assert multiset(ys) == multiset(before + after) + multiset{xs[0]};
    assert multiset(xs) == multiset(xs[1..]) + multiset{xs[0]};
    CancelOne(multiset(xs[1..]), multiset(before + after), xs[0]);
  }

  lemma {:induction false} AllPiecesRearranged(xs: seq<NetworkInput>, ys: seq<NetworkInput>)
    requires InputsOK(xs) && InputsOK(ys) && multiset(xs) == multiset(ys)
    ensures multiset(AllPieces(xs)) == multiset(AllPieces(ys))
  {
    hide Pieces, InputOK;
    if xs == [] {
      assert |multiset(ys)| == 0;
    } else {
      var before, after := PickOut(xs, ys);
      assert forall i :: 0 <= i < |before| ==> before[i] == ys[i];
      assert forall i :: 0 <= i < |after| ==> after[i] == ys[|before| + 1 + i];
      AllPiecesConcat(before, [xs[0]] + after);
      AllPiecesConcat(before, after);
      AllPiecesRearranged(xs[1..], before + after);
      assert ([xs[0]] + after)[1..] == after;
    }
  }

  /** Every order of the inputs is accepted or rejected alike and yields the same targets. */
  lemma PlanIgnoresInputOrder(xs: seq<NetworkInput>, ys: seq<NetworkInput>, limit: nat, ts: seq<Target>)
    requires InputsOK(xs) && multiset(xs) == multiset(ys)
    ensures InputsOK(ys)
    ensures BuiltFrom(xs, limit, ts) <==> BuiltFrom(ys, limit, ts)
  {
    hide InputOK, AllPieces, AddInputs, Fits, WithoutOverlaps, IsPlanOf, Masked, MAX_EXPANDED_PREFIXES;
    forall i | 0 <= i < |ys| ensures InputOK(ys[i]) {
      assert ys[i] in multiset(xs);
    }
    AllPiecesRearranged(xs, ys);
    assert |AllPieces(xs)| == |multiset(AllPieces(xs))| == |multiset(AllPieces(ys))| == |AllPieces(ys)|;
    if AllFit(xs) { SameFit(xs, ys); }
    if AllFit(ys) { SameFit(ys, xs); }
    AddInputsOutcome(xs, []);
    AddInputsOutcome(ys, []);
    AllPiecesMasked(xs);
    AllPiecesMasked(ys);
    assert [] + AllPieces(xs) == AllPieces(xs) && [] + AllPieces(ys) == AllPieces(ys);
    RearrangedKeepsSame(AllPieces(xs), AllPieces(ys));
  }

  lemma SameFit(xs: seq<NetworkInput>, ys: seq<NetworkInput>)
    requires InputsOK(xs) && InputsOK(ys) && multiset(xs) == multiset(ys) && AllFit(xs)
    ensures AllFit(ys)
  {
    hide Fits, InputOK;
    forall i | 0 <= i < |ys| ensures Fits(ys[i]) {
      assert ys[i] in multiset(xs);
      var j :| 0 <= j < |xs| && xs[j] == ys[i];
    }
  }

  // ---- Prefix lists as inputs ----

  ghost function AsNetworks(ps: seq<Prefix>): (r: seq<NetworkInput>)
    requires AllMasked(ps)
    ensures InputsOK(r) && |r| == |ps|
  {
    if ps == [] then [] else [Network(ps[0])] + AsNetworks(ps[1..])
  }

  lemma NetworkPieces(p: Prefix)
    requires Masked(p)
    ensures InputOK(Network(p)) && Pieces(Network(p)) == SplitPieces(p)
    ensures !Wide(p) ==> Fits(Network(p))
  {
    hide Aligned, Pow2, SplitPieces;
    assert Expand(Network(p)) == Blocks([p]);
    assert SplitAll([p]) == SplitPieces(p) + SplitAll([p][1..]);
  }

  lemma {:induction false} AsNetworksPieces(ps: seq<Prefix>)
    requires AllMasked(ps)
    ensures AllPieces(AsNetworks(ps)) == SplitAll(ps)
    ensures (forall i :: 0 <= i < |ps| ==> !Wide(ps[i])) ==> AllFit(AsNetworks(ps))
  {
    hide Masked, Pieces, Fits, SplitPieces, InputOK;
    if ps != [] {
      NetworkPieces(ps[0]);
      var xs, rest := AsNetworks(ps), AsNetworks(ps[1..]);
      AsNetworksPieces(ps[1..]);
      assert xs[1..] == rest;
      if forall i :: 0 <= i < |ps| ==> !Wide(ps[i]) {
        assert forall i :: 0 <= i < |ps[1..]| ==> !Wide(ps[1..][i]);
        assert forall i :: 1 <= i < |xs| ==> xs[i] == rest[i - 1];
      }
    }
  }

  lemma {:induction false} SplitNarrow(ps: seq<Prefix>)
    requires AllMasked(ps) && Narrow(ps)
    ensures SplitAll(ps) == ps
  {
    if ps != [] {
      SplitNarrow(ps[1..]);
    }
  }

  lemma {:induction false} AsNetworksRearranged(ps: seq<Prefix>)
    requires AllMasked(ps)
    ensures forall p :: multiset(AsNetworks(ps))[Network(p)] == multiset(ps)[p]
    ensures forall x :: x in multiset(AsNetworks(ps)) ==> x.Network?
  {
    if ps != [] {
      AsNetworksRearranged(ps[1..]);
      assert ps == [ps[0]] + ps[1..];
    }
  }

  // ---- Replanning the output ----

  ghost function AllPrefixes(ts: seq<Target>): seq<Prefix> {
    if ts == [] then [] else ts[0].prefixes + AllPrefixes(ts[1..])
  }

  lemma {:induction false} AllPrefixesConcat(ts: seq<Target>, us: seq<Target>)
    ensures AllPrefixes(ts + us) == AllPrefixes(ts) + AllPrefixes(us)
  {
    if ts == [] {
      assert ts + us == us;
    } else {
      AllPrefixesConcat(ts[1..], us);
      assert (ts + us)[1..] == ts[1..] + us && (ts + us)[0] == ts[0];
      var p, q, r := ts[0].prefixes, AllPrefixes(ts[1..]), AllPrefixes(us);
      assert p + (q + r) == (p + q) + r;
    }
  }

  lemma {:induction false} AllPrefixesOfGroups(ts: seq<Target>, groups: seq<seq<Prefix>>)
    requires |ts| == |groups| && forall i :: 0 <= i < |ts| ==> ts[i].prefixes == groups[i]
    ensures AllPrefixes(ts) == Flatten(groups)
  {
    if ts != [] {
      AllPrefixesOfGroups(ts[1..], groups[1..]);
    }
  }

  lemma PackedPrefixes(cls: Class, ps: seq<Prefix>, limit: nat)
    requires AllMasked(ps)
    ensures AllPrefixes(Packed(cls, ps, limit)) == ps
  {
    GroupsStayMasked(ps, [], limit);
    GroupsKeepOrder(ps, [], limit);
    AllPrefixesOfGroups(Packed(cls, ps, limit), Groups(ps, [], limit));
  }

  lemma OfClassLast(ps: seq<Prefix>)
    requires AllMasked(ps) && ps != [] && Classify(ps[|ps| - 1]).Classified?
    ensures multiset(OfClass(ps, PrivateIP)) + multiset(OfClass(ps, WAN))
         == multiset(OfClass(ps[..|ps| - 1], PrivateIP)) + multiset(OfClass(ps[..|ps| - 1], WAN))
          + multiset{ps[|ps| - 1]}
  {
    hide Classify, Aligned, Pow2;
    var cls := Classify(ps[|ps| - 1]).cls;
    assert cls == PrivateIP || cls == WAN;
  }

  lemma {:induction false} ClassesPartition(ps: seq<Prefix>)
    requires AllMasked(ps) && AllScannable(ps)
    ensures multiset(OfClass(ps, PrivateIP)) + multiset(OfClass(ps, WAN)) == multiset(ps)
  {
    hide Classify, Aligned, Pow2;
    if ps != [] {
      var front, last := ps[..|ps| - 1], ps[|ps| - 1];
      ClassesPartition(front);
      assert multiset(ps) == multiset(front) + multiset{last} by { assert ps == front + [last]; }
      OfClassLast(ps);
    }
  }

  lemma {:induction false} SweepOfSeparated(ps: seq<Prefix>, covered: int)
    requires AllMasked(ps) && Separated(ps)
    requires ps != [] ==> covered < ps[0].base
    ensures Sweep(ps, covered) == ps
  {
    hide Aligned, Pow2;
    if ps != [] {
      assert Separated(ps[1..]) by {
        forall i, j | 0 <= i < j < |ps[1..]| ensures ps[1..][i].base + AddressCount(ps[1..][i]) <= ps[1..][j].base {
          assert ps[i + 1].base + AddressCount(ps[i + 1]) <= ps[j + 1].base;
        }
      }
      SweepOfSeparated(ps[1..], ps[0].base + AddressCount(ps[0]) - 1);
    }
  }

  lemma SeparatedIsKept(ps: seq<Prefix>)
    requires AllMasked(ps) && Separated(ps)
    ensures WithoutOverlaps(ps) == ps
  {
    hide Aligned, Pow2;
    assert Ordered(ps) by {
      forall i, j | 0 <= i < j < |ps| ensures InOrder(ps[i], ps[j]) {
        assert ps[i].base + AddressCount(ps[i]) <= ps[j].base;
      }
    }
    SortedUnique(Sorted(ps), ps);
    SweepOfSeparated(ps, -1);
  }

  lemma {:induction false} SweepShrinks(ps: seq<Prefix>, covered: int)
    requires AllMasked(ps)
    ensures |Sweep(ps, covered)| <= |ps|
  {
    if ps != [] {
      SweepShrinks(ps[1..], covered);
      SweepShrinks(ps[1..], ps[0].base + AddressCount(ps[0]) - 1);
    }
  }

  lemma KeptIsSmaller(ps: seq<Prefix>)
    requires AllMasked(ps)
    ensures |WithoutOverlaps(ps)| <= |ps|
  {
    SortedMasked(ps);
    assert |Sorted(ps)| == |multiset(Sorted(ps))| == |multiset(ps)| == |ps|;
    SweepShrinks(Sorted(ps), -1);
  }

  lemma TargetPrefixes(kept: seq<Prefix>, limit: nat)
    requires AllMasked(kept) && Narrow(kept) && Separated(kept)
    ensures AllMasked(OfClass(kept, PrivateIP)) && AllMasked(OfClass(kept, WAN))
    ensures AllPrefixes(TargetsFor(kept, limit)) == OfClass(kept, PrivateIP) + OfClass(kept, WAN)
  {
    hide Packed, OfClass, Separated, Masked;
    NarrowOfClass(kept, PrivateIP);
    NarrowOfClass(kept, WAN);
    PackedPrefixes(PrivateIP, OfClass(kept, PrivateIP), limit);
    PackedPrefixes(WAN, OfClass(kept, WAN), limit);
    AllPrefixesConcat(Packed(PrivateIP, OfClass(kept, PrivateIP), limit), Packed(WAN, OfClass(kept, WAN), limit));
  }

  lemma PlanPrefixesAreKept(inputs: seq<NetworkInput>, limit: nat, ts: seq<Target>)
    requires BuiltFrom(inputs, limit, ts)
    ensures AllMasked(AllPrefixes(ts)) && Narrow(AllPrefixes(ts))
    ensures multiset(AllPrefixes(ts)) == multiset(Kept(inputs))
  {
    hide Kept, TargetsFor, OfClass, Separated, Masked, IsPlanOf;
    BuiltFacts(inputs, limit, ts);
    var kept := Kept(inputs);
    TargetPrefixes(kept, limit);
    ClassesPartition(kept);
    var r := AllPrefixes(ts);
    forall i | 0 <= i < |r| ensures r[i] in kept {
      assert r[i] in multiset(r);
      assert r[i] in multiset(kept);
    }
  }

  /** A plan rebuilt from its own target prefixes is the same plan. */
  lemma PlanIsFixedPoint(inputs: seq<NetworkInput>, limit: nat, ts: seq<Target>)
    requires BuiltFrom(inputs, limit, ts)
    ensures AllMasked(AllPrefixes(ts))
    ensures BuiltFrom(AsNetworks(AllPrefixes(ts)), limit, ts)
  {
    hide Separated, Aligned, Pow2, Classify, TargetsFor, InputOK;
    PlanPrefixesAreKept(inputs, limit, ts);
    BuiltFacts(inputs, limit, ts);
    var kept := Kept(inputs);
    var again := AllPrefixes(ts);
    var xs := AsNetworks(again);
    AsNetworksPieces(again);
    SplitNarrow(again);
    AllPiecesMasked(inputs);
    KeptIsSmaller(AllPieces(inputs));
    assert |again| == |multiset(again)| == |multiset(kept)| == |kept|;
    AddInputsOutcome(xs, []);
    assert [] + again == again;
    RearrangedKeepsSame(again, kept);
    SeparatedIsKept(kept);
  }

  // ---- Raw entries and stored prefixes ----

  // The prefixes the form stores: every entry expanded, not yet split.
  ghost function Stored(inputs: seq<NetworkInput>): (r: seq<Prefix>)
    requires InputsOK(inputs) && AllFit(inputs)
    ensures AllMasked(r)
  {
    if inputs == [] then []
    else
      assert Fits(inputs[0]);
      ExpandMasked(inputs[0]);
      assert AllFit(inputs[1..]) by { assert forall i :: 1 <= i < |inputs| ==> inputs[1..][i - 1] == inputs[i]; }
      Expand(inputs[0]).prefixes + Stored(inputs[1..])
  }

  lemma {:induction false} SplitAllConcat(ps: seq<Prefix>, qs: seq<Prefix>)
    requires AllMasked(ps) && AllMasked(qs)
    ensures AllMasked(ps + qs)
    ensures SplitAll(ps + qs) == SplitAll(ps) + SplitAll(qs)
  {
    hide SplitPieces, Masked;
    if ps == [] {
      assert ps + qs == qs;
    } else {
      SplitAllConcat(ps[1..], qs);
      assert (ps + qs)[1..] == ps[1..] + qs;
    }
  }

  lemma {:induction false} StoredPieces(inputs: seq<NetworkInput>)
    requires InputsOK(inputs) && AllFit(inputs)
    ensures SplitAll(Stored(inputs)) == AllPieces(inputs)
    ensures forall i :: 0 <= i < |Stored(inputs)| ==> !Wide(Stored(inputs)[i])
  {
    hide Expand, InputOK;
    if inputs != [] {
      assert Fits(inputs[0]);
      ExpandMasked(inputs[0]);
      assert AllFit(inputs[1..]) by { assert forall i :: 1 <= i < |inputs| ==> inputs[1..][i - 1] == inputs[i]; }
      StoredPieces(inputs[1..]);
      SplitAllConcat(Expand(inputs[0]).prefixes, Stored(inputs[1..]));
    }
  }

  /** Planning the stored prefixes, in any order, gives the plan of the entries they came from. */
  lemma StoredPrefixesGiveSamePlan(inputs: seq<NetworkInput>, rows: seq<Prefix>, limit: nat, ts: seq<Target>)
    requires BuiltFrom(inputs, limit, ts)
    requires AllFit(inputs) ==> multiset(rows) == multiset(Stored(inputs))
    ensures AllMasked(rows) && BuiltFrom(AsNetworks(rows), limit, ts)
  {
    hide Aligned, Pow2, IsPlanOf, InputOK;
    BuiltFacts(inputs, limit, ts);
    var stored := Stored(inputs);
    StoredPieces(inputs);
    AsNetworksPieces(stored);
    AddInputsOutcome(inputs, []);
    AddInputsOutcome(AsNetworks(stored), []);
    assert [] + AllPieces(inputs) == AllPieces(inputs);
    assert BuiltFrom(AsNetworks(stored), limit, ts);
    forall i | 0 <= i < |rows| ensures Masked(rows[i]) {
      assert rows[i] in multiset(stored);
    }
    AsNetworksRearranged(rows);
    AsNetworksRearranged(stored);
    SameMultiset(AsNetworks(rows), AsNetworks(stored), rows, stored);
    PlanIgnoresInputOrder(AsNetworks(stored), AsNetworks(rows), limit, ts);
  }

  lemma SameMultiset(xs: seq<NetworkInput>, ys: seq<NetworkInput>, ps: seq<Prefix>, qs: seq<Prefix>)
    requires multiset(ps) == multiset(qs)
    requires forall p :: multiset(xs)[Network(p)] == multiset(ps)[p] && multiset(ys)[Network(p)] == multiset(qs)[p]
    requires forall x :: x in multiset(xs) || x in multiset(ys) ==> x.Network?
    ensures multiset(xs) == multiset(ys)
  {
    forall x ensures multiset(xs)[x] == multiset(ys)[x] {
      if x in multiset(xs) || x in multiset(ys) {
        assert x == Network(x.prefix);
      }
    }
  }
}
