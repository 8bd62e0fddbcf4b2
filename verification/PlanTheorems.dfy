/** Theorems about whole plans: conservation, independence of input order, fixed points. */
module PlanTheorems {
  import opened NetworkClass
  import opened Powers
  import opened Cidr
  import opened RangeToCidr
  import opened Planner
  import opened PlanLaws

  // Build accepted the inputs and produced these targets.
  ghost predicate BuiltFrom(inputs: seq<NetworkInput>, limit: nat, ts: seq<Target>) {
    && InputsOK(inputs)
    && AddInputs(inputs, []).Prefixes?
    && AllMasked(AddInputs(inputs, []).prefixes)
    && IsPlanOf(WithoutOverlaps(AddInputs(inputs, []).prefixes), limit, Planned(ts))
  }

  ghost predicate TargetsMasked(ts: seq<Target>) {
    forall i :: 0 <= i < |ts| ==> AllMasked(ts[i].prefixes)
  }

  ghost predicate TargetsCover(ts: seq<Target>, a: int)
    requires TargetsMasked(ts)
  {
    exists i :: 0 <= i < |ts| && Covered(ts[i].prefixes, a)
  }

  ghost function SumCounts(ts: seq<Target>): nat {
    if ts == [] then 0 else ts[0].addressCount + SumCounts(ts[1..])
  }

  // The blocks a plan scans: overlap-free, masked, /24 or narrower, all scannable.
  ghost function Kept(inputs: seq<NetworkInput>): (r: seq<Prefix>)
    requires InputsOK(inputs)
    ensures AllMasked(r) && Narrow(r) && Separated(r)
  {
    AllPiecesMasked(inputs);
    var ps := AllPieces(inputs);
    WithoutOverlapsLaws(ps);
    var r := WithoutOverlaps(ps);
    assert forall i :: 0 <= i < |r| ==> r[i] in r && r[i] in ps;
    r
  }

  lemma BuiltFacts(inputs: seq<NetworkInput>, limit: nat, ts: seq<Target>)
    requires BuiltFrom(inputs, limit, ts)
    ensures AllScannable(Kept(inputs)) && ts == TargetsFor(Kept(inputs), limit) && |ts| <= MAX_TARGETS_PER_PLAN
    ensures AllFit(inputs) && |AllPieces(inputs)| <= MAX_EXPANDED_PREFIXES
  {
    AddInputsOutcome(inputs, []);
    assert [] + AllPieces(inputs) == AllPieces(inputs);
  }

  // ---- One class ----

  lemma {:induction false} FlattenLaws(groups: seq<seq<Prefix>>)
    requires GroupsMasked(groups)
    ensures AllMasked(Flatten(groups))
    ensures forall a: int :: Covered(Flatten(groups), a) <==> exists i :: 0 <= i < |groups| && Covered(groups[i], a)
    ensures forall i, p :: 0 <= i < |groups| && p in groups[i] ==> p in Flatten(groups)
  {
    if groups != [] {
      var rest := groups[1..];
      FlattenLaws(rest);
      forall a: int
        ensures Covered(Flatten(groups), a) <==> exists i :: 0 <= i < |groups| && Covered(groups[i], a)
      {
        CoveredConcat(groups[0], Flatten(rest), a);
        if i :| 0 <= i < |rest| && Covered(rest[i], a) {
          assert groups[i + 1] == rest[i];
        }
        if i :| 1 <= i < |groups| && Covered(groups[i], a) {
          assert rest[i - 1] == groups[i];
        }
      }
      forall i, p | 0 <= i < |groups| && p in groups[i] ensures p in Flatten(groups) {
        if i > 0 { assert rest[i - 1] == groups[i]; }
      }
    }
  }

  lemma SeparatedParts(ps: seq<Prefix>, qs: seq<Prefix>)
    requires AllMasked(ps) && AllMasked(qs) && Separated(ps + qs)
    ensures Separated(ps) && Separated(qs)
    ensures forall a: int :: !(Covered(ps, a) && Covered(qs, a))
  {
    hide Aligned, Pow2;
    var s := ps + qs;
    assert forall i :: 0 <= i < |ps| ==> s[i] == ps[i];
    assert forall i :: 0 <= i < |qs| ==> s[|ps| + i] == qs[i];
    forall i, j | 0 <= i < j < |qs| ensures qs[i].base + AddressCount(qs[i]) <= qs[j].base {
      assert s[|ps| + i].base + AddressCount(s[|ps| + i]) <= s[|ps| + j].base;
    }
    forall i, j | 0 <= i < |ps| && 0 <= j < |qs| ensures ps[i].base + AddressCount(ps[i]) <= qs[j].base {
      assert s[i].base + AddressCount(s[i]) <= s[|ps| + j].base;
    }
  }

  lemma {:induction false} GroupsDisjoint(groups: seq<seq<Prefix>>)
    requires GroupsMasked(groups)
    requires AllMasked(Flatten(groups)) && Separated(Flatten(groups))
    ensures forall i :: 0 <= i < |groups| ==> Separated(groups[i])
    ensures forall i, j, a: int :: 0 <= i < j < |groups| ==> !(Covered(groups[i], a) && Covered(groups[j], a))
  {
    hide Aligned, Pow2, Separated, Covered;
    if groups != [] {
      var rest := groups[1..];
      FlattenLaws(rest);
      SeparatedParts(groups[0], Flatten(rest));
      GroupsDisjoint(rest);
      assert forall i :: 1 <= i < |groups| ==> groups[i] == rest[i - 1];
      forall i, j, a: int | 0 <= i < j < |groups| ensures !(Covered(groups[i], a) && Covered(groups[j], a)) {
        if i == 0 && Covered(groups[j], a) {
          assert Covered(rest[j - 1], a);
          assert Covered(Flatten(rest), a);
        }
        if i > 0 { assert !(Covered(rest[i - 1], a) && Covered(rest[j - 1], a)); }
      }
    }
  }

  lemma {:induction false} SumOfGroups(cls: Class, groups: seq<seq<Prefix>>, ts: seq<Target>)
    requires GroupsMasked(groups) && AllMasked(Flatten(groups))
    requires |ts| == |groups| && forall i :: 0 <= i < |ts| ==> ts[i].addressCount == TotalCount(groups[i])
    ensures SumCounts(ts) == TotalCount(Flatten(groups))
  {
    if groups != [] {
      FlattenLaws(groups[1..]);
      SumOfGroups(cls, groups[1..], ts[1..]);
      TotalConcat(groups[0], Flatten(groups[1..]));
    }
  }

  // Coverage and separation of the targets of one class.
  lemma PackedCoverage(cls: Class, ps: seq<Prefix>, limit: nat)
    requires AllMasked(ps) && Separated(ps)
    ensures var ts := Packed(cls, ps, limit);
            && TargetsMasked(ts)
            && (forall a: int :: TargetsCover(ts, a) <==> Covered(ps, a))
            && NoSharedAddress(ts)
  {
    hide Aligned, Pow2, Separated, Covered, TotalCount, Groups;
    var groups := Groups(ps, [], limit);
    var ts := Packed(cls, ps, limit);
    GroupsKeepOrder(ps, [], limit);
    assert [] + ps == ps;
    GroupsStayMasked(ps, [], limit);
    FlattenLaws(groups);
    GroupsDisjoint(groups);
    forall a: int ensures TargetsCover(ts, a) <==> Covered(ps, a) {
      if i :| 0 <= i < |groups| && Covered(groups[i], a) {
        assert Covered(ts[i].prefixes, a);
      }
    }
  }

  // Their sizes.
  lemma PackedSizes(cls: Class, ps: seq<Prefix>, limit: nat)
    requires AllMasked(ps) && Narrow(ps) && Separated(ps)
    ensures var ts := Packed(cls, ps, limit);
            TargetsMasked(ts) && CountsTrue(ts, Max(limit, 256)) && SumCounts(ts) == |AddressesOf(ps)|
  {
    hide Aligned, Pow2, Separated, TotalCount, Groups, AddressesOf;
    var groups := Groups(ps, [], limit);
    var ts := Packed(cls, ps, limit);
    GroupsKeepOrder(ps, [], limit);
    assert [] + ps == ps;
    GroupsStayMasked(ps, [], limit);
    GroupsDisjoint(groups);
    NoGroups(limit);
    GroupsBounded(ps, [], limit);
    SumOfGroups(cls, groups, ts);
    SeparatedSize(ps);
    forall i | 0 <= i < |ts|
      ensures Separated(ts[i].prefixes) && ts[i].prefixes != []
      ensures ts[i].addressCount == |AddressesOf(ts[i].prefixes)| <= Max(limit, 256)
    {
      SeparatedSize(groups[i]);
      assert groups[i] in groups;
    }
  }

  // Their class, address by address, and their numbering.
  lemma PackedVerdicts(cls: Class, ps: seq<Prefix>, limit: nat)
    requires AllMasked(ps) && Narrow(ps)
    requires forall i :: 0 <= i < |ps| ==> Classify(ps[i]) == Classified(cls)
    ensures var ts := Packed(cls, ps, limit);
            && TargetsMasked(ts) && ClassesTrue(ts)
            && forall i :: 0 <= i < |ts| ==> ts[i].cls == cls && ts[i].sequence == i + 1
  {
    hide Aligned, Pow2, Classify, AddressVerdict, TotalCount, Groups;
    var groups := Groups(ps, [], limit);
    var ts := Packed(cls, ps, limit);
    GroupsKeepOrder(ps, [], limit);
    assert [] + ps == ps;
    GroupsStayMasked(ps, [], limit);
    FlattenLaws(groups);
    forall i, a: int | 0 <= i < |ts| && Covered(ts[i].prefixes, a) ensures AddressVerdict(a) == Classified(cls) {
      var k :| 0 <= k < |groups[i]| && Contains(groups[i][k], a);
      assert groups[i][k] in ps;
      EndpointsDecide(groups[i][k], a);
    }
  }

  // ---- Conservation ----

  ghost predicate NoSharedAddress(ts: seq<Target>)
    requires TargetsMasked(ts)
  {
    forall i, j, a: int :: 0 <= i < j < |ts| ==> !(Covered(ts[i].prefixes, a) && Covered(ts[j].prefixes, a))
  }

  // Every address of every target has the target's class, so none is special-use.
  ghost predicate ClassesTrue(ts: seq<Target>)
    requires TargetsMasked(ts)
  {
    forall i, a: int :: 0 <= i < |ts| && Covered(ts[i].prefixes, a) ==> AddressVerdict(a) == Classified(ts[i].cls)
  }

  // Inside a target the blocks ascend without overlap and the stored count is their size.
  ghost predicate CountsTrue(ts: seq<Target>, bound: nat)
    requires TargetsMasked(ts)
  {
    forall i :: 0 <= i < |ts| ==>
      && Separated(ts[i].prefixes) && ts[i].prefixes != []
      && ts[i].addressCount == |AddressesOf(ts[i].prefixes)| <= bound
  }

  ghost function NamedAddresses(inputs: seq<NetworkInput>): set<int>
    requires InputsOK(inputs)
  {
    set a: int | 0 <= a < SPACE && InputsName(inputs, a)
  }

  lemma {:induction false} SumConcat(ts: seq<Target>, us: seq<Target>)
    ensures SumCounts(ts + us) == SumCounts(ts) + SumCounts(us)
  {
    if ts == [] {
      assert ts + us == us;
    } else {
      SumConcat(ts[1..], us);
      assert (ts + us)[1..] == ts[1..] + us;
    }
  }

  // The addresses of one class are kept addresses of that class.
  lemma OfClassVerdict(kept: seq<Prefix>, cls: Class, a: int)
    requires AllMasked(kept) && Narrow(kept)
    ensures AllMasked(OfClass(kept, cls))
    ensures Covered(OfClass(kept, cls), a) ==> Covered(kept, a) && AddressVerdict(a) == Classified(cls)
  {
    hide Classify, AddressVerdict, Aligned, Pow2, OfClass;
    var r := OfClass(kept, cls);
    OfClassLaws(kept, cls);
    if Covered(r, a) {
      var i :| 0 <= i < |r| && Contains(r[i], a);
      assert r[i] in r;
      CoveredBy(kept, r[i], a);
      EndpointsDecide(r[i], a);
    }
  }

  lemma KeptClasses(kept: seq<Prefix>, a: int)
    requires AllMasked(kept) && Narrow(kept) && AllScannable(kept)
    ensures AllMasked(OfClass(kept, PrivateIP)) && AllMasked(OfClass(kept, WAN))
    ensures Covered(kept, a) <==> Covered(OfClass(kept, PrivateIP), a) || Covered(OfClass(kept, WAN), a)
    ensures !(Covered(OfClass(kept, PrivateIP), a) && Covered(OfClass(kept, WAN), a))
  {
    hide Classify, AddressVerdict, Aligned, Pow2, OfClass;
    OfClassVerdict(kept, PrivateIP, a);
    OfClassVerdict(kept, WAN, a);
    if Covered(kept, a) {
      var i :| 0 <= i < |kept| && Contains(kept[i], a);
      var cls := Classify(kept[i]).cls;
      OfClassLaws(kept, cls);
      assert kept[i] in OfClass(kept, cls);
      CoveredBy(OfClass(kept, cls), kept[i], a);
      assert cls == PrivateIP || cls == WAN;
    }
  }

  lemma NamedAreKept(inputs: seq<NetworkInput>, a: int)
    requires InputsOK(inputs)
    ensures Covered(Kept(inputs), a) <==> InputsName(inputs, a)
    ensures InputsName(inputs, a) ==> 0 <= a < SPACE
  {
    hide Aligned, Pow2;
    AllPiecesMasked(inputs);
    WithoutOverlapsLaws(AllPieces(inputs));
    AllPiecesCover(inputs, a);
    if Covered(Kept(inputs), a) {
      var i :| 0 <= i < |Kept(inputs)| && Contains(Kept(inputs)[i], a);
      MaskedFits(Kept(inputs)[i]);
    }
  }

  lemma NarrowOfClass(kept: seq<Prefix>, cls: Class)
    requires AllMasked(kept) && Narrow(kept) && Separated(kept)
    ensures AllMasked(OfClass(kept, cls)) && Narrow(OfClass(kept, cls)) && Separated(OfClass(kept, cls))
    ensures forall i :: 0 <= i < |OfClass(kept, cls)| ==> Classify(OfClass(kept, cls)[i]) == Classified(cls)
  {
    hide Classify, Aligned, Pow2;
    OfClassLaws(kept, cls);
    var r := OfClass(kept, cls);
    assert forall i :: 0 <= i < |r| ==> r[i] in r && r[i] in kept;
  }

  // The plan guarantees carry over to the two classes side by side.
  lemma JoinedClasses(us: seq<Target>, vs: seq<Target>, bound: nat)
    requires TargetsMasked(us) && TargetsMasked(vs)
    requires NoSharedAddress(us) && NoSharedAddress(vs)
    requires forall a: int :: !(TargetsCover(us, a) && TargetsCover(vs, a))
    requires ClassesTrue(us) && ClassesTrue(vs) && CountsTrue(us, bound) && CountsTrue(vs, bound)
    ensures TargetsMasked(us + vs)
    ensures forall a: int :: TargetsCover(us + vs, a) <==> TargetsCover(us, a) || TargetsCover(vs, a)
    ensures NoSharedAddress(us + vs) && ClassesTrue(us + vs) && CountsTrue(us + vs, bound)
  {
    hide AddressVerdict, Separated, Covered, AllMasked, AddressesOf;
    var ts := us + vs;
    assert forall i :: 0 <= i < |ts| ==> ts[i] == if i < |us| then us[i] else vs[i - |us|];
    forall a: int ensures TargetsCover(ts, a) <==> TargetsCover(us, a) || TargetsCover(vs, a) {
      if i :| 0 <= i < |us| && Covered(us[i].prefixes, a) { assert Covered(ts[i].prefixes, a); }
      if i :| 0 <= i < |vs| && Covered(vs[i].prefixes, a) { assert Covered(ts[|us| + i].prefixes, a); }
    }
    forall i, j, a: int | 0 <= i < j < |ts| ensures !(Covered(ts[i].prefixes, a) && Covered(ts[j].prefixes, a)) {
      if Covered(ts[i].prefixes, a) && i < |us| <= j { assert TargetsCover(us, a); assert !TargetsCover(vs, a); }
    }
  }

  /** Build conserves addresses: same union, no address twice, true classes and true sizes. */
  lemma PlanConservesAddresses(inputs: seq<NetworkInput>, limit: nat, ts: seq<Target>)
    requires BuiltFrom(inputs, limit, ts)
    ensures TargetsMasked(ts)
    ensures forall a: int :: TargetsCover(ts, a) <==> InputsName(inputs, a)
    ensures NoSharedAddress(ts) && ClassesTrue(ts) && CountsTrue(ts, Max(limit, 256))
  {
    hide Classify, AddressVerdict, Aligned, Pow2, Separated, Packed, Covered, Kept, OfClass;
    BuiltFacts(inputs, limit, ts);
    var kept := Kept(inputs);
    NarrowOfClass(kept, PrivateIP);
    NarrowOfClass(kept, WAN);
    PackedCoverage(PrivateIP, OfClass(kept, PrivateIP), limit);
    PackedCoverage(WAN, OfClass(kept, WAN), limit);
    PackedSizes(PrivateIP, OfClass(kept, PrivateIP), limit);
    PackedSizes(WAN, OfClass(kept, WAN), limit);
    PackedVerdicts(PrivateIP, OfClass(kept, PrivateIP), limit);
    PackedVerdicts(WAN, OfClass(kept, WAN), limit);
    forall a: int
      ensures InputsName(inputs, a) <==> Covered(OfClass(kept, PrivateIP), a) || Covered(OfClass(kept, WAN), a)
      ensures !(Covered(OfClass(kept, PrivateIP), a) && Covered(OfClass(kept, WAN), a))
    {
      NamedAreKept(inputs, a);
      KeptClasses(kept, a);
    }
    JoinedClasses(Packed(PrivateIP, OfClass(kept, PrivateIP), limit), Packed(WAN, OfClass(kept, WAN), limit), Max(limit, 256));
  }

  /** The target counts sum to the number of addresses the inputs name. */
  lemma PlanCountsEveryAddressOnce(inputs: seq<NetworkInput>, limit: nat, ts: seq<Target>)
    requires BuiltFrom(inputs, limit, ts)
    ensures SumCounts(ts) == |NamedAddresses(inputs)|
  {
    hide Classify, AddressVerdict, Aligned, Pow2, Separated, Packed, Covered, Kept;
    BuiltFacts(inputs, limit, ts);
    var kept := Kept(inputs);
    NarrowOfClass(kept, PrivateIP);
    NarrowOfClass(kept, WAN);
    var private, wan := OfClass(kept, PrivateIP), OfClass(kept, WAN);
    PackedSizes(PrivateIP, private, limit);
    PackedSizes(WAN, wan, limit);
    SumConcat(Packed(PrivateIP, private, limit), Packed(WAN, wan, limit));
    var p, w := AddressesOf(private), AddressesOf(wan);
    forall a: int
      ensures a in NamedAddresses(inputs) <==> a in p || a in w
      ensures !(a in p && a in w)
    {
      NamedAreKept(inputs, a);
      KeptClasses(kept, a);
      AddressesAreCovered(private, a);
      AddressesAreCovered(wan, a);
    }
    assert p !! w;
    assert NamedAddresses(inputs) == p + w;
  }

  // The address total of an analysis: one addition per target, no address counted twice.
  method UniqueAddresses(targets: seq<Target>, ghost inputs: seq<NetworkInput>, ghost limit: nat) returns (total: nat)
    requires BuiltFrom(inputs, limit, targets)
    ensures total == |NamedAddresses(inputs)|
  {
    hide BuiltFrom, NamedAddresses;
    PlanCountsEveryAddressOnce(inputs, limit, targets);
    total := 0;
    for i := 0 to |targets|
      invariant total + SumCounts(targets[i..]) == SumCounts(targets)
    {
      assert targets[i..][0] == targets[i] && targets[i..][1..] == targets[i + 1..];
      total := total + targets[i].addressCount;
    }
  }
}
