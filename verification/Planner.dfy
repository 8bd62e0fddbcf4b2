// The two kinds of address space a target can hold.
module NetworkClass {
  datatype Class = PrivateIP | WAN
}

/** The network planner: inputs to /24-or-narrower blocks, to targets of bounded size. */
module Planner {
  import opened NetworkClass
  import opened Powers
  import opened Cidr
  import opened RangeToCidr

  const DEFAULT_MAX_ADDRESSES: nat := 4095
  const MAX_EXPANDED_PREFIXES: nat := 65_536
  const MAX_TARGETS_PER_PLAN: nat := 1_024

  // One parsed form entry: a masked network or an inclusive range of address numbers.
  datatype NetworkInput = Network(prefix: Prefix) | AddressRange(start: nat, end: nat)

  datatype Target = Target(cls: Class, sequence: nat, prefixes: seq<Prefix>, addressCount: nat)

  datatype PlanError =
    | NameRequired
    | LimitAboveGreenbone
    | RangeStartsAfterEnd
    | NetworkTooWide(prefix: Prefix)
    | TooManyPrefixes
    | SpecialUse(prefix: Prefix)
    | TooManyTargets

  datatype Expanded = Prefixes(prefixes: seq<Prefix>) | ExpandFailed(error: PlanError)

  datatype BuildResult = Planned(targets: seq<Target>) | Rejected(error: PlanError)

  ghost predicate InputOK(input: NetworkInput) {
    match input
    case Network(p) => Masked(p)
    case AddressRange(start, end) => start < SPACE && end < SPACE
  }

  ghost predicate InputsOK(inputs: seq<NetworkInput>) {
    forall i :: 0 <= i < |inputs| ==> InputOK(inputs[i])
  }

  // ---- Expand, split, parseAndExpand ----

  ghost function Expand(input: NetworkInput): RangeResult
    requires InputOK(input)
  {
    match input
    case Network(p) => Blocks([p])
    case AddressRange(start, end) => if start > end then StartsAfterEnd else Blocks(RangeBlocks(start, end))
  }

  lemma ExpandMasked(input: NetworkInput)
    requires InputOK(input) && Expand(input).Blocks?
    ensures AllMasked(Expand(input).prefixes)
  {
    if input.AddressRange? {
      RangeBlocksTile(input.start, input.end);
    }
  }

  // The /24 pieces of a network; networks of /24 or narrower stay whole.
  ghost function SplitPieces(p: Prefix): (r: seq<Prefix>)
    requires p.bits <= 32
  {
    if p.bits >= 24 then [p] else seq(Pow2(24 - p.bits), (i: nat) => Prefix(p.base + 256 * i, 24))
  }

  ghost function AddPrefixes(ps: seq<Prefix>, acc: seq<Prefix>): Expanded
    requires AllMasked(ps)
  {
    if ps == [] then Prefixes(acc)
    else if ps[0].bits < 24 && Pow2(24 - ps[0].bits) > MAX_EXPANDED_PREFIXES then ExpandFailed(NetworkTooWide(ps[0]))
    else if |acc| + |SplitPieces(ps[0])| > MAX_EXPANDED_PREFIXES then ExpandFailed(TooManyPrefixes)
    else AddPrefixes(ps[1..], acc + SplitPieces(ps[0]))
  }

  ghost function AddInputs(inputs: seq<NetworkInput>, acc: seq<Prefix>): Expanded
    requires InputsOK(inputs)
  {
    if inputs == [] then Prefixes(acc)
    else
      match Expand(inputs[0])
      case StartsAfterEnd => ExpandFailed(RangeStartsAfterEnd)
      case Blocks(ps) =>
        assert AllMasked(ps) by { ExpandMasked(inputs[0]); }
        match AddPrefixes(ps, acc)
        case ExpandFailed(e) => ExpandFailed(e)
        case Prefixes(more) => AddInputs(inputs[1..], more)
  }

  method Split(prefix: Prefix) returns (r: Expanded)
    requires Masked(prefix)
    ensures prefix.bits < 24 && Pow2(24 - prefix.bits) > MAX_EXPANDED_PREFIXES ==> r == ExpandFailed(NetworkTooWide(prefix))
    ensures !(prefix.bits < 24 && Pow2(24 - prefix.bits) > MAX_EXPANDED_PREFIXES) ==> r == Prefixes(SplitPieces(prefix))
  {
    if prefix.bits >= 24 {
      return Prefixes([prefix]);
    }
    var count := Pow2(24 - prefix.bits);
    if count > MAX_EXPANDED_PREFIXES {
      return ExpandFailed(NetworkTooWide(prefix));
    }
    var result: seq<Prefix> := [];
    for index := 0 to count
      invariant |result| == index
      invariant forall i :: 0 <= i < index ==> result[i] == Prefix(prefix.base + 256 * i, 24)
    {
      result := result + [Prefix(prefix.base + index * 256, 24)];
    }
    assert result == SplitPieces(prefix);
    r := Prefixes(result);
  }

  method ExpandInput(input: NetworkInput) returns (r: RangeResult)
    requires InputOK(input)
    ensures r == Expand(input)
  {
    match input
    case Network(p) => r := Blocks([p]);
    case AddressRange(start, end) => r := ParseRange(start, end);
  }

  method ParseAndExpand(inputs: seq<NetworkInput>) returns (r: Expanded)
    requires InputsOK(inputs)
    ensures r == AddInputs(inputs, [])
  {
    hide Aligned, Pow2, SplitPieces, Expand, InputOK;
    var prefixes: seq<Prefix> := [];
    for i := 0 to |inputs|
      invariant AddInputs(inputs[i..], prefixes) == AddInputs(inputs, [])
    {
      var expanded := ExpandInput(inputs[i]);
      assert inputs[i..][0] == inputs[i] && inputs[i..][1..] == inputs[i + 1..];
      match expanded
      case StartsAfterEnd =>
        return ExpandFailed(RangeStartsAfterEnd);
      case Blocks(ps) =>
        ghost var before := prefixes;
        ExpandMasked(inputs[i]);
        for j := 0 to |ps|
          invariant AddPrefixes(ps[j..], prefixes) == AddPrefixes(ps, before)
        {
          assert ps[j..][0] == ps[j] && ps[j..][1..] == ps[j + 1..];
          var splitted := Split(ps[j]);
          match splitted
          case ExpandFailed(e) =>
            return ExpandFailed(e);
          case Prefixes(pieces) =>
            if |prefixes| + |pieces| > MAX_EXPANDED_PREFIXES {
              return ExpandFailed(TooManyPrefixes);
            }
            prefixes := prefixes + pieces;
        }
    }
    r := Prefixes(prefixes);
  }

  // ---- removeOverlaps ----

  // The comparison of the sort: by address, then the wider network first.
  predicate InOrder(p: Prefix, q: Prefix) {
    p.base < q.base || (p.base == q.base && p.bits <= q.bits)
  }

  predicate Ordered(ps: seq<Prefix>) {
    forall i, j :: 0 <= i < j < |ps| ==> InOrder(ps[i], ps[j])
  }

  function Insert(p: Prefix, ps: seq<Prefix>): seq<Prefix> {
    if ps == [] || InOrder(p, ps[0]) then [p] + ps else [ps[0]] + Insert(p, ps[1..])
  }

  lemma {:induction false} InsertKeeps(p: Prefix, ps: seq<Prefix>)
    ensures multiset(Insert(p, ps)) == multiset(ps) + multiset{p}
  {
    if !(ps == [] || InOrder(p, ps[0])) {
      InsertKeeps(p, ps[1..]);
      assert ps == [ps[0]] + ps[1..];
    }
  }

  lemma {:induction false} InsertOrdered(p: Prefix, ps: seq<Prefix>)
    requires Ordered(ps)
    ensures Ordered(Insert(p, ps))
  {
    if !(ps == [] || InOrder(p, ps[0])) {
      var rest := Insert(p, ps[1..]);
      InsertOrdered(p, ps[1..]);
      InsertKeeps(p, ps[1..]);
      forall i | 0 <= i < |rest| ensures InOrder(ps[0], rest[i]) {
        assert rest[i] in multiset(rest);
        assert rest[i] == p || rest[i] in ps[1..];
      }
    }
  }

  // The sorted arrangement of a prefix list.
  function Sorted(ps: seq<Prefix>): (r: seq<Prefix>)
    ensures Ordered(r) && multiset(r) == multiset(ps)
  {
    if ps == [] then []
    else
      assert ps == [ps[0]] + ps[1..];
      var rest := Sorted(ps[1..]);
      assert multiset(Insert(ps[0], rest)) == multiset(ps) by { InsertKeeps(ps[0], rest); }
      assert Ordered(Insert(ps[0], rest)) by { InsertOrdered(ps[0], rest); }
      Insert(ps[0], rest)
  }

  // The sweep over sorted prefixes; `covered` is the last address kept so far, -1 before any.
  function Sweep(ps: seq<Prefix>, covered: int): seq<Prefix>
    requires forall i :: 0 <= i < |ps| ==> ps[i].bits <= 32
  {
    if ps == [] then []
    else if ps[0].base <= covered then Sweep(ps[1..], covered)
    else [ps[0]] + Sweep(ps[1..], ps[0].base + AddressCount(ps[0]) - 1)
  }

  lemma SortedMasked(ps: seq<Prefix>)
    requires AllMasked(ps)
    ensures AllMasked(Sorted(ps))
  {
    var r := Sorted(ps);
    forall i | 0 <= i < |r| ensures Masked(r[i]) {
      assert r[i] in multiset(ps);
    }
  }

  lemma {:induction false} SweepFrom(ps: seq<Prefix>, covered: int)
    requires AllMasked(ps)
    ensures AllMasked(Sweep(ps, covered))
    ensures forall p :: p in Sweep(ps, covered) ==> p in ps
  {
    if ps != [] {
      SweepFrom(ps[1..], covered);
      SweepFrom(ps[1..], ps[0].base + AddressCount(ps[0]) - 1);
    }
  }

  ghost function WithoutOverlaps(ps: seq<Prefix>): (r: seq<Prefix>)
    requires AllMasked(ps)
    ensures AllMasked(r)
  {
    SortedMasked(ps);
    SweepFrom(Sorted(ps), -1);
    Sweep(Sorted(ps), -1)
  }

  method RemoveOverlaps(prefixes: seq<Prefix>) returns (result: seq<Prefix>)
    requires AllMasked(prefixes)
    ensures result == WithoutOverlaps(prefixes)
  {
    hide Aligned, Pow2, Sorted;
    SortedMasked(prefixes);
    var ordered := Sorted(prefixes);
    result := [];
    var coveredThrough := 0;
    var hasCoverage := false;
    for i := 0 to |ordered|
      invariant result + Sweep(ordered[i..], if hasCoverage then coveredThrough else -1) == Sweep(ordered, -1)
    {
      assert ordered[i..][0] == ordered[i] && ordered[i..][1..] == ordered[i + 1..];
      var start := ordered[i].base;
      var end := start + AddressCount(ordered[i]) - 1;
      if !(hasCoverage && start <= coveredThrough) {
        ghost var rest := Sweep(ordered[i + 1..], end);
        assert result + ([ordered[i]] + rest) == (result + [ordered[i]]) + rest;
        result := result + [ordered[i]];
        coveredThrough := end;
        hasCoverage := true;
      }
    }
  }

  // ---- classify ----

  // RFC 1918 space.
  predicate IsPrivate(a: int) {
    || 0x0A00_0000 <= a <= 0x0AFF_FFFF
    || 0xAC10_0000 <= a <= 0xAC1F_FFFF
    || 0xC0A8_0000 <= a <= 0xC0A8_FFFF
  }

  // Not unspecified, broadcast, loopback, multicast or link-local.
  predicate IsGlobalUnicast(a: int) {
    && a != 0
    && a != 0xFFFF_FFFF
    && !(0x7F00_0000 <= a <= 0x7FFF_FFFF)
    && !(0xE000_0000 <= a <= 0xEFFF_FFFF)
    && !(0xA9FE_0000 <= a <= 0xA9FE_FFFF)
  }

  // The special-use table of the planner, entry by entry.
  predicate IsSpecial(a: int) {
    || 0x0000_0000 <= a <= 0x00FF_FFFF
    || 0x6440_0000 <= a <= 0x647F_FFFF
    || 0x7F00_0000 <= a <= 0x7FFF_FFFF
    || 0xA9FE_0000 <= a <= 0xA9FE_FFFF
    || 0xC000_0000 <= a <= 0xC000_00FF
    || 0xC000_0200 <= a <= 0xC000_02FF
    || 0xC058_6300 <= a <= 0xC058_63FF
    || 0xC612_0000 <= a <= 0xC613_FFFF
    || 0xC633_6400 <= a <= 0xC633_64FF
    || 0xCB00_7100 <= a <= 0xCB00_71FF
    || 0xE000_0000 <= a <= 0xEFFF_FFFF
    || 0xF000_0000 <= a <= 0xFFFF_FFFF
  }

  datatype Verdict = Classified(cls: Class) | Unscannable

  function Classify(p: Prefix): Verdict
    requires p.bits <= 32
  {
    var first := p.base;
    var last := p.base + AddressCount(p) - 1;
    if IsPrivate(first) && IsPrivate(last) then Classified(PrivateIP)
    else if !IsGlobalUnicast(first) || !IsGlobalUnicast(last) || IsSpecial(first) || IsSpecial(last) then Unscannable
    else Classified(WAN)
  }

  // What a single address is.
  ghost function AddressVerdict(a: int): Verdict {
    if IsPrivate(a) then Classified(PrivateIP)
    else if IsSpecial(a) then Unscannable
    else Classified(WAN)
  }

  // ---- pack ----

  function TotalCount(ps: seq<Prefix>): (r: nat)
    requires forall i :: 0 <= i < |ps| ==> ps[i].bits <= 32
  {
    if ps == [] then 0 else TotalCount(ps[..|ps| - 1]) + AddressCount(ps[|ps| - 1])
  }

  // Greedy grouping: `current` is the group being filled.
  ghost function Groups(ps: seq<Prefix>, current: seq<Prefix>, limit: nat): seq<seq<Prefix>>
    requires AllMasked(ps) && AllMasked(current)
    decreases |ps|
  {
    if ps == [] then (if current == [] then [] else [current])
    else if TotalCount(current) > 0 && TotalCount(current) + AddressCount(ps[0]) > limit then
      [current] + Groups(ps[1..], [ps[0]], limit)
    else Groups(ps[1..], current + [ps[0]], limit)
  }

  ghost predicate GroupsMasked(groups: seq<seq<Prefix>>) {
    forall i :: 0 <= i < |groups| ==> AllMasked(groups[i])
  }

  lemma {:induction false} GroupsStayMasked(ps: seq<Prefix>, current: seq<Prefix>, limit: nat)
    requires AllMasked(ps) && AllMasked(current)
    ensures GroupsMasked(Groups(ps, current, limit))
    decreases |ps|
  {
    if ps != [] {
      GroupsStayMasked(ps[1..], [ps[0]], limit);
      GroupsStayMasked(ps[1..], current + [ps[0]], limit);
    }
  }

  // Targets numbered from `first` in the order of their groups.
  ghost function Numbered(cls: Class, groups: seq<seq<Prefix>>): seq<Target>
    requires GroupsMasked(groups)
  {
    seq(|groups|, (i: nat) requires i < |groups| => Target(cls, i + 1, groups[i], TotalCount(groups[i])))
  }

  ghost function Packed(cls: Class, ps: seq<Prefix>, limit: nat): seq<Target>
    requires AllMasked(ps)
  {
    GroupsStayMasked(ps, [], limit);
    Numbered(cls, Groups(ps, [], limit))
  }

  lemma NumberedAppend(cls: Class, groups: seq<seq<Prefix>>, group: seq<Prefix>)
    requires GroupsMasked(groups) && AllMasked(group)
    ensures GroupsMasked(groups + [group])
    ensures Numbered(cls, groups + [group])
         == Numbered(cls, groups) + [Target(cls, |Numbered(cls, groups)| + 1, group, TotalCount(group))]
  {
  }

  lemma GroupsStep(ps: seq<Prefix>, i: nat, current: seq<Prefix>, limit: nat)
    requires AllMasked(ps) && AllMasked(current) && i < |ps|
    ensures Groups(ps[i..], current, limit)
         == if TotalCount(current) > 0 && TotalCount(current) + AddressCount(ps[i]) > limit then
              [current] + Groups(ps[i + 1..], [ps[i]], limit)
            else Groups(ps[i + 1..], current + [ps[i]], limit)
    ensures TotalCount(current + [ps[i]]) == TotalCount(current) + AddressCount(ps[i])
    ensures TotalCount([ps[i]]) == AddressCount(ps[i])
  {
    hide Aligned, Pow2;
    assert ps[i..][1..] == ps[i + 1..];
    assert (current + [ps[i]])[..|current|] == current;
    assert [ps[i]][..0] == [];
  }

  lemma GroupsEnd(current: seq<Prefix>, limit: nat)
    requires AllMasked(current)
    ensures Groups([], current, limit) == if current == [] then [] else [current]
    ensures TotalCount([]) == 0
  {
  }

  method Pack(cls: Class, prefixes: seq<Prefix>, limit: nat) returns (result: seq<Target>)
    requires AllMasked(prefixes)
    ensures result == Packed(cls, prefixes, limit)
  {
    hide Numbered, Aligned, Pow2, Groups, TotalCount;
    result := [];
    var current: seq<Prefix> := [];
    var currentCount := 0;
    ghost var done: seq<seq<Prefix>> := [];
    ghost var goal := Groups(prefixes, [], limit);
    GroupsStayMasked(prefixes, [], limit);
    GroupsEnd([], limit);
    NumberedEmpty(cls);
    hide GroupsMasked;
    for i := 0 to |prefixes|
      invariant AllMasked(current) && currentCount == TotalCount(current)
      invariant GroupsMasked(done) && result == Numbered(cls, done)
      invariant done + Groups(prefixes[i..], current, limit) == goal
    {
      var prefix := prefixes[i];
      GroupsStep(prefixes, i, current, limit);
      var count := AddressCount(prefix);
      if currentCount > 0 && currentCount + count > limit {
        NumberedAppend(cls, done, current);
        ghost var rest := Groups(prefixes[i + 1..], [prefix], limit);
        assert done + ([current] + rest) == (done + [current]) + rest;
        result := result + [Target(cls, |result| + 1, current, currentCount)];
        done := done + [current];
        current := [prefix];
        currentCount := count;
      } else {
        current := current + [prefix];
        currentCount := currentCount + count;
      }
    }
    GroupsEnd(current, limit);
    if |current| > 0 {
      NumberedAppend(cls, done, current);
      result := result + [Target(cls, |result| + 1, current, currentCount)];
      done := done + [current];
    }
    assert done == goal;
  }

  lemma NumberedEmpty(cls: Class)
    ensures GroupsMasked([]) && Numbered(cls, []) == []
  {
  }

  // ---- Build ----

  function OfClass(ps: seq<Prefix>, cls: Class): (r: seq<Prefix>)
    requires forall i :: 0 <= i < |ps| ==> ps[i].bits <= 32
    ensures forall i :: 0 <= i < |r| ==> r[i] in ps && Classify(r[i]) == Classified(cls)
  {
    if ps == [] then []
    else
      var last := ps[|ps| - 1];
      OfClass(ps[..|ps| - 1], cls) + (if Classify(last) == Classified(cls) then [last] else [])
  }

  ghost predicate AllScannable(ps: seq<Prefix>)
    requires AllMasked(ps)
  {
    forall i :: 0 <= i < |ps| ==> Classify(ps[i]).Classified?
  }

  // The targets of an overlap-free list, private space first.
  ghost function TargetsFor(ps: seq<Prefix>, limit: nat): seq<Target>
    requires AllMasked(ps)
  {
    Packed(PrivateIP, OfClass(ps, PrivateIP), limit) + Packed(WAN, OfClass(ps, WAN), limit)
  }

  // The planning of an overlap-free list; the first special-use network rejects it.
  ghost predicate IsPlanOf(ps: seq<Prefix>, limit: nat, r: BuildResult)
    requires AllMasked(ps)
  {
    if AllScannable(ps) then
      r == (if |TargetsFor(ps, limit)| > MAX_TARGETS_PER_PLAN then Rejected(TooManyTargets) else Planned(TargetsFor(ps, limit)))
    else
      exists i :: 0 <= i < |ps| && Classify(ps[i]) == Unscannable && AllScannable(ps[..i]) && r == Rejected(SpecialUse(ps[i]))
  }

  method Build(customerName: string, inputs: seq<NetworkInput>, maxAddresses: nat) returns (r: BuildResult)
    requires InputsOK(inputs)
    ensures customerName == "" ==> r == Rejected(NameRequired)
    ensures customerName != "" && maxAddresses > DEFAULT_MAX_ADDRESSES ==> r == Rejected(LimitAboveGreenbone)
    ensures customerName != "" && maxAddresses <= DEFAULT_MAX_ADDRESSES ==>
              match AddInputs(inputs, [])
              case ExpandFailed(e) => r == Rejected(e)
              case Prefixes(ps) =>
                && AllMasked(ps)
                && IsPlanOf(WithoutOverlaps(ps), if maxAddresses == 0 then DEFAULT_MAX_ADDRESSES else maxAddresses, r)
  {
    hide Aligned, Pow2, Classify, WithoutOverlaps, AddInputs, Packed;
    if customerName == "" {
      return Rejected(NameRequired);
    }
    var limit := if maxAddresses == 0 then DEFAULT_MAX_ADDRESSES else maxAddresses;
    if limit > DEFAULT_MAX_ADDRESSES {
      return Rejected(LimitAboveGreenbone);
    }
    var expanded := ParseAndExpand(inputs);
    if expanded.ExpandFailed? {
      return Rejected(expanded.error);
    }
    PiecesMasked(inputs);
    var prefixes := RemoveOverlaps(expanded.prefixes);
    var private: seq<Prefix> := [];
    var wan: seq<Prefix> := [];
    for i := 0 to |prefixes|
      invariant private == OfClass(prefixes[..i], PrivateIP) && wan == OfClass(prefixes[..i], WAN)
      invariant AllScannable(prefixes[..i])
    {
      assert prefixes[..i + 1][..i] == prefixes[..i] && prefixes[..i + 1][i] == prefixes[i];
      match Classify(prefixes[i])
      case Unscannable =>
        return Rejected(SpecialUse(prefixes[i]));
      case Classified(cls) =>
        match cls
        case PrivateIP => private := private + [prefixes[i]];
        case WAN => wan := wan + [prefixes[i]];
    }
    assert prefixes[..|prefixes|] == prefixes;
    var privateTargets := Pack(PrivateIP, private, limit);
    var wanTargets := Pack(WAN, wan, limit);
    var targets := privateTargets + wanTargets;
    if |targets| > MAX_TARGETS_PER_PLAN {
      return Rejected(TooManyTargets);
    }
    r := Planned(targets);
  }

  // ---- Masked prefixes stay masked ----

  lemma SplitMasked(p: Prefix)
    requires Masked(p)
    ensures AllMasked(SplitPieces(p))
  {
    if p.bits < 24 {
      Pow2Values();
      forall i: nat | i < Pow2(24 - p.bits)
        ensures Masked(Prefix(p.base + 256 * i, 24))
      {
        PieceMasked(p, i);
      }
    }
  }

  lemma PowerSum(a: nat, b: nat)
    ensures Pow2(a) * Pow2(b) == Pow2(a + b)
  {
    if a > 0 {
      PowerSum(a - 1, b);
    }
  }

  lemma PieceMasked(p: Prefix, i: nat)
    requires Masked(p) && p.bits < 24 && i < Pow2(24 - p.bits)
    ensures Masked(Prefix(p.base + 256 * i, 24))
    ensures p.base + 256 * i + 256 <= p.base + AddressCount(p)
  {
    Pow2Values();
    PowerSum(8, 24 - p.bits);
    MaskedFits(p);
    MultipleOf(i, 256);
    AlignedDown(p.base, 8, 32 - p.bits);
    AlignedAdd(p.base, 256 * i, 8);
  }

  lemma {:induction false} AddPrefixesMasked(ps: seq<Prefix>, acc: seq<Prefix>)
    requires AllMasked(ps) && AllMasked(acc) && AddPrefixes(ps, acc).Prefixes?
    ensures AllMasked(AddPrefixes(ps, acc).prefixes)
  {
    if ps != [] {
      SplitMasked(ps[0]);
      AddPrefixesMasked(ps[1..], acc + SplitPieces(ps[0]));
    }
  }

  lemma {:induction false} AddInputsMasked(inputs: seq<NetworkInput>, acc: seq<Prefix>)
    requires InputsOK(inputs) && AllMasked(acc) && AddInputs(inputs, acc).Prefixes?
    ensures AllMasked(AddInputs(inputs, acc).prefixes)
  {
    if inputs != [] {
      ExpandMasked(inputs[0]);
      AddPrefixesMasked(Expand(inputs[0]).prefixes, acc);
      AddInputsMasked(inputs[1..], AddPrefixes(Expand(inputs[0]).prefixes, acc).prefixes);
    }
  }

  lemma PiecesMasked(inputs: seq<NetworkInput>)
    requires InputsOK(inputs) && AddInputs(inputs, []).Prefixes?
    ensures AllMasked(AddInputs(inputs, []).prefixes)
  {
    AddInputsMasked(inputs, []);
  }
}
