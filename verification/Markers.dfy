/** Resource keys and the ownership markers that tie remote objects to them. */
module Markers {
  import opened NetworkClass
  import opened Decimals

  const MAX_TARGETS: nat := 1_024

  datatype Kind = Schedule | TargetKind | TaskKind

  datatype Key =
    | ScheduleKey
    | TargetKey(cls: Class, sequence: nat)
    | TaskKey(cls: Class, sequence: nat)
  {
    function Kind(): Kind {
      match this
      case ScheduleKey => Schedule
      case TargetKey(_, _) => TargetKind
      case TaskKey(_, _) => TaskKind
    }

    function KindText(): string {
      match this
      case ScheduleKey => "schedule"
      case TargetKey(_, _) => "target"
      case TaskKey(_, _) => "task"
    }

    function ClassText(): string {
      match this
      case ScheduleKey => ""
      case TargetKey(c, _) => ClassName(c)
      case TaskKey(c, _) => ClassName(c)
    }

    function Number(): nat {
      match this
      case ScheduleKey => 0
      case TargetKey(_, n) => n
      case TaskKey(_, n) => n
    }
  }

  function ClassName(c: Class): string {
    match c
    case PrivateIP => "PrivateIP"
    case WAN => "WAN"
  }

  const HEADER: string := "openvasconf:v1;installation="

  function MarkerFront(installation: string, customer: string, kind: string): string {
    HEADER + (installation + ";customer=" + customer + ";kind=" + kind + ";class=")
  }

  function MarkerBack(key: Key): string {
    key.ClassText() + (";sequence=" + Decimal(key.Number()))
  }

  // ownershipMarker: the text written into the comment of every managed object.
  function OwnershipMarker(installation: string, customer: string, key: Key): string {
    MarkerFront(installation, customer, key.KindText()) + MarkerBack(key)
  }

  ghost predicate OccursAt(text: string, part: string, i: int) {
    0 <= i <= |text| - |part| && text[i..i + |part|] == part
  }

  // strings.Contains
  ghost predicate Contains(text: string, part: string) {
    exists i :: OccursAt(text, part, i)
  }

  // The comment of `found` passes the substring test for `wanted`.
  predicate Matches(found: Key, wanted: Key) {
    && found.Kind() == wanted.Kind()
    && (found == wanted
        || (found.ClassText() == wanted.ClassText() && Decimal(wanted.Number()) <= Decimal(found.Number())))
  }

  lemma PrefixContained(front: string, back: string, other: string)
    requires back <= other
    ensures Contains(front + other, front + back)
  {
    var text, part := front + other, front + back;
    assert text[0..0 + |part|] == part;
    assert OccursAt(text, part, 0);
  }

  // Two markers of one kind, aligned at the start, differ first in their back part.
  lemma AlignedBacks(front: string, back: string, other: string)
    requires |back| <= |other| && (front + other)[..|front + back|] == front + back
    ensures back <= other
  {
    assert (front + other)[..|front + back|][|front|..] == other[..|back|];
    assert (front + back)[|front|..] == back;
  }

  lemma BackIsPrefix(found: Key, wanted: Key)
    requires found.Kind() == wanted.Kind() && MarkerBack(wanted) <= MarkerBack(found)
    ensures found.ClassText() == wanted.ClassText()
    ensures Decimal(wanted.Number()) <= Decimal(found.Number())
  {
    var fb, wb := MarkerBack(found), MarkerBack(wanted);
    assert fb[0] == wb[0];
    assert found.ClassText() == wanted.ClassText() by {
      if found.Kind() != Schedule {
        assert fb[0] == found.ClassText()[0] && wb[0] == wanted.ClassText()[0];
      }
    }
    AlignedBacks(found.ClassText(), ";sequence=" + Decimal(wanted.Number()), ";sequence=" + Decimal(found.Number()));
    AlignedBacks(";sequence=", Decimal(wanted.Number()), Decimal(found.Number()));
  }

  // The header occurs nowhere but at its own start.
  lemma HeaderOnlyAtStart(text: string, part: string, i: nat)
    requires HEADER <= text && HEADER <= part
    requires i <= 26 && i + |part| <= |text| && text[i..i + |part|] == part
    ensures i == 0
  {
    assert text[i] == part[0] == 'o';
    assert text[i + 1] == part[1] == 'p';
    assert HEADER[i] == text[i] && HEADER[i + 1] == text[i + 1];
  }

  lemma BackLength(key: Key)
    requires key.Number() <= MAX_TARGETS
    ensures 11 <= |MarkerBack(key)| <= 9 + 10 + 4
  {
    assert Power10(4) == 10000;
    DecimalLength(key.Number(), 4);
  }

  // Ids are of one length, so equal fronts have equal parts.
  lemma SameFronts(i1: string, c1: string, i2: string, c2: string, kind: string)
    requires |i1| == |i2| && |c1| == |c2| && MarkerFront(i1, c1, kind) == MarkerFront(i2, c2, kind)
    ensures i1 == i2 && c1 == c2
  {
    var rest1, rest2 := c1 + ";kind=" + kind + ";class=", c2 + ";kind=" + kind + ";class=";
    var all1, all2 := i1 + ";customer=" + c1 + ";kind=" + kind + ";class=", i2 + ";customer=" + c2 + ";kind=" + kind + ";class=";
    assert MarkerFront(i1, c1, kind)[|HEADER|..] == all1 && MarkerFront(i2, c2, kind)[|HEADER|..] == all2;
    SamePieces(i1, c1, ";kind=" + kind + ";class=", i2, c2, all1, all2);
  }

  lemma SamePieces(i1: string, c1: string, end: string, i2: string, c2: string, all1: string, all2: string)
    requires |i1| == |i2| && |c1| == |c2| && all1 == all2
    requires all1 == i1 + ";customer=" + c1 + end && all2 == i2 + ";customer=" + c2 + end
    ensures i1 == i2 && c1 == c2
  {
    assert all1[..|i1|] == i1 && all2[..|i2|] == i2;
    assert all1[|i1| + 10..|i1| + 10 + |c1|] == c1 && all2[|i2| + 10..|i2| + 10 + |c2|] == c2;
  }

  /** The substring test accepts an object exactly when installation, customer and class are the wanted ones
      and the wanted sequence number is a decimal prefix of its own. */
  lemma MarkerTest(i1: string, c1: string, found: Key, i2: string, c2: string, wanted: Key)
    requires |i1| == |i2| && |c1| == |c2| && found.Kind() == wanted.Kind()
    requires found.Number() <= MAX_TARGETS && wanted.Number() <= MAX_TARGETS
    ensures Contains(OwnershipMarker(i1, c1, found), OwnershipMarker(i2, c2, wanted))
       <==> i1 == i2 && c1 == c2 && Matches(found, wanted)
  {
    hide MarkerBack, Decimal;
    var kind := found.KindText();
    var f1, f2 := MarkerFront(i1, c1, kind), MarkerFront(i2, c2, kind);
    assert wanted.KindText() == kind && |f1| == |f2|;
    var text, part := f1 + MarkerBack(found), f2 + MarkerBack(wanted);
    BackLength(found);
    BackLength(wanted);
    if i :| OccursAt(text, part, i) {
      assert HEADER <= text && HEADER <= part;
      HeaderOnlyAtStart(text, part, i);
      FrontsAlign(f1, MarkerBack(found), f2, MarkerBack(wanted));
      SameFronts(i1, c1, i2, c2, kind);
      AlignedBacks(f1, MarkerBack(wanted), MarkerBack(found));
      BackIsPrefix(found, wanted);
    }
    if i1 == i2 && c1 == c2 && Matches(found, wanted) {
      MatchingBacks(found, wanted);
      PrefixContained(f1, MarkerBack(wanted), MarkerBack(found));
    }
  }

  lemma FrontsAlign(f1: string, b1: string, f2: string, b2: string)
    requires |f1| == |f2| && |f2 + b2| <= |f1 + b1| && (f1 + b1)[..|f2 + b2|] == f2 + b2
    ensures f1 == f2
  {
    assert (f1 + b1)[..|f2 + b2|][..|f1|] == f1;
    assert (f2 + b2)[..|f2|] == f2;
  }

  lemma MatchingBacks(found: Key, wanted: Key)
    requires Matches(found, wanted)
    ensures MarkerBack(wanted) <= MarkerBack(found)
  {
    var c := found.ClassText();
    var d, e := Decimal(wanted.Number()), Decimal(found.Number());
    assert c + (";sequence=" + e) == (c + (";sequence=" + d)) + e[|d|..];
  }

  // Of two keys at most one is found in the other's marker.
  lemma MatchesOneWay(found: Key, wanted: Key)
    requires found != wanted && Matches(found, wanted)
    ensures !Matches(wanted, found)
  {
    if Matches(wanted, found) {
      assert Decimal(wanted.Number()) == Decimal(found.Number());
      DecimalInjective(wanted.Number(), found.Number());
    }
  }

  // No key's marker test accepts the object of another key.
  ghost predicate ClashFree(keys: set<Key>) {
    forall found, wanted :: found in keys && wanted in keys && Matches(found, wanted) ==> found == wanted
  }

  ghost function PlanKeys(cls: Class, n: nat): set<Key> {
    set i | 1 <= i <= n :: TargetKey(cls, i)
  }

  lemma SingleDigits(m: nat, n: nat)
    requires m <= 9 && n <= 9 && Decimal(m) <= Decimal(n)
    ensures m == n
  {
    assert Decimal(m) == [Digit(m)] && Decimal(n) == [Digit(n)];
    DecimalInjective(m, n);
  }

  /** The numbered targets of a class can be told apart by their markers exactly when there are
      at most nine of them: the tenth contains the marker of the first. */
  lemma NineTargetsPerClass(cls: Class, n: nat)
    ensures ClashFree(PlanKeys(cls, n)) <==> n <= 9
  {
    if n <= 9 {
      forall found, wanted | found in PlanKeys(cls, n) && wanted in PlanKeys(cls, n) && Matches(found, wanted)
        ensures found == wanted
      {
        if found != wanted {
          SingleDigits(wanted.sequence, found.sequence);
        }
      }
    } else {
      var one, ten := TargetKey(cls, 1), TargetKey(cls, 10);
      assert Decimal(10) == Decimal(1) + [Digit(0)];
      assert Matches(ten, one);
      assert one in PlanKeys(cls, n) && ten in PlanKeys(cls, n);
    }
  }

  // Keys whose numbers have one digit never clash.
  lemma OneDigitKeys(keys: set<Key>)
    requires forall k :: k in keys ==> k.Number() <= 9
    ensures ClashFree(keys)
  {
    forall found, wanted | found in keys && wanted in keys && Matches(found, wanted)
      ensures found == wanted
    {
      if found != wanted {
        SingleDigits(wanted.Number(), found.Number());
      }
    }
  }
}
