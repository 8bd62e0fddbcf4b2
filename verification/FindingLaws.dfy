/** Whatever the order of imports, failures and pruning, the exposure table agrees with a
    recomputation from all reports imported so far. */
module FindingLaws {
  import opened FindingStore
  import opened FindingTables

  // Every report Greenbone may deliver, by id. A report's content never changes.
  type Catalog = map<string, Report>

  datatype Op = Import(reportId: string) | Fail(reportId: string, ref: TaskRef) | DropFailure(reportId: string) | Prune

  ghost predicate KnownOps(cat: Catalog, ops: seq<Op>) {
    forall i :: 0 <= i < |ops| && ops[i].Import? ==> ops[i].reportId in cat
  }

  ghost function Step(cat: Catalog, db: Db, op: Op): Db {
    match op
    case Import(r) => if r in cat then Saved(db, r, cat[r]) else db
    case Fail(r, ref) => FailureRecorded(db, r, ref)
    case DropFailure(r) => FailureDeleted(db, r)
    case Prune => Pruned(db)
  }

  const EMPTY: Db := Db(map[], 1, map[])

  ghost function Run(cat: Catalog, ops: seq<Op>): Db {
    if ops == [] then EMPTY else Step(cat, Run(cat, ops[..|ops| - 1]), ops[|ops| - 1])
  }

  // The reports imported by a run, pruned or not.
  ghost function ImportedBy(ops: seq<Op>): set<string> {
    if ops == [] then {}
    else ImportedBy(ops[..|ops| - 1]) + (if ops[|ops| - 1].Import? then {ops[|ops| - 1].reportId} else {})
  }

  // ---- Recomputation from the imported reports ----

  ghost predicate Holds(report: Report, fingerprint: string) {
    exists i :: 0 <= i < |report.findings| && report.findings[i].fingerprint == fingerprint
  }

  // The severity a report gives a finding; a repeated finding counts with its last entry.
  ghost function SeverityIn(fs: seq<Finding>, fingerprint: string): int {
    if fs == [] then 0
    else if fs[|fs| - 1].fingerprint == fingerprint then fs[|fs| - 1].severity
    else SeverityIn(fs[..|fs| - 1], fingerprint)
  }

  // The severity of its first entry, which an older report leaves in a new row.
  ghost function FirstSeverityIn(fs: seq<Finding>, fingerprint: string): int {
    if fs == [] then 0
    else if fs[0].fingerprint == fingerprint then fs[0].severity
    else FirstSeverityIn(fs[1..], fingerprint)
  }

  lemma {:induction false} FirstSeverityPrefix(report: Report, fs: seq<Finding>, fingerprint: string)
    requires fs != []
    ensures var front := fs[..|fs| - 1];
            FirstSeverityIn(fs, fingerprint) ==
              if Holds(report.(findings := front), fingerprint) then FirstSeverityIn(front, fingerprint)
              else if fs[|fs| - 1].fingerprint == fingerprint then fs[|fs| - 1].severity
              else 0
    decreases |fs|
  {
    var front := fs[..|fs| - 1];
    if |fs| == 1 || fs[0].fingerprint == fingerprint {
      assert |fs| > 1 ==> front[0] == fs[0];
      assert |fs| > 1 ==> report.(findings := front).findings[0] == fs[0];
    } else {
      FirstSeverityPrefix(report, fs[1..], fingerprint);
      assert fs[1..][..|fs| - 2] == front[1..];
      HoldsRest(report, front, fingerprint);
    }
  }

  lemma HoldsRest(report: Report, fs: seq<Finding>, fingerprint: string)
    requires fs != [] && fs[0].fingerprint != fingerprint
    ensures Holds(report.(findings := fs), fingerprint) <==> Holds(report.(findings := fs[1..]), fingerprint)
  {
    var rest := fs[1..];
    if Holds(report.(findings := rest), fingerprint) {
      var i :| 0 <= i < |rest| && rest[i].fingerprint == fingerprint;
      assert report.(findings := fs).findings[i + 1].fingerprint == fingerprint;
    }
    if Holds(report.(findings := fs), fingerprint) {
      var i :| 0 <= i < |fs| && fs[i].fingerprint == fingerprint;
      assert report.(findings := rest).findings[i - 1].fingerprint == fingerprint;
    }
  }

  ghost predicate Holder(cat: Catalog, h: set<string>, k: StateKey, r: string) {
    r in h && r in cat && cat[r].ref == k.ref && Holds(cat[r], k.fingerprint)
  }

  ghost predicate Newest(cat: Catalog, h: set<string>, ref: TaskRef, n: string) {
    && n in h && n in cat && cat[n].ref == ref
    && forall r :: r in h && r in cat && cat[r].ref == ref ==> cat[r].scanEnd <= cat[n].scanEnd
  }

  ghost predicate FirstSeenIs(cat: Catalog, h: set<string>, k: StateKey, first: int) {
    && (exists r :: Holder(cat, h, k, r) && cat[r].scanEnd == first)
    && (forall r :: Holder(cat, h, k, r) ==> first <= cat[r].scanEnd)
  }

  // The kept row that no other kept row of the task outranks, by scan end and then by row id.
  ghost predicate Top(db: Db, ref: TaskRef, i: nat) {
    && i in db.snapshots && db.snapshots[i].Imported? && db.snapshots[i].report.ref == ref
    && NewerRows(db, ref, db.snapshots[i].report.scanEnd, i) == {}
  }

  ghost predicate HasTop(db: Db, ref: TaskRef) {
    exists i :: Top(db, ref, i)
  }

  // What the report in row `i` says about a finding.
  ghost predicate ExposureIs(report: Report, i: nat, k: StateKey, s: FindingState) {
    && (s.present <==> Holds(report, k.fingerprint))
    && (s.present ==>
          s.lastSeen == report.scanEnd && s.severity == SeverityIn(report.findings, k.fingerprint) && s.lastSnapshot == i)
  }

  ghost predicate StateTrue(db: Db, cat: Catalog, h: set<string>, k: StateKey) {
    && (k in db.states <==> k.ref.Managed() && exists r :: Holder(cat, h, k, r))
    && (k in db.states ==>
          && FirstSeenIs(cat, h, k, db.states[k].firstSeen)
          && forall i :: Top(db, k.ref, i) ==> ExposureIs(db.snapshots[i].report, i, k, db.states[k]))
  }

  // The kept rows are imported reports, and the top row of a task carries one of its newest.
  ghost predicate RowsTrack(db: Db, cat: Catalog, h: set<string>) {
    && UniqueReports(db) && h <= cat.Keys
    && (forall i :: i in db.snapshots && db.snapshots[i].Imported? ==>
          db.snapshots[i].reportId in h && db.snapshots[i].report == cat[db.snapshots[i].reportId])
    && (forall r :: r in h && cat[r].ref.Managed() ==> HasTop(db, cat[r].ref))
    && (forall ref: TaskRef, i :: ref.Managed() && Top(db, ref, i) ==> Newest(cat, h, ref, db.snapshots[i].reportId))
  }

  ghost predicate Tracks(db: Db, cat: Catalog, h: set<string>) {
    RowsTrack(db, cat, h) && forall k :: StateTrue(db, cat, h, k)
  }

  // ---- Top rows ----

  lemma TopUnique(db: Db, ref: TaskRef, i: nat, j: nat)
    requires Top(db, ref, i) && Top(db, ref, j)
    ensures i == j
  {
    assert i !in NewerRows(db, ref, db.snapshots[j].report.scanEnd, j);
    assert j !in NewerRows(db, ref, db.snapshots[i].report.scanEnd, i);
  }

  // Only the imported rows of the task matter.
  lemma TopSame(db: Db, t: Db, ref: TaskRef, i: nat)
    requires forall j :: j in db.snapshots && db.snapshots[j].Imported? && db.snapshots[j].report.ref == ref ==>
      j in t.snapshots && t.snapshots[j] == db.snapshots[j]
    requires forall j :: j in t.snapshots && t.snapshots[j].Imported? && t.snapshots[j].report.ref == ref ==>
      j in db.snapshots && t.snapshots[j] == db.snapshots[j]
    ensures Top(db, ref, i) <==> Top(t, ref, i)
  {
    if i in db.snapshots && i in t.snapshots && db.snapshots[i] == t.snapshots[i] && db.snapshots[i].Imported? {
      assert NewerRows(db, ref, db.snapshots[i].report.scanEnd, i) == NewerRows(t, ref, db.snapshots[i].report.scanEnd, i);
    }
  }

  // ---- Newest reports ----

  lemma {:induction false} NewestExists(cat: Catalog, h: set<string>, ref: TaskRef, r: string) returns (n: string)
    requires r in h && r in cat && cat[r].ref == ref
    ensures Newest(cat, h, ref, n) && cat[r].scanEnd <= cat[n].scanEnd
    decreases |h|
  {
    if q :| q in h && q in cat && cat[q].ref == ref && cat[q].scanEnd > cat[r].scanEnd {
      n := NewestExists(cat, h - {r}, ref, q);
    } else {
      n := r;
    }
  }

  // ---- The two upsert loops, key by key ----

  lemma HoldsPrefix(report: Report, fs: seq<Finding>, fingerprint: string)
    requires fs != []
    ensures Holds(report.(findings := fs), fingerprint) <==>
      Holds(report.(findings := fs[..|fs| - 1]), fingerprint) || fs[|fs| - 1].fingerprint == fingerprint
  {
    var front := fs[..|fs| - 1];
    assert forall i :: 0 <= i < |front| ==> front[i] == fs[i];
    if fs[|fs| - 1].fingerprint == fingerprint {
      assert report.(findings := fs).findings[|fs| - 1].fingerprint == fingerprint;
    }
    if Holds(report.(findings := front), fingerprint) {
      var i :| 0 <= i < |front| && front[i].fingerprint == fingerprint;
      assert report.(findings := fs).findings[i].fingerprint == fingerprint;
    }
    if Holds(report.(findings := fs), fingerprint) && fs[|fs| - 1].fingerprint != fingerprint {
      var i :| 0 <= i < |fs| && fs[i].fingerprint == fingerprint;
      assert report.(findings := front).findings[i].fingerprint == fingerprint;
    }
  }

  lemma {:induction false} SeenAllAt(states: map<StateKey, FindingState>, report: Report, id: nat, fs: seq<Finding>, k: StateKey)
    ensures var r := SeenAll(states, report, id, fs);
            if k.ref == report.ref && Holds(report.(findings := fs), k.fingerprint) then
              k in r && r[k] == FindingState(if k in states then states[k].firstSeen else report.scanEnd,
                                             report.scanEnd, id, true, SeverityIn(fs, k.fingerprint))
            else (k in r <==> k in states) && (k in r ==> r[k] == states[k])
    decreases |fs|
  {
    if fs != [] {
      SeenAllAt(states, report, id, fs[..|fs| - 1], k);
      HoldsPrefix(report, fs, k.fingerprint);
    }
  }

  lemma {:induction false} SeenBeforeAllAt(states: map<StateKey, FindingState>, report: Report, id: nat, fs: seq<Finding>, k: StateKey)
    ensures var r := SeenBeforeAll(states, report, id, fs);
            if k.ref == report.ref && Holds(report.(findings := fs), k.fingerprint) then
              && k in r
              && (k in states ==>
                    r[k] == states[k].(firstSeen := if states[k].firstSeen <= report.scanEnd then states[k].firstSeen else report.scanEnd))
              && (k !in states ==>
                    r[k] == FindingState(report.scanEnd, report.scanEnd, id, false, FirstSeverityIn(fs, k.fingerprint)))
            else (k in r <==> k in states) && (k in r ==> r[k] == states[k])
    decreases |fs|
  {
    if fs != [] {
      SeenBeforeAllAt(states, report, id, fs[..|fs| - 1], k);
      HoldsPrefix(report, fs, k.fingerprint);
      FirstSeverityPrefix(report, fs, k.fingerprint);
    }
  }

  // ---- One import ----

  // The rows of an import before its states are reconciled.
  ghost predicate RowPlaced(db: Db, row: Db, cat: Catalog, r: string, id: nat) {
    && r in cat && UniqueReports(row) && row.states == db.states
    && id in row.snapshots && row.snapshots == db.snapshots[id := Imported(r, cat[r])]
    && (id in db.snapshots ==> db.snapshots[id].Failure?)
    && (forall i :: i in db.snapshots && db.snapshots[i].reportId == r ==> i == id)
  }

  // A row that nothing outranks carries a newest report.
  lemma UnoutrankedIsNewest(db: Db, row: Db, cat: Catalog, h: set<string>, r: string, id: nat)
    requires Tracks(db, cat, h) && RowPlaced(db, row, cat, r, id) && cat[r].ref.Managed()
    requires NewerRows(row, cat[r].ref, cat[r].scanEnd, id) == {}
    ensures Top(row, cat[r].ref, id) && Newest(cat, h + {r}, cat[r].ref, r)
  {
    hide StateTrue, UniqueReports;
    var ref := cat[r].ref;
    forall q | q in h + {r} && q in cat && cat[q].ref == ref ensures cat[q].scanEnd <= cat[r].scanEnd {
      if q != r {
        assert HasTop(db, ref);
        var i :| Top(db, ref, i);
        assert Newest(cat, h, ref, db.snapshots[i].reportId);
        assert i in row.snapshots && i !in NewerRows(row, ref, cat[r].scanEnd, id);
      }
    }
  }

  // An outranked row leaves the top row of its task where it was.
  lemma OutrankedKeepsTop(db: Db, row: Db, cat: Catalog, h: set<string>, r: string, id: nat) returns (top: nat)
    requires Tracks(db, cat, h) && RowPlaced(db, row, cat, r, id) && cat[r].ref.Managed()
    requires NewerRows(row, cat[r].ref, cat[r].scanEnd, id) != {}
    ensures Top(db, cat[r].ref, top) && Top(row, cat[r].ref, top) && top != id
    ensures Newest(cat, h + {r}, cat[r].ref, db.snapshots[top].reportId) && row.snapshots[top] == db.snapshots[top]
  {
    hide StateTrue, UniqueReports;
    var ref := cat[r].ref;
    var j :| j in NewerRows(row, ref, cat[r].scanEnd, id);
    assert j in db.snapshots && db.snapshots[j].reportId in h;
    assert HasTop(db, ref);
    top :| Top(db, ref, top);
    var s := db.snapshots[top];
    assert j !in NewerRows(db, ref, s.report.scanEnd, top);
    assert id !in NewerRows(row, ref, s.report.scanEnd, top);
    assert NewerRows(row, ref, s.report.scanEnd, top) <= NewerRows(db, ref, s.report.scanEnd, top) + {id};
    assert Newest(cat, h, ref, s.reportId);
  }

  lemma HolderAdded(cat: Catalog, h: set<string>, k: StateKey, r: string, q: string)
    requires r in cat
    ensures Holder(cat, h + {r}, k, q) <==> Holder(cat, h, k, q) || (q == r && cat[r].ref == k.ref && Holds(cat[r], k.fingerprint))
  {
  }

  // An import whose row comes out on top.
  lemma NewestImportTrue(db: Db, row: Db, cat: Catalog, h: set<string>, r: string, id: nat, k: StateKey)
    requires Tracks(db, cat, h) && RowPlaced(db, row, cat, r, id) && cat[r].ref.Managed()
    requires Top(row, cat[r].ref, id) && Newest(cat, h + {r}, cat[r].ref, r)
    ensures StateTrue(row.(states := SeenAll(AllAbsent(db.states, cat[r].ref), cat[r], id, cat[r].findings)), cat, h + {r}, k)
  {
    hide NewerRows, UniqueReports, RowsTrack;
    var report := cat[r];
    var g := h + {r};
    var t := row.(states := SeenAll(AllAbsent(db.states, report.ref), report, id, report.findings));
    SeenAllAt(AllAbsent(db.states, report.ref), report, id, report.findings, k);
    assert report.(findings := report.findings) == report;
    forall q ensures Holder(cat, g, k, q) <==> Holder(cat, h, k, q) || (q == r && report.ref == k.ref && Holds(report, k.fingerprint)) {
      HolderAdded(cat, h, k, r, q);
    }
    assert StateTrue(db, cat, h, k);
    if k.ref != report.ref {
      SameTaskOnly(db, t, cat, h, r, id, k);
    } else {
      assert Holds(report, k.fingerprint) ==> Holder(cat, g, k, r);
      if k in t.states {
        forall i | Top(t, k.ref, i) ensures ExposureIs(t.snapshots[i].report, i, k, t.states[k]) {
          TopSame(row, t, k.ref, i);
          TopUnique(row, k.ref, i, id);
        }
        FirstSeenKept(db, cat, h, r, k, t.states[k].firstSeen);
      }
    }
  }

  // Another task's finding is not affected by an import.
  lemma SameTaskOnly(db: Db, t: Db, cat: Catalog, h: set<string>, r: string, id: nat, k: StateKey)
    requires r in cat && cat[r].ref != k.ref && StateTrue(db, cat, h, k)
    requires k in t.states <==> k in db.states
    requires k in t.states ==> t.states[k] == db.states[k]
    requires t.snapshots == db.snapshots[id := Imported(r, cat[r])] && (id in db.snapshots ==> db.snapshots[id].Failure?)
    ensures StateTrue(t, cat, h + {r}, k)
  {
    hide NewerRows;
    forall q ensures Holder(cat, h + {r}, k, q) <==> Holder(cat, h, k, q) {
      HolderAdded(cat, h, k, r, q);
    }
    forall i ensures Top(db, k.ref, i) <==> Top(t, k.ref, i) {
      TopSame(db, t, k.ref, i);
    }
  }

  // With the newest report added, the first-seen date is the old one or, if none, the report's.
  lemma FirstSeenKept(db: Db, cat: Catalog, h: set<string>, r: string, k: StateKey, first: int)
    requires StateTrue(db, cat, h, k) && Newest(cat, h + {r}, k.ref, r) && k.ref.Managed()
    requires k in db.states ==> first == db.states[k].firstSeen
    requires k !in db.states ==> first == cat[r].scanEnd && Holds(cat[r], k.fingerprint)
    ensures FirstSeenIs(cat, h + {r}, k, first)
  {
    forall q ensures Holder(cat, h + {r}, k, q) <==> Holder(cat, h, k, q) || (q == r && Holds(cat[r], k.fingerprint)) {
      HolderAdded(cat, h, k, r, q);
    }
    if k in db.states {
      var q :| Holder(cat, h, k, q) && cat[q].scanEnd == first;
      assert Holder(cat, h + {r}, k, q);
    } else {
      assert Holder(cat, h + {r}, k, r);
    }
  }

  // An import whose row is outranked.
  lemma HistoricalImportTrue(db: Db, row: Db, cat: Catalog, h: set<string>, r: string, id: nat, top: nat, k: StateKey)
    requires Tracks(db, cat, h) && RowPlaced(db, row, cat, r, id) && cat[r].ref.Managed()
    requires Top(db, cat[r].ref, top) && Top(row, cat[r].ref, top) && top != id
    ensures StateTrue(row.(states := SeenBeforeAll(db.states, cat[r], id, cat[r].findings)), cat, h + {r}, k)
  {
    hide NewerRows, UniqueReports;
    var report := cat[r];
    var g := h + {r};
    var t := row.(states := SeenBeforeAll(db.states, report, id, report.findings));
    SeenBeforeAllAt(db.states, report, id, report.findings, k);
    assert report.(findings := report.findings) == report;
    forall q ensures Holder(cat, g, k, q) <==> Holder(cat, h, k, q) || (q == r && report.ref == k.ref && Holds(report, k.fingerprint)) {
      HolderAdded(cat, h, k, r, q);
    }
    assert StateTrue(db, cat, h, k);
    if k.ref != report.ref {
      SameTaskOnly(db, t, cat, h, r, id, k);
    } else if k in t.states {
      var m := db.snapshots[top].reportId;
      forall i | Top(t, k.ref, i) ensures ExposureIs(t.snapshots[i].report, i, k, t.states[k]) {
        TopSame(row, t, k.ref, i);
        TopUnique(row, k.ref, i, top);
        assert k !in db.states ==> !Holds(cat[m], k.fingerprint) by {
          if Holds(cat[m], k.fingerprint) { assert Holder(cat, h, k, m); }
        }
      }
      FirstSeenMinimum(db, cat, h, r, k, t.states[k].firstSeen);
    } else {
      assert Holds(report, k.fingerprint) ==> Holder(cat, g, k, r);
    }
  }

  lemma FirstSeenMinimum(db: Db, cat: Catalog, h: set<string>, r: string, k: StateKey, first: int)
    requires StateTrue(db, cat, h, k) && r in cat && cat[r].ref == k.ref && k.ref.Managed()
    requires k in db.states || Holds(cat[r], k.fingerprint)
    requires k in db.states && Holds(cat[r], k.fingerprint) ==>
      first == if db.states[k].firstSeen <= cat[r].scanEnd then db.states[k].firstSeen else cat[r].scanEnd
    requires k in db.states && !Holds(cat[r], k.fingerprint) ==> first == db.states[k].firstSeen
    requires k !in db.states ==> first == cat[r].scanEnd
    ensures FirstSeenIs(cat, h + {r}, k, first)
  {
    forall q ensures Holder(cat, h + {r}, k, q) <==> Holder(cat, h, k, q) || (q == r && Holds(cat[r], k.fingerprint)) {
      HolderAdded(cat, h, k, r, q);
    }
    if k in db.states {
      var q :| Holder(cat, h, k, q) && cat[q].scanEnd == db.states[k].firstSeen;
      assert Holder(cat, h + {r}, k, q);
    }
    assert Holds(cat[r], k.fingerprint) ==> Holder(cat, h + {r}, k, r);
  }

  lemma UnmanagedImportTrue(db: Db, row: Db, cat: Catalog, h: set<string>, r: string, id: nat, k: StateKey)
    requires Tracks(db, cat, h) && RowPlaced(db, row, cat, r, id) && !cat[r].ref.Managed()
    ensures StateTrue(row, cat, h + {r}, k)
  {
    assert StateTrue(db, cat, h, k);
    if k.ref != cat[r].ref {
      SameTaskOnly(db, row, cat, h, r, id, k);
    }
  }

  lemma PlacedRow(db: Db, cat: Catalog, h: set<string>, r: string) returns (row: Db, id: nat)
    requires Tracks(db, cat, h) && r in cat
    requires !(HasReport(db, r) && db.snapshots[RowOf(db, r)].Imported?)
    ensures RowPlaced(db, row, cat, r, id)
    ensures Saved(db, r, cat[r]) == row.(states := Reconciled(row, cat[r], id))
  {
    hide StateTrue, Newest, Top;
    id := RowOf(db, r);
    row := db.(snapshots := db.snapshots[id := Imported(r, cat[r])],
               nextId := if HasReport(db, r) then db.nextId else db.nextId + 1);
  }

  lemma PlacedRowsTrack(db: Db, row: Db, cat: Catalog, h: set<string>, r: string, id: nat, top: nat)
    requires Tracks(db, cat, h) && RowPlaced(db, row, cat, r, id)
    requires cat[r].ref.Managed() ==>
      Top(row, cat[r].ref, top) && Newest(cat, h + {r}, cat[r].ref, row.snapshots[top].reportId)
    ensures RowsTrack(row, cat, h + {r})
  {
    hide StateTrue, NewerRows, UniqueReports;
    forall q | q in h + {r} && cat[q].ref.Managed() ensures HasTop(row, cat[q].ref) {
      if cat[q].ref != cat[r].ref {
        assert HasTop(db, cat[q].ref);
        var i :| Top(db, cat[q].ref, i);
        TopSame(db, row, cat[q].ref, i);
      }
    }
    forall ref: TaskRef, i | ref.Managed() && Top(row, ref, i) ensures Newest(cat, h + {r}, ref, row.snapshots[i].reportId) {
      if ref == cat[r].ref {
        TopUnique(row, ref, i, top);
      } else {
        TopSame(db, row, ref, i);
      }
    }
  }

  lemma ImportTracks(db: Db, cat: Catalog, h: set<string>, r: string)
    requires Tracks(db, cat, h) && r in cat
    ensures Tracks(Saved(db, r, cat[r]), cat, h + {r})
  {
    hide StateTrue, RowPlaced, SeenAll, SeenBeforeAll, AllAbsent, UniqueReports, Saved, RowsTrack, NewerRows, Top, Newest;
    if HasReport(db, r) && db.snapshots[RowOf(db, r)].Imported? {
      NoChange(db, cat, h, r);
      return;
    }
    var row, id := PlacedRow(db, cat, h, r);
    PlacedStates(db, row, cat, r, id);
    var t := Saved(db, r, cat[r]);
    var top := id;
    if cat[r].ref.Managed() {
      if NewerRows(row, cat[r].ref, cat[r].scanEnd, id) == {} {
        UnoutrankedIsNewest(db, row, cat, h, r, id);
      } else {
        top := OutrankedKeepsTop(db, row, cat, h, r, id);
      }
    }
    PlacedRowsTrack(db, row, cat, h, r, id, top);
    forall k ensures StateTrue(t, cat, h + {r}, k) {
      if !cat[r].ref.Managed() {
        UnmanagedImportTrue(db, row, cat, h, r, id, k);
      } else if top == id {
        NewestImportTrue(db, row, cat, h, r, id, k);
      } else {
        HistoricalImportTrue(db, row, cat, h, r, id, top, k);
      }
    }
    RowsAndStates(row, t, cat, h + {r});
  }

  lemma PlacedStates(db: Db, row: Db, cat: Catalog, r: string, id: nat)
    requires RowPlaced(db, row, cat, r, id)
    ensures row.states == db.states && row.(states := row.states) == row && row.snapshots[id] == Imported(r, cat[r])
  {
  }

  lemma NoChange(db: Db, cat: Catalog, h: set<string>, r: string)
    requires Tracks(db, cat, h) && r in cat && HasReport(db, r) && db.snapshots[RowOf(db, r)].Imported?
    ensures h + {r} == h && Saved(db, r, cat[r]) == db
  {
    hide StateTrue, Top, Newest;
  }

  lemma RowsAndStates(row: Db, t: Db, cat: Catalog, h: set<string>)
    requires RowsTrack(row, cat, h) && t.snapshots == row.snapshots && t.nextId == row.nextId
    requires forall k :: StateTrue(t, cat, h, k)
    ensures Tracks(t, cat, h)
  {
    hide StateTrue, NewerRows;
    forall ref: TaskRef, i ensures Top(row, ref, i) <==> Top(t, ref, i) {
      TopSame(row, t, ref, i);
    }
    forall r | r in h && cat[r].ref.Managed() ensures HasTop(t, cat[r].ref) {
      assert HasTop(row, cat[r].ref);
      var i :| Top(row, cat[r].ref, i);
      assert Top(t, cat[r].ref, i);
    }
  }

  // ---- The other operations ----

  // Changes that leave every top row where it is, and every state that matters.
  lemma TopsDecide(db: Db, t: Db, cat: Catalog, h: set<string>)
    requires Tracks(db, cat, h) && UniqueReports(t) && t.states.Keys == db.states.Keys
    requires forall i :: i in t.snapshots && t.snapshots[i].Imported? ==> i in db.snapshots && t.snapshots[i] == db.snapshots[i]
    requires forall ref: TaskRef, i :: ref.Managed() ==> (Top(db, ref, i) <==> Top(t, ref, i))
    requires forall k :: k in t.states ==>
      t.states[k] == db.states[k] || (!db.states[k].present && t.states[k] == db.states[k].(lastSnapshot := NO_SNAPSHOT))
    ensures Tracks(t, cat, h)
  {
    hide UniqueReports, NewerRows;
    forall r | r in h && cat[r].ref.Managed() ensures HasTop(t, cat[r].ref) {
      assert HasTop(db, cat[r].ref);
      var i :| Top(db, cat[r].ref, i);
      assert Top(t, cat[r].ref, i);
    }
    forall ref: TaskRef, i | ref.Managed() && Top(t, ref, i) ensures Newest(cat, h, ref, t.snapshots[i].reportId) {
      assert Top(db, ref, i);
    }
    forall k ensures StateTrue(t, cat, h, k) {
      assert StateTrue(db, cat, h, k);
      if k in t.states {
        forall i | Top(t, k.ref, i) ensures ExposureIs(t.snapshots[i].report, i, k, t.states[k]) {
          assert Top(db, k.ref, i);
        }
      }
    }
  }

  // Changes to failed rows only.
  lemma FailuresOnly(db: Db, t: Db, cat: Catalog, h: set<string>)
    requires Tracks(db, cat, h) && UniqueReports(t) && t.states == db.states
    requires forall i :: i in db.snapshots && db.snapshots[i].Imported? ==> i in t.snapshots && t.snapshots[i] == db.snapshots[i]
    requires forall i :: i in t.snapshots && t.snapshots[i].Imported? ==> i in db.snapshots && t.snapshots[i] == db.snapshots[i]
    ensures Tracks(t, cat, h)
  {
    hide UniqueReports, StateTrue, RowsTrack, Top;
    forall ref: TaskRef, i ensures Top(db, ref, i) <==> Top(t, ref, i) {
      TopSame(db, t, ref, i);
    }
    TopsDecide(db, t, cat, h);
  }

  lemma FailureTracks(db: Db, cat: Catalog, h: set<string>, r: string, ref: TaskRef)
    requires Tracks(db, cat, h)
    ensures Tracks(FailureRecorded(db, r, ref), cat, h)
  {
    hide StateTrue, Top, Newest;
    FailuresOnly(db, FailureRecorded(db, r, ref), cat, h);
  }

  lemma FailureDeletedTracks(db: Db, cat: Catalog, h: set<string>, r: string)
    requires Tracks(db, cat, h)
    ensures Tracks(FailureDeleted(db, r), cat, h)
  {
    hide StateTrue, Top, Newest;
    FailuresOnly(db, FailureDeleted(db, r), cat, h);
  }

  // A present finding refers to the top row of its task, which is never ranked out.
  lemma PresentRefersToNewest(db: Db, cat: Catalog, h: set<string>, k: StateKey)
    requires Tracks(db, cat, h) && k in db.states && db.states[k].present
    ensures var i := db.states[k].lastSnapshot;
            && Top(db, k.ref, i) && Newest(cat, h, k.ref, db.snapshots[i].reportId) && !Prunable(db, i)
  {
    hide UniqueReports, NewerRows;
    assert StateTrue(db, cat, h, k);
    var r :| Holder(cat, h, k, r);
    assert HasTop(db, k.ref);
    var i :| Top(db, k.ref, i);
    assert ExposureIs(db.snapshots[i].report, i, k, db.states[k]);
  }

  // Pruning keeps the top row of every task.
  lemma PruneKeepsTops(db: Db, cat: Catalog, h: set<string>, ref: TaskRef, i: nat)
    requires Tracks(db, cat, h) && ref.Managed()
    ensures Top(db, ref, i) <==> Top(Pruned(db), ref, i)
  {
    hide StateTrue, UniqueReports, Newest;
    var t := Pruned(db);
    if Top(t, ref, i) {
      assert db.snapshots[i].reportId in h;
      assert HasTop(db, ref);
      var j :| Top(db, ref, j);
      TopKept(db, ref, j);
      TopUnique(t, ref, i, j);
    }
    if Top(db, ref, i) {
      TopKept(db, ref, i);
    }
  }

  lemma TopKept(db: Db, ref: TaskRef, i: nat)
    requires Top(db, ref, i)
    ensures Top(Pruned(db), ref, i)
  {
    var t := Pruned(db);
    assert i in t.snapshots && t.snapshots[i] == db.snapshots[i];
    assert NewerRows(t, ref, db.snapshots[i].report.scanEnd, i) <= NewerRows(db, ref, db.snapshots[i].report.scanEnd, i);
  }

  lemma PruneTracks(db: Db, cat: Catalog, h: set<string>)
    requires Tracks(db, cat, h)
    ensures Tracks(Pruned(db), cat, h)
  {
    var t := Pruned(db);
    assert UniqueReports(t);
    hide NewerRows, StateTrue, RowsTrack, Top, UniqueReports;
    forall ref: TaskRef, i | ref.Managed() ensures Top(db, ref, i) <==> Top(t, ref, i) {
      PruneKeepsTops(db, cat, h, ref, i);
    }
    forall k | k in db.states && db.states[k].present ensures t.states[k] == db.states[k] {
      PresentRefersToNewest(db, cat, h, k);
    }
    TopsDecide(db, t, cat, h);
  }

  /** In every reachable state the tables agree with the reports imported so far. */
  lemma {:induction false} RunTracks(cat: Catalog, ops: seq<Op>)
    requires KnownOps(cat, ops)
    ensures Tracks(Run(cat, ops), cat, ImportedBy(ops))
  {
    hide Tracks, Saved, FailureRecorded, FailureDeleted, Pruned;
    if ops == [] {
      EmptyTracks(cat);
    } else {
      var front := ops[..|ops| - 1];
      RunTracks(cat, front);
      var db, h := Run(cat, front), ImportedBy(front);
      match ops[|ops| - 1]
      case Import(r) => ImportTracks(db, cat, h, r);
      case Fail(r, ref) => FailureTracks(db, cat, h, r, ref); assert h + {} == h;
      case DropFailure(r) => FailureDeletedTracks(db, cat, h, r); assert h + {} == h;
      case Prune => PruneTracks(db, cat, h); assert h + {} == h;
    }
  }

  lemma EmptyTracks(cat: Catalog)
    ensures Tracks(EMPTY, cat, {})
  {
  }

  // ---- Theorems ----

  // Two exposure tables that a user cannot tell apart.
  ghost predicate SameExposure(a: Db, b: Db) {
    forall k :: (k in a.states <==> k in b.states) && (k in a.states ==>
      && a.states[k].firstSeen == b.states[k].firstSeen
      && a.states[k].present == b.states[k].present
      && (a.states[k].present ==> a.states[k].severity == b.states[k].severity && a.states[k].lastSeen == b.states[k].lastSeen))
  }

  // Two reports that list the same findings at the same severities.
  ghost predicate SaySame(a: Report, b: Report) {
    forall f: string :: (Holds(a, f) <==> Holds(b, f)) && (Holds(a, f) ==> SeverityIn(a.findings, f) == SeverityIn(b.findings, f))
  }

  // Reports that tie for the newest scan end of a task say the same.
  ghost predicate TiesAgree(cat: Catalog, h: set<string>) {
    forall ref: TaskRef, m, n :: ref.Managed() && Newest(cat, h, ref, m) && Newest(cat, h, ref, n) ==> SaySame(cat[m], cat[n])
  }

  // A run that imports exactly the reports of `h`, with failures and pruning anywhere.
  ghost predicate Imports(cat: Catalog, ops: seq<Op>, h: set<string>) {
    KnownOps(cat, ops) && ImportedBy(ops) == h
  }

  // Agreeing ties leave no room for the order of imports, failed imports or pruning.
  lemma AgreeingTiesSameExposure(cat: Catalog, xs: seq<Op>, ys: seq<Op>, h: set<string>)
    requires TiesAgree(cat, h) && Imports(cat, xs, h) && Imports(cat, ys, h)
    ensures SameExposure(Run(cat, xs), Run(cat, ys))
  {
    hide UniqueReports, NewerRows, Top, Holds;
    RunTracks(cat, xs);
    RunTracks(cat, ys);
    var a, b := Run(cat, xs), Run(cat, ys);
    forall k | k in a.states || k in b.states
      ensures k in a.states && k in b.states
      ensures a.states[k].firstSeen == b.states[k].firstSeen && a.states[k].present == b.states[k].present
      ensures a.states[k].present ==> a.states[k].severity == b.states[k].severity && a.states[k].lastSeen == b.states[k].lastSeen
    {
      assert StateTrue(a, cat, h, k) && StateTrue(b, cat, h, k);
      var i, m := ExposureAt(a, cat, h, k);
      var j, n := ExposureAt(b, cat, h, k);
      assert SaySame(cat[m], cat[n]);
    }
  }

  lemma ExposureAt(db: Db, cat: Catalog, h: set<string>, k: StateKey) returns (i: nat, n: string)
    requires Tracks(db, cat, h) && k in db.states
    ensures Top(db, k.ref, i) && Newest(cat, h, k.ref, n) && k.ref.Managed()
    ensures db.snapshots[i].Imported? && db.snapshots[i].report == cat[n] && ExposureIs(cat[n], i, k, db.states[k])
  {
    hide UniqueReports, NewerRows;
    assert StateTrue(db, cat, h, k);
    var r :| Holder(cat, h, k, r);
    assert HasTop(db, k.ref);
    i :| Top(db, k.ref, i);
    n := db.snapshots[i].reportId;
  }

  // A list of imports for any set of reports.
  lemma {:induction false} ImportList(cat: Catalog, h: set<string>) returns (ops: seq<Op>)
    requires h <= cat.Keys
    ensures Imports(cat, ops, h) && forall i :: 0 <= i < |ops| ==> ops[i].Import?
    decreases |h|
  {
    if h == {} {
      ops := [];
    } else {
      var r :| r in h;
      var front := ImportList(cat, h - {r});
      ops := front + [Import(r)];
      assert ops[..|ops| - 1] == front;
    }
  }

  lemma {:induction false} OnlyImported(cat: Catalog, ops: seq<Op>)
    requires KnownOps(cat, ops) && forall i :: 0 <= i < |ops| ==> ops[i].Import?
    ensures forall i :: i in Run(cat, ops).snapshots ==> Run(cat, ops).snapshots[i].Imported?
  {
    hide Reconciled;
    if ops != [] {
      OnlyImported(cat, ops[..|ops| - 1]);
    }
  }

  // Of the newest reports, the one imported last, into a new row, carries the exposure.
  lemma LastTiedWins(cat: Catalog, ops: seq<Op>, n: string, k: StateKey)
    requires KnownOps(cat, ops) && (forall i :: 0 <= i < |ops| ==> ops[i].Import?) && n !in ImportedBy(ops)
    requires k.ref.Managed() && Newest(cat, ImportedBy(ops) + {n}, k.ref, n)
    ensures var db := Run(cat, ops + [Import(n)]);
            k in db.states ==>
              (db.states[k].present <==> Holds(cat[n], k.fingerprint))
              && (db.states[k].present ==> db.states[k].severity == SeverityIn(cat[n].findings, k.fingerprint))
  {
    hide Reconciled, Holds;
    OnlyImported(cat, ops);
    RunTracks(cat, ops);
    var before, h := Run(cat, ops), ImportedBy(ops);
    assert (ops + [Import(n)])[..|ops|] == ops;
    var db := Run(cat, ops + [Import(n)]);
    RunTracks(cat, ops + [Import(n)]);
    assert !HasReport(before, n);
    var id := before.nextId;
    assert db.snapshots == before.snapshots[id := Imported(n, cat[n])];
    assert Top(db, k.ref, id);
    assert StateTrue(db, cat, h + {n}, k);
  }

  lemma TwoLast(cat: Catalog, ops: seq<Op>, m: string, n: string, h: set<string>)
    requires Imports(cat, ops, h - {m, n}) && m in h && n in h && m in cat && n in cat
    requires forall i :: 0 <= i < |ops| ==> ops[i].Import?
    ensures var longer := ops + [Import(m)];
            KnownOps(cat, longer) && ImportedBy(longer) == h - {m, n} + {m} && (forall i :: 0 <= i < |longer| ==> longer[i].Import?)
            && Imports(cat, longer + [Import(n)], h)
  {
    var longer := ops + [Import(m)];
    assert longer[..|ops|] == ops;
    assert (longer + [Import(n)])[..|longer|] == longer;
    assert h - {m, n} + {m} + {n} == h;
  }

  // Two newest reports that disagree show their disagreement when imported last, in either order.
  lemma DisagreeingTiesShow(cat: Catalog, h: set<string>, ref: TaskRef, m: string, n: string)
      returns (xs: seq<Op>, ys: seq<Op>)
    requires h <= cat.Keys && ref.Managed() && Newest(cat, h, ref, m) && Newest(cat, h, ref, n) && !SaySame(cat[m], cat[n])
    ensures Imports(cat, xs, h) && Imports(cat, ys, h) && !SameExposure(Run(cat, xs), Run(cat, ys))
  {
    var ops := ImportList(cat, h - {m, n});
    TwoLast(cat, ops, m, n, h);
    TwoLast(cat, ops, n, m, h);
    assert h - {n, m} == h - {m, n};
    xs, ys := ops + [Import(m)] + [Import(n)], ops + [Import(n)] + [Import(m)];
    var f :| (Holds(cat[m], f) <==> Holds(cat[n], f)) ==> Holds(cat[m], f) && SeverityIn(cat[m].findings, f) != SeverityIn(cat[n].findings, f);
    var k := StateKey(ref, f);
    assert h - {m, n} + {m} + {n} == h && h - {m, n} + {n} + {m} == h;
    LastTiedWins(cat, ops + [Import(m)], n, k);
    LastTiedWins(cat, ops + [Import(n)], m, k);
    RunTracks(cat, xs);
    RunTracks(cat, ys);
    hide Run, KnownOps, ImportedBy, RowsTrack;
    assert Holder(cat, h, k, m) || Holder(cat, h, k, n);
    assert StateTrue(Run(cat, xs), cat, h, k) && StateTrue(Run(cat, ys), cat, h, k);
  }

  /** The order of imports, failed imports and pruning in between show in the exposure exactly when two
      reports that tie for the newest scan end of a task disagree. */
  lemma OrderShowsExactlyAtDisagreeingTies(cat: Catalog, h: set<string>)
    requires h <= cat.Keys
    ensures (forall xs, ys :: Imports(cat, xs, h) && Imports(cat, ys, h) ==> SameExposure(Run(cat, xs), Run(cat, ys)))
       <==> TiesAgree(cat, h)
  {
    hide Run, SameExposure, SaySame, Imports;
    if TiesAgree(cat, h) {
      forall xs, ys | Imports(cat, xs, h) && Imports(cat, ys, h) ensures SameExposure(Run(cat, xs), Run(cat, ys)) {
        AgreeingTiesSameExposure(cat, xs, ys, h);
      }
    } else {
      var ref: TaskRef, m, n :| ref.Managed() && Newest(cat, h, ref, m) && Newest(cat, h, ref, n) && !SaySame(cat[m], cat[n]);
      var xs, ys := DisagreeingTiesShow(cat, h, ref, m, n);
    }
  }

  /** Distinct scan ends leave no ties: then the order never matters. */
  lemma ImportOrderDoesNotMatter(cat: Catalog, xs: seq<Op>, ys: seq<Op>)
    requires forall q, r | q in cat && r in cat :: q != r && cat[q].ref == cat[r].ref ==> cat[q].scanEnd != cat[r].scanEnd
    requires KnownOps(cat, xs) && KnownOps(cat, ys) && ImportedBy(xs) == ImportedBy(ys)
    ensures SameExposure(Run(cat, xs), Run(cat, ys))
  {
    AgreeingTiesSameExposure(cat, xs, ys, ImportedBy(xs));
  }

  /** A task's exposure is one of its newest reports, the same one for all its findings; first-seen is the
      earliest scan end of any report that ever held the finding. */
  lemma ExposureIsRecomputed(cat: Catalog, ops: seq<Op>, ref: TaskRef, r: string) returns (n: string)
    requires KnownOps(cat, ops) && ref.Managed() && r in ImportedBy(ops) && r in cat && cat[r].ref == ref
    ensures var states, h := Run(cat, ops).states, ImportedBy(ops);
            && Newest(cat, h, ref, n)
            && forall k: StateKey :: k.ref == ref ==>
                 && (k in states <==> exists q :: Holder(cat, h, k, q))
                 && (k in states && states[k].present <==> Holds(cat[n], k.fingerprint))
                 && (k in states && states[k].present ==>
                       states[k].severity == SeverityIn(cat[n].findings, k.fingerprint) && states[k].lastSeen == cat[n].scanEnd)
                 && (k in states ==> FirstSeenIs(cat, h, k, states[k].firstSeen))
  {
    hide UniqueReports, NewerRows;
    RunTracks(cat, ops);
    var db, h := Run(cat, ops), ImportedBy(ops);
    assert HasTop(db, ref);
    var i :| Top(db, ref, i);
    n := db.snapshots[i].reportId;
    forall k: StateKey | k.ref == ref
      ensures (k in db.states <==> exists q :: Holder(cat, h, k, q)) && (k in db.states && db.states[k].present <==> Holds(cat[n], k.fingerprint))
      ensures k in db.states ==> FirstSeenIs(cat, h, k, db.states[k].firstSeen)
      ensures k in db.states && db.states[k].present ==>
        db.states[k].severity == SeverityIn(cat[n].findings, k.fingerprint) && db.states[k].lastSeen == cat[n].scanEnd
    {
      assert StateTrue(db, cat, h, k);
      if Holds(cat[n], k.fingerprint) {
        assert Holder(cat, h, k, n);
      }
    }
  }

  /** A present finding is shown as new exactly when no report older than the newest ever held it. */
  lemma NewMeansOnlyTheNewest(cat: Catalog, ops: seq<Op>, k: StateKey)
    requires KnownOps(cat, ops) && k in Run(cat, ops).states && Run(cat, ops).states[k].present
    ensures Run(cat, ops).states[k].firstSeen == Run(cat, ops).states[k].lastSeen
       <==> forall r :: Holder(cat, ImportedBy(ops), k, r) ==> Newest(cat, ImportedBy(ops), k.ref, r)
  {
    hide UniqueReports, NewerRows;
    RunTracks(cat, ops);
    var db, h := Run(cat, ops), ImportedBy(ops);
    assert StateTrue(db, cat, h, k);
    var i, n := ExposureAt(db, cat, h, k);
    assert Holder(cat, h, k, n);
  }

  // ---- Retention ----

  ghost function ImportedRows(db: Db, ref: TaskRef): set<nat> {
    set i | i in db.snapshots && db.snapshots[i].Imported? && db.snapshots[i].report.ref == ref
  }

  // Elements of `s` above `i`, by score and then by number.
  ghost function Above(s: set<nat>, score: map<nat, int>, i: nat): set<nat>
    requires s <= score.Keys && i in s
  {
    set j | j in s && (score[j] > score[i] || (score[j] == score[i] && j > i))
  }

  lemma {:induction false} Lowest(s: set<nat>, score: map<nat, int>) returns (o: nat)
    requires s <= score.Keys && s != {}
    ensures o in s && forall j :: j in s && j != o ==> o !in Above(s, score, j) && j in Above(s, score, o)
    decreases |s|
  {
    var i :| i in s;
    if s == {i} {
      o := i;
    } else {
      var p := Lowest(s - {i}, score);
      o := if score[i] > score[p] || (score[i] == score[p] && i > p) then p else i;
      forall j | j in s && j != o ensures o !in Above(s, score, j) && j in Above(s, score, o) {
        if j != i && j != p {
          assert j in Above(s - {i}, score, p);
        }
      }
    }
  }

  ghost function TopOf(s: set<nat>, score: map<nat, int>, k: nat): set<nat>
    requires s <= score.Keys
  {
    set i | i in s && |Above(s, score, i)| < k
  }

  // In a finite ordered set, min(k, size) elements have fewer than k above them.
  lemma {:induction false} TopCount(s: set<nat>, score: map<nat, int>, k: nat)
    requires s <= score.Keys
    ensures |TopOf(s, score, k)| == if |s| < k then |s| else k
    decreases |s|
  {
    if s != {} {
      var o := Lowest(s, score);
      var rest := s - {o};
      TopCount(rest, score, k);
      forall i | i in rest ensures Above(s, score, i) == Above(rest, score, i) {
      }
      assert Above(s, score, o) == rest;
      if |rest| < k {
        assert TopOf(s, score, k) == TopOf(rest, score, k) + {o};
      } else {
        assert TopOf(s, score, k) == TopOf(rest, score, k);
      }
    } else {
      assert TopOf(s, score, k) == {};
    }
  }

  // The rows of one task that survive a prune.
  lemma PruneSurvivors(db: Db, cat: Catalog, h: set<string>, ref: TaskRef, i: nat)
    requires Tracks(db, cat, h) && ref.Managed()
    ensures i in ImportedRows(Pruned(db), ref) <==>
            (i in ImportedRows(db, ref) && |NewerRows(db, ref, db.snapshots[i].report.scanEnd, i)| < KEPT_REPORTS)
  {
    hide Tracks, NewerRows;
    if i in ImportedRows(db, ref) {
      GuardNeverFires(db, cat, h, i);
    }
  }

  lemma NewerIsAbove(db: Db, ref: TaskRef, score: map<nat, int>, i: nat)
    requires score == map j | j in ImportedRows(db, ref) :: db.snapshots[j].report.scanEnd
    requires i in ImportedRows(db, ref)
    ensures Above(ImportedRows(db, ref), score, i) == NewerRows(db, ref, db.snapshots[i].report.scanEnd, i)
  {
  }

  /** Pruning leaves exactly the three newest imported rows of each task, or all when there are fewer. */
  lemma PruneKeepsThreeNewest(cat: Catalog, ops: seq<Op>, ref: TaskRef)
    requires KnownOps(cat, ops) && ref.Managed()
    ensures var db, t := Run(cat, ops), Run(cat, ops + [Prune]);
            && (forall i :: i in ImportedRows(t, ref) <==>
                  (i in ImportedRows(db, ref) && |NewerRows(db, ref, db.snapshots[i].report.scanEnd, i)| < KEPT_REPORTS))
            && |ImportedRows(t, ref)| == if |ImportedRows(db, ref)| < KEPT_REPORTS then |ImportedRows(db, ref)| else KEPT_REPORTS
  {
    hide Tracks, NewerRows, Above, Pruned;
    RunTracks(cat, ops);
    var db := Run(cat, ops);
    assert (ops + [Prune])[..|ops|] == ops;
    assert Run(cat, ops + [Prune]) == Pruned(db);
    forall i
      ensures i in ImportedRows(Pruned(db), ref) <==>
              (i in ImportedRows(db, ref) && |NewerRows(db, ref, db.snapshots[i].report.scanEnd, i)| < KEPT_REPORTS)
    {
      PruneSurvivors(db, cat, ImportedBy(ops), ref, i);
    }
    var rows := ImportedRows(db, ref);
    var score := map i | i in rows :: db.snapshots[i].report.scanEnd;
    TopCount(rows, score, KEPT_REPORTS);
    forall i | i in rows ensures Above(rows, score, i) == NewerRows(db, ref, db.snapshots[i].report.scanEnd, i) {
      NewerIsAbove(db, ref, score, i);
    }
    assert ImportedRows(Pruned(db), ref) == TopOf(rows, score, KEPT_REPORTS);
  }

  lemma GuardNeverFires(db: Db, cat: Catalog, h: set<string>, i: nat)
    requires Tracks(db, cat, h) && i in db.snapshots && db.snapshots[i].Imported?
    ensures |NewerRows(db, db.snapshots[i].report.ref, db.snapshots[i].report.scanEnd, i)| >= KEPT_REPORTS ==>
      !exists k :: k in db.states && db.states[k].lastSnapshot == i && db.states[k].present
  {
    hide Tracks;
    if k :| k in db.states && db.states[k].lastSnapshot == i && db.states[k].present {
      PresentRefersToNewest(db, cat, h, k);
    }
  }

  /** Pruning never drops the report a present finding needs. */
  lemma PruneKeepsEvidence(cat: Catalog, ops: seq<Op>, k: StateKey)
    requires KnownOps(cat, ops)
    requires k in Run(cat, ops).states && Run(cat, ops).states[k].present
    ensures var db, t := Run(cat, ops), Run(cat, ops + [Prune]);
            && k in t.states && t.states[k] == db.states[k]
            && t.states[k].lastSnapshot in t.snapshots
            && t.snapshots[t.states[k].lastSnapshot] == db.snapshots[db.states[k].lastSnapshot]
  {
    hide Tracks, NewerRows;
    RunTracks(cat, ops);
    assert (ops + [Prune])[..|ops|] == ops;
    PresentRefersToNewest(Run(cat, ops), cat, ImportedBy(ops), k);
  }

  // ---- An example of a tie ----

  ghost function TiedCatalog(): Catalog {
    var ref := TaskRef("customer", "task");
    map["a" := Report(ref, "scan", 5, [Finding("f", 80, NO_ABOUT)]), "b" := Report(ref, "scan", 5, [])]
  }

  /** Two such reports, imported in both orders. */
  lemma TiedImportsDependOnOrder()
    ensures var cat := TiedCatalog();
            && !SameExposure(Run(cat, [Import("a"), Import("b")]), Run(cat, [Import("b"), Import("a")]))
            && ImportedBy([Import("a"), Import("b")]) == ImportedBy([Import("b"), Import("a")])
  {
    var cat := TiedCatalog();
    var k := StateKey(TaskRef("customer", "task"), "f");
    assert Holds(cat["a"], "f") by { assert cat["a"].findings[0].fingerprint == "f"; }
    OneImported("a");
    OneImported("b");
    assert [Import("a")] + [Import("b")] == [Import("a"), Import("b")] && [Import("b")] + [Import("a")] == [Import("b"), Import("a")];
    TwoLast(cat, [], "a", "b", {"a", "b"});
    TwoLast(cat, [], "b", "a", {"a", "b"});
    LastTiedWins(cat, [Import("a")], "b", k);
    LastTiedWins(cat, [Import("b")], "a", k);
    var xs, ys := [Import("a"), Import("b")], [Import("b"), Import("a")];
    RunTracks(cat, xs);
    RunTracks(cat, ys);
    assert Holder(cat, {"a", "b"}, k, "a");
    assert StateTrue(Run(cat, xs), cat, {"a", "b"}, k) && StateTrue(Run(cat, ys), cat, {"a", "b"}, k);
  }

  lemma OneImported(r: string)
    ensures ImportedBy([Import(r)]) == {r} && ImportedBy([]) == {}
  {
    assert [Import(r)][..0] == [];
  }
}
