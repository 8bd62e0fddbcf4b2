/** What each step does to every column of every row, and what a finding's row refers to in every run. */
module FindingColumns {
  import opened FindingLaws
  import opened FindingStore
  import opened FindingTables

  // ---- One import, column by column ----

  // The report is not imported yet, and no kept row of its task outranks the row it goes into.
  ghost predicate ComesOutOnTop(db: Db, r: string, report: Report) {
    && UniqueReports(db) && report.ref.Managed()
    && (forall i :: i in db.snapshots && db.snapshots[i].reportId == r ==> !db.snapshots[i].Imported?)
    && forall i :: i in db.snapshots && db.snapshots[i].Imported? && db.snapshots[i].report.ref == report.ref ==>
         db.snapshots[i].report.scanEnd < report.scanEnd
         || (db.snapshots[i].report.scanEnd == report.scanEnd && i < RowOf(db, r))
  }

  ghost predicate ComesOutBelow(db: Db, r: string, report: Report) {
    && UniqueReports(db) && report.ref.Managed()
    && (forall i :: i in db.snapshots && db.snapshots[i].reportId == r ==> !db.snapshots[i].Imported?)
    && exists i :: i in db.snapshots && db.snapshots[i].Imported? && db.snapshots[i].report.ref == report.ref
         && (db.snapshots[i].report.scanEnd > report.scanEnd
             || (db.snapshots[i].report.scanEnd == report.scanEnd && i > RowOf(db, r)))
  }

  lemma ReportRow(db: Db, r: string)
    requires UniqueReports(db)
    ensures var id := RowOf(db, r);
            && (id in db.snapshots <==> HasReport(db, r)) && (id in db.snapshots ==> db.snapshots[id].reportId == r)
            && forall i :: i in db.snapshots && db.snapshots[i].reportId == r ==> i == id
  {
  }

  /** The newest report takes over the findings it lists; of the task's others only the presence goes, so they keep
      the report they were last seen in, and no other task is touched. */
  lemma NewestImportColumns(db: Db, r: string, report: Report, k: StateKey)
    requires ComesOutOnTop(db, r, report)
    ensures var t := Saved(db, r, report).states;
            if k.ref == report.ref && Holds(report, k.fingerprint) then
              && k in t && t[k].present && t[k].lastSeen == report.scanEnd && t[k].lastSnapshot == RowOf(db, r)
              && t[k].severity == SeverityIn(report.findings, k.fingerprint)
              && t[k].firstSeen == if k in db.states then db.states[k].firstSeen else report.scanEnd
            else if k.ref == report.ref then
              && (k in t <==> k in db.states)
              && (k in t ==>
                    && !t[k].present && t[k].firstSeen == db.states[k].firstSeen && t[k].lastSeen == db.states[k].lastSeen
                    && t[k].lastSnapshot == db.states[k].lastSnapshot && t[k].severity == db.states[k].severity)
            else (k in t <==> k in db.states) && (k in t ==> t[k] == db.states[k])
  {
    hide Holds, SeenAll;
    ReportRow(db, r);
    var id := RowOf(db, r);
    assert report.(findings := report.findings) == report;
    SeenAllAt(AllAbsent(db.states, report.ref), report, id, report.findings, k);
    var row := db.(snapshots := db.snapshots[id := Imported(r, report)],
                   nextId := if HasReport(db, r) then db.nextId else db.nextId + 1);
    assert NewerRows(row, report.ref, report.scanEnd, id) == {};
  }

  /** An older report moves nothing but the first-seen date of what it lists, and only back. */
  lemma OlderImportColumns(db: Db, r: string, report: Report, k: StateKey)
    requires ComesOutBelow(db, r, report)
    ensures var t := Saved(db, r, report).states;
            if k.ref == report.ref && Holds(report, k.fingerprint) then
              && k in t
              && (k in db.states ==>
                    && t[k].present == db.states[k].present && t[k].lastSeen == db.states[k].lastSeen
                    && t[k].lastSnapshot == db.states[k].lastSnapshot && t[k].severity == db.states[k].severity
                    && t[k].firstSeen <= db.states[k].firstSeen && t[k].firstSeen <= report.scanEnd
                    && (t[k].firstSeen == db.states[k].firstSeen || t[k].firstSeen == report.scanEnd))
              && (k !in db.states ==>
                    && !t[k].present && t[k].firstSeen == report.scanEnd && t[k].lastSeen == report.scanEnd
                    && t[k].lastSnapshot == RowOf(db, r) && t[k].severity == FirstSeverityIn(report.findings, k.fingerprint))
            else (k in t <==> k in db.states) && (k in t ==> t[k] == db.states[k])
  {
    hide Holds, SeenBeforeAll;
    ReportRow(db, r);
    var id := RowOf(db, r);
    assert report.(findings := report.findings) == report;
    SeenBeforeAllAt(db.states, report, id, report.findings, k);
    var row := db.(snapshots := db.snapshots[id := Imported(r, report)],
                   nextId := if HasReport(db, r) then db.nextId else db.nextId + 1);
    var i :| i in db.snapshots && db.snapshots[i].Imported? && db.snapshots[i].report.ref == report.ref
             && (db.snapshots[i].report.scanEnd > report.scanEnd || (db.snapshots[i].report.scanEnd == report.scanEnd && i > id));
    assert i in NewerRows(row, report.ref, report.scanEnd, id);
  }

  // ---- Failures and retention, column by column ----

  /** A failure is counted in the one row of its report, and nothing else changes; an imported report stays. */
  lemma FailureCounted(db: Db, r: string, ref: TaskRef, i: nat)
    requires UniqueReports(db)
    ensures var t := FailureRecorded(db, r, ref);
            && t.states == db.states && HasReport(t, r)
            && (i in db.snapshots ==> i in t.snapshots && t.snapshots[i].reportId == db.snapshots[i].reportId)
            && (i in db.snapshots && db.snapshots[i].reportId != r ==> i in t.snapshots && t.snapshots[i] == db.snapshots[i])
            && (i in t.snapshots && t.snapshots[i].reportId != r ==> i in db.snapshots)
            && (i in t.snapshots && t.snapshots[i].reportId == r ==>
                  if HasReport(db, r) then
                    && i in db.snapshots && db.snapshots[i].reportId == r
                    && (db.snapshots[i].Imported? ==> t.snapshots[i] == db.snapshots[i])
                    && (db.snapshots[i].Failure? ==>
                          t.snapshots[i].Failure? && t.snapshots[i].ref == ref && t.snapshots[i].attempts == db.snapshots[i].attempts + 1)
                  else t.snapshots[i].Failure? && t.snapshots[i].ref == ref && t.snapshots[i].attempts == 1)
  {
    ReportRow(db, r);
    var t, id := FailureRecorded(db, r, ref), RowOf(db, r);
    assert id in t.snapshots && t.snapshots[id].reportId == r;
  }

  /** A dropped failure takes its own rows only. */
  lemma OnlyFailureDropped(db: Db, r: string, i: nat)
    ensures var t := FailureDeleted(db, r);
            && t.states == db.states
            && (i in t.snapshots <==> i in db.snapshots && (db.snapshots[i].Imported? || db.snapshots[i].reportId != r))
            && (i in t.snapshots ==> t.snapshots[i] == db.snapshots[i])
  {
  }

  /** A prune deletes only imported rows, and of the findings it changes only a reference to a deleted row. */
  lemma PruneColumns(db: Db, i: nat, k: StateKey)
    ensures var t := Pruned(db);
            && (i in t.snapshots ==> i in db.snapshots && t.snapshots[i] == db.snapshots[i])
            && (i in db.snapshots && i !in t.snapshots ==> db.snapshots[i].Imported?)
            && (k in t.states <==> k in db.states)
            && (k in t.states ==>
                  && t.states[k].firstSeen == db.states[k].firstSeen && t.states[k].lastSeen == db.states[k].lastSeen
                  && t.states[k].present == db.states[k].present && t.states[k].severity == db.states[k].severity
                  && var was := db.states[k].lastSnapshot;
                     && (was in db.snapshots && was !in t.snapshots ==> t.states[k].lastSnapshot == NO_SNAPSHOT && !t.states[k].present)
                     && (was in t.snapshots || was !in db.snapshots ==> t.states[k].lastSnapshot == was))
  {
    hide NewerRows;
  }

  // ---- Runs ----

  // The report lists the finding at the severity the row tells, and ended when the row says it was last seen.
  ghost predicate Shows(report: Report, k: StateKey, s: FindingState) {
    && report.ref == k.ref && report.scanEnd == s.lastSeen
    && exists i :: 0 <= i < |report.findings| && report.findings[i].fingerprint == k.fingerprint && report.findings[i].severity == s.severity
  }

  // The row refers to an imported row whose report shows it, or to none.
  ghost predicate Refers(db: Db, k: StateKey) {
    k in db.states && db.states[k].lastSnapshot != NO_SNAPSHOT ==>
      var i := db.states[k].lastSnapshot;
      i in db.snapshots && db.snapshots[i].Imported? && Shows(db.snapshots[i].report, k, db.states[k])
  }

  lemma {:induction false} SeverityListed(fs: seq<Finding>, fingerprint: string)
    requires exists i :: 0 <= i < |fs| && fs[i].fingerprint == fingerprint
    ensures exists i :: 0 <= i < |fs| && fs[i].fingerprint == fingerprint && fs[i].severity == SeverityIn(fs, fingerprint)
    decreases |fs|
  {
    if fs[|fs| - 1].fingerprint != fingerprint {
      var front := fs[..|fs| - 1];
      var i :| 0 <= i < |fs| && fs[i].fingerprint == fingerprint;
      assert front[i].fingerprint == fingerprint;
      SeverityListed(front, fingerprint);
      var j :| 0 <= j < |front| && front[j].fingerprint == fingerprint && front[j].severity == SeverityIn(front, fingerprint);
      assert fs[j] == front[j];
    }
  }

  lemma {:induction false} FirstSeverityListed(fs: seq<Finding>, fingerprint: string)
    requires exists i :: 0 <= i < |fs| && fs[i].fingerprint == fingerprint
    ensures exists i :: 0 <= i < |fs| && fs[i].fingerprint == fingerprint && fs[i].severity == FirstSeverityIn(fs, fingerprint)
    decreases |fs|
  {
    if fs[0].fingerprint != fingerprint {
      var rest := fs[1..];
      var i :| 0 <= i < |fs| && fs[i].fingerprint == fingerprint;
      assert rest[i - 1].fingerprint == fingerprint;
      FirstSeverityListed(rest, fingerprint);
      var j :| 0 <= j < |rest| && rest[j].fingerprint == fingerprint && rest[j].severity == FirstSeverityIn(rest, fingerprint);
      assert fs[j + 1] == rest[j];
    }
  }

  // Whatever its rank, an import leaves every reference good, and empties none.
  lemma ImportRefers(db: Db, r: string, report: Report, k: StateKey)
    requires UniqueReports(db) && Refers(db, k)
    ensures Refers(Saved(db, r, report), k)
    ensures k in Saved(db, r, report).states && Saved(db, r, report).states[k].lastSnapshot == NO_SNAPSHOT ==>
              k in db.states && db.states[k].lastSnapshot == NO_SNAPSHOT
  {
    hide SeenAll, SeenBeforeAll, AllAbsent;
    ReportRow(db, r);
    var t, id := Saved(db, r, report), RowOf(db, r);
    if HasReport(db, r) && db.snapshots[id].Imported? {
    } else {
      ImportKeepsRows(db, r, report);
      if !report.ref.Managed() {
      } else if ComesOutOnTop(db, r, report) {
        NewestImportColumns(db, r, report, k);
        if k.ref == report.ref && Holds(report, k.fingerprint) {
          SeverityListed(report.findings, k.fingerprint);
        }
      } else {
        OlderImportColumns(db, r, report, k);
        if k.ref == report.ref && Holds(report, k.fingerprint) {
          FirstSeverityListed(report.findings, k.fingerprint);
        }
      }
    }
  }

  lemma ImportKeepsRows(db: Db, r: string, report: Report)
    requires UniqueReports(db) && !(HasReport(db, r) && db.snapshots[RowOf(db, r)].Imported?)
    ensures var t, id := Saved(db, r, report), RowOf(db, r);
            && id > 0 && t.snapshots == db.snapshots[id := Imported(r, report)]
            && (id in db.snapshots ==> db.snapshots[id].Failure?)
            && (!report.ref.Managed() ==> t.states == db.states)
            && (forall i :: i in db.snapshots && db.snapshots[i].reportId == r ==> !db.snapshots[i].Imported?)
  {
    ReportRow(db, r);
  }

  // Any step; only a prune can empty a reference.
  lemma StepRefers(cat: Catalog, db: Db, op: Op, k: StateKey)
    requires UniqueReports(db) && Refers(db, k)
    ensures Refers(Step(cat, db, op), k)
    ensures var t := Step(cat, db, op);
            k in t.states && t.states[k].lastSnapshot == NO_SNAPSHOT ==>
              || (k in db.states && db.states[k].lastSnapshot == NO_SNAPSHOT)
              || (op == Prune && k in db.states && db.states[k].lastSnapshot in db.snapshots && db.states[k].lastSnapshot !in t.snapshots)
  {
    hide Saved, FailureRecorded, FailureDeleted, Pruned, Shows, UniqueReports;
    match op {
      case Import(r) =>
        if r in cat {
          ImportRefers(db, r, cat[r], k);
        }
      case Fail(r, ref) =>
        if k in db.states {
          FailureCounted(db, r, ref, db.states[k].lastSnapshot);
        }
        FailureCounted(db, r, ref, 0);
      case DropFailure(r) =>
        if k in db.states {
          OnlyFailureDropped(db, r, db.states[k].lastSnapshot);
        }
        OnlyFailureDropped(db, r, 0);
      case Prune =>
        if k in db.states {
          PruneColumns(db, db.states[k].lastSnapshot, k);
          PruneShows(db, k);
        }
        PruneColumns(db, 0, k);
    }
  }

  lemma PruneShows(db: Db, k: StateKey)
    requires k in db.states
    ensures k in Pruned(db).states && forall report :: Shows(report, k, db.states[k]) ==> Shows(report, k, Pruned(db).states[k])
  {
    hide Pruned;
    PruneColumns(db, 0, k);
    forall report | Shows(report, k, db.states[k]) ensures Shows(report, k, Pruned(db).states[k]) {
      var i :| 0 <= i < |report.findings| && report.findings[i].fingerprint == k.fingerprint && report.findings[i].severity == db.states[k].severity;
      assert report.findings[i].severity == Pruned(db).states[k].severity;
    }
  }

  /** In every reachable state each finding refers to an imported row that shows it at the severity and time the
      finding tells, or to none. */
  lemma {:induction false} RunRefers(cat: Catalog, ops: seq<Op>, k: StateKey)
    requires KnownOps(cat, ops)
    ensures Refers(Run(cat, ops), k)
  {
    hide Refers, Step;
    if ops == [] {
      EmptyRefers(k);
    } else {
      var front := ops[..|ops| - 1];
      RunRefers(cat, front, k);
      RunTracks(cat, front);
      TracksUnique(Run(cat, front), cat, ImportedBy(front));
      StepRefers(cat, Run(cat, front), ops[|ops| - 1], k);
    }
  }

  lemma EmptyRefers(k: StateKey)
    ensures Refers(EMPTY, k)
  {
  }

  lemma TracksUnique(db: Db, cat: Catalog, h: set<string>)
    requires FindingLaws.Tracks(db, cat, h)
    ensures UniqueReports(db)
  {
    hide StateTrue, Top, Newest;
  }

  // Step `j` pruned the row the finding referred to, and the finding has referred to none since.
  ghost predicate PrunedAt(cat: Catalog, ops: seq<Op>, k: StateKey, j: nat) {
    && j < |ops| && ops[j] == Prune
    && (var db, t := Run(cat, ops[..j]), Run(cat, ops[..j + 1]);
        k in db.states && db.states[k].lastSnapshot in db.snapshots && db.states[k].lastSnapshot !in t.snapshots)
    && forall n :: j < n <= |ops| ==> k in Run(cat, ops[..n]).states && Run(cat, ops[..n]).states[k].lastSnapshot == NO_SNAPSHOT
  }

  /** A finding refers to no report only because a prune deleted the row it referred to; the newest reports since then
      did not list it. */
  lemma {:induction false} NoneOnlyAfterPrune(cat: Catalog, ops: seq<Op>, k: StateKey)
    requires KnownOps(cat, ops) && k in Run(cat, ops).states && Run(cat, ops).states[k].lastSnapshot == NO_SNAPSHOT
    ensures exists j :: PrunedAt(cat, ops, k, j)
  {
    hide Step, Refers, FindingLaws.Tracks, PrunedAt;
    if ops != [] {
      var front, last := ops[..|ops| - 1], |ops| - 1;
      RunTracks(cat, front);
      TracksUnique(Run(cat, front), cat, ImportedBy(front));
      RunRefers(cat, front, k);
      StepRefers(cat, Run(cat, front), ops[last], k);
      if k in Run(cat, front).states && Run(cat, front).states[k].lastSnapshot == NO_SNAPSHOT {
        NoneOnlyAfterPrune(cat, front, k);
        var j :| PrunedAt(cat, front, k, j);
        StillPruned(cat, ops, k, j);
      } else {
        PrunedLast(cat, ops, k);
      }
    }
  }

  lemma StillPruned(cat: Catalog, ops: seq<Op>, k: StateKey, j: nat)
    requires ops != [] && PrunedAt(cat, ops[..|ops| - 1], k, j)
    requires k in Run(cat, ops).states && Run(cat, ops).states[k].lastSnapshot == NO_SNAPSHOT
    ensures PrunedAt(cat, ops, k, j)
  {
    hide Run;
    var front := ops[..|ops| - 1];
    assert ops[..|ops|] == ops;
    assert forall n :: 0 <= n < |ops| ==> ops[..n] == front[..n];
  }

  lemma PrunedLast(cat: Catalog, ops: seq<Op>, k: StateKey)
    requires ops != [] && ops[|ops| - 1] == Prune
    requires var db, t := Run(cat, ops[..|ops| - 1]), Run(cat, ops);
             && k in db.states && db.states[k].lastSnapshot in db.snapshots && db.states[k].lastSnapshot !in t.snapshots
             && k in t.states && t.states[k].lastSnapshot == NO_SNAPSHOT
    ensures PrunedAt(cat, ops, k, |ops| - 1)
  {
    hide Run;
    assert ops[..|ops|] == ops;
  }

  // ---- Failures over runs ----

  ghost function FailsSince(ops: seq<Op>, r: string): nat {
    if ops == [] then 0
    else
      var before := FailsSince(ops[..|ops| - 1], r);
      match ops[|ops| - 1]
      case Fail(f, _) => if f == r then before + 1 else before
      case DropFailure(f) => if f == r then 0 else before
      case _ => before
  }

  ghost predicate CountIs(db: Db, r: string, n: nat) {
    && (HasReport(db, r) <==> n > 0)
    && forall i :: i in db.snapshots && db.snapshots[i].reportId == r ==> db.snapshots[i].Failure? && db.snapshots[i].attempts == n
  }

  /** A report never imported has a row exactly while it failed since its failure was last dropped, and the row counts
      how often. */
  lemma {:induction false} AttemptsCounted(cat: Catalog, ops: seq<Op>, r: string)
    requires KnownOps(cat, ops) && r !in ImportedBy(ops)
    ensures CountIs(Run(cat, ops), r, FailsSince(ops, r))
  {
    hide Saved, FailureRecorded, FailureDeleted, Pruned, CountIs;
    if ops == [] {
      EmptyCount(r);
    } else {
      var front, op := ops[..|ops| - 1], ops[|ops| - 1];
      AttemptsCounted(cat, front, r);
      RunTracks(cat, front);
      var db := Run(cat, front);
      TracksUnique(db, cat, ImportedBy(front));
      CountStep(cat, db, op, r, FailsSince(front, r));
    }
  }

  lemma EmptyCount(r: string)
    ensures CountIs(EMPTY, r, 0)
  {
  }

  lemma CountStep(cat: Catalog, db: Db, op: Op, r: string, n: nat)
    requires UniqueReports(db) && CountIs(db, r, n) && op != Import(r)
    ensures CountIs(Step(cat, db, op), r,
              match op
              case Fail(f, _) => (if f == r then n + 1 else n)
              case DropFailure(f) => (if f == r then 0 else n)
              case _ => n)
  {
    hide Saved, FailureRecorded, FailureDeleted, Pruned;
    var t := Step(cat, db, op);
    match op {
      case Import(f) => if f in cat { ImportCount(db, f, cat[f], r, n); }
      case Fail(f, ref) =>
        FailureCount(db, f, ref, r, n);
      case DropFailure(f) =>
        forall i ensures i in t.snapshots <==> i in db.snapshots && (db.snapshots[i].Imported? || db.snapshots[i].reportId != f)
                 ensures i in t.snapshots ==> t.snapshots[i] == db.snapshots[i] {
          OnlyFailureDropped(db, f, i);
        }
      case Prune =>
        forall i ensures i in t.snapshots ==> i in db.snapshots && t.snapshots[i] == db.snapshots[i]
                 ensures i in db.snapshots && i !in t.snapshots ==> db.snapshots[i].Imported? {
          PruneColumns(db, i, StateKey(TaskRef("", ""), ""));
        }
    }
  }

  lemma FailureCount(db: Db, f: string, ref: TaskRef, r: string, n: nat)
    requires UniqueReports(db) && CountIs(db, r, n)
    ensures CountIs(FailureRecorded(db, f, ref), r, if f == r then n + 1 else n)
  {
    hide FailureRecorded, UniqueReports;
    var t := FailureRecorded(db, f, ref);
    FailureCounted(db, f, ref, 0);
    forall i | i in t.snapshots && t.snapshots[i].reportId == r
      ensures t.snapshots[i].Failure? && t.snapshots[i].attempts == if f == r then n + 1 else n
    {
      FailureCounted(db, f, ref, i);
      if f == r {
        if HasReport(db, r) {
          assert db.snapshots[i].Failure? && db.snapshots[i].attempts == n;
        }
      } else {
        assert db.snapshots[i] == t.snapshots[i];
      }
    }
    if f != r {
      if HasReport(db, r) {
        var i :| i in db.snapshots && db.snapshots[i].reportId == r;
        FailureCounted(db, f, ref, i);
        assert HasReport(t, r);
      }
      if HasReport(t, r) {
        var i :| i in t.snapshots && t.snapshots[i].reportId == r;
        FailureCounted(db, f, ref, i);
        assert HasReport(db, r);
      }
    }
  }

  lemma ImportCount(db: Db, f: string, report: Report, r: string, n: nat)
    requires UniqueReports(db) && CountIs(db, r, n) && f != r
    ensures CountIs(Saved(db, f, report), r, n)
  {
    hide Reconciled;
    ReportRow(db, f);
    if !(HasReport(db, f) && db.snapshots[RowOf(db, f)].Imported?) {
      var t, id := Saved(db, f, report), RowOf(db, f);
      if HasReport(db, r) {
        var i :| i in db.snapshots && db.snapshots[i].reportId == r;
        assert i in t.snapshots && t.snapshots[i].reportId == r;
      }
      if HasReport(t, r) {
        var i :| i in t.snapshots && t.snapshots[i].reportId == r;
        assert i in db.snapshots && db.snapshots[i].reportId == r;
      }
    }
  }
}
