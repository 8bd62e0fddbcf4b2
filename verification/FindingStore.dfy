/** Report snapshots and the current-exposure table kept beside them. One call is one transaction. */
module FindingStore {
  import opened FindingTables

  const CHUNK: nat := 40
  const KEPT_REPORTS: nat := 3

  datatype Db = Db(snapshots: map<nat, Snapshot>, nextId: nat, states: map<StateKey, FindingState>)

  // ---- Lookups ----

  predicate HasReport(db: Db, reportId: string) {
    exists id :: id in db.snapshots && db.snapshots[id].reportId == reportId
  }

  ghost predicate UniqueReports(db: Db) {
    && (forall i, j | i in db.snapshots && j in db.snapshots :: db.snapshots[i].reportId == db.snapshots[j].reportId ==> i == j)
    && db.nextId > 0 && forall i :: i in db.snapshots ==> 0 < i < db.nextId
  }

  // Newer by scan end, the row id breaking ties.
  predicate Newer(a: Snapshot, i: nat, scanEnd: int, id: nat)
    requires a.Imported?
  {
    a.report.scanEnd > scanEnd || (a.report.scanEnd == scanEnd && i > id)
  }

  function NewerRows(db: Db, ref: TaskRef, scanEnd: int, id: nat): set<nat> {
    set i | i in db.snapshots && db.snapshots[i].Imported? && db.snapshots[i].report.ref == ref
            && Newer(db.snapshots[i], i, scanEnd, id)
  }

  // ---- Finding states ----

  // The upsert of a finding of the newest snapshot.
  function Seen(states: map<StateKey, FindingState>, key: StateKey, scanEnd: int, id: nat, severity: int): map<StateKey, FindingState> {
    states[key := FindingState(if key in states then states[key].firstSeen else scanEnd, scanEnd, id, true, severity)]
  }

  // The upsert of a finding of an older snapshot.
  function SeenBefore(states: map<StateKey, FindingState>, key: StateKey, scanEnd: int, id: nat, severity: int): map<StateKey, FindingState> {
    if key in states then states[key := states[key].(firstSeen := if states[key].firstSeen <= scanEnd then states[key].firstSeen else scanEnd)]
    else states[key := FindingState(scanEnd, scanEnd, id, false, severity)]
  }

  function AllAbsent(states: map<StateKey, FindingState>, ref: TaskRef): map<StateKey, FindingState> {
    map k | k in states :: if k.ref == ref then states[k].(present := false) else states[k]
  }

  function SeenAll(states: map<StateKey, FindingState>, report: Report, id: nat, fs: seq<Finding>): map<StateKey, FindingState> {
    if fs == [] then states
    else
      var f := fs[|fs| - 1];
      Seen(SeenAll(states, report, id, fs[..|fs| - 1]), StateKey(report.ref, f.fingerprint), report.scanEnd, id, f.severity)
  }

  function SeenBeforeAll(states: map<StateKey, FindingState>, report: Report, id: nat, fs: seq<Finding>): map<StateKey, FindingState> {
    if fs == [] then states
    else
      var f := fs[|fs| - 1];
      SeenBefore(SeenBeforeAll(states, report, id, fs[..|fs| - 1]), StateKey(report.ref, f.fingerprint), report.scanEnd, id, f.severity)
  }

  // The states after an import into row `id`, the snapshot table already holding the row.
  function Reconciled(db: Db, report: Report, id: nat): map<StateKey, FindingState> {
    if !report.ref.Managed() then db.states
    else if NewerRows(db, report.ref, report.scanEnd, id) == {} then
      SeenAll(AllAbsent(db.states, report.ref), report, id, report.findings)
    else SeenBeforeAll(db.states, report, id, report.findings)
  }

  ghost function RowOf(db: Db, reportId: string): nat {
    if HasReport(db, reportId) then
      var id :| id in db.snapshots && db.snapshots[id].reportId == reportId; id
    else db.nextId
  }

  // SaveReportSnapshot: nothing for an imported report, else insert or replace and reconcile.
  ghost function Saved(db: Db, reportId: string, report: Report): Db {
    if HasReport(db, reportId) && db.snapshots[RowOf(db, reportId)].Imported? then db
    else
      var id := RowOf(db, reportId);
      var row := db.(snapshots := db.snapshots[id := Imported(reportId, report)],
                     nextId := if HasReport(db, reportId) then db.nextId else db.nextId + 1);
      row.(states := Reconciled(row, report, id))
  }

  // RecordReportImportFailure: never touches an imported row.
  ghost function FailureRecorded(db: Db, reportId: string, ref: TaskRef): Db {
    if HasReport(db, reportId) then
      var id := RowOf(db, reportId);
      if db.snapshots[id].Imported? then db
      else db.(snapshots := db.snapshots[id := Failure(reportId, ref, db.snapshots[id].attempts + 1)])
    else db.(snapshots := db.snapshots[db.nextId := Failure(reportId, ref, 1)], nextId := db.nextId + 1)
  }

  // DeleteFailedReportImport
  function FailureDeleted(db: Db, reportId: string): Db {
    db.(snapshots := map i | i in db.snapshots && !(db.snapshots[i].reportId == reportId && db.snapshots[i].Failure?) :: db.snapshots[i])
  }

  // Rank above three, and no present finding refers to the row.
  predicate Prunable(db: Db, i: nat)
    requires i in db.snapshots
  {
    var s := db.snapshots[i];
    && s.Imported? && s.report.ref.Managed()
    && |NewerRows(db, s.report.ref, s.report.scanEnd, i)| >= KEPT_REPORTS
    && !exists k :: k in db.states && db.states[k].lastSnapshot == i && db.states[k].present
  }

  // PruneReportSnapshots: one ranked delete; references to deleted rows become empty.
  function Pruned(db: Db): Db {
    var kept := map i | i in db.snapshots && !Prunable(db, i) :: db.snapshots[i];
    db.(snapshots := kept,
        states := map k | k in db.states :: if db.states[k].lastSnapshot in db.snapshots && db.states[k].lastSnapshot !in kept
                                            then db.states[k].(lastSnapshot := NO_SNAPSHOT) else db.states[k])
  }

  // ---- The store ----

  class Store {
    var snapshots: map<nat, Snapshot>
    var nextId: nat
    var states: map<StateKey, FindingState>

    ghost function Contents(): Db
      reads this
    {
      Db(snapshots, nextId, states)
    }

    method Lookup(reportId: string) returns (found: bool, id: nat)
      requires UniqueReports(Contents())
      ensures found == HasReport(Contents(), reportId)
      ensures found ==> id in snapshots && id == RowOf(Contents(), reportId)
    {
      found, id := false, 0;
      var rest := snapshots.Keys;
      while rest != {}
        invariant rest <= snapshots.Keys
        invariant !found ==> forall i :: i in snapshots && i !in rest ==> snapshots[i].reportId != reportId
        invariant found ==> id in snapshots && snapshots[id].reportId == reportId
        decreases rest
      {
        var i :| i in rest;
        rest := rest - {i};
        if snapshots[i].reportId == reportId {
          found, id := true, i;
        }
      }
    }

    method SaveReportSnapshot(reportId: string, report: Report)
      requires UniqueReports(Contents())
      modifies this
      ensures Contents() == Saved(old(Contents()), reportId, report)
    {
      var found, id := Lookup(reportId);
      if found && snapshots[id].Imported? {
        return;
      }
      ghost var before := Contents();
      if !found {
        id := nextId;
        nextId := nextId + 1;
      }
      // Findings go in by chunks; the transaction commits them as one.
      var stored: seq<Finding> := [];
      var start := 0;
      while start < |report.findings|
        invariant 0 <= start && stored == report.findings[..if start < |report.findings| then start else |report.findings|]
        decreases |report.findings| - start
      {
        var end := if start + CHUNK < |report.findings| then start + CHUNK else |report.findings|;
        stored := stored + report.findings[start..end];
        start := start + CHUNK;
      }
      assert stored == report.findings;
      snapshots := snapshots[id := Imported(reportId, report.(findings := stored))];
      if report.ref.Managed() {
        var newer := set i | i in snapshots && snapshots[i].Imported? && snapshots[i].report.ref == report.ref
                             && Newer(snapshots[i], i, report.scanEnd, id);
        assert newer == NewerRows(Contents(), report.ref, report.scanEnd, id);
        if |newer| == 0 {
          ReconcileFindingStates(report, id);
        } else {
          ReconcileHistoricalFindingStates(report, id);
        }
      }
    }

    method ReconcileFindingStates(report: Report, id: nat)
      modifies this`states
      ensures states == SeenAll(AllAbsent(old(states), report.ref), report, id, report.findings)
    {
      var present := states;
      states := map k | k in present :: if k.ref == report.ref then present[k].(present := false) else present[k];
      for i := 0 to |report.findings|
        invariant states == SeenAll(AllAbsent(present, report.ref), report, id, report.findings[..i])
      {
        var f := report.findings[i];
        assert report.findings[..i + 1][..i] == report.findings[..i];
        var key := StateKey(report.ref, f.fingerprint);
        if key in states {
          states := states[key := states[key].(lastSeen := report.scanEnd, lastSnapshot := id, present := true, severity := f.severity)];
        } else {
          states := states[key := FindingState(report.scanEnd, report.scanEnd, id, true, f.severity)];
        }
      }
      assert report.findings[..|report.findings|] == report.findings;
    }

    method ReconcileHistoricalFindingStates(report: Report, id: nat)
      modifies this`states
      ensures states == SeenBeforeAll(old(states), report, id, report.findings)
    {
      for i := 0 to |report.findings|
        invariant states == SeenBeforeAll(old(states), report, id, report.findings[..i])
      {
        var f := report.findings[i];
        assert report.findings[..i + 1][..i] == report.findings[..i];
        var key := StateKey(report.ref, f.fingerprint);
        if key in states {
          var first := if states[key].firstSeen <= report.scanEnd then states[key].firstSeen else report.scanEnd;
          states := states[key := states[key].(firstSeen := first)];
        } else {
          states := states[key := FindingState(report.scanEnd, report.scanEnd, id, false, f.severity)];
        }
      }
      assert report.findings[..|report.findings|] == report.findings;
    }

    method RecordReportImportFailure(reportId: string, ref: TaskRef)
      requires UniqueReports(Contents())
      modifies this
      ensures Contents() == FailureRecorded(old(Contents()), reportId, ref)
    {
      var found, id := Lookup(reportId);
      if found {
        if snapshots[id].Imported? {
          return;
        }
        snapshots := snapshots[id := Failure(reportId, ref, snapshots[id].attempts + 1)];
        return;
      }
      snapshots := snapshots[nextId := Failure(reportId, ref, 1)];
      nextId := nextId + 1;
    }

    method DeleteFailedReportImport(reportId: string)
      modifies this
      ensures Contents() == FailureDeleted(old(Contents()), reportId)
    {
      snapshots := map i | i in snapshots && !(snapshots[i].reportId == reportId && snapshots[i].Failure?) :: snapshots[i];
    }

    method PruneReportSnapshots()
      modifies this
      ensures Contents() == Pruned(old(Contents()))
    {
      var db := Db(snapshots, nextId, states);
      var kept := map i | i in snapshots && !Prunable(db, i) :: snapshots[i];
      states := map k | k in states :: if states[k].lastSnapshot in snapshots && states[k].lastSnapshot !in kept
                                       then states[k].(lastSnapshot := NO_SNAPSHOT) else states[k];
      snapshots := kept;
    }
  }
}
