/** The reconciler's control flow, call by call. Every repository or Greenbone call may fail or be
    the last thing the process does, with its effect taken or not. */
module Reconciler {
  import opened NetworkClass
  import opened Markers
  import opened ReconcileFrames
  import opened ReconcileState

  // Done: replied. Failed: an error came back. Stopped: the process ended at this call.
  datatype Outcome = Done | Failed | Stopped

  datatype FindResult = Recovered(id: Id) | NoneFound | SeveralFound | FindFault

  datatype CommentResult = Text(comment: Comment) | Missing | CommentFault

  class Reconciler {
    var st: State
    // The run's own copy of the rows.
    var existing: map<Key, Row>

    // The keys whose write to Greenbone came back with an error, in order; and how often the process ended in such a
    // write, or a row write did not come back.
    ghost var failed: seq<Key>
    ghost var lost: nat

    // ---- Single calls ----

    method UpsertManagedResource(k: Key, row: Row) returns (o: Outcome)
      modifies this`st, this`lost
      ensures lost == if o == Done then old(lost) else old(lost) + 1
      ensures o == Done ==> st == Upserted(old(st), k, row)
      ensures o != Done ==> st == Faulted(old(st)) || st == Faulted(Upserted(old(st), k, row))
    {
      var took: bool := *;
      o := *;
      if o == Done || took {
        st := Upserted(st, k, row);
      }
      if o != Done {
        st := Faulted(st);
        lost := lost + 1;
      }
    }

    method DeleteManagedResource(k: Key) returns (o: Outcome)
      modifies this`st
      ensures o == Done ==> st == RowGone(old(st), k)
      ensures o != Done ==> st == Faulted(old(st)) || st == Faulted(RowGone(old(st), k))
    {
      var took: bool := *;
      o := *;
      if o == Done || took {
        st := RowGone(st, k);
      }
      if o != Done {
        st := Faulted(st);
      }
    }

    // A call that changes neither rows nor objects: audit events, run status, reading rows.
    method OtherCall() returns (o: Outcome)
      modifies this`st
      ensures st == if o == Done then old(st) else Faulted(old(st))
    {
      o := *;
      if o != Done {
        st := Faulted(st);
      }
    }

    method Create(k: Key, spec: Spec) returns (o: Outcome, id: Id)
      modifies this`st, this`failed, this`lost
      ensures failed == (if o == Failed then old(failed) + [k] else old(failed)) && lost == (if o == Stopped then old(lost) + 1 else old(lost))
      ensures o == Done ==> st == Made(old(st), k, spec) && id == old(st).nextId
      ensures o != Done ==> st == Faulted(old(st)) || st == Faulted(Made(old(st), k, spec))
    {
      var took: bool := *;
      o := *;
      id := st.nextId;
      if o == Done || took {
        st := Made(st, k, spec);
      }
      failed, lost := if o == Failed then failed + [k] else failed, if o == Stopped then lost + 1 else lost;
      if o != Done {
        st := Faulted(st);
      }
    }

    method Modify(k: Key, id: Id, spec: Spec) returns (o: Outcome)
      requires id in st.objects
      modifies this`st, this`failed, this`lost
      ensures failed == (if o == Failed then old(failed) + [k] else old(failed)) && lost == (if o == Stopped then old(lost) + 1 else old(lost))
      ensures o == Done ==> st == Changed(old(st), k, id, spec)
      ensures o != Done ==> st == Faulted(old(st)) || st == Faulted(Changed(old(st), k, id, spec))
    {
      var took: bool := *;
      o := *;
      if o == Done || took {
        st := Changed(st, k, id, spec);
      }
      failed, lost := if o == Failed then failed + [k] else failed, if o == Stopped then lost + 1 else lost;
      if o != Done {
        st := Faulted(st);
      }
    }

    method Delete(k: Key, id: Id) returns (o: Outcome)
      modifies this`st, this`failed, this`lost
      ensures failed == (if o == Failed then old(failed) + [k] else old(failed)) && lost == (if o == Stopped then old(lost) + 1 else old(lost))
      ensures o == Done ==> st == Trashed(old(st), k, id)
      ensures o != Done ==> st == Faulted(old(st)) || st == Faulted(Trashed(old(st), k, id))
    {
      var took: bool := *;
      o := *;
      if o == Done || took {
        st := Trashed(st, k, id);
      }
      failed, lost := if o == Failed then failed + [k] else failed, if o == Stopped then lost + 1 else lost;
      if o != Done {
        st := Faulted(st);
      }
    }

    method EnsureTaskReportRetention(k: Key, id: Id) returns (o: Outcome)
      requires id in st.objects
      modifies this`st, this`failed, this`lost
      ensures failed == (if o == Failed then old(failed) + [k] else old(failed)) && lost == (if o == Stopped then old(lost) + 1 else old(lost))
      ensures o == Done ==> st == RetentionSet(old(st), k, id)
      ensures o != Done ==> st == Faulted(old(st)) || st == Faulted(RetentionSet(old(st), k, id))
    {
      var took: bool := *;
      o := *;
      if o == Done || took {
        st := RetentionSet(st, k, id);
      }
      failed, lost := if o == Failed then failed + [k] else failed, if o == Stopped then lost + 1 else lost;
      if o != Done {
        st := Faulted(st);
      }
    }

    method ResourceComment(id: Id) returns (r: CommentResult)
      modifies this`st
      ensures st == if r.CommentFault? then Faulted(old(st)) else old(st)
      ensures r.Text? ==> id in st.objects && r.comment == st.objects[id].comment
      ensures r.Missing? ==> id !in st.objects
    {
      var o: Outcome := *;
      if o != Done {
        st := Faulted(st);
        return CommentFault;
      }
      r := if id in st.objects then Text(st.objects[id].comment) else Missing;
    }

    // FindResource scans the objects of the key's kind for its marker.
    method FindResource(k: Key) returns (r: FindResult)
      modifies this`st
      ensures st == if r.FindFault? then Faulted(old(st)) else old(st)
      ensures r.Recovered? ==> r.id in st.objects && st.objects[r.id].kind == k.Kind() && Owns(st.objects[r.id], k)
      ensures r.NoneFound? ==> forall i :: i in st.objects && st.objects[i].kind == k.Kind() ==> !Owns(st.objects[i], k)
      ensures r.SeveralFound? ==>
        exists i, j | i in st.objects && j in st.objects :: i != j && Owns(st.objects[i], k) && Owns(st.objects[j], k)
    {
      var o: Outcome := *;
      if o != Done {
        st := Faulted(st);
        return FindFault;
      }
      r := NoneFound;
      var rest := st.objects.Keys;
      while rest != {}
        invariant rest <= st.objects.Keys && st == old(st)
        invariant r.NoneFound? || r.Recovered?
        invariant r.Recovered? ==>
          r.id in st.objects && r.id !in rest && st.objects[r.id].kind == k.Kind() && Owns(st.objects[r.id], k)
        invariant r.NoneFound? ==>
          forall i :: i in st.objects && i !in rest && st.objects[i].kind == k.Kind() ==> !Owns(st.objects[i], k)
        decreases rest
      {
        var i :| i in rest;
        rest := rest - {i};
        if st.objects[i].kind == k.Kind() && Owns(st.objects[i], k) {
          if r.Recovered? {
            return SeveralFound;
          }
          r := Recovered(i);
        }
      }
    }

    // recordResourceError: one more row write, whose own outcome changes nothing.
    method RecordResourceError(k: Key, row: Row)
      modifies this`st, this`lost
      ensures old(lost) <= lost && (lost == old(lost) ==> st == Upserted(old(st), k, row.(state := Error)))
      ensures st.faults >= old(st).faults
      ensures st == Upserted(old(st), k, row.(state := Error))
           || st == Faulted(old(st)) || st == Faulted(Upserted(old(st), k, row.(state := Error)))
    {
      var o := UpsertManagedResource(k, row.(state := Error));
    }

    // ---- applyResource ----

    // A row that claims the wanted value is taken at its word, whatever became of its object.
    method ApplyResource(ghost d: Desired, ghost u: set<Key>, key: Key, hash: Spec) returns (ok: bool, id: Id)
      requires existing == st.rows && Fresh(st)
      modifies this
      ensures Beside(old(st), st, key) && (ok ==> existing == st.rows)
      ensures RowCurrent(old(existing), key, hash) ==> ok && st == old(st) && existing == old(existing) && id == existing[key].gvmId
      ensures ok && !RowCurrent(old(existing), key, hash) ==> AppliedBy(old(st), st, key, hash, id)
      ensures CreatesAtMost(old(st), st, key, hash)
      ensures old(lost) <= lost && (ok ==> failed == old(failed) && lost == old(lost))
      ensures lost == old(lost) ==> Accounted(old(failed), failed, old(st), st, key)
      ensures HasId(old(st).rows, key) && Foreign(old(st), key, old(st).rows[key].gvmId) && !RowCurrent(old(existing), key, hash) ==>
                !ok && st.rows == old(st).rows && st.objects == old(st).objects
      ensures old(Applicable(st, d, u, key, hash)) ==>
                && Stepped(old(st), st, d, u, key)
                && (ok <==> st.faults == old(st).faults)
                && (ok ==> existing == st.rows && Settled(st, d, key) && id == st.rows[key].gvmId)
                && (HasId(old(st).rows, key) && ok ==> id == old(st).rows[key].gvmId)
    {
      hide Inv, Safe, OthersKept, Settled, Ready, Written, Stepped, Applicable, Beside, Fresh, Opening, Opened, WroteBy, AppliedBy, CreatesAtMost,
        Accounted;
      id := NO_ID;
      ghost var s0 := st;
      ghost var good := Applicable(s0, d, u, key, hash);
      BesideReflexive(s0, key);
      NothingCreated(s0, s0, key, hash);
      ghost var f0 := failed;
      NothingAccounted(f0, s0, key);
      if key in existing && existing[key].gvmId != NO_ID && existing[key].hash == hash && existing[key].state == Applied {
        if good {
          CurrentIsSettled(s0, d, u, key, hash);
        }
        return true, existing[key].gvmId;
      }
      var row;
      ok, row := OpenRow(d, u, key, hash);
      NothingCreated(s0, st, key, hash);
      OpenedAccounted(f0, s0, st, key, hash);
      if !ok {
        return;
      }
      ghost var s1 := st;
      BesideFresh(s0, s1, key);
      ok, id := WriteObject(d, u, key, hash, row);
      StepsJoin(good, s0, s1, st, d, u, key);
      OpenedCreates(s0, s1, st, key, hash, row, ok, id);
      if !ok {
        if lost == old(lost) {
          WriteFailedAccounted(f0, failed, s1, st, key);
          AccountedTwice(f0, failed, s0, s1, st, key);
        }
        return;
      }
      ghost var s2 := st;
      BesideFresh(s0, s2, key);
      ok := Checkpoint(d, u, key, hash, id);
      StepsJoin(good, s0, s2, st, d, u, key);
      CheckpointCreates(s0, s2, st, key, hash);
      if lost == old(lost) {
        CheckpointAccounted(f0, s0, s1, s2, st, key, hash, row, id);
      }
      if ok {
        WrittenApplies(s0, s1, s2, st, key, hash, row, id);
      }
    }

    // The checkpoint to work on: an intent row just written, or an old one with its object looked up.
    method OpenRow(ghost d: Desired, ghost u: set<Key>, key: Key, hash: Spec) returns (ok: bool, row: Row)
      requires existing == st.rows && Fresh(st) && !RowCurrent(existing, key, hash)
      modifies this
      ensures Beside(old(st), st, key) && st.objects == old(st).objects && st.nextId == old(st).nextId
      ensures failed == old(failed) && old(lost) <= lost && (ok ==> lost == old(lost))
      ensures st.rows == old(st).rows || st.rows == old(st).rows[key := Row(NO_ID, hash, Creating)]
      ensures key in old(st).rows ==> st.rows == old(st).rows
      ensures ok ==> existing == st.rows && key in st.rows && Opened(old(st), st, key, hash, row)
      ensures old(Applicable(st, d, u, key, hash)) ==>
                && Stepped(old(st), st, d, u, key)
                && (ok <==> st.faults == old(st).faults)
                && (ok ==> Opening(st, d, u, key, hash, row))
                && (HasId(old(st).rows, key) && ok ==> row.gvmId == old(st).rows[key].gvmId)
    {
      hide Inv, Safe, OthersKept, Wants, IsDesired, UpToDate, NoTaskFor, NoLive, Matches, Ready, Doomed, DeadSame, Applicable, Beside, Owns;
      ghost var s0 := st;
      ghost var good := Applicable(s0, d, u, key, hash);
      BesideReflexive(s0, key);
      if good {
        ApplicableFacts(s0, d, u, key, hash);
        SteppedReflexive(s0, d, u, key);
      }
      ok := false;
      if key !in existing {
        row := Row(NO_ID, hash, Creating);
        if good {
          IntentIsReady(s0, d, u, key, hash);
        }
        UpsertedBeside(s0, key, row);
        var o := UpsertManagedResource(key, row);
        AfterCall(good, s0, s0, Upserted(s0, key, row), st, d, u, key);
        if o == Done {
          existing := existing[key := row];
          ok := true;
        }
        return;
      }
      if good {
        RowIsReady(st, d, u, key, hash);
        ReadyRow(st, d, u, key, hash);
      }
      row := existing[key];
      if row.gvmId == NO_ID {
        if good {
          OneObjectOrNone(st, d, u, key);
        }
        var found := FindResource(key);
        AfterCall(good, s0, s0, s0, st, d, u, key);
        if found.FindFault? || found.SeveralFound? {
          return;
        }
        if found.Recovered? {
          row := row.(gvmId := found.id);
        } else if good {
          NothingLive(st, d, u, key);
        }
      }
      ok := true;
    }

    // The remote object is modified if it is there and owned, else created.
    method WriteObject(ghost d: Desired, ghost u: set<Key>, key: Key, hash: Spec, row: Row) returns (ok: bool, id: Id)
      requires existing == st.rows && Fresh(st)
      modifies this`st, this`failed, this`lost
      ensures Beside(old(st), st, key)
      ensures WroteBy(old(st), st, key, hash, row, ok, id)
      ensures old(lost) <= lost && (ok ==> failed == old(failed) && lost == old(lost))
      ensures !ok && lost == old(lost) ==>
                || (failed == old(failed) && st.rows == old(st).rows && st.objects == old(st).objects)
                || (failed == old(failed) + [key] && key in st.rows && st.rows[key].state == Error)
      ensures Foreign(old(st), key, row.gvmId) ==> !ok && st.rows == old(st).rows && st.objects == old(st).objects
      ensures old(Opening(st, d, u, key, hash, row)) ==>
                && Stepped(old(st), st, d, u, key)
                && (ok <==> st.faults == old(st).faults)
                && (ok ==> Written(st, d, u, key, hash, id) && (row.gvmId != NO_ID ==> id == row.gvmId))
    {
      hide Inv, Safe, OthersKept, Wants, IsDesired, UpToDate, NoTaskFor, NoLive, Matches, Ready, Doomed, Written, DeadSame, Beside;
      ghost var s0 := st;
      ghost var good := Opening(s0, d, u, key, hash, row);
      BesideReflexive(s0, key);
      if good {
        ReadyInv(s0, d, u, key, hash);
        SteppedReflexive(s0, d, u, key);
      }
      ok, id := false, row.gvmId;
      if id != NO_ID {
        OwnObject(key);
        var text := ResourceComment(id);
        AfterCall(good, s0, s0, s0, st, d, u, key);
        match text {
          case CommentFault => return;
          case Missing => id := NO_ID;
          case Text(comment) =>
            if !(comment.Marked? && Matches(comment.key, key)) {
              return;
            }
        }
      }
      if id != NO_ID {
        ok := ModifyOwned(d, u, key, hash, row, id);
        return;
      }
      ok, id := CreateNew(d, u, key, hash, row);
    }

    method ModifyOwned(ghost d: Desired, ghost u: set<Key>, key: Key, hash: Spec, row: Row, id: Id) returns (ok: bool)
      requires existing == st.rows && Fresh(st) && id in st.objects && Owns(st.objects[id], key)
      modifies this`st, this`failed, this`lost
      ensures Beside(old(st), st, key) && st.nextId == old(st).nextId
      ensures ok ==> st == Changed(old(st), key, id, hash)
      ensures old(lost) <= lost && (ok ==> failed == old(failed) && lost == old(lost))
      ensures !ok && lost == old(lost) ==> failed == old(failed) + [key] && key in st.rows && st.rows[key].state == Error
      ensures old(Opening(st, d, u, key, hash, row)) && id == row.gvmId ==>
                Stepped(old(st), st, d, u, key) && (ok <==> st.faults == old(st).faults) && (ok ==> Written(st, d, u, key, hash, id))
    {
      hide Inv, Safe, OthersKept, Wants, IsDesired, UpToDate, NoTaskFor, NoLive, Matches, Ready, Doomed, Written, DeadSame, Beside;
      ghost var s0 := st;
      ghost var good := Opening(s0, d, u, key, hash, row) && id == row.gvmId;
      BesideReflexive(s0, key);
      OwnedBeside(s0, key, id, hash);
      if good {
        ReadyInv(s0, d, u, key, hash);
        SteppedReflexive(s0, d, u, key);
        ModifyIsWritten(s0, d, u, key, hash, id);
      }
      var o := Modify(key, id, hash);
      AfterCall(good, s0, s0, Changed(s0, key, id, hash), st, d, u, key);
      if o == Failed {
        ghost var before := st;
        if good {
          FailureIsRecorded(s0, before, d, u, key, hash, id);
        }
        BesideFresh(s0, before, key);
        UpsertedBeside(before, key, row.(state := Error));
        RecordResourceError(key, row);
        AfterCall(good, s0, before, Upserted(before, key, row.(state := Error)), st, d, u, key);
      }
      ok := o == Done;
    }

    method CreateNew(ghost d: Desired, ghost u: set<Key>, key: Key, hash: Spec, ghost row: Row) returns (ok: bool, id: Id)
      requires existing == st.rows && Fresh(st)
      modifies this`st, this`failed, this`lost
      ensures Beside(old(st), st, key)
      ensures ok ==> st == Made(old(st), key, hash) && id == old(st).nextId
      ensures old(lost) <= lost && (ok ==> failed == old(failed) && lost == old(lost))
      ensures !ok && lost == old(lost) ==> failed == old(failed) + [key] && key in st.rows && st.rows[key].state == Error
      ensures st.nextId == old(st).nextId || (st.nextId == old(st).nextId + 1 && st.objects == Made(old(st), key, hash).objects)
      ensures old(Opening(st, d, u, key, hash, row)) && row.gvmId == NO_ID ==>
                Stepped(old(st), st, d, u, key) && (ok <==> st.faults == old(st).faults) && (ok ==> Written(st, d, u, key, hash, id))
    {
      hide Inv, Safe, OthersKept, Wants, IsDesired, UpToDate, NoTaskFor, NoLive, Matches, Ready, Doomed, Written, DeadSame, Beside;
      ghost var s0 := st;
      ghost var good := Opening(s0, d, u, key, hash, row) && row.gvmId == NO_ID;
      BesideReflexive(s0, key);
      MadeBeside(s0, key, hash);
      if good {
        ReadyInv(s0, d, u, key, hash);
        SteppedReflexive(s0, d, u, key);
        CreateIsWritten(s0, d, u, key, hash);
      }
      var o;
      o, id := Create(key, hash);
      AfterCall(good, s0, s0, Made(s0, key, hash), st, d, u, key);
      if o == Failed {
        ghost var before := st;
        if good {
          CreateFailureIsRecorded(s0, before, d, u, key, hash);
        }
        BesideFresh(s0, before, key);
        UpsertedBeside(before, key, Row(NO_ID, hash, Error));
        RecordResourceError(key, Row(NO_ID, hash, Error));
        AfterCall(good, s0, before, Upserted(before, key, Row(NO_ID, hash, Error)), st, d, u, key);
      }
      ok := o == Done;
    }

    method Checkpoint(ghost d: Desired, ghost u: set<Key>, key: Key, hash: Spec, id: Id) returns (ok: bool)
      requires existing == st.rows && Fresh(st)
      modifies this
      ensures Beside(old(st), st, key) && st.objects == old(st).objects && st.nextId == old(st).nextId
      ensures ok ==> existing == st.rows
      ensures lost == old(lost) ==> st.rows == old(st).rows[key := Row(id, hash, Applied)]
      ensures failed == old(failed) && old(lost) <= lost && (ok ==> lost == old(lost))
      ensures old(Written(st, d, u, key, hash, id)) ==>
                && Stepped(old(st), st, d, u, key)
                && (ok <==> st.faults == old(st).faults)
                && (ok ==> Settled(st, d, key) && id == st.rows[key].gvmId)
    {
      hide Inv, Safe, OthersKept, Settled, DeadSame, Written, Beside;
      ghost var s0 := st;
      ghost var good := Written(s0, d, u, key, hash, id);
      var row := Row(id, hash, Applied);
      BesideReflexive(s0, key);
      UpsertedBeside(s0, key, row);
      if good {
        WrittenIsApplied(s0, d, u, key, hash, id);
        WrittenInv(s0, d, u, key, hash, id);
        SteppedReflexive(s0, d, u, key);
      }
      var o := UpsertManagedResource(key, row);
      AfterCall(good, s0, s0, Upserted(s0, key, row), st, d, u, key);
      if o != Done {
        return false;
      }
      existing := existing[key := row];
      ghost var before := st;
      BesideFresh(s0, before, key);
      BesideReflexive(before, key);
      if good {
        SteppedReflexive(st, d, u, key);
      }
      o := OtherCall();
      AfterCall(good, s0, before, before, st, d, u, key);
      ok := o == Done;
    }

    // ---- Deleting ----

    // deleteResource for a row, or for the object just recovered for an empty row. An empty row is not looked up.
    method DeleteResource(ghost d: Desired, ghost u: set<Key>, key: Key, row: Row) returns (ok: bool)
      requires Fresh(st)
      modifies this`st, this`failed, this`lost
      ensures Beside(old(st), st, key)
      ensures row.gvmId == NO_ID ==> ok && st == old(st)
      ensures old(lost) <= lost && (ok ==> failed == old(failed) && lost == old(lost))
      ensures lost == old(lost) ==> Accounted(old(failed), failed, old(st), st, key)
      ensures ok ==> st.rows == old(st).rows && row.gvmId !in st.objects
      ensures old(Deletable(st, d, u, key, row)) ==>
                && Stepped(old(st), st, d, u, key)
                && (ok <==> st.faults == old(st).faults)
                && (ok ==> NoLive(st, key))
    {
      hide Inv, Safe, OthersKept, IsDesired, NoTaskFor, NoLive, Matches, Doomed, Deletable, DeadSame, Beside, Accounted;
      ghost var s0 := st;
      ghost var good := Deletable(s0, d, u, key, row);
      BesideReflexive(s0, key);
      NothingAccounted(failed, s0, key);
      if good {
        DeletableFacts(s0, d, u, key, row);
        SteppedReflexive(s0, d, u, key);
      }
      if row.gvmId == NO_ID {
        return true;
      }
      OwnObject(key);
      ghost var before := st;
      var text := ResourceComment(row.gvmId);
      AfterCall(good, s0, before, before, st, d, u, key);
      QuietAccounted(failed, s0, st, key);
      match text {
        case CommentFault => return false;
        case Missing => return true;
        case Text(comment) =>
          if !(comment.Marked? && Matches(comment.key, key)) {
            return false;
          }
      }
      before := st;
      if good {
        TrashIsSafe(before, d, u, key, row);
      }
      OwnedBeside(before, key, row.gvmId, row.hash);
      var o := Delete(key, row.gvmId);
      AfterCall(good, s0, before, Trashed(before, key, row.gvmId), st, d, u, key);
      if o != Done {
        if o == Failed {
          ghost var after := st;
          if good {
            DeleteFailureIsRecorded(before, after, d, u, key, row);
          }
          BesideFresh(s0, after, key);
          UpsertedBeside(after, key, row.(state := Error));
          RecordResourceError(key, row);
          if lost == old(lost) {
            ErrorAccounted(old(failed), s0, st, key);
          }
          AfterCall(good, s0, after, Upserted(after, key, row.(state := Error)), st, d, u, key);
        }
        return false;
      }
      before := st;
      BesideFresh(s0, before, key);
      BesideReflexive(before, key);
      if good {
        SteppedReflexive(before, d, u, key);
        NoLiveFault(before, key);
      }
      o := OtherCall();
      AfterCall(good, s0, before, before, st, d, u, key);
      QuietAccounted(failed, s0, st, key);
      ok := o == Done;
    }

    // Remote object, then row. Of an empty row only the row goes, whatever bears its marker.
    method DeleteWithRow(ghost d: Desired, ghost u: set<Key>, key: Key, row: Row) returns (ok: bool)
      requires Fresh(st)
      modifies this`st, this`failed, this`lost
      ensures Beside(old(st), st, key)
      ensures row.gvmId == NO_ID ==> st.objects == old(st).objects
      ensures old(lost) <= lost && (ok ==> failed == old(failed) && lost == old(lost))
      ensures lost == old(lost) ==> Accounted(old(failed), failed, old(st), st, key)
      ensures ok ==> st.rows == old(st).rows - {key}
      ensures old(Deletable(st, d, u, key, row)) ==>
                && Stepped(old(st), st, d, u, key)
                && (ok <==> st.faults == old(st).faults)
                && (ok ==> NoLive(st, key))
    {
      hide Inv, Safe, OthersKept, IsDesired, NoTaskFor, NoLive, Matches, Doomed, Deletable, DeadSame, Beside, Accounted;
      ghost var s0 := st;
      ghost var good := Deletable(s0, d, u, key, row);
      ok := DeleteResource(d, u, key, row);
      if ok {
        ghost var before := st;
        BesideFresh(s0, before, key);
        UpsertedBeside(before, key, row);
        if good {
          DeletableFacts(s0, d, u, key, row);
          RowGoneIsSafe(s0, before, d, u, key, row);
        }
        var o := DeleteManagedResource(key);
        AfterCall(good, s0, before, RowGone(before, key), st, d, u, key);
        QuietAccounted(failed, before, st, key);
        AccountedTwice(failed, failed, s0, before, st, key);
        ok := o == Done;
      }
    }

    method RemoveManagedTask(ghost d: Desired, ghost u: set<Key>, key: Key) returns (ok: bool)
      requires existing == st.rows && Fresh(st)
      modifies this
      ensures Beside(old(st), st, key)
      ensures ok ==> existing == st.rows && st.rows == old(st).rows - {key}
      ensures key !in old(st).rows ==> ok && st == old(st)
      ensures old(lost) <= lost && (ok ==> failed == old(failed) && lost == old(lost))
      ensures lost == old(lost) ==> Accounted(old(failed), failed, old(st), st, key)
      ensures old(Removable(st, d, u, key)) ==> Stepped(old(st), st, d, u, key) && (ok <==> st.faults == old(st).faults)
    {
      hide Inv, Safe, OthersKept, IsDesired, NoLive, Matches, Doomed, Deletable, NoTaskFor, DeadSame, Beside, Accounted;
      ghost var s0 := st;
      ghost var good := Removable(s0, d, u, key);
      BesideReflexive(s0, key);
      NothingAccounted(failed, s0, key);
      if good {
        SteppedReflexive(s0, d, u, key);
      }
      if key !in existing {
        assert st.rows - {key} == st.rows;
        return true;
      }
      var row := existing[key];
      if row.gvmId == NO_ID {
        if good {
          OneObjectOrNone(st, d, u, key);
        }
        var found := FindResource(key);
        AfterCall(good, s0, s0, s0, st, d, u, key);
        QuietAccounted(failed, s0, st, key);
        if found.FindFault? || found.SeveralFound? {
          return false;
        }
        if found.Recovered? {
          row := row.(gvmId := found.id);
        } else if good {
          NothingLive(st, d, u, key);
        }
      }
      if good {
        TaskIsDeletable(st, d, u, key, row);
      }
      ok := DeleteWithRow(d, u, key, row);
      if ok {
        existing := existing - {key};
      }
    }

    // releaseTaskForTargetChange
    method ReleaseTaskForTargetChange(ghost d: Desired, ghost u: set<Key>, slot: Slot, targetHash: Spec) returns (ok: bool)
      requires existing == st.rows && Fresh(st)
      modifies this
      ensures Beside(old(st), st, TaskOf(slot))
      ensures ok ==> existing == st.rows
      ensures old(lost) <= lost && (ok ==> failed == old(failed) && lost == old(lost))
      ensures lost == old(lost) ==> Accounted(old(failed), failed, old(st), st, TaskOf(slot))
      ensures RowCurrent(old(existing), TargetOf(slot), targetHash) ==> ok && st == old(st)
      ensures old(Inv(st, d, u) && Wants(d, st.rows, TargetOf(slot), targetHash)) ==>
                && Stepped(old(st), st, d, u, TaskOf(slot))
                && (ok <==> st.faults == old(st).faults)
                && (ok && !UpToDate(d, st.rows, TargetOf(slot)) ==> NoTaskFor(st, TargetOf(slot)))
                && (UpToDate(d, old(st).rows, TargetOf(slot)) ==> ok && st == old(st))
    {
      hide Inv, Safe, Wants, NoTaskFor, Doomed, DeadSame, Beside, Accounted;
      var key := TargetOf(slot);
      ghost var good := Inv(st, d, u) && Wants(d, st.rows, key, targetHash);
      BesideReflexive(st, TaskOf(slot));
      NothingAccounted(failed, st, TaskOf(slot));
      if good {
        SteppedReflexive(st, d, u, TaskOf(slot));
      }
      if key !in existing || existing[key].gvmId == NO_ID
         || (existing[key].state == Applied && existing[key].hash == targetHash)
      {
        if good {
          NothingToRelease(st, d, u, slot, targetHash);
        }
        return true;
      }
      if good {
        ReleaseIsDue(st, d, u, slot, targetHash);
      }
      ok := RemoveManagedTask(d, u, TaskOf(slot));
      if ok {
        NoTaskRow(st, slot);
      }
    }

    // ---- applyTask ----

    // A current task is looked at before it is taken at its word: without its object the run ends here.
    method ApplyTask(ghost d: Desired, ghost u: set<Key>, key: Key, hash: Spec) returns (ok: bool)
      requires existing == st.rows && Fresh(st)
      modifies this
      ensures Beside(old(st), st, key) && (ok ==> existing == st.rows)
      ensures ok && RowCurrent(old(existing), key, hash) ==> Ensured(old(st), st, key)
      ensures old(lost) <= lost && (ok ==> failed == old(failed) && lost == old(lost))
      ensures lost == old(lost) ==> Accounted(old(failed), failed, old(st), st, key)
      ensures old(Taskable(st, d, u, key, hash)) ==>
                && Stepped(old(st), st, d, u, key)
                && (ok <==> st.faults == old(st).faults && !DeadTask(old(st), d, key))
                && (ok ==> Settled(st, d, key))
                && (Settled(old(st), d, key) && ok ==> st == old(st))
    {
      hide Inv, Safe, OthersKept, Wants, IsDesired, NoTaskFor, NoLive, Matches, Doomed, NeedsRelease, DeadSame, DeadTask, Applicable, Beside, Accounted,
        PreferenceKept, Stepped;
      ghost var s0 := st;
      ghost var good := Taskable(s0, d, u, key, hash);
      BesideReflexive(s0, key);
      NothingAccounted(failed, s0, key);
      if good {
        SteppedReflexive(s0, d, u, key);
        TaskSituation(st, d, u, key, hash);
      }
      if key in existing && existing[key].gvmId != NO_ID && existing[key].state == Applied && existing[key].hash == hash {
        ok := EnsureRetention(d, u, key, hash);
        if !ok {
          return;
        }
      }
      ghost var middle := st;
      BesideFresh(s0, middle, key);
      if good {
        PreferenceNowKept(s0, middle, d, u, key, hash);
      }
      ok := ApplyReplaced(d, u, key, hash);
      StepsJoin(good, s0, middle, st, d, u, key);
      if lost == old(lost) {
        AccountedTwice(old(failed), failed, s0, middle, st, key);
      }
    }

    // A task with another value is removed, and what is left of it applied.
    method ApplyReplaced(ghost d: Desired, ghost u: set<Key>, key: Key, hash: Spec) returns (ok: bool)
      requires existing == st.rows && Fresh(st)
      modifies this
      ensures Beside(old(st), st, key) && (ok ==> existing == st.rows)
      ensures RowCurrent(old(existing), key, hash) ==> ok && st == old(st)
      ensures old(lost) <= lost && (ok ==> failed == old(failed) && lost == old(lost))
      ensures lost == old(lost) ==> Accounted(old(failed), failed, old(st), st, key)
      ensures old(PreferenceKept(st, d, u, key, hash)) ==>
                Stepped(old(st), st, d, u, key) && (ok <==> st.faults == old(st).faults) && (ok ==> Settled(st, d, key))
    {
      hide Inv, Safe, OthersKept, Wants, IsDesired, NoTaskFor, NoLive, Matches, Doomed, NeedsRelease, DeadSame, DeadTask, Applicable, Beside, Accounted,
        Stepped, Settled, AppliedBy, CreatesAtMost;
      ghost var s0 := st;
      ghost var good := PreferenceKept(s0, d, u, key, hash);
      ok := ReplaceChangedTask(d, u, key, hash);
      if !ok {
        return;
      }
      ghost var replaced := st;
      BesideFresh(s0, replaced, key);
      if good {
        SteppedInv(s0, replaced, d, u, key);
        ReplacedIsReady(s0, replaced, d, u, key, hash);
      }
      var id;
      ok, id := ApplyResource(d, u, key, hash);
      StepsJoin(good, s0, replaced, st, d, u, key);
      if lost == old(lost) {
        AccountedTwice(old(failed), failed, s0, replaced, st, key);
      }
    }

    // The retention preference of a task whose row is current.
    method EnsureRetention(ghost d: Desired, ghost u: set<Key>, key: Key, hash: Spec) returns (ok: bool)
      requires existing == st.rows && Fresh(st) && RowCurrent(existing, key, hash)
      modifies this`st, this`failed, this`lost
      ensures Beside(old(st), st, key)
      ensures ok ==> Ensured(old(st), st, key)
      ensures old(lost) <= lost && (ok ==> failed == old(failed) && lost == old(lost))
      ensures lost == old(lost) ==> Accounted(old(failed), failed, old(st), st, key)
      ensures old(Taskable(st, d, u, key, hash)) ==>
                && Stepped(old(st), st, d, u, key)
                && (ok <==> st.faults == old(st).faults && !DeadTask(old(st), d, key))
    {
      hide Inv, Safe, OthersKept, Wants, IsDesired, NoTaskFor, NoLive, Matches, Doomed, NeedsRelease, DeadSame, DeadTask, Beside, Accounted;
      ghost var s0 := st;
      ghost var good := Taskable(s0, d, u, key, hash);
      BesideReflexive(s0, key);
      if good {
        SteppedReflexive(s0, d, u, key);
        TaskSituation(st, d, u, key, hash);
      }
      var row := existing[key];
      OwnObject(key);
      var text := ResourceComment(row.gvmId);
      AfterCall(good, s0, s0, s0, st, d, u, key);
      QuietAccounted(failed, s0, st, key);
      match text {
        case CommentFault => return false;
        case Missing => return false;
        case Text(comment) =>
          if !(comment.Marked? && Matches(comment.key, key)) {
            return false;
          }
      }
      OwnedBeside(s0, key, row.gvmId, hash);
      if good {
        RetentionIsSafe(s0, d, u, key, row.gvmId);
      }
      var o := EnsureTaskReportRetention(key, row.gvmId);
      AfterCall(good, s0, s0, RetentionSet(s0, key, row.gvmId), st, d, u, key);
      if o == Failed {
        ghost var before := st;
        if good {
          RetentionFailureIsRecorded(s0, before, d, u, key);
        }
        BesideFresh(s0, before, key);
        UpsertedBeside(before, key, row.(state := Error));
        RecordResourceError(key, row);
        if lost == old(lost) {
          ErrorAccounted(old(failed), s0, st, key);
        }
        AfterCall(good, s0, before, Upserted(before, key, row.(state := Error)), st, d, u, key);
      }
      if o == Done {
        QuietAccounted(failed, s0, st, key);
      }
      ok := o == Done;
    }

    method ReplaceChangedTask(ghost d: Desired, ghost u: set<Key>, key: Key, hash: Spec) returns (ok: bool)
      requires existing == st.rows && Fresh(st)
      modifies this
      ensures Beside(old(st), st, key)
      ensures ok ==> existing == st.rows
      ensures ok && key in old(st).rows && old(st).rows[key].hash != hash ==> st.rows == old(st).rows - {key}
      ensures !(key in old(st).rows && old(st).rows[key].hash != hash) ==> ok && st == old(st)
      ensures old(lost) <= lost && (ok ==> failed == old(failed) && lost == old(lost))
      ensures lost == old(lost) ==> Accounted(old(failed), failed, old(st), st, key)
      ensures old(Inv(st, d, u) && key.TaskKey? && Wants(d, st.rows, key, hash)) ==>
                Stepped(old(st), st, d, u, key) && (ok <==> st.faults == old(st).faults)
    {
      hide Inv, Safe, OthersKept, Wants, IsDesired, Doomed, DeadSame, Beside, Accounted;
      BesideReflexive(st, key);
      NothingAccounted(failed, st, key);
      if Inv(st, d, u) && key.TaskKey? && Wants(d, st.rows, key, hash) {
        SteppedReflexive(st, d, u, key);
        if key in existing && existing[key].hash != hash {
          ChangedIsDoomed(st, d, key, hash);
        }
      }
      if key !in existing || existing[key].hash == hash {
        return true;
      }
      ok := RemoveManagedTask(d, u, key);
    }

    // ---- Cleaning up ----

    // sortForDeletion on the keys of the rows to delete.
    method SortForDeletion(keys: set<Key>) returns (ordered: seq<Key>)
      ensures forall k :: k in ordered <==> k in keys
      ensures DeletionOrdered(ordered) && DependentsFirst(ordered)
    {
      ordered := [];
      var rest := keys;
      while rest != {}
        invariant rest <= keys && (forall k :: k in ordered <==> k in keys && k !in rest)
        invariant DeletionOrdered(ordered)
        decreases rest
      {
        var k :| k in rest;
        InsertKeyLaws(k, ordered);
        ordered := InsertKey(k, ordered);
        rest := rest - {k};
      }
      OrderMeans(ordered);
    }

    // The loop shared by cleanupSurplus and cleanupCustomer.
    method DeleteAll(ghost d: Desired, ghost u: set<Key>, resources: map<Key, Row>, ordered: seq<Key>) returns (ok: bool)
      requires Frame(st, d, u) && resources == st.rows && DeletionOrdered(ordered) && forall k :: k in ordered ==> k in st.rows
      modifies this`st, this`failed, this`lost
      ensures Frame(st, d, u) && UnlistedKept(old(st), st, u, ordered) && (ok ==> DeletedUpTo(old(st), st, u, ordered, |ordered|))
      ensures old(lost) <= lost && (ok ==> failed == old(failed) && lost == old(lost))
      ensures lost == old(lost) ==> ErrorShown(old(failed), failed, st.rows)
      ensures old(Droppable(st, d, u, ordered)) ==>
                && Inv(st, d, u) && Safe(old(st), st) && KeptOutside(old(st), st, ordered) && DeadSame(old(st), st, d)
                && (ok <==> st.faults == old(st).faults)
                && (lost == old(lost) && RowsTrue(old(st)) ==> RowsTrue(st))
                && (ok ==> forall k :: k in ordered ==> NoLive(st, k))
      ensures ordered == [] ==> ok && st == old(st)
    {
      hide Inv, Safe, IsDesired, NoTaskFor, NoLive, Deletable, KeptOutside, OthersKept, TasksIncluded, DeletionOrdered, DeadSame,
        Frame, DeletedUpTo, UnlistedKept, Beside, Accounted, ErrorShown, RowsTrue;
      ghost var s0 := st;
      ghost var good := Droppable(s0, d, u, ordered);
      FrameFresh(s0, d, u);
      DeletionStarts(s0, u, ordered);
      KeptReflexive(s0, ordered);
      DeadReflexive(s0, d);
      NoErrorShown(failed, s0);
      for i := 0 to |ordered|
        invariant Frame(st, d, u) && DeletedUpTo(s0, st, u, ordered, i) && UnlistedKept(s0, st, u, ordered)
        invariant good ==> Inv(st, d, u) && Safe(s0, st) && KeptOutside(s0, st, ordered) && DeadSame(s0, st, d) && st.faults == s0.faults
        invariant good ==> forall k :: k in ordered[..i] ==> NoLive(st, k)
        invariant i == 0 ==> st == s0
        invariant failed == old(failed) && lost == old(lost)
        invariant good && RowsTrue(s0) ==> RowsTrue(st)
      {
        var key := ordered[i];
        ghost var before := st;
        NextToDelete(s0, before, d, u, ordered, i);
        if good {
          NextIsDeletable(s0, st, d, u, ordered, i);
        }
        var one := DeleteWithRow(d, u, key, resources[key]);
        OneDeleted(s0, before, st, d, u, ordered, i, one);
        WorkAccounted(good, old(failed), failed, lost == old(lost), before, st, d, u, key);
        if good {
          KeptStep(s0, before, st, d, u, ordered, key);
        }
        if !one {
          return false;
        }
        if good {
          forall k | k in ordered[..i + 1] ensures NoLive(st, k) {
            if k != key { NoLiveStays(before, st, key, k); }
          }
        }
      }
      assert ordered[..|ordered|] == ordered;
      NoErrorShown(failed, st);
      ok := true;
    }

    method CleanupSurplus(ghost u: set<Key>, d: Desired) returns (ok: bool)
      requires Frame(st, d, u) && existing == st.rows && d.Active?
      modifies this`st, this`failed, this`lost
      ensures Frame(st, d, u) && NoneReturns(old(st), st)
      ensures forall k :: k in u && IsDesired(d, k) ==> Same(old(st), st, k)
      ensures ok ==> st.rows == map k | k in old(st).rows && IsDesired(d, k) :: old(st).rows[k]
      ensures ok ==> forall k :: k in old(st).rows && !IsDesired(d, k) && old(st).rows[k].gvmId == NO_ID ==> SameObjects(old(st), st, k)
      ensures old(lost) <= lost && (ok ==> failed == old(failed) && lost == old(lost))
      ensures lost == old(lost) ==> ErrorShown(old(failed), failed, st.rows)
      ensures old(Inv(st, d, u)) ==>
                && Inv(st, d, u) && Safe(old(st), st) && DeadSame(old(st), st, d)
                && (ok <==> st.faults == old(st).faults)
                && (lost == old(lost) && RowsTrue(old(st)) ==> RowsTrue(st))
                && (forall k :: IsDesired(d, k) && Settled(old(st), d, k) ==> Settled(st, d, k))
                && ((forall k :: k in old(st).rows ==> IsDesired(d, k)) ==> ok && st == old(st))
    {
      hide Inv, Safe, IsDesired, NoLive, KeptOutside, Settled, TasksIncluded, DeletionOrdered, DeadSame, Frame, DeletedUpTo, UnlistedKept, Same, SameObjects,
        ErrorShown, RowsTrue;
      var surplus := set k | k in existing && !IsDesired(d, k);
      var ordered := SortForDeletion(surplus);
      assert |ordered| > 0 ==> ordered[0] in ordered;
      ghost var before := st;
      FrameFresh(before, d, u);
      if Inv(before, d, u) {
        SurplusIncludesTasks(st, d, u, ordered);
      }
      ok := DeleteAll(d, u, existing, ordered);
      SurplusDeleted(before, st, d, u, ordered, ok);
      if Inv(before, d, u) {
        forall k | IsDesired(d, k) && Settled(before, d, k) ensures Settled(st, d, k) {
          SettledOutside(before, st, d, ordered, k);
        }
      }
    }

    // ---- A run for one customer ----

    // One target and its task.
    method ReconcileSlot(ghost u: set<Key>, d: Desired, i: nat, scheduleId: Id) returns (ok: bool)
      requires Frame(st, d, u) && existing == st.rows && d.Active? && Distinct(d.slots) && i < |d.slots|
      modifies this
      ensures Frame(st, d, u) && SlotWorked(old(st), st, d, u, d.slots[i], scheduleId, ok)
      ensures ok ==> existing == st.rows
      ensures old(lost) <= lost && (ok ==> failed == old(failed) && lost == old(lost))
      ensures lost == old(lost) ==> ErrorShown(old(failed), failed, st.rows)
      ensures old(Arrived(st, d, u, i, scheduleId)) ==>
                && Inv(st, d, u) && Safe(old(st), st) && DeadSame(old(st), st, d)
                && (ok <==> st.faults == old(st).faults && !DeadTask(old(st), d, TaskOf(d.slots[i])))
                && (lost == old(lost) && RowsTrue(old(st)) ==> RowsTrue(st))
                && (ok ==> Arrived(st, d, u, i + 1, scheduleId))
                && (SlotsSettled(old(st), d, |d.slots|) && ok ==> st == old(st))
    {
      hide Inv, Safe, Settled, OthersKept, UpToDate, NoTaskFor, Doomed, NeedsRelease, Wants, DeadSame, DeadTask, Applicable, Frame, Beside, SlotWorked,
        Ensured, AppliedBy, CreatesAtMost, Accounted, ErrorShown, RowsTrue;
      var slot := d.slots[i];
      ghost var s0 := st;
      ghost var good := Arrived(s0, d, u, i, scheduleId);
      FrameFresh(s0, d, u);
      var targetHash := TargetSpec(Lookup(d.targetText, slot));
      WantsOfSlot(s0, d, slot);
      if good && SlotsSettled(s0, d, |d.slots|) {
        assert Settled(s0, d, TargetOf(slot)) && Settled(s0, d, TaskOf(slot));
        SettledHasRow(s0, d, TargetOf(slot));
        SettledIsCurrent(s0, d, TargetOf(slot), targetHash);
      }
      ok := ReleaseTaskForTargetChange(d, u, slot, targetHash);
      ghost var s1 := st;
      WorkAccounted(good, old(failed), failed, lost == old(lost), s0, s1, d, u, TaskOf(slot));
      BesideFresh(s0, s1, TaskOf(slot));
      BesideReflexive(s1, TargetOf(slot));
      BesideReflexive(s1, TaskOf(slot));
      if !ok {
        SlotFrames(s0, s1, s1, s1, d, u, slot, scheduleId, ok);
        return;
      }
      if good {
        ReleasedSlot(s0, s1, d, u, i, scheduleId);
        TargetIsApplicable(s1, d, u, slot, targetHash);
      }
      var targetId;
      ok, targetId := ApplyResource(d, u, TargetOf(slot), targetHash);
      ghost var s2 := st;
      WorkAccounted(good, old(failed), failed, lost == old(lost), s1, s2, d, u, TargetOf(slot));
      BesideFresh(s1, s2, TargetOf(slot));
      BesideReflexive(s2, TaskOf(slot));
      if good {
        SafeTransitive(s0, s1, s2);
        DeadTransitive(s0, s1, s2, d);
      }
      if !ok {
        SlotFrames(s0, s1, s2, s2, d, u, slot, scheduleId, ok);
        return;
      }
      if good {
        AppliedSlot(s1, s2, d, u, i, scheduleId);
      }
      var taskHash := TaskSpec(Lookup(d.taskText, slot), targetId, scheduleId);
      ok := ApplyTask(d, u, TaskOf(slot), taskHash);
      SlotFrames(s0, s1, s2, st, d, u, slot, scheduleId, ok);
      WorkAccounted(good, old(failed), failed, lost == old(lost), s2, st, d, u, TaskOf(slot));
      if good {
        SafeTransitive(s0, s2, st);
        DeadTransitive(s0, s2, st, d);
        DeadAt(s0, s2, d, TaskOf(slot));
        if ok {
          FinishedSlot(s2, st, d, u, i);
        }
      }
    }

    // The schedule, then slot by slot its target and its task.
    method ApplyDesired(ghost u: set<Key>, d: Desired) returns (ok: bool, scheduleId: Id)
      requires Frame(st, d, u) && existing == st.rows && d.Active? && Distinct(d.slots)
      modifies this
      ensures Frame(st, d, u)
      ensures ok ==> existing == st.rows && UnderWay(old(st), st, d, u, |d.slots|, scheduleId)
      ensures old(lost) <= lost && (ok ==> failed == old(failed) && lost == old(lost))
      ensures lost == old(lost) ==> ErrorShown(old(failed), failed, st.rows)
      ensures old(Inv(st, d, u)) ==>
                && Inv(st, d, u) && Safe(old(st), st) && DeadSame(old(st), st, d)
                && (ok <==> st.faults == old(st).faults && NoneDead(old(st), d))
                && (lost == old(lost) && RowsTrue(old(st)) ==> RowsTrue(st))
                && (ok ==> Settled(st, d, ScheduleKey) && SlotsSettled(st, d, |d.slots|))
                && (Converged(old(st), d) && ok ==> st == old(st))
    {
      hide Inv, Safe, Settled, Converged, OthersKept, UpToDate, NoTaskFor, Doomed, Wants, SlotsSettled, DeadSame, DeadTask, NoneDead, Applicable,
        Frame, Beside, UnderWay, SlotWorked, LeftAsFound, NoneReturns, AppliedBy, CreatesAtMost, Accounted, ErrorShown, RowsTrue;
      ghost var s0 := st;
      ghost var good := Inv(s0, d, u);
      FrameFresh(s0, d, u);
      WantsOfSchedule(s0, d);
      if good {
        SafeReflexive(s0);
        DeadReflexive(s0, d);
        if Converged(s0, d) {
          ConvergedSlots(s0, d);
          SettledIsCurrent(s0, d, ScheduleKey, ScheduleSpec(d.schedule));
        }
        ScheduleIsApplicable(s0, d, u);
      }
      ok, scheduleId := ApplyResource(d, u, ScheduleKey, ScheduleSpec(d.schedule));
      ScheduleFrames(s0, st, d, u, scheduleId, ok);
      WorkAccounted(good, old(failed), failed, lost == old(lost), s0, st, d, u, ScheduleKey);
      if !ok {
        return;
      }
      if good {
        NoSlotsYet(st, d);
        SettledHasRow(st, d, ScheduleKey);
      }
      for i := 0 to |d.slots|
        invariant Frame(st, d, u) && UnderWay(s0, st, d, u, i, scheduleId) && existing == st.rows
        invariant good ==> Arrived(st, d, u, i, scheduleId) && Safe(s0, st) && st.faults == s0.faults && DeadSame(s0, st, d)
        invariant good && Converged(s0, d) ==> st == s0
        invariant failed == old(failed) && lost == old(lost) && (good && RowsTrue(s0) ==> RowsTrue(st))
        invariant good ==> forall j :: 0 <= j < i ==> !DeadTask(s0, d, TaskOf(d.slots[j]))
      {
        ghost var before := st;
        if good {
          DeadAt(s0, before, d, TaskOf(d.slots[i]));
        }
        ok := ReconcileSlot(u, d, i, scheduleId);
        if good {
          SafeTransitive(s0, before, st);
          DeadTransitive(s0, before, st, d);
        }
        if !ok {
          SomeDead(s0, d, TaskOf(d.slots[i]));
          return;
        }
        OneMoreSlot(s0, before, st, d, u, i, scheduleId);
      }
      NoErrorShown(failed, st);
      if good {
        AllAlive(s0, d);
      }
      ok := true;
    }

    // A run completes exactly when no call fails and no dead task passes for current; dead tasks stay dead. Whatever
    // the books say, a completed run leaves orphans, current rows and live current tasks as it found them.
    method ReconcileCustomer(ghost u: set<Key>, d: Desired) returns (ok: bool)
      requires Frame(st, d, u) && d.Active? && Distinct(d.slots)
      modifies this
      ensures Frame(st, d, u)
      ensures ok ==> NoneReturns(old(st), st) && forall k :: k in u ==> LeftAsFound(old(st), st, d, k)
      ensures old(lost) <= lost && (ok ==> failed == old(failed) && lost == old(lost))
      ensures lost == old(lost) ==> ErrorShown(old(failed), failed, st.rows)
      ensures old(Inv(st, d, u)) ==>
                && Inv(st, d, u) && Safe(old(st), st) && DeadSame(old(st), st, d)
                && (ok <==> st.faults == old(st).faults && NoneDead(old(st), d))
                && (lost == old(lost) && RowsTrue(old(st)) ==> RowsTrue(st))
                && (ok ==> Converged(st, d))
                && (Converged(old(st), d) && ok ==> st == old(st))
    {
      hide Inv, Safe, Settled, Converged, OthersKept, UpToDate, NoTaskFor, Doomed, Wants, SlotsSettled, DeadSame, DeadTask, NoneDead, Applicable,
        Frame, Beside, UnderWay, SlotWorked, LeftAsFound, NoneReturns, AppliedBy, CreatesAtMost, Accounted, ErrorShown, RowsTrue;
      ghost var s0 := st;
      ghost var good := Inv(s0, d, u);
      FaultedFrames(s0, d, u);
      if good {
        SafeReflexive(s0);
        DeadReflexive(s0, d);
        FaultKeeps(s0, d, u);
      }
      NoErrorShown(failed, s0);
      TrueWhenFaulted(s0);
      var o := OtherCall();
      if o == Done {
        o := OtherCall();
      }
      if o != Done {
        return false;
      }
      existing := st.rows;
      var scheduleId;
      ok, scheduleId := ApplyDesired(u, d);
      if !ok {
        return;
      }
      ghost var before := st;
      if good && Converged(s0, d) {
        ConvergedRowsDesired(s0, d);
      }
      ok := CleanupSurplus(u, d);
      if good {
        SafeTransitive(s0, before, st);
        DeadTransitive(s0, before, st, d);
      }
      if !ok {
        return;
      }
      RunLeaves(s0, before, st, d, u, scheduleId);
      FaultedFrames(st, d, u);
      if good {
        AllSettled(before, st, d);
        FaultKeeps(st, d, u);
        SafeTransitive(s0, st, Faulted(st));
        DeadTransitive(s0, st, Faulted(st), d);
      }
      NoErrorShown(failed, st);
      TrueWhenFaulted(st);
      o := OtherCall();
      ok := o == Done;
    }

    // A soft-deleted customer: everything managed goes, in dependency order; what an empty row stands for stays.
    method CleanupCustomer(ghost u: set<Key>) returns (ok: bool)
      requires Frame(st, Removed, u)
      modifies this
      ensures Frame(st, Removed, u)
      ensures ok ==> st.rows == map[] && forall k :: k in u ==> LeftAsFound(old(st), st, Removed, k)
      ensures old(lost) <= lost && (ok ==> failed == old(failed) && lost == old(lost))
      ensures lost == old(lost) ==> ErrorShown(old(failed), failed, st.rows)
      ensures old(Inv(st, Removed, u)) ==>
                && Inv(st, Removed, u) && Safe(old(st), st) && DeadSame(old(st), st, Removed)
                && (ok <==> st.faults == old(st).faults)
                && (lost == old(lost) && RowsTrue(old(st)) ==> RowsTrue(st))
                && (ok ==> Converged(st, Removed) && forall i :: i in st.objects ==> st.objects[i].comment == Unmarked)
    {
      hide Inv, Safe, NoLive, KeptOutside, DeletionOrdered, TasksIncluded, DeadSame, Frame, DeletedUpTo, LeftAsFound, ErrorShown, RowsTrue;
      ghost var s0 := st;
      ghost var good := Inv(s0, Removed, u);
      FrameFresh(s0, Removed, u);
      FaultedFrames(s0, Removed, u);
      if good {
        SafeReflexive(s0);
        DeadReflexive(s0, Removed);
        FaultKeeps(s0, Removed, u);
      }
      NoErrorShown(failed, s0);
      TrueWhenFaulted(s0);
      var o := OtherCall();
      if o != Done {
        return false;
      }
      existing := st.rows;
      var ordered := SortForDeletion(existing.Keys);
      EverythingIncluded(st, ordered);
      ok := DeleteAll(Removed, u, existing, ordered);
      if ok {
        EverythingDeleted(s0, st, u, ordered);
        if good {
          NothingManaged(st, u);
        }
      }
    }

    // ---- Beyond nine ----

    // An old row without an id takes over the one object its marker occurs in, although that is another key's: the
    // other row is left with an object that is not its own, and can no longer be applied.
    method RecoverBesideClash(ghost d: Desired, ghost u: set<Key>, one: Key, ten: Key, hash: Spec, other: Spec)
        returns (taken: bool, again: bool)
      requires existing == st.rows && Fresh(st) && one != ten && Matches(ten, one)
      requires one in st.rows && st.rows[one].gvmId == NO_ID && ten in st.rows && Candidate(st, one, st.rows[ten].gvmId)
      requires st.objects[st.rows[ten].gvmId].comment == Marked(ten)
      requires forall i :: Candidate(st, one, i) ==> i == st.rows[ten].gvmId
      modifies this
      ensures taken ==>
                var id := old(st).rows[ten].gvmId;
                && one in st.rows && st.rows[one] == Row(id, hash, Applied) && ten in st.rows && st.rows[ten].gvmId == id
                && id in st.objects && st.objects[id].comment == Marked(one) && !RowsOwn(st)
      ensures taken && !RowCurrent(old(st).rows, ten, other) ==> !again
    {
      ghost var s0 := st;
      FreshIds(s0, ten);
      MatchesOneWay(ten, one);
      hide Matches, Beside, Applicable, Stepped, Settled;
      var id;
      taken, id := ApplyResource(d, u, one, hash);
      again := false;
      if !taken {
        return;
      }
      assert Located(s0, one, id) && id == s0.rows[ten].gvmId;
      ghost var s1 := st;
      BesideFresh(s0, s1, one);
      BesideOther(s0, s1, one, ten);
      assert s1.objects[id].comment == Marked(one);
      var none;
      again, none := ApplyResource(d, u, ten, other);
    }

    // ---- Many runs ----

    /** The first run after a desired state was replaced in the middle of another's. If it completes, every row that
        orphans, misleads or passes for current without its object shows: an orphan's object lives on without a row,
        and the others are left as they were, unsettled. A task whose object is gone lets no run complete. */
    method RunTooEarly(ghost d: Desired, ghost u: set<Key>, next: Desired, ghost v: set<Key>) returns (ok: bool)
      requires Inv(st, d, u) && KeysIn(st, next, v) && (next.Active? ==> Distinct(next.slots))
      modifies this
      ensures ok ==> forall k :: k in old(st).rows && Spoils(old(st), next, k) ==> Spoilt(old(st), st, next, k)
      ensures (exists k :: k in old(st).rows && Spoils(old(st), next, k) && k.TaskKey? && Dangles(old(st), next, k)) ==> !ok
    {
      ghost var s0 := st;
      TiedFrames(s0, next, v);
      hide Frame, LeftAsFound, Spoils, Spoilt, Dangles, Converged;
      if next.Active? {
        ok := ReconcileCustomer(v, next);
      } else {
        ok := CleanupCustomer(v);
      }
      if ok {
        forall k | k in s0.rows && Spoils(s0, next, k) ensures Spoilt(s0, st, next, k) && !(k.TaskKey? && Dangles(s0, next, k)) {
          SpoiltAsFound(s0, st, d, u, next, v, k);
        }
      }
    }

    /** Two runs of applyResource over a row whose object is gone and that is not current. If both stop with an object
        made and nothing recorded, the key has two. */
    method ApplyOverDangling(ghost d: Desired, ghost u: set<Key>, key: Key, hash: Spec) returns (ghost between: State)
      requires Fresh(st) && HasId(st.rows, key) && st.rows[key].gvmId !in st.objects && st.rows[key].gvmId < st.nextId
      requires !RowCurrent(st.rows, key, hash)
      modifies this
      ensures StoppedAtCreate(old(st), between) && StoppedAtCreate(between, st) ==> !OneLive(st)
    {
      ghost var s0 := st;
      hide Beside, Applicable, Stepped, Settled, AppliedBy;
      existing := st.rows;
      var ok, id := ApplyResource(d, u, key, hash);
      between := st;
      BesideFresh(s0, between, key);
      existing := st.rows;
      ok, id := ApplyResource(d, u, key, hash);
      if StoppedAtCreate(s0, between) && StoppedAtCreate(between, st) {
        StoppedTwice(s0, between, st, key, hash);
      }
    }

    /** Runs for one desired state, stopped anywhere and started again, until one completes. */
    method ReconcileUntilDone(ghost u: set<Key>, d: Desired, attempts: nat) returns (done: bool)
      requires Inv(st, d, u) && (d.Active? ==> Distinct(d.slots))
      modifies this
      ensures Inv(st, d, u) && Safe(old(st), st) && OneLive(st) && DeadSame(old(st), st, d)
      ensures done ==> Converged(st, d) && (d.Removed? ==> forall i :: i in st.objects ==> st.objects[i].comment == Unmarked)
      ensures !done && NoneDead(old(st), d) ==> st.faults >= old(st).faults + attempts
      ensures !NoneDead(old(st), d) ==> !done
      ensures old(lost) <= lost && (lost == old(lost) && RowsTrue(old(st)) ==> RowsTrue(st) && MisleadsNever(st))
    {
      hide Inv, Safe, Converged, DeadSame, NoneDead, RowsTrue, MisleadsNever, ErrorShown;
      ghost var s0 := st;
      SafeReflexive(s0);
      DeadReflexive(s0, d);
      RemovedNoneDead(s0, d);
      done := false;
      var left := attempts;
      while left > 0 && !done
        invariant Inv(st, d, u) && Safe(s0, st) && (done ==> Converged(st, d)) && DeadSame(s0, st, d)
        invariant done && d.Removed? ==> forall i :: i in st.objects ==> st.objects[i].comment == Unmarked
        invariant !done && NoneDead(s0, d) ==> st.faults >= s0.faults + (attempts - left)
        invariant !NoneDead(s0, d) ==> !done
        invariant old(lost) <= lost && (lost == old(lost) && RowsTrue(s0) ==> RowsTrue(st))
        decreases left
      {
        ghost var before := st;
        DeadNone(s0, before, d);
        InvFrames(before, d, u);
        if d.Active? {
          done := ReconcileCustomer(u, d);
        } else {
          done := CleanupCustomer(u);
        }
        SafeTransitive(s0, before, st);
        DeadTransitive(s0, before, st, d);
        SafeCounts(before, st);
        left := left - 1;
      }
      InvOneLive(st, d, u);
      if RowsTrue(st) {
        TrueNeverMisleads(st);
      }
    }

    /** One desired state after another, removal among them. An epoch ends with a completed run, or early where
        the next desired state may replace it; the last one entered is the first that neither holds for. */
    method ReconcileEpochs(ghost u: set<Key>, ds: seq<Desired>, attempts: nat) returns (entered: nat, done: bool)
      requires ds != [] && Inv(st, ds[0], u) && NoneDead(st, ds[0])
      requires forall i :: 0 <= i < |ds| ==> (ds[i].Active? ==> Distinct(ds[i].slots)) && forall k :: IsDesired(ds[i], k) ==> k in u
      modifies this
      ensures entered < |ds| && Safe(old(st), st) && OneLive(st) && Inv(st, ds[entered], u) && NoneDead(st, ds[entered])
      ensures done ==> entered == |ds| - 1 && Converged(st, ds[entered])
      ensures !done && entered < |ds| - 1 ==> !MayReplace(st, ds[entered + 1])
      ensures !done ==> st.faults >= old(st).faults + attempts
      ensures old(lost) <= lost && (lost == old(lost) && RowsTrue(old(st)) ==> RowsTrue(st) && MisleadsNever(st))
    {
      hide Safe, Converged, Settled, Tied, Pending, NoneDead, MayReplace, DeadSame, RowsTrue, MisleadsNever;
      ghost var s0 := st;
      SafeReflexive(s0);
      entered := 0;
      while true
        invariant entered < |ds| && Safe(s0, st) && Inv(st, ds[entered], u) && NoneDead(st, ds[entered])
        invariant old(lost) <= lost && (lost == old(lost) && RowsTrue(s0) ==> RowsTrue(st))
        decreases |ds| - entered
      {
        ghost var before := st;
        done := ReconcileUntilDone(u, ds[entered], attempts);
        SafeTransitive(s0, before, st);
        SafeCounts(s0, before);
        DeadNone(before, st, ds[entered]);
        if entered + 1 == |ds| {
          return;
        }
        if done {
          ConvergedStartsNextEpoch(st, ds[entered], u, ds[entered + 1], u);
        } else {
          MayReplaceExactly(st, ds[entered], u, ds[entered + 1], u);
          if !MayReplace(st, ds[entered + 1]) {
            return;
          }
        }
        entered := entered + 1;
      }
    }
  }

  // ---- Facts the control flow relies on ----

  // One stretch of work on one key.
  ghost predicate Stepped(a: State, b: State, d: Desired, u: set<Key>, key: Key) {
    Inv(b, d, u) && Safe(a, b) && OthersKept(a, b, key) && DeadSame(a, b, d)
  }

  // Dead tasks are the same all along.
  lemma DeadReflexive(s: State, d: Desired)
    ensures DeadSame(s, s, d)
  {
  }

  lemma DeadTransitive(a: State, b: State, c: State, d: Desired)
    requires DeadSame(a, b, d) && DeadSame(b, c, d)
    ensures DeadSame(a, c, d)
  {
    hide DeadTask;
  }

  lemma DeadAt(a: State, b: State, d: Desired, k: Key)
    requires DeadSame(a, b, d)
    ensures DeadTask(a, d, k) <==> DeadTask(b, d, k)
  {
  }

  lemma DeadIsSame(a: State, b: State, d: Desired, u: set<Key>, k: Key)
    requires Stepped(a, b, d, u, k)
    ensures DeadTask(a, d, k) <==> DeadTask(b, d, k)
  {
    hide Inv, Safe, OthersKept;
  }

  lemma DeadNone(a: State, b: State, d: Desired)
    requires DeadSame(a, b, d)
    ensures NoneDead(a, d) <==> NoneDead(b, d)
  {
    forall k | DeadTask(a, d, k) || DeadTask(b, d, k) ensures DeadTask(a, d, k) && DeadTask(b, d, k) && k in a.rows && k in b.rows {
    }
  }

  lemma SomeDead(s: State, d: Desired, k: Key)
    ensures DeadTask(s, d, k) ==> !NoneDead(s, d)
  {
  }

  lemma AllAlive(s: State, d: Desired)
    requires d.Active? && forall j :: 0 <= j < |d.slots| ==> !DeadTask(s, d, TaskOf(d.slots[j]))
    ensures NoneDead(s, d)
  {
    forall k | k in s.rows ensures !DeadTask(s, d, k) {
      if k.TaskKey? && IsDesired(d, k) {
        var j :| 0 <= j < |d.slots| && d.slots[j] == Slot(k.cls, k.sequence);
        assert k == TaskOf(d.slots[j]);
      }
    }
  }

  lemma RemovedNoneDead(s: State, d: Desired)
    ensures d.Removed? ==> NoneDead(s, d)
  {
  }

  // The test applyResource makes before anything else.
  predicate RowCurrent(rows: map<Key, Row>, key: Key, hash: Spec) {
    key in rows && rows[key].gvmId != NO_ID && rows[key].hash == hash && rows[key].state == Applied
  }

  // What a run has ensured when it applies a resource.
  ghost predicate Applicable(s: State, d: Desired, u: set<Key>, key: Key, hash: Spec) {
    && Inv(s, d, u) && Wants(d, s.rows, key, hash)
    && (key.TargetKey? && !UpToDate(d, s.rows, key) ==> NoTaskFor(s, key))
    && (key.TaskKey? ==> !Doomed(s, d, key) && !DeadTask(s, d, key))
    && (key.TaskKey? && UpToDate(d, s.rows, key) && s.rows[key].gvmId in s.objects ==> s.objects[s.rows[key].gvmId].retained)
  }

  lemma ApplicableFacts(s: State, d: Desired, u: set<Key>, key: Key, hash: Spec)
    requires Applicable(s, d, u, key, hash) && !RowCurrent(s.rows, key, hash)
    ensures Inv(s, d, u) && Wants(d, s.rows, key, hash) && !UpToDate(d, s.rows, key)
    ensures key.TargetKey? ==> NoTaskFor(s, key)
    ensures key.TaskKey? ==> !Doomed(s, d, key) && !DeadTask(s, d, key)
  {
    hide Inv;
  }

  lemma ScheduleIsApplicable(s: State, d: Desired, u: set<Key>)
    requires Inv(s, d, u) && Wants(d, s.rows, ScheduleKey, ScheduleSpec(if d.Active? then d.schedule else ""))
    ensures Applicable(s, d, u, ScheduleKey, ScheduleSpec(if d.Active? then d.schedule else ""))
  {
    hide Inv;
  }

  lemma TargetIsApplicable(s: State, d: Desired, u: set<Key>, slot: Slot, hash: Spec)
    requires Inv(s, d, u) && Wants(d, s.rows, TargetOf(slot), hash)
    requires !UpToDate(d, s.rows, TargetOf(slot)) ==> NoTaskFor(s, TargetOf(slot))
    ensures Applicable(s, d, u, TargetOf(slot), hash)
  {
    hide Inv;
  }

  lemma SettledIsCurrent(s: State, d: Desired, key: Key, hash: Spec)
    requires Settled(s, d, key) && Wants(d, s.rows, key, hash) && !key.TaskKey?
    ensures RowCurrent(s.rows, key, hash)
  {
  }

  // What a run has settled when it comes to slot `i`, and what it may drop.
  ghost predicate Arrived(s: State, d: Desired, u: set<Key>, i: nat, scheduleId: Id)
    requires d.Active? && i <= |d.slots|
  {
    Inv(s, d, u) && Settled(s, d, ScheduleKey) && ScheduleKey in s.rows && scheduleId == s.rows[ScheduleKey].gvmId && SlotsSettled(s, d, i)
  }

  ghost predicate Droppable(s: State, d: Desired, u: set<Key>, ordered: seq<Key>) {
    Inv(s, d, u) && TasksIncluded(s, ordered) && forall k :: k in ordered ==> !IsDesired(d, k)
  }

  // What a run has ensured when it applies a task, and when it removes one.
  ghost predicate Taskable(s: State, d: Desired, u: set<Key>, key: Key, hash: Spec) {
    Inv(s, d, u) && key.TaskKey? && Wants(d, s.rows, key, hash) && !NeedsRelease(d, s.rows, key)
  }

  // And once the retention preference of a current one is ensured.
  ghost predicate PreferenceKept(s: State, d: Desired, u: set<Key>, key: Key, hash: Spec) {
    && Taskable(s, d, u, key, hash) && !DeadTask(s, d, key)
    && (RowCurrent(s.rows, key, hash) ==> s.rows[key].gvmId in s.objects && s.objects[s.rows[key].gvmId].retained)
  }

  lemma PreferenceNowKept(a: State, b: State, d: Desired, u: set<Key>, key: Key, hash: Spec)
    requires Taskable(a, d, u, key, hash) && Stepped(a, b, d, u, key) && b.rows == a.rows && !DeadTask(a, d, key)
    requires if RowCurrent(a.rows, key, hash) then Ensured(a, b, key) else b == a
    ensures PreferenceKept(b, d, u, key, hash)
  {
    hide Inv, Safe, OthersKept, DeadTask;
    DeadIsSame(a, b, d, u, key);
  }

  lemma SteppedInv(a: State, b: State, d: Desired, u: set<Key>, key: Key)
    requires Stepped(a, b, d, u, key)
    ensures Inv(b, d, u)
  {
    hide Inv;
  }

  ghost predicate Removable(s: State, d: Desired, u: set<Key>, key: Key) {
    Inv(s, d, u) && key.TaskKey? && IsDesired(d, key) && (key in s.rows ==> Doomed(s, d, key))
  }

  // The task of a current row is there and has its retention preference; nothing else about it was looked at.
  ghost predicate Ensured(a: State, b: State, key: Key) {
    && HasId(a.rows, key) && a.rows[key].gvmId in a.objects && Owns(a.objects[a.rows[key].gvmId], key)
    && b == RetentionSet(a, key, a.rows[key].gvmId)
  }

  // The row to write, with its object looked up.
  ghost predicate Opening(s: State, d: Desired, u: set<Key>, key: Key, hash: Spec, row: Row) {
    && Ready(s, d, u, key, hash) && row.hash == s.rows[key].hash
    && (s.rows[key].gvmId == NO_ID || s.rows[key].gvmId == row.gvmId)
    && (row.gvmId == NO_ID ==> NoLive(s, key))
    && (row.gvmId != NO_ID ==> row.gvmId in s.objects && s.objects[row.gvmId].comment == Marked(key))
  }

  lemma ReadyInv(s: State, d: Desired, u: set<Key>, key: Key, hash: Spec)
    requires Ready(s, d, u, key, hash)
    ensures Inv(s, d, u) && key in s.rows
  {
    hide Inv;
  }

  lemma SteppedReflexive(s: State, d: Desired, u: set<Key>, key: Key)
    requires Inv(s, d, u)
    ensures Stepped(s, s, d, u, key) && Safe(s, s) && OthersKept(s, s, key) && DeadSame(s, s, d)
  {
    hide Inv;
  }

  // A call from `before` whose full effect is `after` left the state `now`, faulted or not. `good` says that the
  // protocol's invariant is being followed.
  lemma AfterCall(good: bool, start: State, before: State, after: State, now: State, d: Desired, u: set<Key>, key: Key)
    requires Beside(start, before, key) && Beside(before, after, key)
    requires now == after || now == Faulted(before) || now == Faulted(after)
    requires good ==> Stepped(start, before, d, u, key)
    requires good ==> Inv(after, d, u) && Safe(before, after) && OthersKept(before, after, key) && DeadSame(before, after, d)
    ensures Beside(start, now, key)
    ensures good ==> Stepped(start, now, d, u, key)
  {
    hide Inv, Safe, OthersKept, DeadSame, Stepped, BesideAt;
    FaultedBeside(before, key);
    FaultedBeside(after, key);
    hide Beside;
    BesideTransitive(start, before, after, key);
    BesideTransitive(start, before, Faulted(before), key);
    BesideTransitive(start, after, Faulted(after), key);
    if good {
      CallSteps(start, before, after, now, d, u, key);
    }
  }

  lemma CallSteps(start: State, before: State, after: State, now: State, d: Desired, u: set<Key>, key: Key)
    requires Stepped(start, before, d, u, key)
    requires Inv(after, d, u) && Safe(before, after) && OthersKept(before, after, key) && DeadSame(before, after, d)
    requires now == after || now == Faulted(before) || now == Faulted(after)
    ensures Stepped(start, now, d, u, key)
  {
    hide Inv, Safe, OthersKept, DeadSame;
    FaultKeeps(before, d, u);
    FaultKeeps(after, d, u);
    DeadTransitive(start, before, after, d);
    DeadTransitive(start, before, Faulted(before), d);
    DeadTransitive(start, after, Faulted(after), d);
    SafeTransitive(start, before, after);
    OthersTransitive(start, before, after, key);
    SafeTransitive(start, before, Faulted(before));
    OthersTransitive(start, before, Faulted(before), key);
    SafeTransitive(start, after, Faulted(after));
    OthersTransitive(start, after, Faulted(after), key);
  }

  lemma BesideFresh(a: State, b: State, key: Key)
    requires Beside(a, b, key)
    ensures Fresh(b)
  {
  }

  // An object of the key's kind that its marker occurs in.
  predicate Candidate(s: State, key: Key, i: Id) {
    i in s.objects && s.objects[i].kind == key.Kind() && Owns(s.objects[i], key)
  }

  // An object that is there and not the key's: the ownership check refuses it.
  predicate Foreign(s: State, key: Key, id: Id) {
    id in s.objects && !Owns(s.objects[id], key)
  }

  // What OpenRow comes back with.
  ghost predicate Opened(a: State, b: State, key: Key, hash: Spec, row: Row) {
    if key !in a.rows then row == Row(NO_ID, hash, Creating) && b.rows == a.rows[key := row]
    else
      && b.rows == a.rows && row == a.rows[key].(gvmId := row.gvmId)
      && (HasId(a.rows, key) ==> row == a.rows[key])
      && (!HasId(a.rows, key) ==>
            if exists i :: Candidate(a, key, i) then Candidate(a, key, row.gvmId) else row.gvmId == NO_ID)
  }

  // What WriteObject does to the objects.
  ghost predicate WroteBy(a: State, b: State, key: Key, hash: Spec, row: Row, ok: bool, id: Id) {
    && (ok ==> b.rows == a.rows)
    && (ok && row.gvmId in a.objects ==> id == row.gvmId && Owns(a.objects[id], key) && b.objects == Changed(a, key, id, hash).objects)
    && (ok && row.gvmId !in a.objects ==> id == a.nextId && b.objects == Made(a, key, hash).objects)
    && (b.nextId == a.nextId || (row.gvmId !in a.objects && b.nextId == a.nextId + 1 && b.objects == Made(a, key, hash).objects))
  }

  // The id a run works on: the row's own while its object is there, one found by marker, or a new one.
  ghost predicate Located(a: State, key: Key, id: Id) {
    if HasId(a.rows, key) && a.rows[key].gvmId in a.objects then id == a.rows[key].gvmId && Owns(a.objects[id], key)
    else if key in a.rows && !HasId(a.rows, key) && exists i :: Candidate(a, key, i) then Candidate(a, key, id)
    else id == a.nextId
  }

  // What applyResource has done to a row that was not current, whatever the books said.
  ghost predicate AppliedBy(a: State, b: State, key: Key, hash: Spec, id: Id) {
    && Located(a, key, id) && b.rows == a.rows[key := Row(id, hash, Applied)]
    && b.objects == (if id in a.objects then Changed(a, key, id, hash).objects else Made(a, key, hash).objects)
  }

  // At most one object is made, and only where the row's own is not there.
  ghost predicate CreatesAtMost(a: State, b: State, key: Key, hash: Spec) {
    b.nextId == a.nextId
    || ((HasId(a.rows, key) ==> a.rows[key].gvmId !in a.objects) && b.nextId == a.nextId + 1 && b.objects == Made(a, key, hash).objects)
  }

  // A row exists for the key, must be written, and does not point at a dead object.
  ghost predicate Ready(s: State, d: Desired, u: set<Key>, key: Key, hash: Spec) {
    && Inv(s, d, u) && key in s.rows && Wants(d, s.rows, key, hash) && !UpToDate(d, s.rows, key)
    && (key.TargetKey? ==> NoTaskFor(s, key))
    && (s.rows[key].gvmId != NO_ID ==>
          s.rows[key].gvmId in s.objects && s.objects[s.rows[key].gvmId].comment == Marked(key))
  }

  // The remote object carries the wanted value; only the checkpoint is missing.
  ghost predicate Written(s: State, d: Desired, u: set<Key>, key: Key, hash: Spec, id: Id) {
    && Inv(s, d, u) && key in s.rows && Wants(d, s.rows, key, hash)
    && (key.TargetKey? ==> NoTaskFor(s, key))
    && (s.rows[key].gvmId == NO_ID || s.rows[key].gvmId == id)
    && id in s.objects && s.objects[id].comment == Marked(key) && s.objects[id].spec == hash && s.objects[id].retained
  }

  // The early return: the row's live owned object has the wanted value.
  lemma CurrentIsSettled(s: State, d: Desired, u: set<Key>, key: Key, hash: Spec)
    requires Applicable(s, d, u, key, hash) && RowCurrent(s.rows, key, hash)
    ensures Stepped(s, s, d, u, key) && Settled(s, d, key)
  {
    hide ClashFree;
    SteppedReflexive(s, d, u, key);
  }

  lemma IntentIsReady(s: State, d: Desired, u: set<Key>, key: Key, hash: Spec)
    requires Inv(s, d, u) && key !in s.rows && Wants(d, s.rows, key, hash)
    requires key.TargetKey? ==> NoTaskFor(s, key)
    ensures var t := Upserted(s, key, Row(NO_ID, hash, Creating));
            Ready(t, d, u, key, hash) && Safe(s, t) && OthersKept(s, t, key) && Inv(t, d, u) && NoLive(t, key) && DeadSame(s, t, d)
  {
    hide Inv, Safe, OthersKept, NoLive;
    IntentKeeps(s, d, u, key, hash);
  }

  lemma RowIsReady(s: State, d: Desired, u: set<Key>, key: Key, hash: Spec)
    requires Inv(s, d, u) && key in s.rows && Wants(d, s.rows, key, hash) && !UpToDate(d, s.rows, key)
    requires key.TargetKey? ==> NoTaskFor(s, key)
    requires key.TaskKey? ==> !Doomed(s, d, key) && !DeadTask(s, d, key)
    ensures Ready(s, d, u, key, hash)
  {
    hide ClashFree;
  }

  lemma ReadyRow(s: State, d: Desired, u: set<Key>, key: Key, hash: Spec)
    requires Ready(s, d, u, key, hash)
    ensures key in s.rows && IsDesired(d, key)
    ensures s.rows[key].gvmId != NO_ID ==>
      s.rows[key].gvmId in s.objects && s.objects[s.rows[key].gvmId].comment == Marked(key)
  {
  }

  // What FindResource can meet: the key's own object, if it is live, and nothing else.
  lemma OneObjectOrNone(s: State, d: Desired, u: set<Key>, key: Key)
    requires Inv(s, d, u) && IsDesired(d, key)
    ensures NO_ID !in s.objects
    ensures forall i :: i in s.objects && Owns(s.objects[i], key) ==> s.objects[i].comment == Marked(key)
    ensures forall i, j | i in s.objects && j in s.objects :: Owns(s.objects[i], key) && Owns(s.objects[j], key) ==> i == j
  {
    hide Matches, Pending, TasksRefer, TasksBacked;
    forall i | i in s.objects ensures Owns(s.objects[i], key) <==> s.objects[i].comment == Marked(key) {
      OwnsIsExact(s, d, u, key, i);
    }
  }

  lemma NothingLive(s: State, d: Desired, u: set<Key>, key: Key)
    requires Inv(s, d, u)
    requires forall i :: i in s.objects && s.objects[i].kind == key.Kind() ==> !Owns(s.objects[i], key)
    ensures NoLive(s, key)
  {
    hide Matches, Pending, TasksRefer, TasksBacked;
    OwnMarkerMatches(key);
  }

  lemma OwnObject(key: Key)
    ensures Matches(key, key)
  {
    OwnMarkerMatches(key);
  }

  lemma ModifyIsWritten(s: State, d: Desired, u: set<Key>, key: Key, hash: Spec, id: Id)
    requires Ready(s, d, u, key, hash) && id in s.objects && s.objects[id].comment == Marked(key)
    requires s.rows[key].gvmId == NO_ID || s.rows[key].gvmId == id
    ensures var t := Changed(s, key, id, hash);
            Inv(t, d, u) && Safe(s, t) && OthersKept(s, t, key) && Written(t, d, u, key, hash, id) && DeadSame(s, t, d)
  {
    hide Inv, Safe, OthersKept;
    ModifyKeeps(s, d, u, key, id, hash);
  }

  // Recording the error of a failed modify, whether or not the modify took effect.
  lemma FailureIsRecorded(before: State, now: State, d: Desired, u: set<Key>, key: Key, hash: Spec, id: Id)
    requires Ready(before, d, u, key, hash) && id in before.objects && before.objects[id].comment == Marked(key)
    requires before.rows[key].gvmId == NO_ID || before.rows[key].gvmId == id
    requires now == Faulted(before) || now == Faulted(Changed(before, key, id, hash))
    requires Inv(now, d, u)
    ensures var t := Upserted(now, key, Row(id, before.rows[key].hash, Error));
            Inv(t, d, u) && Safe(now, t) && OthersKept(now, t, key) && DeadSame(now, t, d)
  {
    hide Safe, OthersKept, Pending, OneLive, TasksRefer, TasksBacked, ClashFree;
    ErrorKeeps(now, d, u, key, id);
  }

  lemma CreateIsWritten(s: State, d: Desired, u: set<Key>, key: Key, hash: Spec)
    requires Ready(s, d, u, key, hash) && s.rows[key].gvmId == NO_ID && NoLive(s, key)
    ensures var t := Made(s, key, hash);
            Inv(t, d, u) && Safe(s, t) && OthersKept(s, t, key) && Written(t, d, u, key, hash, s.nextId) && DeadSame(s, t, d)
    ensures s.nextId != NO_ID
  {
    hide Safe, OthersKept, Pending, OneLive, TasksRefer, TasksBacked, ClashFree, RowsOwn, MarkedHaveRows;
    CreateKeeps(s, d, u, key, hash);
  }

  // Recording the error of a failed create; a lost reply is found by its marker next time.
  lemma CreateFailureIsRecorded(before: State, now: State, d: Desired, u: set<Key>, key: Key, hash: Spec)
    requires Ready(before, d, u, key, hash) && before.rows[key].gvmId == NO_ID
    requires now == Faulted(before) || now == Faulted(Made(before, key, hash))
    requires Inv(now, d, u)
    ensures var t := Upserted(now, key, Row(NO_ID, hash, Error));
            Inv(t, d, u) && Safe(now, t) && OthersKept(now, t, key) && DeadSame(now, t, d)
  {
    hide Safe, OthersKept, Inv;
    CreateFailedKeeps(now, d, u, key, hash);
  }

  lemma WrittenIsApplied(s: State, d: Desired, u: set<Key>, key: Key, hash: Spec, id: Id)
    requires Written(s, d, u, key, hash, id)
    ensures var t := Upserted(s, key, Row(id, hash, Applied));
            Inv(t, d, u) && Safe(s, t) && OthersKept(s, t, key) && Settled(t, d, key) && DeadSame(s, t, d)
  {
    hide Inv, Safe, OthersKept;
    AppliedKeeps(s, d, u, key, id, hash);
  }

  lemma WrittenInv(s: State, d: Desired, u: set<Key>, key: Key, hash: Spec, id: Id)
    requires Written(s, d, u, key, hash, id)
    ensures Inv(s, d, u)
  {
    hide Inv;
  }

  lemma NothingCreated(a: State, b: State, key: Key, hash: Spec)
    requires b.nextId == a.nextId
    ensures CreatesAtMost(a, b, key, hash)
  {
  }

  lemma OpenedCreates(a: State, b: State, c: State, key: Key, hash: Spec, row: Row, ok: bool, id: Id)
    requires Opened(a, b, key, hash, row) && b.objects == a.objects && b.nextId == a.nextId
    requires WroteBy(b, c, key, hash, row, ok, id)
    ensures CreatesAtMost(a, c, key, hash) && (ok ==> c.rows == b.rows)
    ensures HasId(a.rows, key) ==> b.rows == a.rows && row == a.rows[key]
  {
  }

  lemma CheckpointCreates(a: State, b: State, c: State, key: Key, hash: Spec)
    requires CreatesAtMost(a, b, key, hash) && c.objects == b.objects && c.nextId == b.nextId
    ensures CreatesAtMost(a, c, key, hash)
  {
  }

  lemma WrittenApplies(a: State, b: State, c: State, e: State, key: Key, hash: Spec, row: Row, id: Id)
    requires Fresh(a) && Opened(a, b, key, hash, row) && b.objects == a.objects && b.nextId == a.nextId
    requires WroteBy(b, c, key, hash, row, true, id)
    requires e.objects == c.objects && e.rows == c.rows[key := Row(id, hash, Applied)]
    ensures AppliedBy(a, e, key, hash, id)
  {
    hide Owns;
    assert a.nextId !in a.objects && NO_ID !in a.objects;
  }

  // ---- Facts about what rows tell ----

  lemma OpenedAccounted(was: seq<Key>, a: State, b: State, key: Key, hash: Spec)
    requires Fresh(a) && b.objects == a.objects
    requires b.rows == a.rows || b.rows == a.rows[key := Row(NO_ID, hash, Creating)]
    ensures Accounted(was, was, a, b, key)
  {
  }

  lemma WriteFailedAccounted(was: seq<Key>, now: seq<Key>, a: State, b: State, key: Key)
    requires (now == was && b.rows == a.rows && b.objects == a.objects) || (now == was + [key] && key in b.rows && b.rows[key].state == Error)
    ensures Accounted(was, now, a, b, key)
  {
  }

  lemma CheckpointAccounted(was: seq<Key>, a: State, b: State, c: State, e: State, key: Key, hash: Spec, row: Row, id: Id)
    requires WroteBy(b, c, key, hash, row, true, id)
    requires e.objects == c.objects && e.rows == c.rows[key := Row(id, hash, Applied)]
    ensures Accounted(was, was, a, e, key)
  {
  }

  // Under no later desired state does a row pass for current over an object with another value.
  ghost predicate MisleadsNever(s: State) {
    forall next, k :: k in s.rows ==> !Misleads(s, next, k)
  }

  lemma TrueNeverMisleads(s: State)
    requires RowsTrue(s)
    ensures MisleadsNever(s)
  {
    forall next, k | k in s.rows ensures !Misleads(s, next, k) {
      TruthMisleadsNever(s, next, k);
    }
  }

  lemma NoErrorShown(was: seq<Key>, s: State)
    ensures ErrorShown(was, was, s.rows)
  {
  }

  lemma TrueWhenFaulted(s: State)
    ensures RowsTrue(s) ==> RowsTrue(Faulted(s))
    ensures Faulted(s).rows == s.rows
  {
    if RowsTrue(s) {
      forall k ensures TrueAt(Faulted(s), k) {
        assert TrueAt(s, k);
      }
    }
  }

  // Work on one key, with every reply in: its error shows, and truthful rows stay truthful.
  lemma WorkAccounted(good: bool, was: seq<Key>, now: seq<Key>, replied: bool, a: State, b: State, d: Desired, u: set<Key>, key: Key)
    requires replied ==> Accounted(was, now, a, b, key)
    requires good ==> Stepped(a, b, d, u, key)
    ensures replied ==> ErrorShown(was, now, b.rows) && (good && RowsTrue(a) ==> RowsTrue(b))
  {
    if replied {
      hide TrueAt;
      AccountedShown(was, now, a, b, key);
      if good && RowsTrue(a) {
        forall k ensures TrueAt(b, k) {
          assert TrueAt(a, k);
          if k != key {
            OtherRowTrue(a, b, d, u, key, k);
          }
        }
      }
    }
  }

  lemma OtherRowTrue(a: State, b: State, d: Desired, u: set<Key>, key: Key, k: Key)
    requires Stepped(a, b, d, u, key) && k != key && TrueAt(a, k)
    ensures TrueAt(b, k)
  {
    hide Pending, KeysIn, IdsBounded, MarkedHaveRows, OneLive, TasksBacked, TasksRefer, Safe, DeadSame;
  }

  // ---- Facts about deletion ----

  ghost predicate Deletable(s: State, d: Desired, u: set<Key>, key: Key, row: Row) {
    && Inv(s, d, u) && key in s.rows && NoTaskFor(s, key) && row.hash == s.rows[key].hash
    && (IsDesired(d, key) ==> Doomed(s, d, key))
    && (row.gvmId == s.rows[key].gvmId
        || (s.rows[key].gvmId == NO_ID && row.gvmId in s.objects && s.objects[row.gvmId].comment == Marked(key)))
    && (row.gvmId == NO_ID ==> NoLive(s, key))
  }

  lemma DeletableFacts(s: State, d: Desired, u: set<Key>, key: Key, row: Row)
    requires Deletable(s, d, u, key, row)
    ensures Inv(s, d, u) && key in s.rows
    ensures row.gvmId == NO_ID ==> NoLive(s, key)
    ensures row.gvmId !in s.objects ==> NoLive(s, key)
    ensures row.gvmId in s.objects ==> s.objects[row.gvmId].comment == Marked(key)
  {
    hide ClashFree, Pending, TasksRefer, TasksBacked;
  }

  lemma TrashIsSafe(s: State, d: Desired, u: set<Key>, key: Key, row: Row)
    requires Deletable(s, d, u, key, row) && row.gvmId in s.objects
    ensures var t := Trashed(s, key, row.gvmId);
            Inv(t, d, u) && Safe(s, t) && OthersKept(s, t, key) && NoLive(t, key) && DeadSame(s, t, d)
  {
    hide Safe, OthersKept, NoLive, ClashFree, Pending, TasksRefer, TasksBacked, OneLive;
    TrashKeeps(s, d, u, key, row.gvmId);
  }

  lemma DeleteFailureIsRecorded(before: State, now: State, d: Desired, u: set<Key>, key: Key, row: Row)
    requires Deletable(before, d, u, key, row) && row.gvmId in before.objects
    requires now == Faulted(before) || now == Faulted(Trashed(before, key, row.gvmId))
    requires Inv(now, d, u)
    ensures var t := Upserted(now, key, row.(state := Error));
            Inv(t, d, u) && Safe(now, t) && OthersKept(now, t, key) && DeadSame(now, t, d)
  {
    hide Safe, OthersKept, ClashFree, Pending, TasksRefer, TasksBacked, OneLive;
    assert row.gvmId !in now.objects ==> NoLive(now, key) by { TrashIsSafe(before, d, u, key, row); }
    if row.gvmId != now.rows[key].gvmId && row.gvmId !in now.objects {
      EmptyRowDesired(before, d, u, key);
      assert Doomed(now, d, key);
    }
    ErrorKeeps(now, d, u, key, row.gvmId);
  }

  lemma EmptyRowDesired(s: State, d: Desired, u: set<Key>, key: Key)
    requires Inv(s, d, u) && key in s.rows && s.rows[key].gvmId == NO_ID
    ensures IsDesired(d, key) || NoLive(s, key)
  {
  }

  lemma NoLiveFault(s: State, key: Key)
    ensures NoLive(Faulted(s), key) <==> NoLive(s, key)
  {
  }

  lemma RowGoneIsSafe(before: State, now: State, d: Desired, u: set<Key>, key: Key, row: Row)
    requires Deletable(before, d, u, key, row) && Inv(now, d, u) && now.rows == before.rows && NoLive(now, key)
    ensures var t := RowGone(now, key);
            Inv(t, d, u) && Safe(now, t) && OthersKept(now, t, key) && DeadSame(now, t, d) && NoLive(t, key)
  {
    hide Inv, Safe, OthersKept;
    RowGoneKeeps(now, d, u, key);
  }

  lemma TaskIsDeletable(s: State, d: Desired, u: set<Key>, key: Key, row: Row)
    requires Inv(s, d, u) && key.TaskKey? && key in s.rows && Doomed(s, d, key)
    requires row.hash == s.rows[key].hash
    requires row.gvmId == s.rows[key].gvmId
      || (s.rows[key].gvmId == NO_ID && row.gvmId in s.objects && s.objects[row.gvmId].comment == Marked(key))
    requires row.gvmId == NO_ID ==> NoLive(s, key)
    ensures Deletable(s, d, u, key, row)
  {
    hide Inv, Doomed;
  }

  lemma NothingToRelease(s: State, d: Desired, u: set<Key>, slot: Slot, hash: Spec)
    requires Inv(s, d, u) && Wants(d, s.rows, TargetOf(slot), hash)
    requires !HasId(s.rows, TargetOf(slot))
      || (s.rows[TargetOf(slot)].state == Applied && s.rows[TargetOf(slot)].hash == hash)
    ensures UpToDate(d, s.rows, TargetOf(slot)) || NoTaskFor(s, TargetOf(slot))
  {
    hide ClashFree, Pending, TasksRefer, OneLive, MarkedHaveRows, RowsOwn;
  }

  lemma ReleaseIsDue(s: State, d: Desired, u: set<Key>, slot: Slot, hash: Spec)
    requires Inv(s, d, u) && Wants(d, s.rows, TargetOf(slot), hash) && HasId(s.rows, TargetOf(slot))
    requires !(s.rows[TargetOf(slot)].state == Applied && s.rows[TargetOf(slot)].hash == hash)
    ensures IsDesired(d, TaskOf(slot)) && !UpToDate(d, s.rows, TargetOf(slot))
    ensures TaskOf(slot) in s.rows ==> Doomed(s, d, TaskOf(slot))
  {
    hide Inv;
  }

  lemma NoTaskRow(s: State, slot: Slot)
    requires TaskOf(slot) !in s.rows
    ensures NoTaskFor(s, TargetOf(slot))
  {
  }

  // ---- Facts about tasks ----

  lemma TaskSituation(s: State, d: Desired, u: set<Key>, key: Key, hash: Spec)
    requires Inv(s, d, u) && key.TaskKey? && Wants(d, s.rows, key, hash) && !NeedsRelease(d, s.rows, key)
    ensures IsDesired(d, key)
    ensures UpToDate(d, s.rows, key) ==> s.rows[key].hash == hash
    ensures HasId(s.rows, key) && s.rows[key].hash == hash ==>
      DeadTask(s, d, key) || (s.rows[key].gvmId in s.objects && s.objects[s.rows[key].gvmId].comment == Marked(key))
    ensures DeadTask(s, d, key) <==> RowCurrent(s.rows, key, hash) && s.rows[key].gvmId !in s.objects
  {
    hide ClashFree, TasksRefer, OneLive, MarkedHaveRows, AppliedTrue, EmptyIdsHarmless;
  }

  lemma RetentionIsSafe(s: State, d: Desired, u: set<Key>, key: Key, id: Id)
    requires Inv(s, d, u) && id in s.objects && s.objects[id].comment == Marked(key) && key.TaskKey?
    ensures var t := RetentionSet(s, key, id);
            && Inv(t, d, u) && Safe(s, t) && OthersKept(s, t, key) && DeadSame(s, t, d) && t.rows == s.rows
            && id in t.objects && t.objects[id] == s.objects[id].(retained := true)
  {
    hide Inv, Safe, OthersKept;
    RetentionKeeps(s, d, u, key, id);
  }

  lemma RetentionFailureIsRecorded(before: State, now: State, d: Desired, u: set<Key>, key: Key)
    requires Inv(before, d, u) && key.TaskKey? && HasId(before.rows, key) && before.rows[key].gvmId in before.objects
    requires now == Faulted(before) || now == Faulted(RetentionSet(before, key, before.rows[key].gvmId))
    requires Inv(now, d, u)
    ensures var t := Upserted(now, key, before.rows[key].(state := Error));
            Inv(t, d, u) && Safe(now, t) && OthersKept(now, t, key) && DeadSame(now, t, d)
  {
    hide Safe, OthersKept, ClashFree, Pending, TasksRefer, TasksBacked, OneLive, MarkedHaveRows, RowsOwn;
    ErrorKeeps(now, d, u, key, before.rows[key].gvmId);
  }

  lemma ChangedIsDoomed(s: State, d: Desired, key: Key, hash: Spec)
    requires key.TaskKey? && key in s.rows && Wants(d, s.rows, key, hash) && s.rows[key].hash != hash
    ensures IsDesired(d, key) && Doomed(s, d, key)
  {
  }

  lemma StepsJoin(good: bool, a: State, b: State, c: State, d: Desired, u: set<Key>, key: Key)
    requires Beside(a, b, key) && Beside(b, c, key)
    requires good ==> Stepped(a, b, d, u, key) && Stepped(b, c, d, u, key)
    ensures Beside(a, c, key)
    ensures good ==> Stepped(a, c, d, u, key)
  {
    hide Inv, Safe, OthersKept, DeadSame, Beside;
    BesideTransitive(a, b, c, key);
    if good {
      DeadTransitive(a, b, c, d);
      SafeTransitive(a, b, c);
      OthersTransitive(a, b, c, key);
    }
  }

  // After replaceChangedTask the row, if any, has the wanted value and a live object.
  lemma ReplacedIsReady(before: State, now: State, d: Desired, u: set<Key>, key: Key, hash: Spec)
    requires Inv(now, d, u) && key.TaskKey? && Wants(d, before.rows, key, hash) && !NeedsRelease(d, before.rows, key)
    requires now.rows == before.rows - {key} || (now == before && (key in before.rows ==> before.rows[key].hash == hash))
    requires HasId(before.rows, key) && before.rows[key].hash == hash && before.rows[key].state == Applied ==>
      before.rows[key].gvmId in before.objects && before.objects[before.rows[key].gvmId].retained
    requires !DeadTask(before, d, key)
    ensures Applicable(now, d, u, key, hash)
  {
    hide Inv;
  }

  // ---- Facts about what a run leaves alone ----

  lemma FrameFresh(s: State, d: Desired, u: set<Key>)
    requires Frame(s, d, u)
    ensures Fresh(s) && s.rows.Keys <= u
  {
  }

  lemma InvFrames(s: State, d: Desired, u: set<Key>)
    requires Inv(s, d, u)
    ensures Frame(s, d, u)
  {
    hide KeysIn, Tied, Pending;
    TiedFrames(s, d, u);
  }

  lemma FaultedFrames(s: State, d: Desired, u: set<Key>)
    requires Frame(s, d, u)
    ensures Frame(Faulted(s), d, u) && Fresh(s)
  {
    hide ClashFree;
  }

  // Keys that are not listed are as they were.
  ghost predicate UnlistedKept(a: State, b: State, u: set<Key>, ordered: seq<Key>) {
    NoneReturns(a, b) && forall k :: k in u && k !in ordered ==> Same(a, b, k)
  }

  // The first `n` listed rows are gone, but not the objects of empty ones; all other keys are as they were.
  ghost predicate DeletedUpTo(a: State, b: State, u: set<Key>, ordered: seq<Key>, n: nat) {
    && n <= |ordered| && b.rows == a.rows - AsSet(ordered[..n])
    && (forall k :: k in u && k !in ordered[..n] ==> Same(a, b, k))
    && (forall k :: k in ordered[..n] && k in a.rows && a.rows[k].gvmId == NO_ID ==> SameObjects(a, b, k))
  }

  lemma DeletionStarts(s: State, u: set<Key>, ordered: seq<Key>)
    ensures DeletedUpTo(s, s, u, ordered, 0) && UnlistedKept(s, s, u, ordered)
  {
    assert s.rows - AsSet(ordered[..0]) == s.rows;
  }

  lemma NextToDelete(start: State, s: State, d: Desired, u: set<Key>, ordered: seq<Key>, i: nat)
    requires Frame(s, d, u) && DeletedUpTo(start, s, u, ordered, i) && i < |ordered| && DeletionOrdered(ordered)
    requires start.rows.Keys <= u && ordered[i] in start.rows
    ensures Fresh(s) && ordered[i] in u && ordered[i] in s.rows && s.rows[ordered[i]] == start.rows[ordered[i]]
    ensures ordered[i] !in ordered[..i] && s.rows == start.rows - AsSet(ordered[..i])
  {
    hide ClashFree, SameObjects;
    assert forall j :: 0 <= j < i ==> DeletesBefore(ordered[j], ordered[i]);
    assert Same(start, s, ordered[i]);
  }

  lemma OneDeleted(start: State, before: State, now: State, d: Desired, u: set<Key>, ordered: seq<Key>, i: nat, one: bool)
    requires Frame(before, d, u) && DeletedUpTo(start, before, u, ordered, i) && UnlistedKept(start, before, u, ordered)
    requires start.rows.Keys <= u && i < |ordered| && ordered[i] in u && ordered[i] !in ordered[..i] && ordered[i] in start.rows
    requires Beside(before, now, ordered[i])
    requires start.rows[ordered[i]].gvmId == NO_ID ==> now.objects == before.objects
    requires one ==> now.rows == before.rows - {ordered[i]}
    ensures Frame(now, d, u) && UnlistedKept(start, now, u, ordered)
    ensures one ==> DeletedUpTo(start, now, u, ordered, i + 1)
  {
    var key := ordered[i];
    BesideSame(before, now, d, u, key);
    hide Frame, Beside;
    assert AsSet(ordered[..i + 1]) == AsSet(ordered[..i]) + {key};
    if one {
      assert now.rows == start.rows - AsSet(ordered[..i + 1]);
      forall k | k in u && k !in ordered[..i + 1] ensures Same(start, now, k) {
        assert k !in ordered[..i] && k != key;
        SameTransitive(start, before, now, k);
      }
      forall k | k in ordered[..i + 1] && k in start.rows && start.rows[k].gvmId == NO_ID ensures SameObjects(start, now, k) {
        ListedObjects(start, before, now, u, ordered, i, k);
      }
    }
    forall k | k in u && k !in ordered ensures Same(start, now, k) {
      assert k != key;
      SameTransitive(start, before, now, k);
    }
  }

  lemma ListedObjects(start: State, before: State, now: State, u: set<Key>, ordered: seq<Key>, i: nat, k: Key)
    requires DeletedUpTo(start, before, u, ordered, i) && i < |ordered| && start.rows.Keys <= u
    requires forall x :: x in u && x != ordered[i] ==> Same(before, now, x)
    requires ordered[i] !in ordered[..i] && k in ordered[..i + 1] && k in start.rows && start.rows[k].gvmId == NO_ID
    requires ordered[i] in start.rows && (start.rows[ordered[i]].gvmId == NO_ID ==> now.objects == before.objects)
    ensures SameObjects(start, now, k)
  {
    if k == ordered[i] {
      assert Same(start, before, k);
    } else {
      assert k in ordered[..i] && SameObjects(start, before, k);
      assert Same(before, now, k);
    }
  }

  lemma SameTransitive(a: State, b: State, c: State, k: Key)
    requires Same(a, b, k) && Same(b, c, k)
    ensures Same(a, c, k)
  {
  }

  lemma SurplusDeleted(a: State, b: State, d: Desired, u: set<Key>, ordered: seq<Key>, ok: bool)
    requires UnlistedKept(a, b, u, ordered) && (ok ==> DeletedUpTo(a, b, u, ordered, |ordered|))
    requires a.rows.Keys <= u && forall k :: k in ordered <==> k in a.rows && !IsDesired(d, k)
    ensures NoneReturns(a, b) && forall k :: k in u && IsDesired(d, k) ==> Same(a, b, k)
    ensures ok ==> b.rows == map k | k in a.rows && IsDesired(d, k) :: a.rows[k]
    ensures ok ==> forall k :: k in a.rows && !IsDesired(d, k) && a.rows[k].gvmId == NO_ID ==> SameObjects(a, b, k)
  {
    hide Same, SameObjects, NoneReturns, IsDesired;
    assert ordered[..|ordered|] == ordered;
  }

  lemma EverythingDeleted(a: State, b: State, u: set<Key>, ordered: seq<Key>)
    requires DeletedUpTo(a, b, u, ordered, |ordered|) && a.rows.Keys <= u && forall k :: k in ordered <==> k in a.rows
    ensures b.rows == map[] && forall k :: k in u ==> LeftAsFound(a, b, Removed, k)
  {
    hide Same, SameObjects;
    assert ordered[..|ordered|] == ordered;
  }

  // The task's row is as it was, and so is its object but for the retention preference.
  predicate SameTask(a: State, b: State, k: Key) {
    && k in a.rows && k in b.rows && b.rows[k] == a.rows[k]
    && a.rows[k].gvmId in a.objects && a.rows[k].gvmId in b.objects && a.objects[a.rows[k].gvmId].comment == Marked(k)
    && b.objects[a.rows[k].gvmId] == a.objects[a.rows[k].gvmId].(retained := b.objects[a.rows[k].gvmId].retained)
  }

  // What a completed run does not touch: the objects of an undesired row without an id, although the row goes; a
  // schedule or target whose row is current; and a task whose row is current, unless it must be removed first.
  ghost predicate LeftAsFound(a: State, b: State, d: Desired, k: Key) {
    && (k in a.rows && a.rows[k].gvmId == NO_ID && !IsDesired(d, k) ==> k !in b.rows && SameObjects(a, b, k))
    && (!k.TaskKey? && UpToDate(d, a.rows, k) ==> Same(a, b, k))
    && (k.TaskKey? && UpToDate(d, a.rows, k) && !NeedsRelease(d, a.rows, k) && ScheduleKeeps(a, d) ==> SameTask(a, b, k))
  }

  // The task's wanted value under the ids its row was written with.
  predicate TaskCurrent(rows: map<Key, Row>, d: Desired, slot: Slot, scheduleId: Id)
    requires d.Active?
  {
    TargetOf(slot) in rows
    && RowCurrent(rows, TaskOf(slot), TaskSpec(Lookup(d.taskText, slot), rows[TargetOf(slot)].gvmId, scheduleId))
  }

  predicate TargetCurrent(rows: map<Key, Row>, d: Desired, slot: Slot)
    requires d.Active?
  {
    RowCurrent(rows, TargetOf(slot), TargetSpec(Lookup(d.targetText, slot)))
  }

  // One slot's turn: other keys as they were, and this one's where its rows are current.
  ghost predicate SlotWorked(a: State, b: State, d: Desired, u: set<Key>, slot: Slot, scheduleId: Id, ok: bool)
    requires d.Active?
  {
    && NoneReturns(a, b)
    && (forall k :: k in u && k != TargetOf(slot) && k != TaskOf(slot) ==> Same(a, b, k))
    && (ok && TargetCurrent(a.rows, d, slot) ==> Same(a, b, TargetOf(slot)))
    && (ok && TargetCurrent(a.rows, d, slot) && TaskCurrent(a.rows, d, slot, scheduleId) ==> SameTask(a, b, TaskOf(slot)))
  }

  lemma SlotFrames(a: State, b: State, c: State, e: State, d: Desired, u: set<Key>, slot: Slot, scheduleId: Id, ok: bool)
    requires Frame(a, d, u) && d.Active? && slot in d.slots
    requires Beside(a, b, TaskOf(slot)) && Beside(b, c, TargetOf(slot)) && Beside(c, e, TaskOf(slot))
    requires ok && TargetCurrent(a.rows, d, slot) ==> b == a && c == a
    requires ok && TargetCurrent(a.rows, d, slot) && TaskCurrent(a.rows, d, slot, scheduleId) ==> Ensured(c, e, TaskOf(slot))
    ensures Frame(e, d, u) && SlotWorked(a, e, d, u, slot, scheduleId, ok)
  {
    var target, task := TargetOf(slot), TaskOf(slot);
    assert target in u && task in u by {
      assert IsDesired(d, target) && IsDesired(d, task);
    }
    BesideSame(a, b, d, u, task);
    BesideSame(b, c, d, u, target);
    BesideSame(c, e, d, u, task);
    hide Frame, Beside;
    forall k | k in u && k != target && k != task ensures Same(a, e, k) {
      SameTransitive(a, b, c, k);
      SameTransitive(a, c, e, k);
    }
    hide SameObjects;
  }

  // Where a run stands after the schedule and the first `i` slots, compared with where it began.
  ghost predicate UnderWay(a: State, b: State, d: Desired, u: set<Key>, i: nat, scheduleId: Id)
    requires d.Active?
  {
    && NoneReturns(a, b) && i <= |d.slots|
    && ScheduleKey in b.rows && scheduleId == b.rows[ScheduleKey].gvmId
    && (ScheduleKeeps(a, d) ==> scheduleId == a.rows[ScheduleKey].gvmId)
    && (RowCurrent(a.rows, ScheduleKey, ScheduleSpec(d.schedule)) ==> Same(a, b, ScheduleKey))
    && (forall k :: k in u && !IsDesired(d, k) ==> Same(a, b, k))
    && (forall j :: i <= j < |d.slots| ==> Same(a, b, TargetOf(d.slots[j])) && Same(a, b, TaskOf(d.slots[j])))
    && (forall j :: 0 <= j < i ==> SlotLeft(a, b, d, d.slots[j]))
  }

  ghost predicate SlotLeft(a: State, b: State, d: Desired, slot: Slot)
    requires d.Active?
  {
    TargetCurrent(a.rows, d, slot) ==>
      && Same(a, b, TargetOf(slot))
      && (ScheduleKeeps(a, d) && TaskCurrent(a.rows, d, slot, a.rows[ScheduleKey].gvmId) ==> SameTask(a, b, TaskOf(slot)))
  }

  lemma ScheduleFrames(a: State, b: State, d: Desired, u: set<Key>, scheduleId: Id, ok: bool)
    requires Frame(a, d, u) && d.Active? && Beside(a, b, ScheduleKey)
    requires ok && RowCurrent(a.rows, ScheduleKey, ScheduleSpec(d.schedule)) ==> b == a && scheduleId == a.rows[ScheduleKey].gvmId
    requires ok && !RowCurrent(a.rows, ScheduleKey, ScheduleSpec(d.schedule)) ==>
               AppliedBy(a, b, ScheduleKey, ScheduleSpec(d.schedule), scheduleId)
    ensures Frame(b, d, u)
    ensures ok ==> UnderWay(a, b, d, u, 0, scheduleId)
  {
    BesideSame(a, b, d, u, ScheduleKey);
    assert forall j :: 0 <= j < |d.slots| ==> IsDesired(d, TargetOf(d.slots[j])) && IsDesired(d, TaskOf(d.slots[j]));
    assert forall k :: IsDesired(d, k) ==> k in u;
    hide Frame, Beside, Same;
  }

  lemma OneMoreSlot(a: State, b: State, c: State, d: Desired, u: set<Key>, i: nat, scheduleId: Id)
    requires d.Active? && Distinct(d.slots) && i < |d.slots| && UnderWay(a, b, d, u, i, scheduleId)
    requires Frame(b, d, u) && SlotWorked(b, c, d, u, d.slots[i], scheduleId, true)
    ensures UnderWay(a, c, d, u, i + 1, scheduleId)
  {
    var slot := d.slots[i];
    assert IsDesired(d, ScheduleKey) && IsDesired(d, TargetOf(slot)) && IsDesired(d, TaskOf(slot));
    assert forall k :: IsDesired(d, k) ==> k in u;
    hide Frame, ClashFree;
    forall k | k in u && k != TargetOf(slot) && k != TaskOf(slot) && Same(a, b, k) ensures Same(a, c, k) {
      SameTransitive(a, b, c, k);
    }
    forall j | i + 1 <= j < |d.slots| ensures Same(a, c, TargetOf(d.slots[j])) && Same(a, c, TaskOf(d.slots[j])) {
      assert d.slots[j] != slot && IsDesired(d, TargetOf(d.slots[j])) && IsDesired(d, TaskOf(d.slots[j]));
    }
    forall j | 0 <= j <= i ensures SlotLeft(a, c, d, d.slots[j]) {
      if j == i {
        SlotTurn(a, b, c, d, u, slot, scheduleId);
      } else {
        assert d.slots[j] != slot && IsDesired(d, TargetOf(d.slots[j])) && IsDesired(d, TaskOf(d.slots[j]));
        SlotStays(a, b, c, d, d.slots[j]);
      }
    }
    hide SlotLeft, Same, SlotWorked;
  }

  // A slot comes to its turn as it was at the start.
  lemma SlotTurn(a: State, b: State, c: State, d: Desired, u: set<Key>, slot: Slot, scheduleId: Id)
    requires d.Active? && SlotWorked(b, c, d, u, slot, scheduleId, true)
    requires Same(a, b, TargetOf(slot)) && Same(a, b, TaskOf(slot))
    requires ScheduleKeeps(a, d) ==> scheduleId == a.rows[ScheduleKey].gvmId
    requires NoneReturns(a, b)
    ensures SlotLeft(a, c, d, slot)
  {
    if TargetCurrent(a.rows, d, slot) {
      SameTransitive(a, b, c, TargetOf(slot));
      if ScheduleKeeps(a, d) && TaskCurrent(a.rows, d, slot, scheduleId) {
        assert SameTask(b, c, TaskOf(slot));
      }
    }
  }

  lemma SlotStays(a: State, b: State, c: State, d: Desired, slot: Slot)
    requires d.Active? && SlotLeft(a, b, d, slot)
    requires Same(b, c, TargetOf(slot)) && Same(b, c, TaskOf(slot))
    ensures SlotLeft(a, c, d, slot)
  {
  }

  lemma RunLeaves(a: State, b: State, c: State, d: Desired, u: set<Key>, scheduleId: Id)
    requires d.Active? && Frame(a, d, u) && UnderWay(a, b, d, u, |d.slots|, scheduleId)
    requires NoneReturns(b, c) && forall k :: k in u && IsDesired(d, k) ==> Same(b, c, k)
    requires c.rows == map k | k in b.rows && IsDesired(d, k) :: b.rows[k]
    requires forall k :: k in b.rows && !IsDesired(d, k) && b.rows[k].gvmId == NO_ID ==> SameObjects(b, c, k)
    ensures NoneReturns(a, c) && forall k :: k in u ==> LeftAsFound(a, c, d, k)
  {
    forall k | k in u ensures LeftAsFound(a, c, d, k) {
      KeyLeft(a, b, c, d, u, scheduleId, k);
    }
  }

  lemma KeyLeft(a: State, b: State, c: State, d: Desired, u: set<Key>, scheduleId: Id, k: Key)
    requires d.Active? && k in u && Frame(a, d, u) && UnderWay(a, b, d, u, |d.slots|, scheduleId)
    requires IsDesired(d, k) ==> Same(b, c, k)
    requires c.rows == map k | k in b.rows && IsDesired(d, k) :: b.rows[k]
    requires k in b.rows && !IsDesired(d, k) && b.rows[k].gvmId == NO_ID ==> SameObjects(b, c, k)
    ensures LeftAsFound(a, c, d, k)
  {
    if IsDesired(d, k) && k != ScheduleKey {
      var j :| 0 <= j < |d.slots| && d.slots[j] == Slot(k.cls, k.sequence);
      assert SlotLeft(a, b, d, d.slots[j]);
      assert k == TargetOf(d.slots[j]) || k == TaskOf(d.slots[j]);
    }
  }

  // ---- What replacing the desired state too early costs ----

  // The schedule keeps its id in a run for `next`: its object is there, or its row passes for current.
  predicate ScheduleKeeps(s: State, next: Desired) {
    HasId(s.rows, ScheduleKey) && (s.rows[ScheduleKey].gvmId in s.objects || UpToDate(next, s.rows, ScheduleKey))
  }

  // A completed run leaves its mark of this row.
  predicate Spoils(s: State, next: Desired, k: Key)
    requires k in s.rows
  {
    || Orphans(s, next, k)
    || ((Misleads(s, next, k) || (Dangles(s, next, k) && UpToDate(next, s.rows, k))) && (k.TaskKey? ==> ScheduleKeeps(s, next)))
  }

  // The mark: a live object without a row, or a row that passes for current over a wrong object or none.
  ghost predicate Spoilt(a: State, b: State, next: Desired, k: Key)
    requires k in a.rows
  {
    if Orphans(a, next, k) then k !in b.rows && !NoLive(b, k)
    else k in b.rows && b.rows[k] == a.rows[k] && !Settled(b, next, k)
  }

  // A stopped run may make an object for this row, one each time.
  predicate Doubles(s: State, next: Desired, k: Key)
    requires k in s.rows
  {
    Dangles(s, next, k) && !UpToDate(next, s.rows, k)
  }

  /** The desired state may be replaced exactly when no row spoils a completed run and none doubles in stopped ones. */
  lemma MayReplaceUnlessItShows(s: State, next: Desired)
    ensures MayReplace(s, next) <==> forall k :: k in s.rows ==> !Spoils(s, next, k) && !Doubles(s, next, k)
  {
    forall k | k in s.rows && !Orphans(s, next, k) && (Dangles(s, next, k) || Misleads(s, next, k)) && !Spoils(s, next, k) && !Doubles(s, next, k)
      ensures ScheduleKey in s.rows && Doubles(s, next, ScheduleKey)
    {
      assert k.TaskKey? && UpToDate(next, s.rows, k) && !ScheduleKeeps(s, next);
    }
  }

  lemma SpoiltAsFound(a: State, b: State, d: Desired, u: set<Key>, next: Desired, v: set<Key>, k: Key)
    requires Inv(a, d, u) && KeysIn(a, next, v) && k in a.rows && Spoils(a, next, k)
    requires (next.Active? ==> NoneReturns(a, b)) && LeftAsFound(a, b, next, k)
    ensures Spoilt(a, b, next, k) && !(k.TaskKey? && Dangles(a, next, k))
  {
    hide ClashFree, Pending, MarkedHaveRows, OneLive, TasksRefer, TasksBacked;
    if Orphans(a, next, k) {
      var i :| i in a.objects && a.objects[i].comment == Marked(k);
      assert i in b.objects && b.objects[i].comment == Marked(k);
    }
  }

  // One lost reply each reaches a row of every spoiling kind: a create before a removal, a modify and a row's delete
  // before the edit is taken back.
  lemma LostRepliesSpoil(a: string, b: string, c: string, edited: string)
    requires a != edited && c != edited
    ensures var s := Made(Upserted(NOTHING, ScheduleKey, Row(NO_ID, ScheduleSpec(a), Creating)), ScheduleKey, ScheduleSpec(a));
            Inv(s, Wanting(a, b, c), KEYS) && ScheduleKey in s.rows && Spoils(s, Removed, ScheduleKey)
    ensures var s := Changed(Installed(NOTHING, ScheduleKey, ScheduleSpec(a)), ScheduleKey, 1, ScheduleSpec(edited));
            Inv(s, Wanting(edited, b, c), KEYS) && ScheduleKey in s.rows && Spoils(s, Wanting(a, b, c), ScheduleKey)
    ensures var s := Trashed(AllInstalled(a, b, c), TaskOf(SLOT), 3);
            Inv(s, Wanting(a, b, edited), KEYS) && TaskOf(SLOT) in s.rows && Spoils(s, Wanting(a, b, c), TaskOf(SLOT))
  {
    LostCreateThenRemoved(a, b, c);
    LostModifyThenReverted(a, edited, b, c);
    LostRowDeleteThenReverted(a, b, c, edited);
    AllInstalledIs(a, b, c);
    hide Inv, AllInstalled;
  }

  // Applying a key that has a live object and no row makes it a second.
  lemma OrphanIsDoubled(a: State, b: State, key: Key, hash: Spec, id: Id)
    requires Fresh(a) && key !in a.rows && !NoLive(a, key) && AppliedBy(a, b, key, hash, id)
    ensures !OneLive(b)
  {
    var i :| i in a.objects && a.objects[i].comment == Marked(key);
    assert id == a.nextId && id !in a.objects;
    assert b.objects[i].comment == Marked(key) && b.objects[id].comment == Marked(key);
  }

  // The process stopped after a create had taken effect and before any row was written.
  predicate StoppedAtCreate(a: State, b: State) {
    b.rows == a.rows && b.nextId != a.nextId
  }

  lemma StoppedTwice(a: State, b: State, c: State, key: Key, hash: Spec)
    requires CreatesAtMost(a, b, key, hash) && StoppedAtCreate(a, b)
    requires CreatesAtMost(b, c, key, hash) && StoppedAtCreate(b, c)
    ensures !OneLive(c)
  {
    assert c.objects[a.nextId].comment == Marked(key) && c.objects[b.nextId].comment == Marked(key);
  }

  lemma FreshIds(s: State, key: Key)
    requires Fresh(s)
    ensures NO_ID !in s.objects
  {
  }

  lemma BesideOther(a: State, b: State, key: Key, k: Key)
    requires Beside(a, b, key) && k != key && k in a.rows
    ensures k in b.rows && b.rows[k] == a.rows[k]
  {
  }

  // ---- Facts about cleaning up ----

  function KindRank(k: Key): nat {
    match k
    case TaskKey(_, _) => 1
    case TargetKey(_, _) => 2
    case ScheduleKey => 3
  }

  // Alphabetical position of the class text.
  function ClassRank(k: Key): nat {
    match k
    case ScheduleKey => 0
    case TargetKey(c, _) => if c == PrivateIP then 1 else 2
    case TaskKey(c, _) => if c == PrivateIP then 1 else 2
  }

  // Tasks, then targets, then the schedule; by class; highest sequence first.
  predicate DeletesBefore(a: Key, b: Key) {
    || KindRank(a) < KindRank(b)
    || (KindRank(a) == KindRank(b) && ClassRank(a) < ClassRank(b))
    || (KindRank(a) == KindRank(b) && ClassRank(a) == ClassRank(b) && a.Number() > b.Number())
  }

  ghost function AsSet(ks: seq<Key>): set<Key> {
    set k | k in ks
  }

  ghost predicate DeletionOrdered(ks: seq<Key>) {
    forall i, j :: 0 <= i < j < |ks| ==> DeletesBefore(ks[i], ks[j])
  }

  function InsertKey(k: Key, ks: seq<Key>): seq<Key> {
    if ks == [] || DeletesBefore(k, ks[0]) then [k] + ks else [ks[0]] + InsertKey(k, ks[1..])
  }

  lemma {:induction false} InsertKeyLaws(k: Key, ks: seq<Key>)
    requires DeletionOrdered(ks) && k !in ks
    ensures forall x :: x in InsertKey(k, ks) <==> x == k || x in ks
    ensures DeletionOrdered(InsertKey(k, ks))
  {
    if ks != [] {
      InsertKeyLaws(k, ks[1..]);
      assert ks == [ks[0]] + ks[1..];
      if !DeletesBefore(k, ks[0]) {
        assert DeletesBefore(ks[0], k) by { SameOrderSame(k, ks[0]); }
        var rest := InsertKey(k, ks[1..]);
        forall i | 0 <= i < |rest| ensures DeletesBefore(ks[0], rest[i]) {
          assert rest[i] in rest;
        }
      }
    }
  }

  // No key twice; tasks before targets and the schedule last; of one kind private targets before public ones, and of
  // one class the highest number first.
  ghost predicate DependentsFirst(ks: seq<Key>) {
    forall i, j :: 0 <= i < j < |ks| ==>
      && ks[i] != ks[j] && ks[i] != ScheduleKey && (ks[j].TaskKey? ==> ks[i].TaskKey?)
      && (ks[j] != ScheduleKey && ks[i].TaskKey? == ks[j].TaskKey? ==>
            if ks[i].cls == ks[j].cls then ks[i].sequence > ks[j].sequence else ks[i].cls == PrivateIP)
  }

  lemma OrderMeans(ks: seq<Key>)
    requires DeletionOrdered(ks)
    ensures DependentsFirst(ks)
  {
    forall i, j | 0 <= i < j < |ks|
      ensures ks[i] != ks[j] && ks[i] != ScheduleKey && (ks[j].TaskKey? ==> ks[i].TaskKey?)
      ensures ks[j] != ScheduleKey && ks[i].TaskKey? == ks[j].TaskKey? ==>
                if ks[i].cls == ks[j].cls then ks[i].sequence > ks[j].sequence else ks[i].cls == PrivateIP
    {
      assert DeletesBefore(ks[i], ks[j]);
    }
  }

  lemma SameOrderSame(a: Key, b: Key)
    requires a != b
    ensures DeletesBefore(a, b) || DeletesBefore(b, a)
  {
  }

  // Every task row that depends on a listed key is listed too.
  ghost predicate TasksIncluded(s: State, ordered: seq<Key>) {
    && (forall k :: k in ordered && k.TargetKey? && TaskKey(k.cls, k.sequence) in s.rows ==> TaskKey(k.cls, k.sequence) in ordered)
    && (ScheduleKey in ordered ==> forall k :: k in s.rows && k.TaskKey? ==> k in ordered)
  }

  // Rows and objects of keys outside the list, and unmarked objects, are untouched.
  ghost predicate KeptOutside(a: State, b: State, ks: seq<Key>) {
    && (forall k :: k !in ks ==> (k in a.rows <==> k in b.rows) && (k in a.rows ==> a.rows[k] == b.rows[k]))
    && (forall i :: (i in a.objects && !InList(a.objects[i], ks)) || (i in b.objects && !InList(b.objects[i], ks)) ==>
          i in a.objects && i in b.objects && a.objects[i] == b.objects[i])
  }

  ghost predicate InList(o: Object, ks: seq<Key>) {
    o.comment.Marked? && o.comment.key in ks
  }

  lemma KeptReflexive(s: State, ks: seq<Key>)
    ensures KeptOutside(s, s, ks) && Safe(s, s)
  {
  }

  lemma KeptStep(a: State, b: State, c: State, d: Desired, u: set<Key>, ks: seq<Key>, key: Key)
    requires Safe(a, b) && KeptOutside(a, b, ks) && Stepped(b, c, d, u, key) && key in ks && DeadSame(a, b, d)
    ensures Safe(a, c) && KeptOutside(a, c, ks) && Inv(c, d, u) && DeadSame(a, c, d)
  {
    hide Inv, Safe, DeadSame;
    DeadTransitive(a, b, c, d);
    SafeTransitive(a, b, c);
    assert forall i :: i in b.objects && !InList(b.objects[i], ks) ==> b.objects[i].comment != Marked(key);
    assert forall i :: i in c.objects && !InList(c.objects[i], ks) ==> c.objects[i].comment != Marked(key);
  }

  lemma NoLiveStays(a: State, b: State, key: Key, k: Key)
    requires OthersKept(a, b, key) && k != key && NoLive(a, k)
    ensures NoLive(b, k)
  {
  }

  lemma NextIsDeletable(start: State, s: State, d: Desired, u: set<Key>, ordered: seq<Key>, i: nat)
    requires i < |ordered| && Inv(s, d, u) && s.rows == start.rows - AsSet(ordered[..i])
    requires DeletionOrdered(ordered) && TasksIncluded(start, ordered)
    requires ordered[i] in start.rows && !IsDesired(d, ordered[i])
    ensures ordered[i] in s.rows && Deletable(s, d, u, ordered[i], start.rows[ordered[i]])
    ensures s.rows[ordered[i]] == start.rows[ordered[i]]
  {
    hide ClashFree, Tied, IsDesired, NoDangling, AppliedTrue;
    var key := ordered[i];
    assert forall j :: 0 <= j < i ==> DeletesBefore(ordered[j], ordered[i]);
    assert key !in ordered[..i];
    assert forall j :: i < j < |ordered| ==> DeletesBefore(ordered[i], ordered[j]);
    forall k | k in ordered && k.TaskKey? && !key.TaskKey? ensures k in ordered[..i] {
      var j :| 0 <= j < |ordered| && ordered[j] == k;
      assert j < i;
    }
  }

  lemma SurplusIncludesTasks(s: State, d: Desired, u: set<Key>, ordered: seq<Key>)
    requires Inv(s, d, u) && d.Active?
    requires forall k :: k in ordered <==> k in s.rows && !IsDesired(d, k)
    ensures TasksIncluded(s, ordered)
  {
    hide Inv;
  }

  lemma SettledOutside(a: State, b: State, d: Desired, ks: seq<Key>, k: Key)
    requires IsDesired(d, k) && Settled(a, d, k) && KeptOutside(a, b, ks)
    requires forall x :: x in ks ==> !IsDesired(d, x)
    ensures Settled(b, d, k)
  {
  }

  // ---- Facts about whole runs ----

  ghost predicate Distinct(slots: seq<Slot>) {
    forall i, j :: 0 <= i < j < |slots| ==> slots[i] != slots[j]
  }

  ghost predicate SlotsSettled(s: State, d: Desired, n: nat)
    requires d.Active? && n <= |d.slots|
  {
    forall j :: 0 <= j < n ==> Settled(s, d, TargetOf(d.slots[j])) && Settled(s, d, TaskOf(d.slots[j]))
  }

  lemma SafeReflexive(s: State)
    ensures Safe(s, s)
  {
  }

  lemma SafeCounts(a: State, b: State)
    requires Safe(a, b)
    ensures a.faults <= b.faults
  {
  }

  lemma InvOneLive(s: State, d: Desired, u: set<Key>)
    requires Inv(s, d, u)
    ensures OneLive(s)
  {
  }

  lemma SettledHasRow(s: State, d: Desired, k: Key)
    requires Settled(s, d, k)
    ensures HasId(s.rows, k) && UpToDate(d, s.rows, k)
  {
  }

  lemma WantsOfSchedule(s: State, d: Desired)
    requires d.Active?
    ensures Wants(d, s.rows, ScheduleKey, ScheduleSpec(d.schedule))
  {
  }

  lemma WantsOfSlot(s: State, d: Desired, slot: Slot)
    requires d.Active? && slot in d.slots
    ensures Wants(d, s.rows, TargetOf(slot), TargetSpec(Lookup(d.targetText, slot)))
  {
  }

  lemma NoSlotsYet(s: State, d: Desired)
    requires d.Active?
    ensures SlotsSettled(s, d, 0)
  {
  }

  // Releasing the slot's task leaves the schedule and the earlier slots settled.
  lemma ReleasedSlot(a: State, b: State, d: Desired, u: set<Key>, i: nat, scheduleId: Id)
    requires d.Active? && Distinct(d.slots) && i < |d.slots| && Stepped(a, b, d, u, TaskOf(d.slots[i]))
    requires Settled(a, d, ScheduleKey) && scheduleId == a.rows[ScheduleKey].gvmId && SlotsSettled(a, d, i)
    ensures Settled(b, d, ScheduleKey) && ScheduleKey in b.rows && scheduleId == b.rows[ScheduleKey].gvmId
    ensures SlotsSettled(b, d, i)
    ensures Wants(d, b.rows, TargetOf(d.slots[i]), TargetSpec(Lookup(d.targetText, d.slots[i])))
  {
    hide Inv, Safe, Settled;
    var slot := d.slots[i];
    SettledHasRow(a, d, ScheduleKey);
    SettledStays(a, b, d, ScheduleKey, TaskOf(slot));
    SettledHasRow(b, d, ScheduleKey);
    forall j | 0 <= j < i ensures Settled(b, d, TargetOf(d.slots[j])) && Settled(b, d, TaskOf(d.slots[j])) {
      SettledStays(a, b, d, TargetOf(d.slots[j]), TaskOf(slot));
      SettledStays(a, b, d, TaskOf(d.slots[j]), TaskOf(slot));
    }
  }

  lemma AppliedSlot(a: State, b: State, d: Desired, u: set<Key>, i: nat, scheduleId: Id)
    requires d.Active? && Distinct(d.slots) && i < |d.slots| && Stepped(a, b, d, u, TargetOf(d.slots[i]))
    requires Settled(a, d, ScheduleKey) && scheduleId == a.rows[ScheduleKey].gvmId && SlotsSettled(a, d, i)
    requires Settled(b, d, TargetOf(d.slots[i]))
    ensures Settled(b, d, ScheduleKey) && ScheduleKey in b.rows && scheduleId == b.rows[ScheduleKey].gvmId
    ensures SlotsSettled(b, d, i)
    ensures !NeedsRelease(d, b.rows, TaskOf(d.slots[i]))
    ensures Wants(d, b.rows, TaskOf(d.slots[i]),
              TaskSpec(Lookup(d.taskText, d.slots[i]), b.rows[TargetOf(d.slots[i])].gvmId, scheduleId))
  {
    hide Inv, Safe, Settled;
    var slot := d.slots[i];
    SettledHasRow(a, d, ScheduleKey);
    SettledStays(a, b, d, ScheduleKey, TargetOf(slot));
    SettledHasRow(b, d, ScheduleKey);
    SettledHasRow(b, d, TargetOf(slot));
    forall j | 0 <= j < i ensures Settled(b, d, TargetOf(d.slots[j])) && Settled(b, d, TaskOf(d.slots[j])) {
      SettledStays(a, b, d, TargetOf(d.slots[j]), TargetOf(slot));
      SettledStays(a, b, d, TaskOf(d.slots[j]), TargetOf(slot));
    }
  }

  lemma FinishedSlot(a: State, b: State, d: Desired, u: set<Key>, i: nat)
    requires d.Active? && Distinct(d.slots) && i < |d.slots| && Stepped(a, b, d, u, TaskOf(d.slots[i]))
    requires Settled(a, d, ScheduleKey) && SlotsSettled(a, d, i) && Settled(a, d, TargetOf(d.slots[i]))
    requires Settled(b, d, TaskOf(d.slots[i]))
    ensures Settled(b, d, ScheduleKey) && ScheduleKey in b.rows && b.rows[ScheduleKey] == a.rows[ScheduleKey]
    ensures SlotsSettled(b, d, i + 1)
  {
    hide Inv, Safe, Settled;
    var slot := d.slots[i];
    SettledHasRow(a, d, ScheduleKey);
    SettledStays(a, b, d, ScheduleKey, TaskOf(slot));
    SettledHasRow(b, d, ScheduleKey);
    SettledStays(a, b, d, TargetOf(slot), TaskOf(slot));
    forall j | 0 <= j < i ensures Settled(b, d, TargetOf(d.slots[j])) && Settled(b, d, TaskOf(d.slots[j])) {
      SettledStays(a, b, d, TargetOf(d.slots[j]), TaskOf(slot));
      SettledStays(a, b, d, TaskOf(d.slots[j]), TaskOf(slot));
    }
  }

  lemma ConvergedSlots(s: State, d: Desired)
    requires d.Active? && Converged(s, d)
    ensures Settled(s, d, ScheduleKey) && UpToDate(d, s.rows, ScheduleKey)
    ensures SlotsSettled(s, d, |d.slots|)
  {
    hide Settled;
    assert ScheduleKey in DesiredKeys(d);
    SettledHasRow(s, d, ScheduleKey);
    forall j | 0 <= j < |d.slots| ensures Settled(s, d, TargetOf(d.slots[j])) && Settled(s, d, TaskOf(d.slots[j])) {
      assert TargetOf(d.slots[j]) in DesiredKeys(d) && TaskOf(d.slots[j]) in DesiredKeys(d);
    }
  }

  lemma DesiredKeysAre(d: Desired, k: Key)
    ensures k in DesiredKeys(d) <==> IsDesired(d, k)
  {
    if IsDesired(d, k) && k != ScheduleKey {
      var slot := Slot(k.cls, k.sequence);
      assert slot in d.slots;
      assert k == TargetOf(slot) || k == TaskOf(slot);
    }
  }

  lemma ConvergedRowsDesired(s: State, d: Desired)
    requires Converged(s, d)
    ensures forall k :: k in s.rows ==> IsDesired(d, k)
  {
    forall k | k in s.rows ensures IsDesired(d, k) { DesiredKeysAre(d, k); }
  }

  // After the loop and the cleanup, exactly the desired keys are left, all settled.
  lemma AllSettled(a: State, b: State, d: Desired)
    requires d.Active? && Settled(a, d, ScheduleKey) && SlotsSettled(a, d, |d.slots|)
    requires b.rows == map k | k in a.rows && IsDesired(d, k) :: a.rows[k]
    requires forall k :: IsDesired(d, k) && Settled(a, d, k) ==> Settled(b, d, k)
    ensures Converged(b, d)
  {
    hide Settled;
    forall k | IsDesired(d, k) ensures Settled(b, d, k) && k in b.rows {
      if k != ScheduleKey {
        var j :| 0 <= j < |d.slots| && d.slots[j] == Slot(k.cls, k.sequence);
        assert k == TargetOf(d.slots[j]) || k == TaskOf(d.slots[j]);
        assert Settled(a, d, TargetOf(d.slots[j])) && Settled(a, d, TaskOf(d.slots[j]));
      }
      SettledHasRow(b, d, k);
    }
    assert b.rows.Keys == DesiredKeys(d) by {
      forall k ensures k in b.rows <==> k in DesiredKeys(d) { DesiredKeysAre(d, k); }
    }
  }

  lemma EverythingIncluded(s: State, ordered: seq<Key>)
    requires forall k :: k in ordered <==> k in s.rows
    ensures TasksIncluded(s, ordered)
  {
  }

  lemma NothingManaged(s: State, u: set<Key>)
    requires Inv(s, Removed, u) && s.rows == map[]
    ensures forall i :: i in s.objects ==> s.objects[i].comment == Unmarked
  {
  }
}
