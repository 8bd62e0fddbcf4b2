/** The invariant of UpdaterRuns holds in every run: each step keeps the records, the goroutines, the
    rollback logs and the pause. */
module UpdaterInvariant {
  import opened Options
  import opened UpdaterState
  import opened UpdaterCode
  import opened UpdaterRuns

  lemma StartInv()
    ensures Inv(START)
  {
  }

  // ---- Frames ----

  lemma SameRecords(w: World, next: World)
    requires Records(w)
    requires next.mem == w.mem && next.disk == w.disk && next.ended == w.ended && next.endedOnDisk == w.endedOnDisk
    requires next.used == w.used && next.begun == w.begun
    ensures Records(next)
  {
    hide Sound, Ledger, KeysKept, KeysTold, Suffix;
  }

  lemma SameLogs(w: World, next: World)
    requires Logs(w)
    requires next.mem == w.mem && next.disk == w.disk && next.ended == w.ended && next.endedOnDisk == w.endedOnDisk
    requires next.captured == w.captured && next.armed == w.armed && next.exposed == w.exposed && w.verified <= next.verified && next.rollbacks == w.rollbacks && next.used == w.used
    ensures Logs(next)
  {
    hide Called, EndedBy, Carries, Dangerous;
    forall x ensures ExposedTold(next, next.mem, next.ended, x) && ExposedTold(next, next.disk, next.endedOnDisk, x) {
      assert ExposedTold(w, w.mem, w.ended, x) && ExposedTold(w, w.disk, w.endedOnDisk, x);
    }
    forall i | 0 <= i < |next.ended| ensures RollbackTold(next, next.ended[i]) && SuccessTold(next, next.ended[i]) {
      assert RollbackTold(w, w.ended[i]) && SuccessTold(w, w.ended[i]);
    }
  }

  // Where the goroutine of the running operation is the only one to change, the others stay as they were.
  lemma OneThread(w: World, next: World, id: nat)
    requires Threads(w) && id in w.threads && BusyWith(w.mem, id) && BusyWith(next.mem, id)
    requires next.ended == w.ended && next.used == w.used
    requires id in next.threads && next.threads == w.threads[id := next.threads[id]] && ThreadOk(next, id)
    ensures Threads(next)
  {
    hide LiveOk, StageOf;
    forall x ensures ThreadOk(next, x) {
      assert ThreadOk(w, x);
    }
  }

  // ---- Saving, acknowledging ----

  lemma StoreKeeps(w: World)
    requires Inv(w)
    ensures Inv(Stored(w))
  {
    var next := Stored(w);
    assert Records(next);
    assert Threads(next) by {
      hide Records, Logs, Guard;
      forall id ensures ThreadOk(next, id) {
        assert ThreadOk(w, id);
      }
    }
    assert Logs(next) by {
      hide Records, Threads, Guard;
      assert forall id :: ExposedTold(next, next.mem, next.ended, id) <== ExposedTold(w, w.mem, w.ended, id);
    }
    assert Guard(next) by {
      forall id ensures OwesOk(next, id) {
        assert OwesOk(w, id);
      }
    }
  }

  lemma AcknowledgeKeeps(w: World)
    requires Inv(w)
    ensures Inv(After(w, Acknowledge))
  {
    var next := After(w, Acknowledge);
    assert Records(next) by {
      hide Threads, Logs, Guard, Suffix;
    }
    assert Guard(next) by {
      hide Records, Threads, Logs;
    }
    AcknowledgeThreads(w);
    hide Records, Threads, Guard;
    forall id ensures ExposedTold(next, next.mem, next.ended, id) && ExposedTold(next, next.disk, next.endedOnDisk, id) {
      assert ExposedTold(w, w.mem, w.ended, id) && ExposedTold(w, w.disk, w.endedOnDisk, id);
    }
  }

  lemma AcknowledgeThread(w: World, id: nat)
    requires ThreadOk(w, id)
    ensures ThreadOk(After(w, Acknowledge), id)
  {
    hide StageOf, Restoring, KnowsBefore, Early, StackOnly, FeedOnly, PastCheckpoint, Called, Over;
  }

  lemma AcknowledgeThreads(w: World)
    requires Threads(w)
    ensures Threads(After(w, Acknowledge))
  {
    forall id ensures ThreadOk(After(w, Acknowledge), id) {
      AcknowledgeThread(w, id);
    }
  }

  // ---- Crashes ----

  lemma CrashThreads(w: World)
    requires Sound(w.disk, w.used) && DangerTold(w, w.disk)
    ensures Threads(Restarted(w))
  {
    hide Restoring, KnowsBefore, Early, StackOnly, FeedOnly, PastCheckpoint;
    var next := Restarted(w);
    if Busy(w.disk) {
      var id := w.disk.active.value.id;
      assert id in w.used;
      assert Knows(next, id, next.threads[id]) by {
        RecovererKnows(next.threads[id].pc);
      }
      assert LiveOk(next, id, next.threads[id]);
    }
  }

  lemma RecovererKnows(pc: Pc)
    requires pc == At(RecoverRoll) || pc == At(GiveUp)
    ensures !KnowsBefore(pc) && !PastCheckpoint(pc) && !StackOnly(pc) && !FeedOnly(pc) && !Early(pc) && !Restoring(pc)
    ensures !Settling(pc)
  {
  }

  lemma CrashLogs(w: World)
    requires Records(w) && Logs(w)
    ensures Logs(Restarted(w))
  {
    var next := Restarted(w);
    forall id ensures ExposedTold(next, next.mem, next.ended, id) {
      assert ExposedTold(w, w.disk, w.endedOnDisk, id);
    }
    assert forall i :: 0 <= i < |next.ended| ==> next.ended[i] == w.ended[|w.ended| - |next.ended| + i];
    forall i | 0 <= i < |next.ended| ensures RollbackTold(next, next.ended[i]) && SuccessTold(next, next.ended[i]) {
      assert RollbackTold(w, w.ended[|w.ended| - |next.ended| + i]) && SuccessTold(w, w.ended[|w.ended| - |next.ended| + i]);
    }
  }

  lemma PausingInDanger(w: World)
    requires Threads(w) && LivePausing(w)
    ensures BusyWith(w.disk, w.mem.active.value.id) && Dangerous(w.disk)
  {
    assert ThreadOk(w, w.mem.active.value.id);
  }

  lemma CrashGuard(w: World)
    requires Threads(w) && Guard(w)
    ensures Guard(Restarted(w))
  {
    var next := Restarted(w);
    if LivePausing(w) {
      PausingInDanger(w);
    }
    hide Threads;
    assert Busy(w.disk) ==> next.threads.Keys == {w.disk.active.value.id};
    forall id ensures OwesOk(next, id) {
      assert OwesOk(w, id);
    }
  }

  lemma CrashKeeps(w: World)
    requires Inv(w)
    ensures Inv(Restarted(w))
  {
    CrashThreads(w);
    CrashLogs(w);
    CrashGuard(w);
    assert Records(Restarted(w)) by {
      hide Threads, Logs, Guard;
    }
  }

  // ---- Requests ----

  lemma SubmitRecords(w: World, kind: Kind, origin: Origin, key: string, id: nat)
    requires Records(w) && Possible(w, Submit(kind, origin, key, id))
    ensures Records(Submitted(w, kind, origin, key, id))
  {
    var next := Submitted(w, kind, origin, key, id);
    AdmitSound(w.mem, w.used, Operation(id, kind, origin, Queued, Fresh, [], []), key);
    SubmitKeys(w, kind, origin, key, id);
    assert Sound(next.disk, next.used) && Ledger(next.mem, next.ended) by {
      hide KeysKept, KeysTold, Trimmed;
    }
    hide KeysTold, KeysKept, Admitted, Sound, Ledger;
  }

  lemma SubmitKeys(w: World, kind: Kind, origin: Origin, key: string, id: nat)
    requires Records(w) && Possible(w, Submit(kind, origin, key, id))
    ensures var mem := Submitted(w, kind, origin, key, id).mem; KeysTold(mem, w.ended) && KeysKept(mem, w.begun)
  {
    hide Suffix;
    var mem := Submitted(w, kind, origin, key, id).mem;
    assert KeysTold(mem, w.ended) by {
      hide KeysKept, InHistory;
    }
    hide Ledger, Sound, KeysTold;
    forall x | x in w.begun && (IsActive(mem, x) || InHistory(mem, x)) ensures w.begun[x] in mem.keys && mem.keys[w.begun[x]] == x {
      assert x != id && InHistory(w.mem, x);
    }
  }

  lemma SubmitThreads(w: World, kind: Kind, origin: Origin, key: string, id: nat)
    requires Records(w) && Threads(w) && Logs(w) && Possible(w, Submit(kind, origin, key, id))
    ensures Threads(Submitted(w, kind, origin, key, id))
  {
    var next := Submitted(w, kind, origin, key, id);
    AdmitSound(w.mem, w.used, Operation(id, kind, origin, Queued, Fresh, [], []), key);
    assert id !in w.armed && id !in w.begun && !BusyWith(w.disk, id);
    hide Records, Logs, Trimmed, Sound;
    forall x ensures ThreadOk(next, x) {
      assert ThreadOk(w, x);
    }
  }

  lemma SubmitKeeps(w: World, kind: Kind, origin: Origin, key: string, id: nat)
    requires Inv(w) && Possible(w, Submit(kind, origin, key, id))
    ensures Inv(Submitted(w, kind, origin, key, id))
  {
    var next := Submitted(w, kind, origin, key, id);
    SubmitRecords(w, kind, origin, key, id);
    SubmitThreads(w, kind, origin, key, id);
    hide Records, Trimmed;
    assert Logs(next) by {
      hide Threads, Guard;
      forall x ensures ExposedTold(next, next.mem, next.ended, x) && ExposedTold(next, next.disk, next.endedOnDisk, x) {
        assert ExposedTold(w, w.mem, w.ended, x) && ExposedTold(w, w.disk, w.endedOnDisk, x);
      }
      forall i | 0 <= i < |next.ended| ensures RollbackTold(next, next.ended[i]) && SuccessTold(next, next.ended[i]) {
        assert RollbackTold(w, w.ended[i]) && SuccessTold(w, w.ended[i]);
      }
    }
    assert Guard(next) by {
      hide Threads, Logs;
      forall x ensures OwesOk(next, x) {
        assert OwesOk(w, x);
      }
    }
  }

  // An operation whose first save fails is forgotten.
  lemma TakeBackRecords(w: World, id: nat)
    requires Records(w) && Threads(w) && id in w.threads && w.threads[id].pc.Submitting?
    ensures BusyWith(w.mem, id) && !Dangerous(w.mem) && Records(Failing(w, id))
  {
    assert ThreadOk(w, id);
    var key := w.threads[id].pc.key;
    assert BusyWith(w.mem, id) && w.mem.keys[key] == id && id !in w.begun;
    hide Threads, Suffix;
  }

  lemma TakeBackKeeps(w: World, id: nat)
    requires Inv(w) && id in w.threads && w.threads[id].pc.Submitting?
    ensures Inv(Failing(w, id))
  {
    var next := Failing(w, id);
    TakeBackRecords(w, id);
    hide Records;
    assert Threads(next) by {
      hide Logs, Guard;
      forall x ensures ThreadOk(next, x) {
        assert ThreadOk(w, x);
      }
    }
    assert Logs(next) by {
      hide Threads, Guard;
      forall x ensures ExposedTold(next, next.mem, next.ended, x) && ExposedTold(next, next.disk, next.endedOnDisk, x) {
        assert ExposedTold(w, w.mem, w.ended, x) && ExposedTold(w, w.disk, w.endedOnDisk, x);
      }
    }
    hide Logs;
    assert !Pausing(w.threads[id].pc) && !Owing(w.threads[id].pc) by {
      assert w.threads[id].pc.Submitting?;
    }
    assert id !in w.owed by {
      assert OwesOk(w, id);
    }
    hide Threads;
    forall x ensures OwesOk(next, x) {
      assert OwesOk(w, x);
    }
  }

  // ---- A goroutine goes on ----

  // The same record and logs, one goroutine at another place.
  lemma MoveKeeps(w: World, id: nat, pc: Pc)
    requires Records(w) && Threads(w) && Logs(w) && id in w.threads
    requires ThreadOk(Moved(w, id, pc), id)
    ensures Records(Moved(w, id, pc)) && Threads(Moved(w, id, pc)) && Logs(Moved(w, id, pc))
  {
    var next := Moved(w, id, pc);
    SameRecords(w, next);
    SameLogs(w, next);
    hide Records, Logs, StageOf;
    forall x ensures ThreadOk(next, x) {
      assert ThreadOk(w, x);
    }
  }

  lemma CheckpointKnown(w: World, id: nat)
    requires ThreadOk(w, id) && id in w.threads && w.threads[id].pc == Saving(KeepBackup)
    ensures id in w.used && BusyWith(w.mem, id) && BusyWith(w.disk, id) && !Dangerous(w.mem) && !Dangerous(w.disk) && id !in w.armed
    ensures w.threads[id].kind == Stack && w.mem.active.value.kind == Stack
    ensures w.mem.active.value.before == w.threads[id].before && w.mem.backupPath == w.threads[id].backup
  {
  }

  lemma FailThread(w: World, id: nat)
    requires ThreadOk(w, id) && id in w.threads && w.threads[id].pc == Saving(KeepBackup)
    ensures ThreadOk(Moved(w, id, At(Fail)), id)
  {
    CheckpointKnown(w, id);
    hide Dangerous;
  }

  lemma FailKeeps(w: World, id: nat)
    requires Inv(w) && id in w.threads && w.threads[id].pc == Saving(KeepBackup)
    ensures Inv(Failing(w, id))
  {
    var next := Moved(w, id, At(Fail));
    assert ThreadOk(w, id);
    FailThread(w, id);
    MoveKeeps(w, id, At(Fail));
    hide Records, Threads, Logs;
    forall x ensures OwesOk(next, x) {
      assert OwesOk(w, x);
    }
  }

  // A call into the runtime is made only in danger.
  lemma CallInDanger(w: World, id: nat, pc: Pc)
    requires ThreadOk(w, id) && Possible(w, Return(id, pc))
    ensures id in w.used && BusyWith(w.mem, id) && Dangerous(w.mem) && BusyWith(w.disk, id) && Dangerous(w.disk)
    ensures ThreadOk(Moved(Approved(w, id, pc), id, pc), id)
  {
    ReturnAlike(w.threads[id].pc, pc, w.threads[id].kind);
    hide StageOf, KnowsBefore, PastCheckpoint, Early, Restoring, StackOnly, FeedOnly, Leads;
  }

  lemma ReturnAlike(pc: Pc, next: Pc, kind: Kind)
    requires (pc.InApply? || pc.InVerify? || pc.InRestore?) && Leads(kind, pc, next)
    ensures StageOf(pc) == Danger && StageOf(next) == Danger && next.At?
    ensures !KnowsBefore(next) && !PastCheckpoint(next) && !StackOnly(next) && !FeedOnly(next) && !Early(next)
    ensures Restoring(next) ==> Restoring(pc)
    ensures Settling(next) ==> pc == InVerify && next == At(CleanUpApplied)
  {
  }

  lemma ReturnGuard(w: World, id: nat, pc: Pc)
    requires Guard(w) && Possible(w, Return(id, pc))
    requires id in w.used && BusyWith(w.mem, id) && Dangerous(w.mem) && BusyWith(w.disk, id) && Dangerous(w.disk)
    ensures Guard(Returned(w, id, pc))
  {
    var next := Returned(w, id, pc);
    forall x ensures OwesOk(next, x) {
      assert OwesOk(w, x);
    }
  }

  lemma ReturnKeeps(w: World, id: nat, pc: Pc)
    requires Inv(w) && Possible(w, Return(id, pc))
    ensures Inv(Returned(w, id, pc))
  {
    var seen := Approved(w, id, pc);
    var moved := Moved(seen, id, pc);
    var next := Returned(w, id, pc);
    assert ThreadOk(w, id);
    CallInDanger(w, id, pc);
    ReturnGuard(w, id, pc);
    hide Guard, Leads, Dangerous;
    ApprovedKeeps(w, id, pc);
    MoveKeeps(seen, id, pc);
    SameRecords(moved, next);
    SameLogs(moved, next);
    hide Records, Logs, LiveOk, TailOk;
    forall x ensures ThreadOk(next, x) {
      assert ThreadOk(moved, x);
      SameThread(moved, next, x);
    }
  }

  lemma ApprovedKeeps(w: World, id: nat, pc: Pc)
    requires Records(w) && Threads(w) && Logs(w) && id in w.threads
    ensures var seen := Approved(w, id, pc); Records(seen) && Threads(seen) && Logs(seen)
  {
    var seen := Approved(w, id, pc);
    SameRecords(w, seen);
    SameLogs(w, seen);
    hide Records, Logs, LiveOk, TailOk;
    forall x ensures ThreadOk(seen, x) {
      assert ThreadOk(w, x);
      SameThread(w, seen, x);
    }
  }

  lemma SameThread(w: World, next: World, id: nat)
    requires ThreadOk(w, id) && next == w.(blocked := next.blocked, owed := next.owed, verified := next.verified)
    requires w.verified <= next.verified
    ensures ThreadOk(next, id)
  {
  }

  // Just after a save, disk is memory and no pause that memory holds is owed.
  ghost predicate InStep(w: World) {
    w.disk == w.mem && w.endedOnDisk == w.ended && (w.mem.paused ==> w.owed == {})
  }

  ghost predicate CanPass(w: World, id: nat, pc: Pc) {
    InStep(w) && Possible(w, Save(id, pc))
  }

  // Only a saved pause takes a goroutine out of the places that have yet to pause.
  lemma WaysPausing(kind: Kind, n: Node, next: Pc)
    requires Onward(kind, n, next)
    ensures !next.Saving? && !next.Submitting?
    ensures Pausing(Saving(n)) ==> Pauses(n) || Pausing(next)
    ensures Owing(Saving(n)) ==> Pauses(n) || Owing(next)
  {
  }

  lemma PassOwes(w: World, id: nat, pc: Pc, x: nat)
    requires OwesOk(w, x) && CanPass(w, id, pc)
    requires w.threads[id].pc.Saving? ==> !pc.Saving? && (Owing(w.threads[id].pc) ==> Pauses(w.threads[id].pc.node) || Owing(pc))
    ensures OwesOk(Passed(w, id, pc), x)
  {
    hide Onward, Leads, Pausing, Pauses, Dangerous;
  }

  lemma PassGuard(w: World, id: nat, pc: Pc)
    requires Threads(w) && Guard(w) && CanPass(w, id, pc)
    ensures Guard(Passed(w, id, pc))
  {
    var next := Passed(w, id, pc);
    var th := w.threads[id];
    if th.pc.Saving? {
      WaysPausing(th.kind, th.pc.node, pc);
    }
    forall x ensures OwesOk(next, x) {
      PassOwes(w, id, pc, x);
    }
    hide Threads, OwesOk, Onward, Owing, Pausing, Pauses;
  }

  // What a place shares with the one before it.
  ghost predicate Alike(kind: Kind, pc: Pc, next: Pc) {
    && (next.At? || next.InVerify?)
    && (StageOf(next) == StageOf(pc) || (StageOf(next) == Quiet && StageOf(pc) == Leaving))
    && (kind == Stack && KnowsBefore(next) ==> KnowsBefore(pc)) && (kind == Stack && PastCheckpoint(next) ==> PastCheckpoint(pc))
    && (kind == Stack && Settling(next) ==> Settling(pc) || Early(pc))
    && (kind == Stack && Early(next) ==> Early(pc)) && (Restoring(next) ==> Restoring(pc))
    && (StackOnly(next) ==> kind == Stack) && (FeedOnly(next) ==> kind != Stack)
  }

  lemma WaysAlike(kind: Kind, n: Node, next: Pc)
    requires Onward(kind, n, next) && n != KeepBackup && StageOf(Saving(n)) != Done && !next.InApply? && !next.InRestore?
    requires (StackOnly(Saving(n)) ==> kind == Stack) && (FeedOnly(Saving(n)) ==> kind != Stack)
    ensures Alike(kind, Saving(n), next)
  {
    WaysStage(kind, n, next);
    WaysSettle(kind, n, next);
    hide StageOf, OutcomeOf, Settling;
  }

  lemma WaysSettle(kind: Kind, n: Node, next: Pc)
    requires Onward(kind, n, next) && (FeedOnly(Saving(n)) ==> kind != Stack)
    ensures kind == Stack && Settling(next) && StageOf(Saving(n)) != Done ==> Settling(Saving(n)) || Early(Saving(n))
  {
  }

  lemma WaysStage(kind: Kind, n: Node, next: Pc)
    requires Onward(kind, n, next) && StageOf(Saving(n)) != Done && !next.InApply? && !next.InRestore?
    ensures (next.At? || next.InVerify?) && (StageOf(next) == StageOf(Saving(n)) || (StageOf(next) == Quiet && StageOf(Saving(n)) == Leaving))
  {
  }

  lemma TailPass(kind: Kind, n: Node, next: Pc)
    requires Onward(kind, n, next) && StageOf(Saving(n)) == Done
    ensures StageOf(next) == Done || next == At(Succeed)
  {
  }

  // Where a goroutine only moves on.
  lemma PlainPass(w: World, id: nat, pc: Pc)
    requires Threads(w) && CanPass(w, id, pc)
    requires !w.threads[id].pc.Submitting? && w.threads[id].pc != Saving(KeepBackup) && !pc.InApply? && !pc.InRestore?
    ensures Passed(w, id, pc) == Moved(w, id, pc) && ThreadOk(Moved(w, id, pc), id)
  {
    var th := w.threads[id];
    assert ThreadOk(w, id);
    if BusyWith(w.mem, id) {
      WaysAlike(th.kind, th.pc.node, pc);
      hide StageOf, KnowsBefore, PastCheckpoint, Early, Restoring, StackOnly, FeedOnly, Onward, Leads;
      assert LiveOk(Moved(w, id, pc), id, th.(pc := pc));
    } else {
      TailPass(th.kind, th.pc.node, pc);
    }
  }

  lemma BeginPass(w: World, id: nat, pc: Pc)
    requires Records(w) && Threads(w) && Logs(w) && CanPass(w, id, pc) && w.threads[id].pc.Submitting?
    ensures Records(Passed(w, id, pc)) && Threads(Passed(w, id, pc)) && Logs(Passed(w, id, pc))
  {
    var next := Passed(w, id, pc);
    assert ThreadOk(w, id);
    SameLogs(w, next);
    hide Logs;
    assert Records(next) by {
      hide Threads, Sound, Ledger, Suffix;
    }
    BeginThreads(w, id, pc);
  }

  lemma BeginThreads(w: World, id: nat, pc: Pc)
    requires Threads(w) && CanPass(w, id, pc) && w.threads[id].pc.Submitting?
    ensures Threads(Passed(w, id, pc))
  {
    var next := Passed(w, id, pc);
    assert ThreadOk(w, id);
    assert LiveOk(next, id, next.threads[id]);
    OneThread(w, next, id);
  }

  lemma CheckpointStage(w: World, id: nat, next: World)
    requires ThreadOk(w, id) && id in w.threads && w.threads[id].pc == Saving(KeepBackup)
    requires next == Moved(w, id, At(StagingImages)).(captured := w.captured[id := Own(id, w.threads[id])])
    ensures ThreadOk(next, id)
  {
    CheckpointKnown(w, id);
    hide Dangerous;
  }

  lemma CheckpointThreads(w: World, id: nat, pc: Pc)
    requires Threads(w) && CanPass(w, id, pc) && w.threads[id].pc == Saving(KeepBackup)
    ensures id in w.used && id !in w.armed && Threads(Passed(w, id, pc))
    ensures BusyWith(w.mem, id) && !Dangerous(w.mem)
  {
    var next := Passed(w, id, pc);
    assert ThreadOk(w, id);
    CheckpointKnown(w, id);
    assert pc == At(StagingImages);
    CheckpointStage(w, id, next);
    hide Leads, Onward, LiveOk, Passed;
    OneThread(w, next, id);
  }

  lemma CheckpointPass(w: World, id: nat, pc: Pc)
    requires Records(w) && Threads(w) && Logs(w) && CanPass(w, id, pc) && w.threads[id].pc == Saving(KeepBackup)
    ensures Records(Passed(w, id, pc)) && Threads(Passed(w, id, pc)) && Logs(Passed(w, id, pc))
  {
    var next := Passed(w, id, pc);
    CheckpointThreads(w, id, pc);
    SameRecords(w, next);
    hide Records, Threads, Called, EndedBy, Leads, Onward;
    forall x ensures ExposedTold(next, next.mem, next.ended, x) {
      assert ExposedTold(w, w.mem, w.ended, x);
    }
    forall i | 0 <= i < |next.ended| ensures RollbackTold(next, next.ended[i]) && SuccessTold(next, next.ended[i]) {
      assert RollbackTold(w, w.ended[i]) && SuccessTold(w, w.ended[i]);
    }
  }

  lemma ApplyThreads(w: World, id: nat)
    requires Threads(w) && CanPass(w, id, InApply)
    ensures InHand(w, id, Own(id, w.threads[id])) && Carries(w.mem, Own(id, w.threads[id]))
    ensures Threads(Passed(w, id, InApply))
  {
    var next := Passed(w, id, InApply);
    assert ThreadOk(w, id);
    assert LiveOk(next, id, next.threads[id]);
    OneThread(w, next, id);
  }

  lemma ApplyLogs(w: World, id: nat, own: Checkpointed, next: World)
    requires Logs(w) && InStep(w) && InHand(w, id, own) && Carries(w.mem, own)
    requires next == w.(threads := next.threads, exposed := w.exposed + {id})
    ensures Logs(next)
  {
    hide Called, EndedBy, Dangerous, Carries;
    forall x ensures ExposedTold(next, next.mem, next.ended, x) {
      assert ExposedTold(w, w.mem, w.ended, x);
    }
    forall i | 0 <= i < |next.ended| ensures RollbackTold(next, next.ended[i]) && SuccessTold(next, next.ended[i]) {
      assert RollbackTold(w, w.ended[i]) && SuccessTold(w, w.ended[i]);
    }
    assert DangerTold(w, w.mem);
  }

  lemma ApplyPass(w: World, id: nat)
    requires Records(w) && Threads(w) && Logs(w) && CanPass(w, id, InApply)
    ensures Records(Passed(w, id, InApply)) && Threads(Passed(w, id, InApply)) && Logs(Passed(w, id, InApply))
  {
    var next := Passed(w, id, InApply);
    ApplyThreads(w, id);
    hide Threads, Logs, Records, Leads, Onward, Carries;
    SameRecords(w, next);
    ApplyLogs(w, id, Own(id, w.threads[id]), next);
  }

  lemma RestoreStage(w: World, id: nat, recovering: bool, next: World)
    requires ThreadOk(w, id) && id in w.threads && w.threads[id].pc == Saving(if recovering then RecoverRoll else RollBack)
    requires next == Moved(w, id, InRestore(recovering)).(rollbacks := w.rollbacks + [Own(id, w.threads[id])])
    ensures BusyWith(w.mem, id) && InHand(w, id, Own(id, w.threads[id])) && ThreadOk(next, id)
  {
    MoreCalls(w.rollbacks, Own(id, w.threads[id]));
    hide Called;
  }

  lemma RestoreThreads(w: World, id: nat, recovering: bool)
    requires Threads(w) && CanPass(w, id, InRestore(recovering))
    ensures InHand(w, id, Own(id, w.threads[id])) && Threads(Passed(w, id, InRestore(recovering)))
  {
    var next := Passed(w, id, InRestore(recovering));
    assert ThreadOk(w, id);
    RestoreStage(w, id, recovering, next);
    hide LiveOk, Passed;
    OneThread(w, next, id);
  }

  lemma RestorePass(w: World, id: nat, recovering: bool)
    requires Records(w) && Threads(w) && Logs(w) && CanPass(w, id, InRestore(recovering))
    ensures Records(Passed(w, id, InRestore(recovering))) && Threads(Passed(w, id, InRestore(recovering))) && Logs(Passed(w, id, InRestore(recovering)))
  {
    var next := Passed(w, id, InRestore(recovering));
    RestoreThreads(w, id, recovering);
    MoreCalls(w.rollbacks, Own(id, w.threads[id]));
    SameRecords(w, next);
    hide Records, Threads, Called, EndedBy, Leads, Onward, Dangerous, Carries;
    forall x ensures ExposedTold(next, next.mem, next.ended, x) {
      assert ExposedTold(w, w.mem, w.ended, x);
    }
    forall i | 0 <= i < |next.ended| ensures RollbackTold(next, next.ended[i]) && SuccessTold(next, next.ended[i]) {
      assert RollbackTold(w, w.ended[i]) && SuccessTold(w, w.ended[i]);
    }
  }

  lemma MoreCalls(rollbacks: seq<Checkpointed>, e: Checkpointed)
    ensures Called(rollbacks + [e], e)
    ensures forall c :: Called(rollbacks, c) ==> Called(rollbacks + [e], c)
  {
    assert (rollbacks + [e])[|rollbacks|] == e;
    forall c | Called(rollbacks, c) ensures Called(rollbacks + [e], c) {
      var i :| 0 <= i < |rollbacks| && rollbacks[i] == c;
      assert (rollbacks + [e])[i] == c;
    }
  }

  lemma PassKeeps(w: World, id: nat, pc: Pc)
    requires Inv(w) && CanPass(w, id, pc)
    ensures Inv(Passed(w, id, pc))
  {
    PassGuard(w, id, pc);
    hide Records, Threads, Logs, Guard;
    if w.threads[id].pc.Submitting? {
      BeginPass(w, id, pc);
    } else if w.threads[id].pc == Saving(KeepBackup) {
      CheckpointPass(w, id, pc);
    } else if pc.InApply? {
      ApplyPass(w, id);
    } else if pc.InRestore? {
      RestorePass(w, id, pc.recovering);
    } else {
      PlainPass(w, id, pc);
      MoveKeeps(w, id, pc);
    }
  }

  // ---- A critical section ----

  // A goroutine whose operation is over finds nothing to finish.
  lemma VainKeeps(w: World, id: nat)
    requires Inv(w) && id in w.threads && w.threads[id].pc.At? && OutcomeOf(w.threads[id].pc.node).Some? && !BusyWith(w.mem, id)
    ensures Inv(Moved(w, id, Gone))
  {
    var next := Moved(w, id, Gone);
    assert ThreadOk(w, id);
    MoveKeeps(w, id, Gone);
    hide Records, Threads, Logs;
    forall x ensures OwesOk(next, x) {
      assert OwesOk(w, x);
    }
  }

  predicate CanFinish(w: World, id: nat) {
    id in w.threads && w.threads[id].pc.At? && OutcomeOf(w.threads[id].pc.node).Some? && BusyWith(w.mem, id)
  }

  function Ended(w: World, id: nat): World
    requires CanFinish(w, id)
  {
    Acted(w, id, [], "")
  }

  lemma MoreEnded(op: Operation, ended: seq<Operation>)
    ensures Over([op] + ended, op.id)
    ensures forall id :: Over(ended, id) ==> Over([op] + ended, id)
  {
    assert ([op] + ended)[0] == op;
    forall id | Over(ended, id) ensures Over([op] + ended, id) {
      var i :| 0 <= i < |ended| && ended[i].id == id;
      assert ([op] + ended)[i + 1] == ended[i];
    }
  }

  lemma EndRecords(w: World, id: nat)
    requires Records(w) && CanFinish(w, id)
    ensures Records(Ended(w, id))
  {
    var outcome := OutcomeOf(w.threads[id].pc.node).value;
    var next := Ended(w, id);
    FinishSound(w.mem, w.used, id, outcome);
    assert outcome.Terminal();
    assert next.ended == [next.mem.active.value] + w.ended;
    MoreEnded(next.mem.active.value, w.ended);
    assert Ledger(next.mem, next.ended) by {
      hide KeysKept, KeysTold, Sound;
    }
    assert Suffix(next.endedOnDisk, next.ended);
    assert KeysTold(next.mem, next.ended) by {
      hide Ledger, Suffix, Over, Sound;
    }
    assert KeysKept(next.mem, next.begun) by {
      hide Ledger, Suffix, KeysTold;
    }
    hide KeysTold;
  }

  lemma EndThreads(w: World, id: nat)
    requires Threads(w) && CanFinish(w, id)
    ensures Threads(Ended(w, id))
  {
    var next := Ended(w, id);
    assert next.ended == [next.mem.active.value] + w.ended;
    MoreEnded(next.mem.active.value, w.ended);
    hide Over;
    forall x ensures ThreadOk(next, x) {
      assert ThreadOk(w, x);
    }
  }

  // An operation in danger ends rolled back or failed, after its rollback was called.
  lemma EndInDanger(w: World, id: nat)
    requires Records(w) && Threads(w) && Logs(w) && CanFinish(w, id)
    ensures id in w.exposed || OutcomeOf(w.threads[id].pc.node) == Some(RolledBack) ==>
              && id in w.captured && Called(w.rollbacks, w.captured[id])
              && OutcomeOf(w.threads[id].pc.node).value in {RolledBack, Failed}
    ensures OutcomeOf(w.threads[id].pc.node) == Some(Succeeded) && w.mem.active.value.kind == Stack && id in w.armed ==> id in w.verified
  {
    assert ThreadOk(w, id);
    assert ExposedTold(w, w.mem, w.ended, id);
    assert !Over(w.ended, id);
  }

  lemma EndLogs(w: World, id: nat)
    requires Records(w) && Threads(w) && Logs(w) && CanFinish(w, id)
    ensures Logs(Ended(w, id))
  {
    var next := Ended(w, id);
    EndInDanger(w, id);
    hide Records, Threads, Called;
    assert next.ended[0].id == id;
    forall x ensures ExposedTold(next, next.mem, next.ended, x) {
      assert ExposedTold(w, w.mem, w.ended, x);
      if x != id && EndedBy(w.ended, x, {RolledBack, Failed}) {
        var i :| 0 <= i < |w.ended| && w.ended[i].id == x && w.ended[i].state in {RolledBack, Failed};
        assert next.ended[i + 1] == w.ended[i];
      }
    }
    forall x ensures ExposedTold(next, next.disk, next.endedOnDisk, x) {
      assert ExposedTold(w, w.disk, w.endedOnDisk, x);
    }
    forall i | 0 <= i < |next.ended| ensures RollbackTold(next, next.ended[i]) && SuccessTold(next, next.ended[i]) {
      if i > 0 {
        assert RollbackTold(w, w.ended[i - 1]) && SuccessTold(w, w.ended[i - 1]);
      }
    }
  }

  lemma EndKeeps(w: World, id: nat)
    requires Inv(w) && CanFinish(w, id)
    ensures Inv(Ended(w, id))
  {
    EndRecords(w, id);
    EndThreads(w, id);
    EndLogs(w, id);
    hide Records, Threads, Logs;
    var next := Ended(w, id);
    forall x ensures OwesOk(next, x) {
      assert OwesOk(w, x);
    }
  }

  predicate CanAct(w: World, id: nat) {
    id in w.threads && w.threads[id].pc.At? && OutcomeOf(w.threads[id].pc.node).None?
  }

  // A phase is never a terminal state, and dangerous where the place says so.
  lemma NodePhase(kind: Kind, n: Node)
    requires PhaseOf(n).Some?
    ensures !PhaseOf(n).value.0.Terminal() && OutcomeOf(n).None? && !Pauses(n) && n != KeepBefore && n != KeepAfter && n != KeepBackup
    ensures n == CleanUpApplied ==> !Risky(kind, PhaseOf(n).value.1)
    ensures StageBefore(n) == Quiet && n != Node.Apply && (n == ApplyFeed ==> kind != Stack) ==> !Risky(kind, PhaseOf(n).value.1)
    ensures kind == Stack && ((StageBefore(n) == Danger && n != CleanUpApplied) || n == Node.Apply) ==> Risky(kind, PhaseOf(n).value.1)
  {
  }

  lemma FieldsSound(s: Persist, used: set<nat>, path: string)
    requires Sound(s, used)
    ensures Sound(s.(paused := true), used) && Sound(s.(backupPath := path), used)
  {
  }

  // A section that ends nothing leaves history, keys and the running operation's identity alone.
  lemma EffectSound(s: Persist, used: set<nat>, id: nat, th: Thread, n: Node, images: seq<Image>, path: string)
    requires Sound(s, used) && OutcomeOf(n).None? && (BusyWith(s, id) || Pauses(n))
    ensures var t := Effect(s, id, th, n, images, path);
            && Sound(t, used) && t.history == s.history && t.keys == s.keys && (Busy(t) <==> Busy(s)) && (t.active.Some? <==> s.active.Some?)
            && (!BusyWith(s, id) ==> t.active == s.active)
            && (BusyWith(s, id) ==> BusyWith(t, id) && t.active.value.kind == s.active.value.kind)
  {
    FieldsSound(s, used, path);
    if Pauses(n) {
      hide Sound, Pauses, OutcomeOf, PhaseOf;
    } else {
      ImagesSound(s, used, id, images, []);
      ImagesSound(s, used, id, th.before, images);
      if PhaseOf(n).Some? {
        NodePhase(th.kind, n);
        PhaseSound(s, used, id, PhaseOf(n).value.0, PhaseOf(n).value.1);
      }
      hide Sound, Pauses, OutcomeOf, PhaseOf;
    }
  }

  lemma ActRecords(w: World, id: nat, images: seq<Image>, path: string)
    requires Records(w) && CanAct(w, id) && (BusyWith(w.mem, id) || Pauses(w.threads[id].pc.node))
    ensures Records(Acted(w, id, images, path))
  {
    var th := w.threads[id];
    EffectSound(w.mem, w.used, id, th, th.pc.node, images, path);
    hide Sound, Effect;
  }

  // What a section shares with the place before it.
  lemma SectionAlike(kind: Kind, n: Node)
    requires OutcomeOf(n).None? && (StackOnly(At(n)) ==> kind == Stack) && (FeedOnly(At(n)) ==> kind != Stack)
    ensures KnowsBefore(Saving(n)) ==> n == KeepBefore || KnowsBefore(At(n))
    ensures PastCheckpoint(Saving(n)) ==> PastCheckpoint(At(n))
    ensures Early(Saving(n)) ==> Early(At(n)) && n != Node.Apply
    ensures Restoring(Saving(n)) ==> Restoring(At(n))
    ensures Settling(Saving(n)) ==> Settling(At(n))
    ensures (StackOnly(Saving(n)) ==> kind == Stack) && (FeedOnly(Saving(n)) ==> kind != Stack)
    ensures PastCheckpoint(At(n)) || PastCheckpoint(Saving(n)) || n == Checkpointing ==> n != KeepBefore && n != KeepBackup
    ensures StageOf(At(n)) == Danger ==> n !in {KeepBefore, KeepBackup, KeepAfter}
    ensures StageOf(Saving(n)) ==
            (if n == Node.Apply then Entering else if n == CleanUpApplied then Leaving else StageOf(At(n)))
  {
  }

  // Images and backup change only where they are kept, danger only in risky phases.
  lemma EffectDanger(s: Persist, id: nat, th: Thread, n: Node, images: seq<Image>, path: string)
    requires BusyWith(s, id) && OutcomeOf(n).None? && s.active.value.kind == th.kind
    requires StackOnly(At(n)) ==> th.kind == Stack
    requires FeedOnly(At(n)) ==> th.kind != Stack
    ensures var t := Effect(s, id, th, n, images, path);
            && BusyWith(t, id) && t.active.value.kind == s.active.value.kind && t.keys == s.keys
            && (n != KeepBackup ==> t.backupPath == s.backupPath)
            && (n == KeepBackup ==> t.backupPath == path)
            && (n == KeepBefore ==> t.active.value.before == images)
            && (n == KeepAfter ==> t.active.value.before == th.before)
            && (n != KeepBefore && n != KeepAfter ==> t.active.value.before == s.active.value.before)
            && (n == Node.Apply ==> Dangerous(t))
            && (n == CleanUpApplied ==> !Dangerous(t))
            && (StageBefore(n) == Quiet && n != Node.Apply && !Dangerous(s) ==> !Dangerous(t))
            && (StageBefore(n) == Danger && n != CleanUpApplied && Dangerous(s) ==> Dangerous(t))
  {
    if PhaseOf(n).Some? {
      NodePhase(th.kind, n);
    } else {
      NoPhase(n);
    }
    hide PhaseOf, OutcomeOf, StageBefore;
  }

  lemma NoPhase(n: Node)
    requires PhaseOf(n).None? && OutcomeOf(n).None?
    ensures n != Node.Apply && n != CleanUpApplied && (Pauses(n) || n == KeepBefore || n == KeepAfter || n == KeepBackup)
  {
  }

  lemma ActThread(w: World, id: nat, images: seq<Image>, path: string)
    requires CanAct(w, id) && BusyWith(w.mem, id) && id in w.used && LiveOk(w, id, w.threads[id])
    ensures ThreadOk(Acted(w, id, images, path), id)
  {
    var th := w.threads[id];
    var n := th.pc.node;
    var next := Acted(w, id, images, path);
    SectionAlike(th.kind, n);
    EffectDanger(w.mem, id, th, n, images, path);
    hide Effect, StageOf, KnowsBefore, PastCheckpoint, Early, Restoring, StackOnly, FeedOnly;
    assert Knows(next, id, next.threads[id]);
    assert StageOk(next, id, StageOf(Saving(n)), Own(id, next.threads[id]));
  }

  lemma ActThreads(w: World, id: nat, images: seq<Image>, path: string)
    requires Threads(w) && CanAct(w, id) && BusyWith(w.mem, id)
    ensures Threads(Acted(w, id, images, path))
  {
    var th := w.threads[id];
    assert ThreadOk(w, id);
    ActThread(w, id, images, path);
    EffectDanger(w.mem, id, th, th.pc.node, images, path);
    hide Effect, LiveOk;
    OneThread(w, Acted(w, id, images, path), id);
  }

  // What memory carries before a section it carries afterwards, but for the cleanup; entering danger it carries its own.
  lemma ActCarries(w: World, id: nat, images: seq<Image>, path: string)
    requires Threads(w) && CanAct(w, id) && BusyWith(w.mem, id)
    ensures var n := w.threads[id].pc.node; var next := Acted(w, id, images, path);
            && BusyWith(next.mem, id)
            && (n == CleanUpApplied ==> !Dangerous(next.mem)) && (n == Node.Apply ==> Dangerous(next.mem))
            && (Dangerous(next.mem) ==> id in w.captured && Carries(next.mem, w.captured[id]) && (n == Node.Apply || id in w.armed))
            && (Dangerous(w.mem) && n != CleanUpApplied ==> Dangerous(next.mem))
  {
    var th := w.threads[id];
    assert ThreadOk(w, id);
    EffectDanger(w.mem, id, th, th.pc.node, images, path);
    SectionAlike(th.kind, th.pc.node);
    ActThread(w, id, images, path);
    hide Effect, KnowsBefore, PastCheckpoint, Early, Restoring;
  }

  lemma ActLogs(w: World, id: nat, images: seq<Image>, path: string)
    requires Records(w) && Threads(w) && Logs(w) && CanAct(w, id) && BusyWith(w.mem, id)
    ensures Logs(Acted(w, id, images, path))
  {
    var next := Acted(w, id, images, path);
    ActCarries(w, id, images, path);
    assert id in w.used by {
      assert ThreadOk(w, id);
    }
    assert !Over(w.ended, id);
    hide Records, Threads, Called, Effect;
    forall x ensures ExposedTold(next, next.mem, next.ended, x) && ExposedTold(next, next.disk, next.endedOnDisk, x) {
      assert ExposedTold(w, w.mem, w.ended, x) && ExposedTold(w, w.disk, w.endedOnDisk, x);
    }
    forall i | 0 <= i < |next.ended| ensures RollbackTold(next, next.ended[i]) && SuccessTold(next, next.ended[i]) {
      assert RollbackTold(w, w.ended[i]) && SuccessTold(w, w.ended[i]);
    }
  }

  lemma ActGuard(w: World, id: nat, images: seq<Image>, path: string)
    requires Threads(w) && Guard(w) && CanAct(w, id) && BusyWith(w.mem, id)
    ensures Guard(Acted(w, id, images, path))
  {
    var next := Acted(w, id, images, path);
    var th := w.threads[id];
    ActCarries(w, id, images, path);
    assert next.mem.paused == (w.mem.paused || Pauses(th.pc.node));
    hide Threads, Effect;
    forall x ensures OwesOk(next, x) {
      assert OwesOk(w, x);
    }
  }

  // The pause after a failed recovery comes when its operation is over, and others may be running.
  lemma LatePauseThread(w: World, next: World, id: nat, x: nat)
    requires ThreadOk(w, id) && ThreadOk(w, x) && id in w.threads && !BusyWith(w.mem, id) && w.threads[id].pc == At(RecoverPauseLate)
    requires next == Moved(w, id, Saving(RecoverPauseLate)).(mem := w.mem.(paused := true))
    ensures ThreadOk(next, x)
  {
    hide Restoring, KnowsBefore, Early, StackOnly, FeedOnly, PastCheckpoint, Called, Over;
  }

  lemma LatePauseIs(w: World, id: nat, images: seq<Image>, path: string)
    requires ThreadOk(w, id) && CanAct(w, id) && !BusyWith(w.mem, id)
    ensures w.threads[id].pc == At(RecoverPauseLate)
    ensures Acted(w, id, images, path) == Moved(w, id, Saving(RecoverPauseLate)).(mem := w.mem.(paused := true))
  {
  }

  lemma LatePauseKeeps(w: World, id: nat, images: seq<Image>, path: string)
    requires Inv(w) && CanAct(w, id) && !BusyWith(w.mem, id)
    ensures Inv(Acted(w, id, images, path))
  {
    var next := Acted(w, id, images, path);
    assert ThreadOk(w, id);
    LatePauseIs(w, id, images, path);
    ActRecords(w, id, images, path);
    hide Records, Acted;
    assert Threads(next) by {
      hide Logs, Guard;
      forall x ensures ThreadOk(next, x) {
        assert ThreadOk(w, x);
        LatePauseThread(w, next, id, x);
      }
    }
    hide ThreadOk;
    assert Logs(next) by {
      hide Threads, Guard, Called;
      forall x ensures ExposedTold(next, next.mem, next.ended, x) && ExposedTold(next, next.disk, next.endedOnDisk, x) {
        assert ExposedTold(w, w.mem, w.ended, x) && ExposedTold(w, w.disk, w.endedOnDisk, x);
      }
      forall i | 0 <= i < |next.ended| ensures RollbackTold(next, next.ended[i]) && SuccessTold(next, next.ended[i]) {
        assert RollbackTold(w, w.ended[i]) && SuccessTold(w, w.ended[i]);
      }
    }
    hide Threads, Logs;
    forall x ensures OwesOk(next, x) {
      assert OwesOk(w, x);
    }
  }

  lemma ActKeeps(w: World, id: nat, images: seq<Image>, path: string)
    requires Inv(w) && Possible(w, Act(id, images, path))
    ensures Inv(Acted(w, id, images, path))
  {
    var n := w.threads[id].pc.node;
    if OutcomeOf(n).Some? {
      hide Records, Threads, Logs, Guard;
      if BusyWith(w.mem, id) {
        EndKeeps(w, id);
      } else {
        VainKeeps(w, id);
      }
    } else if BusyWith(w.mem, id) {
      ActRecords(w, id, images, path);
      ActThreads(w, id, images, path);
      ActLogs(w, id, images, path);
      ActGuard(w, id, images, path);
    } else {
      LatePauseKeeps(w, id, images, path);
    }
  }

  // ---- Every run ----

  lemma StepKeeps(w: World, step: Step)
    requires Inv(w) && Possible(w, step)
    ensures Inv(After(w, step))
  {
    hide Records, Threads, Logs, Guard;
    match step {
      case Submit(kind, origin, key, id) => SubmitKeeps(w, kind, origin, key, id);
      case Acknowledge => AcknowledgeKeeps(w);
      case SaveNow => StoreKeeps(w);
      case Act(id, images, path) => ActKeeps(w, id, images, path);
      case Save(id, next) =>
        StoreKeeps(w);
        PassKeeps(Stored(w), id, next);
      case SaveFails(id) =>
        if w.threads[id].pc.Submitting? {
          TakeBackKeeps(w, id);
        } else {
          FailKeeps(w, id);
        }
      case Return(id, next) => ReturnKeeps(w, id, next);
      case Crash => CrashKeeps(w);
    }
  }

  lemma {:induction false} RunKeeps(worlds: seq<World>, steps: seq<Step>, i: nat)
    requires IsRun(worlds, steps) && i < |worlds|
    ensures Inv(worlds[i])
  {
    if i == 0 {
      StartInv();
    } else {
      RunKeeps(worlds, steps, i - 1);
      StepKeeps(worlds[i - 1], steps[i - 1]);
    }
  }
}
