/** What holds of the updater in every run: crash safety, one ending for each operation, one operation for each
    key, and exactly when a stack upgrade may start although a rollback was never acknowledged. */
module UpdaterTheorems {
  import opened Options
  import opened UpdaterState
  import opened UpdaterCode
  import opened UpdaterRuns
  import opened UpdaterInvariant

  // ---- Crash safety ----

  // Once ApplyStack may have started and until cleanup, a crash at any point leads a restart to roll back exactly
  // that operation from its own checkpoint, unless that was done and the end is on disk.
  lemma CrashRollsBack(worlds: seq<World>, steps: seq<Step>, i: nat, id: nat)
    requires IsRun(worlds, steps) && i < |worlds| && id in worlds[i].exposed
    ensures var w := worlds[i];
            && id in w.captured
            && var e := w.captured[id];
               || Restarted(w).threads == map[id := Thread(Stack, At(RecoverRoll), e.images, e.backup)]
               || (EndedBy(w.endedOnDisk, id, {RolledBack, Failed}) && Called(w.rollbacks, e))
  {
    var w := worlds[i];
    RunKeeps(worlds, steps, i);
    assert ExposedTold(w, w.disk, w.endedOnDisk, id);
  }

  // No rollback is called, and none would be after a crash, but from the checkpoint an operation made durable
  // before it entered the applying phase.
  lemma OnlyCheckpointsRollBack(worlds: seq<World>, steps: seq<Step>, i: nat)
    requires IsRun(worlds, steps) && i < |worlds|
    ensures var w := worlds[i];
            forall k :: 0 <= k < |w.rollbacks| ==>
              var e := w.rollbacks[k]; e.id in w.armed && e.id in w.captured && w.captured[e.id] == e
    ensures var w := worlds[i];
            forall id :: id in Restarted(w).threads ==>
              var th := Restarted(w).threads[id];
              && (th.pc == At(RecoverRoll) || th.pc == At(GiveUp))
              && (th.pc == At(RecoverRoll) ==> id in w.armed && id in w.captured && w.captured[id] == Own(id, th))
  {
    RunKeeps(worlds, steps, i);
    assert DangerTold(worlds[i], worlds[i].disk);
  }

  // The checkpoint of an operation that entered the applying phase never changes.
  lemma {:induction false} CheckpointStays(worlds: seq<World>, steps: seq<Step>, i: nat, j: nat, id: nat)
    requires IsRun(worlds, steps) && i <= j < |worlds| && id in worlds[i].armed
    ensures id in worlds[i].captured && id in worlds[j].armed && id in worlds[j].captured
    ensures worlds[j].captured[id] == worlds[i].captured[id]
    decreases j
  {
    if i == j {
      RunKeeps(worlds, steps, i);
    } else {
      CheckpointStays(worlds, steps, i, j - 1, id);
      NextCheckpoint(worlds, steps, j - 1, id);
      hide IsRun;
    }
  }

  lemma NextCheckpoint(worlds: seq<World>, steps: seq<Step>, j: nat, id: nat)
    requires IsRun(worlds, steps) && j < |steps| && id in worlds[j].armed
    ensures id in worlds[j].captured && id in worlds[j + 1].armed && id in worlds[j + 1].captured
    ensures worlds[j + 1].captured[id] == worlds[j].captured[id]
  {
    RunKeeps(worlds, steps, j);
    hide Inv, After;
    StepKeepsCheckpoint(worlds[j], steps[j], id);
  }

  lemma StepKeepsCheckpoint(w: World, step: Step, id: nat)
    requires Inv(w) && Possible(w, step) && id in w.armed
    ensures id in w.captured && id in After(w, step).armed && id in After(w, step).captured
    ensures After(w, step).captured[id] == w.captured[id]
  {
    if step.Save? && w.threads[step.id].pc == Saving(KeepBackup) {
      assert ThreadOk(w, step.id);
      CheckpointKnown(w, step.id);
    }
  }

  // ---- Endings ----

  lemma EndOnce(worlds: seq<World>, steps: seq<Step>, i: nat)
    requires IsRun(worlds, steps) && i < |worlds|
    ensures var w := worlds[i];
            && (forall j :: 0 <= j < |w.ended| ==> w.ended[j].state.Terminal())
            && (forall j, k :: 0 <= j < k < |w.ended| ==> w.ended[j].id != w.ended[k].id)
            && w.mem.history == Newest(w.ended) && w.disk.history == Newest(w.endedOnDisk)
    ensures var w := worlds[i];
            forall x, y :: x in w.threads && y in w.threads && !Over(w.ended, x) && !Over(w.ended, y) ==> x == y
  {
    var w := worlds[i];
    RunKeeps(worlds, steps, i);
    hide StageOf, LiveOk, Over;
    forall x | x in w.threads && !Over(w.ended, x) ensures BusyWith(w.mem, x) {
      assert ThreadOk(w, x);
    }
  }

  // An end on disk is never lost or changed, whatever happens later; memory forgets one only in a crash.
  lemma {:induction false} EndingsStay(worlds: seq<World>, steps: seq<Step>, i: nat, j: nat)
    requires IsRun(worlds, steps) && i <= j < |worlds|
    ensures Suffix(worlds[i].endedOnDisk, worlds[j].endedOnDisk)
    ensures (forall k :: i <= k < j ==> steps[k] != Crash) ==> Suffix(worlds[i].ended, worlds[j].ended)
    decreases j
  {
    hide Suffix;
    if i == j {
      SuffixSelf(worlds[i].endedOnDisk);
      SuffixSelf(worlds[i].ended);
    } else {
      EndingsStay(worlds, steps, i, j - 1);
      LastEndings(worlds, steps, j - 1);
      hide IsRun;
      SuffixOf(worlds[i].endedOnDisk, worlds[j - 1].endedOnDisk, worlds[j].endedOnDisk);
      if forall k :: i <= k < j ==> steps[k] != Crash {
        SuffixOf(worlds[i].ended, worlds[j - 1].ended, worlds[j].ended);
      }
    }
  }

  lemma LastEndings(worlds: seq<World>, steps: seq<Step>, j: nat)
    requires IsRun(worlds, steps) && j < |steps|
    ensures Suffix(worlds[j].endedOnDisk, worlds[j + 1].endedOnDisk)
    ensures steps[j] != Crash ==> Suffix(worlds[j].ended, worlds[j + 1].ended)
  {
    hide Suffix;
    RunKeeps(worlds, steps, j);
    assert Suffix(worlds[j].endedOnDisk, worlds[j].ended);
    StepKeepsEndings(worlds[j], steps[j]);
  }

  lemma StepKeepsEndings(w: World, step: Step)
    requires Suffix(w.endedOnDisk, w.ended) && Possible(w, step)
    ensures Suffix(w.endedOnDisk, After(w, step).endedOnDisk)
    ensures step != Crash ==> Suffix(w.ended, After(w, step).ended)
  {
    hide Suffix;
    SuffixSelf(w.endedOnDisk);
    SuffixSelf(w.ended);
    if step.Act? {
      ActEndings(w, step.id, step.images, step.path);
      var ended := After(w, step).ended;
      if ended != w.ended {
        SuffixMore(ended[0], w.ended);
      }
      hide Acted, Possible;
    } else {
      hide Possible, Acted;
    }
  }

  lemma ActEndings(w: World, id: nat, images: seq<Image>, path: string)
    requires id in w.threads && w.threads[id].pc.At?
    ensures var v := Acted(w, id, images, path);
            v.endedOnDisk == w.endedOnDisk && (v.ended == w.ended || (|v.ended| > 0 && v.ended == [v.ended[0]] + w.ended))
  {
    hide PhaseOf, OutcomeOf, Pauses, WithPhase, WithImages;
  }

  lemma SuffixSelf(a: seq<Operation>)
    ensures Suffix(a, a)
  {
    assert a == a[0..];
  }

  lemma SuffixMore(op: Operation, a: seq<Operation>)
    ensures Suffix(a, [op] + a)
  {
    assert a == ([op] + a)[1..];
  }

  lemma SuffixOf(a: seq<Operation>, b: seq<Operation>, c: seq<Operation>)
    requires Suffix(a, b) && Suffix(b, c)
    ensures Suffix(a, c)
  {
  }

  // What an end says: rolled back only after its rollback was called; and no operation whose ApplyStack may
  // have started ends otherwise than rolled back or failed, its rollback called.
  lemma EndsTold(worlds: seq<World>, steps: seq<Step>, i: nat, k: nat)
    requires IsRun(worlds, steps) && i < |worlds| && k < |worlds[i].ended|
    ensures var w := worlds[i];
            var op := w.ended[k];
            (op.id in w.exposed ==> op.state == RolledBack || op.state == Failed)
            && (op.id in w.exposed || op.state == RolledBack ==> op.id in w.captured && Called(w.rollbacks, w.captured[op.id]))
  {
    var w := worlds[i];
    var op := w.ended[k];
    RunKeeps(worlds, steps, i);
    assert RollbackTold(w, op) && ExposedTold(w, w.mem, w.ended, op.id);
    assert Over(w.ended, op.id);
    if EndedBy(w.ended, op.id, {RolledBack, Failed}) {
      var j :| 0 <= j < |w.ended| && w.ended[j].id == op.id && w.ended[j].state in {RolledBack, Failed};
      assert j == k;
    }
  }

  // Step `j` is the scanner's good answer to the verification of this operation's new stack.
  ghost predicate VerifiedAt(worlds: seq<World>, steps: seq<Step>, id: nat, j: nat)
    requires |worlds| == |steps| + 1
  {
    && j < |steps| && steps[j] == Return(id, At(CleanUpApplied))
    && id in worlds[j].threads && worlds[j].threads[id].pc == InVerify
  }

  lemma {:induction false} VerifiedReturned(worlds: seq<World>, steps: seq<Step>, i: nat, id: nat) returns (j: nat)
    requires IsRun(worlds, steps) && i < |worlds| && id in worlds[i].verified
    ensures j < i && VerifiedAt(worlds, steps, id, j)
  {
    assert i > 0;
    if id in worlds[i - 1].verified {
      j := VerifiedReturned(worlds, steps, i - 1, id);
    } else {
      j := i - 1;
      StepVerifies(worlds[j], steps[j], id);
    }
  }

  lemma StepVerifies(w: World, step: Step, id: nat)
    requires Possible(w, step) && id !in w.verified && id in After(w, step).verified
    ensures step == Return(id, At(CleanUpApplied)) && id in w.threads && w.threads[id].pc == InVerify
  {
    hide Effect, Onward, Leads, OutcomeOf;
  }

  // A stack upgrade that entered the applying phase and ended succeeded was verified: the scanner had answered well
  // before.
  lemma SucceededWasVerified(worlds: seq<World>, steps: seq<Step>, i: nat, k: nat) returns (j: nat)
    requires IsRun(worlds, steps) && i < |worlds| && k < |worlds[i].ended|
    requires var op := worlds[i].ended[k]; op.kind == Stack && op.state == Succeeded && op.id in worlds[i].armed
    ensures j < i && VerifiedAt(worlds, steps, worlds[i].ended[k].id, j)
  {
    RunKeeps(worlds, steps, i);
    assert SuccessTold(worlds[i], worlds[i].ended[k]);
    j := VerifiedReturned(worlds, steps, i, worlds[i].ended[k].id);
  }

  // An operation that is over stays as it ended until another is admitted, although the code that sets its
  // phase does not ask whether it is over.
  lemma OverIsFinal(worlds: seq<World>, steps: seq<Step>, i: nat)
    requires IsRun(worlds, steps) && i < |steps|
    requires worlds[i].mem.active.Some? && !Busy(worlds[i].mem) && !steps[i].Submit? && !steps[i].Crash?
    ensures worlds[i + 1].mem.active == worlds[i].mem.active && worlds[i + 1].ended == worlds[i].ended
  {
    RunKeeps(worlds, steps, i);
    StepKeepsOver(worlds[i], steps[i]);
  }

  lemma StepKeepsOver(w: World, step: Step)
    requires Threads(w) && Possible(w, step) && !Busy(w.mem) && !step.Submit? && !step.Crash?
    ensures After(w, step).mem.active == w.mem.active && After(w, step).ended == w.ended
  {
    if step.Act? {
      assert ThreadOk(w, step.id);
      if OutcomeOf(w.threads[step.id].pc.node).None? {
        LatePauseIs(w, step.id, step.images, step.path);
      }
    } else if step.SaveFails? {
      assert ThreadOk(w, step.id);
      hide Threads;
    } else {
      hide Threads, Possible;
    }
  }

  // What a goroutine may rely on between its own sections: others only save, acknowledge or pause while its
  // operation runs, and nobody runs it again once it is over. Updater.Controller.Interleave is that much.
  lemma OthersLeaveRunning(worlds: seq<World>, steps: seq<Step>, i: nat, id: nat)
    requires IsRun(worlds, steps) && i < |steps| && id in worlds[i].used && !steps[i].Crash?
    requires !(steps[i].Act? && steps[i].id == id) && !(steps[i].SaveFails? && steps[i].id == id)
    ensures BusyWith(worlds[i].mem, id) ==> worlds[i + 1].mem == worlds[i].mem.(paused := worlds[i + 1].mem.paused)
    ensures !BusyWith(worlds[i].mem, id) ==> !BusyWith(worlds[i + 1].mem, id)
  {
    RunKeeps(worlds, steps, i);
    OthersLeave(worlds[i], steps[i], id);
  }

  lemma OthersLeave(w: World, step: Step, id: nat)
    requires Threads(w) && Possible(w, step) && id in w.used && !step.Crash?
    requires !(step.Act? && step.id == id) && !(step.SaveFails? && step.id == id)
    ensures BusyWith(w.mem, id) ==> After(w, step).mem == w.mem.(paused := After(w, step).mem.paused)
    ensures !BusyWith(w.mem, id) ==> !BusyWith(After(w, step).mem, id)
  {
    if step.Act? {
      assert ThreadOk(w, step.id);
      if OutcomeOf(w.threads[step.id].pc.node).None? && !BusyWith(w.mem, step.id) {
        LatePauseIs(w, step.id, step.images, step.path);
      } else if BusyWith(w.mem, step.id) {
        ActStays(w, step.id, step.images, step.path);
        hide Acted;
      }
    } else if step.SaveFails? {
      assert ThreadOk(w, step.id);
      hide Threads;
    } else {
      hide Threads;
    }
  }

  lemma ActStays(w: World, id: nat, images: seq<Image>, path: string)
    requires BusyWith(w.mem, id) && id in w.threads && w.threads[id].pc.At?
    ensures Acted(w, id, images, path).mem.active.Some? && Acted(w, id, images, path).mem.active.value.id == id
  {
    hide PhaseOf, OutcomeOf, Pauses;
  }

  // ---- Keys ----

  // A request that repeats the key of an operation that began starts nothing while that operation can be looked
  // up, through crashes, failed saves and trims.
  lemma RepeatStartsNothing(worlds: seq<World>, steps: seq<Step>, i: nat, id: nat, step: Step)
    requires IsRun(worlds, steps) && i < |worlds| && id in worlds[i].begun && OperationOf(worlds[i].mem, id).Some?
    requires step.Submit? && step.key == worlds[i].begun[id]
    ensures var w := worlds[i]; step.key in w.mem.keys && w.mem.keys[step.key] == id && !Possible(w, step)
  {
    RunKeeps(worlds, steps, i);
    EntryFound(worlds[i].mem.history, id);
  }

  // The answer to a repeated key: the running operation, or its one ending while that is among the newest
  // hundred; older than that, the code reports an inconsistent record.
  lemma RepeatAnswer(worlds: seq<World>, steps: seq<Step>, i: nat, key: string)
    requires IsRun(worlds, steps) && i < |worlds| && key in worlds[i].mem.keys
    ensures var w := worlds[i];
            var id := w.mem.keys[key];
            || (BusyWith(w.mem, id) && OperationOf(w.mem, id) == w.mem.active)
            || exists k :: 0 <= k < |w.ended| && w.ended[k].id == id
                           && OperationOf(w.mem, id) == if k < MAX_HISTORY then Some(w.ended[k]) else None
  {
    var w := worlds[i];
    var id := w.mem.keys[key];
    RunKeeps(worlds, steps, i);
    EntryFound(w.mem.history, id);
    if !BusyWith(w.mem, id) {
      assert Over(w.ended, id);
      var k :| 0 <= k < |w.ended| && w.ended[k].id == id;
      if k < MAX_HISTORY {
        assert w.mem.history[k] == w.ended[k];
        var op := HistoryEntry(w.mem.history, id).value;
        var j :| 0 <= j < |w.mem.history| && w.mem.history[j] == op;
        EntryHasId(w.mem.history, id);
        assert w.ended[j] == op;
        assert j == k;
      } else {
        assert forall j :: 0 <= j < |w.mem.history| ==> w.mem.history[j] == w.ended[j];
      }
    }
  }

  lemma {:induction false} EntryHasId(history: seq<Operation>, id: nat)
    ensures HistoryEntry(history, id).Some? ==> HistoryEntry(history, id).value.id == id
  {
    if history != [] {
      EntryHasId(history[1..], id);
    }
  }

  // ---- The pause ----

  // A recovery whose rollback failed: its end is on record and its pause is not, because the goroutine has not
  // come to it yet or because a crash stopped it.
  predicate PauseMissing(w: World, id: nat) {
    && id in w.owed
    && if id in w.threads then w.threads[id].pc == Saving(RecoverFail) || w.threads[id].pc == At(RecoverPauseLate)
       else id in w.lost
  }

  // From a rollback's return to the next acknowledgement, a stack upgrade can start exactly when nothing runs and
  // memory is not paused, and then some failed recovery misses its pause.
  lemma PauseOutrunExactly(worlds: seq<World>, steps: seq<Step>, i: nat, step: Step)
    requires IsRun(worlds, steps) && i < |worlds| && worlds[i].blocked
    requires step.Submit? && step.kind == Stack && step.id !in worlds[i].used && step.key !in worlds[i].mem.keys
    ensures var w := worlds[i];
            Possible(w, step) <==> !Busy(w.mem) && !w.mem.paused && exists id :: PauseMissing(w, id)
  {
    var w := worlds[i];
    RunKeeps(worlds, steps, i);
    if !Busy(w.mem) && !w.mem.paused {
      var id :| id in w.owed;
      assert OwesOk(w, id) && ThreadOk(w, id);
      assert PauseMissing(w, id);
    }
  }

  // From a rollback's return to the next acknowledgement memory and disk are both paused, once the operation that
  // rolled back has come to its pause and no failed recovery owes one.
  lemma PausedUntilAcknowledged(worlds: seq<World>, steps: seq<Step>, i: nat)
    requires IsRun(worlds, steps) && i < |worlds| && worlds[i].blocked && worlds[i].owed == {}
    requires forall id :: id in worlds[i].threads && BusyWith(worlds[i].mem, id) ==> !Pausing(worlds[i].threads[id].pc)
    ensures worlds[i].mem.paused && worlds[i].disk.paused
  {
    RunKeeps(worlds, steps, i);
  }

  // Without a failed recovery the pause is never outrun: no stack upgrade starts between a rollback's return and
  // the next acknowledgement, whatever crashes in between.
  lemma PauseHolds(worlds: seq<World>, steps: seq<Step>, i: nat)
    requires IsRun(worlds, steps) && i < |steps|
    requires forall j :: 0 <= j < i ==> !(steps[j].Return? && steps[j].next == At(RecoverFail))
    requires steps[i].Submit? && steps[i].kind == Stack
    ensures !worlds[i].blocked
  {
    RunKeeps(worlds, steps, i);
    NothingOwed(worlds, steps, i);
  }

  lemma {:induction false} NothingOwed(worlds: seq<World>, steps: seq<Step>, i: nat)
    requires IsRun(worlds, steps) && i < |worlds|
    requires forall j :: 0 <= j < i ==> !(steps[j].Return? && steps[j].next == At(RecoverFail))
    ensures worlds[i].owed == {}
  {
    if i > 0 {
      NothingOwed(worlds, steps, i - 1);
      StepOwes(worlds[i - 1], steps[i - 1]);
    }
  }

  lemma StepOwes(w: World, step: Step)
    requires Possible(w, step) && !(step.Return? && step.next == At(RecoverFail))
    ensures After(w, step).owed <= w.owed
  {
    hide Possible, Effect, Leads, Onward;
  }

  // ---- Both ways of missing it, in runs ----

  ghost predicate Reachable(w: World) {
    exists worlds, steps :: IsRun(worlds, steps) && worlds[|steps|] == w
  }

  lemma StartReachable()
    ensures Reachable(START)
  {
    assert IsRun([START], []);
  }

  lemma StepReachable(w: World, step: Step)
    requires Reachable(w) && Possible(w, step)
    ensures Reachable(After(w, step))
  {
    var worlds, steps :| IsRun(worlds, steps) && worlds[|steps|] == w;
    hide Possible, After;
    assert IsRun(worlds + [After(w, step)], steps + [step]);
  }

  // A request admitted and saved.
  lemma Begin(w: World, kind: Kind, key: string, id: nat) returns (v: World)
    requires Reachable(w) && Possible(w, Submit(kind, Scheduled, key, id)) && |w.mem.keys| <= MAX_HISTORY && !w.mem.paused
    ensures Reachable(v) && v.threads == w.threads[id := Thread(kind, At(Preparing), [], "")] && v.disk == v.mem
    ensures v.mem == w.mem.(active := Some(Operation(id, kind, Scheduled, Queued, Fresh, [], [])), backupPath := "", keys := w.mem.keys[key := id])
    ensures v.used == w.used + {id} && v.blocked == w.blocked && v.owed == w.owed && v.lost == w.lost
    ensures v.ended == w.ended && v.endedOnDisk == w.ended
  {
    hide Reachable, IsActive, InHistory;
    var submit := Submit(kind, Scheduled, key, id);
    StepReachable(w, submit);
    var u := After(w, submit);
    hide Admitted, Trimmed;
    StepReachable(u, Save(id, At(Preparing)));
    v := After(u, Save(id, At(Preparing)));
  }

  // Through one section and its save.
  lemma Forward(w: World, id: nat, n: Node, next: Pc) returns (v: World)
    requires Reachable(w) && id in w.threads && w.threads[id].pc == At(n) && OutcomeOf(n).None? && !w.mem.paused && !Pauses(n)
    requires Onward(w.threads[id].kind, n, next)
    ensures Reachable(v) && v.threads == w.threads[id := Noted(w.threads[id], n, [], "").(pc := next)]
    ensures v.mem == Effect(w.mem, id, w.threads[id], n, [], "") && v.disk == v.mem && v.ended == w.ended && v.endedOnDisk == w.ended
    ensures v.used == w.used && v.blocked == w.blocked && v.owed == w.owed && v.lost == w.lost
  {
    hide Reachable, Onward, PhaseOf, Effect, Noted, OutcomeOf, Pauses, Acted, Passed;
    StepReachable(w, Act(id, [], ""));
    var u := After(w, Act(id, [], ""));
    SectionDone(w, id, n);
    StepReachable(u, Save(id, next));
    v := After(u, Save(id, next));
    PassedOn(Stored(u), id, next);
    assert u.threads[id := u.threads[id].(pc := next)] == w.threads[id := u.threads[id].(pc := next)];
  }

  lemma SectionDone(w: World, id: nat, n: Node)
    requires id in w.threads && w.threads[id].pc == At(n) && OutcomeOf(n).None? && !w.mem.paused && !Pauses(n)
    ensures var u := Acted(w, id, [], "");
            && u == w.(mem := Effect(w.mem, id, w.threads[id], n, [], ""), armed := u.armed, exposed := u.exposed,
                       threads := w.threads[id := Noted(w.threads[id], n, [], "").(pc := Saving(n))])
            && !u.mem.paused && u.threads[id].kind == w.threads[id].kind
            && u.threads[id].(pc := Gone) == Noted(w.threads[id], n, [], "").(pc := Gone)
  {
    hide PhaseOf;
  }

  lemma PassedOn(u: World, id: nat, next: Pc)
    requires id in u.threads
    ensures var v := Passed(u, id, next);
            && v.mem == u.mem && v.disk == u.disk && v.ended == u.ended && v.endedOnDisk == u.endedOnDisk
            && v.threads == u.threads[id := u.threads[id].(pc := next)]
            && v.used == u.used && v.blocked == u.blocked && v.owed == u.owed && v.lost == u.lost
  {
    hide Own;
  }

  // The first operation is a stack upgrade at this place.
  ghost predicate Upgrading(w: World, pc: Pc) {
    && Reachable(w) && w.threads == map[0 := Thread(Stack, pc, [], "")]
    && BusyWith(w.mem, 0) && w.mem.active.value.kind == Stack && w.mem.active.value.before == [] && w.mem.backupPath == ""
    && w.mem.keys.Keys == {"a"} && !w.mem.paused
    && w.used == {0} && w.owed == {} && w.lost == {} && w.ended == [] && w.endedOnDisk == []
  }

  lemma Along(w: World, n: Node, next: Pc) returns (v: World)
    requires Upgrading(w, At(n)) && OutcomeOf(n).None? && !Pauses(n) && Onward(Stack, n, next)
    ensures Upgrading(v, next) && v.disk == v.mem && v.mem == Effect(w.mem, 0, w.threads[0], n, [], "")
  {
    v := Forward(w, 0, n, next);
    EffectStays(w.mem, w.threads[0], n);
    NotedNothing(w.threads[0], n, next);
    hide Reachable, Effect, Noted, Onward, OutcomeOf, Pauses;
    assert v.threads == map[0 := Thread(Stack, next, [], "")];
  }

  lemma NotedNothing(th: Thread, n: Node, next: Pc)
    requires th.before == [] && th.backup == ""
    ensures Noted(th, n, [], "").(pc := next) == th.(pc := next)
  {
  }

  lemma EffectStays(s: Persist, th: Thread, n: Node)
    requires BusyWith(s, 0) && s.active.value.before == [] && s.backupPath == "" && th.before == [] && OutcomeOf(n).None? && !Pauses(n)
    ensures var t := Effect(s, 0, th, n, [], "");
            && BusyWith(t, 0) && t.active.value.kind == s.active.value.kind && t.active.value.before == [] && t.backupPath == ""
            && t.keys == s.keys && t.paused == s.paused
  {
    if PhaseOf(n).Some? {
      NodePhase(Stack, n);
    }
    hide PhaseOf, OutcomeOf, Pauses;
  }

  lemma UpgradeStarts() returns (w: World)
    ensures Upgrading(w, At(Preparing))
  {
    StartReachable();
    hide Reachable;
    w := Begin(START, Stack, "a", 0);
    assert w.mem.keys.Keys == {"a"};
    assert w.threads == map[0 := Thread(Stack, At(Preparing), [], "")];
  }

  // A stack upgrade up to the call of ApplyStack.
  lemma UpgradeApplies() returns (w: World)
    ensures Upgrading(w, InApply) && w.disk == w.mem && Dangerous(w.disk)
  {
    w := UpgradeStarts();
    hide Upgrading;
    w := Along(w, Preparing, At(KeepBefore));
    w := Along(w, KeepBefore, At(Checkpointing));
    w := Along(w, Checkpointing, At(KeepBackup));
    w := Along(w, KeepBackup, At(StagingImages));
    w := Along(w, StagingImages, At(KeepAfter));
    w := Along(w, KeepAfter, At(Node.Apply));
    var before := w;
    w := Along(w, Node.Apply, InApply);
    ApplyingIsDangerous(before, w);
  }

  lemma ApplyingIsDangerous(w: World, v: World)
    requires Upgrading(w, At(Node.Apply)) && v.mem == Effect(w.mem, 0, w.threads[0], Node.Apply, [], "")
    ensures Dangerous(v.mem)
  {
  }

  lemma CrashedApplying() returns (w: World)
    ensures Upgrading(w, At(RecoverRoll))
  {
    var u := UpgradeApplies();
    StepReachable(u, Crash);
    w := After(u, Crash);
    hide Reachable;
  }

  // Crashed while it applied, recovered, and the recovery's rollback failed: its end is in memory, its pause is
  // still to come.
  lemma RecoveryFails() returns (w: World)
    ensures Reachable(w) && w.threads == map[0 := Thread(Stack, Saving(RecoverFail), [], "")]
    ensures w.blocked && w.owed == {0} && w.lost == {} && w.used == {0} && w.mem.keys.Keys == {"a"}
    ensures w.mem.active.Some? && w.mem.active.value.state == Failed && !w.mem.paused
  {
    w := CrashedApplying();
    w := Along(w, RecoverRoll, InRestore(true));
    hide Upgrading;
    w := RestoreFails(w);
    w := FailureRecorded(w);
  }

  lemma FailureRecorded(u: World) returns (w: World)
    requires Reachable(u) && u.threads == map[0 := Thread(Stack, At(RecoverFail), [], "")] && BusyWith(u.mem, 0)
    ensures Reachable(w) && w.threads == map[0 := Thread(Stack, Saving(RecoverFail), [], "")]
    ensures w.blocked == u.blocked && w.owed == u.owed && w.lost == u.lost && w.used == u.used
    ensures w.mem.active.Some? && w.mem.active.value.state == Failed && w.mem.keys == u.mem.keys && w.mem.paused == u.mem.paused
  {
    hide Reachable;
    StepReachable(u, Act(0, [], ""));
    w := After(u, Act(0, [], ""));
    assert u.threads[0 := Thread(Stack, Saving(RecoverFail), [], "")] == map[0 := Thread(Stack, Saving(RecoverFail), [], "")];
  }

  lemma RestoreFails(u: World) returns (w: World)
    requires Upgrading(u, InRestore(true))
    ensures Reachable(w) && w.threads == map[0 := Thread(Stack, At(RecoverFail), [], "")] && w.mem == u.mem
    ensures w.blocked && w.owed == {0} && w.lost == {} && w.used == {0} && BusyWith(w.mem, 0)
    ensures w.mem.keys.Keys == {"a"} && !w.mem.paused
  {
    hide Reachable;
    StepReachable(u, Return(0, At(RecoverFail)));
    w := After(u, Return(0, At(RecoverFail)));
  }

  // No crash is needed: a stack upgrade requested before the goroutine comes to its pause is admitted.
  lemma RequestOutrunsPause() returns (w: World)
    ensures Reachable(w) && w.blocked && w.threads.Keys == {0} && PauseMissing(w, 0) && Possible(w, Submit(Stack, Scheduled, "b", 1))
  {
    w := RecoveryFails();
    assert "b" !in {"a"};
  }

  // And a crash there loses the pause for good: nothing is left to recover, and the upgrade is admitted.
  lemma CrashLosesPause() returns (w: World)
    ensures Reachable(w) && w.blocked && w.threads == map[] && PauseMissing(w, 0) && Possible(w, Submit(Stack, Scheduled, "b", 1))
  {
    var u := RecoveryFails();
    assert "b" !in {"a"};
    StepReachable(u, SaveNow);
    var v := After(u, SaveNow);
    StepReachable(v, Crash);
    w := After(v, Crash);
    hide Reachable;
  }

  // ---- A retained key whose operation has left the history ----

  function Key(i: nat): string {
    seq(i / 2 + 1, _ => if i % 2 == 0 then 'a' else 'b')
  }

  lemma KeysDiffer(i: nat, j: nat)
    requires i != j
    ensures Key(i) != Key(j)
  {
    assert |Key(i)| == i / 2 + 1 && |Key(j)| == j / 2 + 1;
    assert Key(i)[0] == (if i % 2 == 0 then 'a' else 'b') && Key(j)[0] == (if j % 2 == 0 then 'a' else 'b');
  }

  ghost predicate Keyed(keys: map<string, nat>, n: nat) {
    && |keys| == n && (forall k :: k in keys ==> keys[k] < n && k == Key(keys[k]))
    && (n > 0 ==> Key(0) in keys && keys[Key(0)] == 0)
  }

  lemma OneMoreKey(keys: map<string, nat>, n: nat)
    requires Keyed(keys, n)
    ensures Key(n) !in keys && Keyed(keys[Key(n) := n], n + 1)
  {
    if Key(n) in keys {
      KeysDiffer(n, keys[Key(n)]);
    }
    if n > 0 {
      KeysDiffer(0, n);
    }
    hide Key;
  }

  // `n` operations over, the newest first.
  ghost predicate Counted(ended: seq<Operation>, n: nat) {
    |ended| == n && forall j :: 0 <= j < n ==> ended[j].id == n - 1 - j
  }

  // After `n` checks one after another, none of them running.
  ghost predicate Checked(w: World, n: nat) {
    && Reachable(w) && !Busy(w.mem) && !w.mem.paused && (forall x :: x in w.used ==> x < n)
    && Counted(w.ended, n) && Keyed(w.mem.keys, n)
  }

  // One check, started and failed.
  lemma FailedCheck(w: World, key: string, id: nat) returns (v: World)
    requires Reachable(w) && Possible(w, Submit(Check, Scheduled, key, id)) && |w.mem.keys| <= MAX_HISTORY && !w.mem.paused
    ensures Reachable(v) && !Busy(v.mem) && !v.mem.paused && v.mem.keys == w.mem.keys[key := id] && v.used == w.used + {id}
    ensures |v.ended| == |w.ended| + 1 && v.ended[0].id == id && v.ended[1..] == w.ended
  {
    hide Reachable;
    v := Begin(w, Check, key, id);
    v := Checking(v, id);
    FailNow(v, id);
    hide After;
    v := After(v, Act(id, [], ""));
  }

  lemma Checking(w: World, id: nat) returns (v: World)
    requires Reachable(w) && BusyWith(w.mem, id) && id in w.threads && w.threads[id] == Thread(Check, At(Preparing), [], "") && !w.mem.paused
    ensures Reachable(v) && BusyWith(v.mem, id) && id in v.threads && v.threads[id].pc == At(Fail)
    ensures v.mem.paused == w.mem.paused && v.mem.keys == w.mem.keys && v.used == w.used && v.ended == w.ended
  {
    hide Reachable;
    v := Forward(w, id, Preparing, At(Fail));
  }

  lemma FailNow(w: World, id: nat)
    requires Reachable(w) && BusyWith(w.mem, id) && id in w.threads && w.threads[id].pc == At(Fail)
    ensures Possible(w, Act(id, [], ""))
    ensures var v := After(w, Act(id, [], ""));
            && Reachable(v) && !Busy(v.mem) && v.mem.paused == w.mem.paused && v.mem.keys == w.mem.keys && v.used == w.used
            && |v.ended| == |w.ended| + 1 && v.ended[0].id == id && v.ended[1..] == w.ended
  {
    hide Reachable;
    StepReachable(w, Act(id, [], ""));
  }

  lemma OneCheck(w: World, n: nat) returns (v: World)
    requires Checked(w, n) && n <= MAX_HISTORY
    ensures Checked(v, n + 1)
  {
    OneMoreKey(w.mem.keys, n);
    assert |w.mem.keys| == n && n !in w.used;
    v := FailedCheck(w, Key(n), n);
    hide Reachable, Possible, Key, Busy, Keyed;
    assert Counted(v.ended, n + 1) by {
      assert forall j :: 0 < j <= n ==> v.ended[j] == v.ended[1..][j - 1];
    }
  }

  lemma {:induction false} ManyChecks(n: nat) returns (w: World)
    requires n <= MAX_HISTORY + 1
    ensures Checked(w, n)
  {
    if n == 0 {
      StartReachable();
      w := START;
    } else {
      w := ManyChecks(n - 1);
      w := OneCheck(w, n - 1);
    }
  }

  // The inconsistency error is met in a run without crash, failure or trim: the key of the first of a hundred
  // and one operations, repeated.
  lemma OldKeyIsInconsistent() returns (w: World)
    ensures Reachable(w) && Key(0) in w.mem.keys && w.mem.keys[Key(0)] == 0 && OperationOf(w.mem, 0) == None
  {
    w := ManyChecks(MAX_HISTORY + 1);
    var worlds, steps :| IsRun(worlds, steps) && worlds[|steps|] == w;
    RepeatAnswer(worlds, steps, |steps|, Key(0));
    RunKeeps(worlds, steps, |steps|);
  }
}
