/** The updater as its code is written: the critical sections over memory and disk, and the operations that
    string them together. Each section leaves the record that Effect says, each operation follows the ways of
    UpdaterCode; what all interleavings of them keep is proved in UpdaterInvariant. */
module Updater {
  import opened Options
  import opened UpdaterCalls
  import opened UpdaterCode
  import opened UpdaterState

  datatype Outcome = Started(op: Operation) | Known(op: Operation) | Inconsistent | BusyNow | PausedNow | Unsaved

  datatype Scans = Clear | Deferred | Failing

  class Controller {
    var state: Persist
    var disk: Persist

    // The goroutine followed here, where it began, and the places it has come through.
    ghost var me: Thread
    ghost var from: Pc
    ghost var path: seq<Pc>

    // What it has asked of the runtime and the scanner, and the ends it has recorded.
    ghost var calls: seq<Asked>
    ghost var outcomes: seq<OpState>

    // ---- Requests ----

    method Save()
      modifies this`disk
      ensures disk == state
    {
      disk := state;
    }

    method Acknowledge()
      modifies this`state, this`disk
      ensures state == old(state).(paused := false) && disk == state
    {
      state := state.(paused := false);
      Save();
    }

    // Trigger up to the point where it lets go of the lock.
    method Admit(kind: Kind, origin: Origin, key: string, id: nat) returns (r: Outcome)
      modifies this`state
      ensures !r.Started? ==> state == old(state)
      ensures r.Started? <==> key !in old(state).keys && !Busy(old(state)) && (kind == Stack ==> !old(state).paused)
      ensures r.Started? ==> r.op == Operation(id, kind, origin, Queued, Fresh, [], []) && state == Admitted(old(state), r.op, key)
      ensures key in old(state).keys ==>
                r == (match OperationOf(state, state.keys[key]) case Some(op) => Known(op) case None => Inconsistent)
      ensures key !in old(state).keys && Busy(old(state)) ==> r == BusyNow
      ensures key !in old(state).keys && !Busy(old(state)) && kind == Stack && old(state).paused ==> r == PausedNow
    {
      if key in state.keys {
        match OperationOf(state, state.keys[key])
        case Some(op) => return Known(op);
        case None => return Inconsistent;
      }
      if state.active.Some? && !state.active.value.state.Terminal() {
        return BusyNow;
      }
      if kind == Stack && state.paused {
        return PausedNow;
      }
      var op := Operation(id, kind, origin, Queued, Fresh, [], []);
      state := state.(active := Some(op), backupPath := "", keys := state.keys[key := id]);
      TrimIdempotency();
      return Started(op);
    }

    method TrimIdempotency()
      modifies this`state
      ensures state == old(state).(keys := Trimmed(old(state)))
    {
      if |state.keys| <= MAX_HISTORY + 1 {
        return;
      }
      var keep := set i | 0 <= i < |state.history| :: state.history[i].id;
      if state.active.Some? {
        keep := keep + {state.active.value.id};
      }
      forall k | k in state.keys ensures state.keys[k] in keep <==>
        (state.active.Some? && state.active.value.id == state.keys[k]) || InHistory(state, state.keys[k])
      {
      }
      state := state.(keys := map k | k in state.keys && state.keys[k] in keep :: state.keys[k]);
    }

    // A refused or repeated request changes nothing; a started one is saved before it runs, or taken back.
    method Trigger(kind: Kind, origin: Origin, key: string, id: nat) returns (r: Outcome)
      modifies this`state, this`disk
      ensures !r.Started? && r != Unsaved ==> state == old(state) && disk == old(disk)
      ensures r.Started? || r == Unsaved <==> key !in old(state).keys && !Busy(old(state)) && (kind == Stack ==> !old(state).paused)
      ensures r.Started? ==>
                && r.op == Operation(id, kind, origin, Queued, Fresh, [], [])
                && state == Admitted(old(state), r.op, key).(paused := state.paused) && disk == state
      ensures r == Unsaved ==>
                var op := Operation(id, kind, origin, Queued, Fresh, [], []);
                state == TakenBack(Admitted(old(state), op, key), id, key).(paused := state.paused)
    {
      r := Admit(kind, origin, key, id);
      if !r.Started? {
        return;
      }
      Interleave(id);
      var saved: bool := *;
      if saved {
        Save();
      } else {
        if state.active.Some? && state.active.value.id == id {
          state := state.(active := None, keys := state.keys - {key});
        }
        r := Unsaved;
      }
    }

    // Other goroutines and requests have their turn. While an operation runs they only save, acknowledge or
    // pause, and one that is over does not run again (UpdaterTheorems.OthersLeaveRunning).
    method Interleave(id: nat)
      modifies this`state, this`disk
      ensures BusyWith(old(state), id) ==> state == old(state).(paused := state.paused)
      ensures !BusyWith(old(state), id) ==> !BusyWith(state, id)
    {
      var paused: bool := *;
      var other: Persist := *;
      if state.active.Some? && state.active.value.id == id && !state.active.value.state.Terminal() {
        state := state.(paused := paused);
      } else if !BusyWith(other, id) {
        state := other;
      }
      disk := *;
    }

    // ---- One critical section ----

    // Every place leads to the next.
    ghost predicate Walked()
      reads this`me, this`from, this`path
    {
      && path != [] && path[0] == from && path[|path| - 1] == me.pc
      && forall i :: 0 <= i < |path| - 1 ==> Leads(me.kind, path[i], path[i + 1])
    }

    // The goroutine is at the section, or its code leads there next.
    ghost predicate Enters(n: Node)
      reads this`me, this`from, this`path
    {
      Walked() && (me.pc == At(n) || Leads(me.kind, me.pc, At(n)))
    }

    ghost method Step(next: Pc)
      requires Walked() && Leads(me.kind, me.pc, next)
      modifies this`me, this`path
      ensures Walked() && me == old(me).(pc := next)
    {
      path := path + [next];
      me := me.(pc := next);
    }

    ghost method Enter(n: Node)
      requires Enters(n)
      modifies this`me, this`path
      ensures Walked() && me == old(me).(pc := At(n))
    {
      if me.pc != At(n) {
        Step(At(n));
      }
    }

    // phase, under the lock.
    method PhaseLocked(ghost n: Node, id: nat, running: OpState, phase: Phase)
      requires PhaseOf(n) == Some((running, phase))
      modifies this`state
      ensures state == Effect(old(state), id, me, n, [], "")
      ensures IsActive(old(state), id) ==>
                state == old(state).(active := Some(old(state).active.value.(state := running, phase := phase)))
    {
      if state.active.Some? && state.active.value.id == id {
        state := state.(active := Some(state.active.value.(state := running, phase := phase)));
      }
    }

    // setImages, under the lock: with no images after, they are those before.
    method ImagesLocked(ghost n: Node, id: nat, before: seq<Image>, after: seq<Image>)
      requires (n == KeepBefore && after == []) || (n == KeepAfter && before == me.before)
      modifies this`state
      ensures state == Effect(old(state), id, me, n, if n == KeepBefore then before else after, "")
      ensures IsActive(old(state), id) ==>
                state == old(state).(active := Some(old(state).active.value.(before := before, after := after)))
    {
      if state.active.Some? && state.active.value.id == id {
        state := state.(active := Some(state.active.value.(before := before, after := after)));
      }
    }

    // setBackup, under the lock.
    method BackupLocked(id: nat, backup: string)
      modifies this`state
      ensures state == Effect(old(state), id, me, KeepBackup, [], backup)
      ensures IsActive(old(state), id) ==> state == old(state).(backupPath := backup)
    {
      if state.active.Some? && state.active.value.id == id {
        state := state.(backupPath := backup);
      }
    }

    // finish, under the lock: only an operation that is still running can be finished.
    method FinishLocked(ghost n: Node, id: nat, outcome: OpState) returns (finished: bool)
      requires OutcomeOf(n) == Some(outcome)
      modifies this`state, this`outcomes
      ensures finished == BusyWith(old(state), id)
      ensures state == Effect(old(state), id, me, n, [], "")
      ensures outcomes == if finished then old(outcomes) + [outcome] else old(outcomes)
      ensures finished ==>
                var done := old(state).active.value.(state := outcome, phase := Ended(outcome));
                && state.active == Some(done) && |state.history| > 0 && state.history[0] == done && state.backupPath == ""
                && state.paused == old(state).paused && state.keys == old(state).keys
    {
      if state.active.None? || state.active.value.id != id || state.active.value.state.Terminal() {
        return false;
      }
      var done := state.active.value.(state := outcome, phase := Ended(outcome));
      var history := [done] + state.history;
      state := state.(active := Some(done), history := history, backupPath := "");
      outcomes := outcomes + [outcome];
      if |history| > MAX_HISTORY {
        state := state.(history := history[..MAX_HISTORY]);
      }
      return true;
    }

    // pauseAutomation, under the lock.
    method PauseLocked(ghost n: Node, id: nat)
      requires Pauses(n)
      modifies this`state
      ensures state == Effect(old(state), id, me, n, [], "") && state == old(state).(paused := true)
    {
      state := state.(paused := true);
    }

    // ---- Sections with their saves ----

    // Best effort in the source; taken to succeed.
    method PersistBestEffort(id: nat)
      modifies this`state, this`disk
      ensures BusyWith(old(state), id) ==> state == old(state).(paused := state.paused)
      ensures !BusyWith(old(state), id) ==> !BusyWith(state, id)
    {
      Interleave(id);
      Save();
      Interleave(id);
    }

    method SetPhase(ghost n: Node, id: nat, running: OpState, phase: Phase)
      requires Enters(n) && BusyWith(state, id) && PhaseOf(n) == Some((running, phase))
      modifies this`state, this`disk, this`me, this`path
      ensures Walked() && me == old(me).(pc := Saving(n)) && BusyWith(state, id)
    {
      Enter(n);
      Interleave(id);
      PhaseLocked(n, id, running, phase);
      Step(Saving(n));
      PersistBestEffort(id);
    }

    method SetImages(ghost n: Node, id: nat, before: seq<Image>, after: seq<Image>)
      requires Enters(n) && BusyWith(state, id)
      requires (n == KeepBefore && after == []) || (n == KeepAfter && before == me.before)
      modifies this`state, this`disk, this`me, this`path
      ensures Walked() && me == old(me).(pc := Saving(n), before := before) && BusyWith(state, id)
    {
      Enter(n);
      Interleave(id);
      ImagesLocked(n, id, before, after);
      me := Noted(me, n, before, "");
      Step(Saving(n));
      PersistBestEffort(id);
    }

    // The one save whose failure the caller hears of.
    method SetBackup(id: nat, backup: string) returns (ok: bool)
      requires Enters(KeepBackup) && BusyWith(state, id)
      modifies this`state, this`disk, this`me, this`path, this`calls
      ensures Walked() && me == old(me).(pc := Saving(KeepBackup), backup := backup) && BusyWith(state, id)
      ensures Appended(old(calls), calls, Asked(SaveRecord, ok, [], ""))
      ensures ok ==> disk == state
    {
      Enter(KeepBackup);
      Interleave(id);
      BackupLocked(id, backup);
      me := Noted(me, KeepBackup, [], backup);
      Step(Saving(KeepBackup));
      Interleave(id);
      ok := Try(SaveRecord);
      if ok {
        Save();
      }
    }

    // Leaves no operation running; one that was over already is left alone, without a save.
    method Finish(ghost n: Node, id: nat, outcome: OpState)
      requires Enters(n) && OutcomeOf(n) == Some(outcome)
      modifies this`state, this`disk, this`me, this`path, this`outcomes
      ensures Walked() && !BusyWith(state, id)
      ensures outcomes == if BusyWith(old(state), id) then old(outcomes) + [outcome] else old(outcomes)
      ensures me == old(me).(pc := if BusyWith(old(state), id) then Saving(n) else Gone)
    {
      Enter(n);
      Interleave(id);
      var finished := FinishLocked(n, id, outcome);
      if finished {
        Step(Saving(n));
        PersistBestEffort(id);
      } else {
        Step(Gone);
      }
    }

    method PauseAutomation(ghost n: Node, id: nat)
      requires Enters(n) && Pauses(n)
      modifies this`state, this`disk, this`me, this`path
      ensures Walked() && me == old(me).(pc := Saving(n)) && (BusyWith(state, id) <==> BusyWith(old(state), id))
    {
      Enter(n);
      Interleave(id);
      PauseLocked(n, id);
      Step(Saving(n));
      PersistBestEffort(id);
    }

    // ---- Calls into the runtime and the scanner ----

    method Try(call: Call) returns (ok: bool)
      modifies this`calls
      ensures Appended(old(calls), calls, Asked(call, ok, [], ""))
    {
      ok := *;
      calls := calls + [Asked(call, ok, [], "")];
    }

    // The wait between two polls; at the deadline it comes back with an error.
    method Sleep(left: nat) returns (awake: bool)
      modifies this`calls
      ensures Appended(old(calls), calls, Asked(Pause, awake, [], "")) && (left == 0 ==> !awake)
    {
      awake := *;
      awake := awake && left > 0;
      calls := calls + [Asked(Pause, awake, [], "")];
    }

    method AskImages(call: Call) returns (ok: bool, images: seq<Image>)
      modifies this`calls
      ensures Appended(old(calls), calls, Asked(call, ok, images, ""))
    {
      ok, images := *, *;
      calls := calls + [Asked(call, ok, images, "")];
    }

    method AskPath(call: Call) returns (ok: bool, answer: string)
      modifies this`calls
      ensures Appended(old(calls), calls, Asked(call, ok, [], answer))
    {
      ok, answer := *, *;
      calls := calls + [Asked(call, ok, [], answer)];
    }

    // The next call of a script.
    method TryNext(ghost script: seq<Call>, ghost from: nat, call: Call) returns (ok: bool)
      requires Going(script, calls, from) && |calls| < from + |script| && script[|calls| - from] == call
      modifies this`calls
      ensures |calls| == |old(calls)| + 1 && Extends(old(calls), calls)
      ensures forall older :: Extends(older, old(calls)) ==> Extends(older, calls)
      ensures if ok then Going(script, calls, from) else Ran(script, calls, from, |calls|, false)
    {
      ok := Try(call);
      AppendedExtends(old(calls), calls, calls[|old(calls)|]);
      GoingOn(script, old(calls), calls, from, calls[|old(calls)|]);
    }

    method NextImages(ghost script: seq<Call>, ghost from: nat, call: Call) returns (ok: bool, images: seq<Image>)
      requires Going(script, calls, from) && |calls| < from + |script| && script[|calls| - from] == call
      modifies this`calls
      ensures |calls| == |old(calls)| + 1 && Extends(old(calls), calls) && calls[|old(calls)|].images == images
      ensures forall older :: Extends(older, old(calls)) ==> Extends(older, calls)
      ensures if ok then Going(script, calls, from) else Ran(script, calls, from, |calls|, false)
    {
      ok, images := AskImages(call);
      AppendedExtends(old(calls), calls, calls[|old(calls)|]);
      GoingOn(script, old(calls), calls, from, calls[|old(calls)|]);
    }

    method NextPath(ghost script: seq<Call>, ghost from: nat, call: Call) returns (ok: bool, answer: string)
      requires Going(script, calls, from) && |calls| < from + |script| && script[|calls| - from] == call
      modifies this`calls
      ensures |calls| == |old(calls)| + 1 && Extends(old(calls), calls) && calls[|old(calls)|].path == answer
      ensures forall older :: Extends(older, old(calls)) ==> Extends(older, calls)
      ensures if ok then Going(script, calls, from) else Ran(script, calls, from, |calls|, false)
    {
      ok, answer := AskPath(call);
      AppendedExtends(old(calls), calls, calls[|old(calls)|]);
      GoingOn(script, old(calls), calls, from, calls[|old(calls)|]);
    }

    // Runtime.Rollback, called with what the goroutine holds.
    method CallRollback(id: nat, images: seq<Image>, backup: string) returns (ok: bool)
      requires Walked() && (me.pc == Saving(RollBack) || me.pc == Saving(RecoverRoll)) && Own(id, me) == Checkpointed(id, images, backup)
      modifies this`state, this`disk, this`me, this`path, this`calls
      ensures Walked() && me == old(me).(pc := InRestore(old(me).pc == Saving(RecoverRoll)))
      ensures Appended(old(calls), calls, Asked(Restore(Own(id, me)), ok, [], ""))
      ensures BusyWith(state, id) <==> BusyWith(old(state), id)
    {
      Step(InRestore(me.pc == Saving(RecoverRoll)));
      ok := Try(Restore(Checkpointed(id, images, backup)));
      Interleave(id);
    }

    // ---- The operations ----

    // Polls until no scan is active; past its window a scheduled upgrade is cancelled.
    method WaitForScans(id: nat, origin: Origin) returns (r: Scans)
      requires Walked() && me.pc.Submitting? && me.kind == Stack && BusyWith(state, id) && calls == [] && outcomes == []
      modifies this`state, this`disk, this`me, this`path, this`calls, this`outcomes
      ensures Walked() && me.kind == Stack && (r == Deferred <==> !BusyWith(state, id))
      ensures if r == Deferred then me.pc == Saving(Cancel) else me.pc.Submitting? || me.pc == Saving(Wait)
      ensures match r
              case Clear => Polled(calls, |calls|) && AllOk(calls, |calls|) && |calls| % 2 == 1 && outcomes == []
              case Failing => NotPastScans(calls, OpState.Failed) && outcomes == []
              case Deferred => NotPastScans(calls, Cancelled) && outcomes == [Cancelled] && origin == Scheduled
    {
      hide Walked, BusyWith;
      var polls: nat := *;
      while true
        invariant Walked() && me.kind == Stack && BusyWith(state, id) && (me.pc.Submitting? || me.pc == Saving(Wait))
        invariant Polled(calls, |calls|) && AllOk(calls, |calls|) && |calls| % 2 == 0 && outcomes == []
        decreases polls
      {
        var known := Try(ListScans);
        if !known {
          return Failing;
        }
        var active: bool, expired: bool := *, *;
        if !active {
          return Clear;
        }
        SetPhase(Wait, id, Waiting, WaitingForScans);
        if origin == Scheduled && expired {
          Finish(Cancel, id, Cancelled);
          return Deferred;
        }
        var awake := Sleep(polls);
        if !awake {
          return Failing;
        }
        polls := polls - 1;
      }
    }

    // What the operation leaves to execute: a finish that succeeds or fails, an error only while it runs.
    ghost predicate Leaves(id: nat, failed: bool)
      reads this`me, this`from, this`path, this`state
    {
      if !failed then Enters(Succeed) else BusyWith(state, id) && (Enters(Fail) || Enters(FailRolled))
    }

    // The end the operation has recorded, or the one its finish will record.
    ghost predicate Comes(id: nat, failed: bool, end: OpState)
      reads this`state, this`outcomes
    {
      if BusyWith(state, id) then outcomes == [] && end == (if failed then OpState.Failed else Succeeded) else outcomes == [end]
    }

    method RunCheck(id: nat) returns (failed: bool)
      requires Walked() && me.pc.Submitting? && me.kind == Check && BusyWith(state, id) && calls == [] && outcomes == []
      modifies this`state, this`disk, this`me, this`path, this`calls
      ensures Leaves(id, failed) && BusyWith(state, id)
      ensures CheckRan(calls, if failed then OpState.Failed else Succeeded)
    {
      SetPhase(Preparing, id, OpState.Running, Preflight);
      hide Walked, BusyWith, Leads, Onward, Ran;
      Way(Check, Preparing, Fail);
      Way(Check, Preparing, Succeed);
      var ok := LookAround();
      failed := !ok;
    }

    // What a check asks, and the save of what it saw.
    method LookAround() returns (ok: bool)
      requires calls == []
      modifies this`disk, this`calls
      ensures Ran(CHECK, calls, 0, |calls|, ok)
    {
      GoingStarts(CHECK, calls);
      hide Going, Ran, Extends;
      ok := TryNext(CHECK, 0, ValidateRuntime);
      if !ok {
        return;
      }
      ok := TryNext(CHECK, 0, PingScanner);
      if !ok {
        return;
      }
      var images;
      ok, images := NextImages(CHECK, 0, SnapshotImages);
      if !ok {
        return;
      }
      ok := TryNext(CHECK, 0, ListFeeds);
      if !ok {
        return;
      }
      ok := TryNext(CHECK, 0, SaveRecord);
      if ok {
        Save();
        GoingEnds(CHECK, calls, 0);
      }
    }

    method RunFeed(id: nat) returns (failed: bool, ghost end: OpState)
      requires Walked() && me.pc.Submitting? && me.kind == Feed && BusyWith(state, id) && calls == [] && outcomes == []
      modifies this`state, this`disk, this`me, this`path, this`calls, this`outcomes
      ensures Leaves(id, failed) && Comes(id, failed, end) && FeedRan(calls, end)
    {
      failed, end := true, OpState.Failed;
      SetPhase(Preparing, id, OpState.Running, Preflight);
      var ok, before, after := PullFeed(id);
      if !ok {
        FeedStops(calls);
        return;
      }
      failed, end := Refresh(id, before, after);
    }

    // Up to the pulled feed images, and what a refresh would replace.
    method PullFeed(id: nat) returns (ok: bool, before: seq<Image>, after: seq<Image>)
      requires Walked() && me.pc == Saving(Preparing) && me.kind == Feed && BusyWith(state, id) && calls == []
      modifies this`state, this`disk, this`me, this`path, this`calls
      ensures Walked() && me.kind == Feed && BusyWith(state, id) && (if ok then me.pc == Saving(KeepAfter) else Enters(Fail))
      ensures Ran(FEED, calls, 0, |calls|, ok) && (ok ==> |calls| == 5 && calls[1].images == before && calls[4].images == after)
    {
      hide Walked, BusyWith, Leads, Onward, Going, Ran, Extends;
      after := [];
      Way(Feed, Preparing, Fail);
      ok, before := LookAtFeed();
      if !ok {
        return;
      }
      ghost var seen := calls;
      Way(Feed, Preparing, KeepBefore);
      SetImages(KeepBefore, id, before, []);
      Way(Feed, KeepBefore, Pull);
      SetPhase(Pull, id, OpState.Running, Pulling);
      Way(Feed, Pull, Fail);
      ok, after := PullFeedNow(seen);
      if ok {
        Way(Feed, Pull, KeepAfter);
        SetImages(KeepAfter, id, before, after);
      }
    }

    method LookAtFeed() returns (ok: bool, before: seq<Image>)
      requires calls == []
      modifies this`calls
      ensures if ok then Going(FEED, calls, 0) else Ran(FEED, calls, 0, |calls|, false)
      ensures ok ==> |calls| == 3 && calls[1].images == before
    {
      GoingStarts(FEED, calls);
      hide Going, Ran, Extends;
      before := [];
      ok := TryNext(FEED, 0, ValidateRuntime);
      if !ok {
        return;
      }
      ok, before := NextImages(FEED, 0, SnapshotImages);
      if !ok {
        return;
      }
      ghost var seen := calls;
      ok := TryNext(FEED, 0, ListFeeds);
      StillThere(seen, calls, 1);
    }

    method PullFeedNow(ghost seen: seq<Asked>) returns (ok: bool, after: seq<Image>)
      requires Going(FEED, calls, 0) && |calls| == 3 && seen == calls
      modifies this`calls
      ensures Ran(FEED, calls, 0, |calls|, ok)
      ensures ok ==> |calls| == 5 && calls[1] == seen[1] && calls[4].images == after
    {
      GoingStarts(FEED, calls);
      hide Going, Ran, Extends;
      after := [];
      ok := TryNext(FEED, 0, PullFeedImages);
      if !ok {
        return;
      }
      ok, after := NextImages(FEED, 0, ResolveImages);
      if ok {
        GoingEnds(FEED, calls, 0);
        StillThere(seen, calls, 1);
      }
    }

    // Changed images are applied and imported.
    method Refresh(id: nat, before: seq<Image>, after: seq<Image>) returns (failed: bool, ghost end: OpState)
      requires Walked() && me.pc == Saving(KeepAfter) && me.kind == Feed && BusyWith(state, id) && outcomes == []
      requires |calls| == 5 && Ran(FEED, calls, 0, 5, true) && calls[1].images == before && calls[4].images == after
      modifies this`state, this`disk, this`me, this`path, this`calls, this`outcomes
      ensures Leaves(id, failed) && Comes(id, failed, end) && FeedRan(calls, end)
    {
      hide Walked, BusyWith, Leads, Onward, Differ, Ran, FeedRan, Appended;
      ghost var staged := calls;
      var changed := ImagesChanged(before, after);
      if !changed {
        Way(Feed, KeepAfter, CleanUp);
        var removed := RemoveImages(id);
        FeedUnchanged(staged, calls, Asked(DropImages, removed, [], ""));
        return false, Succeeded;
      }
      Way(Feed, KeepAfter, ApplyFeed);
      SetPhase(ApplyFeed, id, OpState.Running, Applying);
      Way(Feed, ApplyFeed, Fail);
      var ok := Try(RunApplyFeed);
      if !ok {
        FeedNotApplied(staged, calls, Asked(RunApplyFeed, false, [], ""));
        return true, OpState.Failed;
      }
      failed, end := AwaitImport(id, staged);
    }

    // The applied feed is waited for; without its import the refresh has degraded.
    method AwaitImport(id: nat, ghost staged: seq<Asked>) returns (failed: bool, ghost end: OpState)
      requires Walked() && me.pc == Saving(ApplyFeed) && me.kind == Feed && BusyWith(state, id) && outcomes == []
      requires |staged| == 5 && Ran(FEED, staged, 0, 5, true) && Differ(staged[1].images, staged[4].images)
      requires Appended(staged, calls, Asked(RunApplyFeed, true, [], ""))
      modifies this`state, this`disk, this`me, this`path, this`calls, this`outcomes
      ensures Leaves(id, failed) && Comes(id, failed, end) && FeedRan(calls, end)
    {
      hide Walked, BusyWith, Leads, Onward, Differ, Ran, FeedRan, Appended;
      ghost var applying := calls;
      Way(Feed, ApplyFeed, Import);
      SetPhase(Import, id, OpState.Running, Importing);
      var ok := Try(AwaitFeeds);
      if !ok {
        Degrade(id);
        FeedNotImported(staged, applying, calls, Asked(RunApplyFeed, true, [], ""), Asked(AwaitFeeds, false, [], ""));
        return false, Degraded;
      }
      ghost var importing := calls;
      Way(Feed, Import, CleanUp);
      var removed := RemoveImages(id);
      FeedImported(staged, applying, importing, calls, Asked(RunApplyFeed, true, [], ""), Asked(AwaitFeeds, true, [], ""),
                   Asked(DropImages, removed, [], ""));
      return false, Succeeded;
    }

    method Degrade(id: nat)
      requires Walked() && me.pc == Saving(Import) && me.kind == Feed && BusyWith(state, id)
      modifies this`state, this`disk, this`me, this`path, this`outcomes
      ensures Enters(Succeed) && !BusyWith(state, id) && outcomes == old(outcomes) + [Degraded]
    {
      hide Walked, BusyWith, Leads, Onward;
      Way(Feed, Import, EndDegraded);
      Finish(EndDegraded, id, Degraded);
      Way(Feed, EndDegraded, Succeed);
    }

    // pruneImages: what it brings does not count.
    method RemoveImages(id: nat) returns (removed: bool)
      requires Enters(CleanUp) && BusyWith(state, id)
      modifies this`state, this`disk, this`me, this`path, this`calls
      ensures Walked() && me == old(me).(pc := Saving(CleanUp)) && BusyWith(state, id) && Enters(Succeed)
      ensures Appended(old(calls), calls, Asked(DropImages, removed, [], ""))
    {
      hide Walked, BusyWith, Leads, Onward;
      SetPhase(CleanUp, id, OpState.Running, Cleanup);
      removed := Try(DropImages);
      Way(me.kind, CleanUp, Succeed);
    }

    // Up to the pulled images: nothing here touches the running stack, and what a rollback needs is on disk.
    method Stage(id: nat) returns (ok: bool, before: seq<Image>, backup: string, after: seq<Image>)
      requires Enters(Preparing) && me.kind == Stack && BusyWith(state, id)
      modifies this`state, this`disk, this`me, this`path, this`calls
      ensures Walked() && me.kind == Stack && BusyWith(state, id)
      ensures if ok then me.pc == Saving(KeepAfter) && Own(id, me) == Checkpointed(id, before, backup) else Enters(Fail)
      ensures Extends(old(calls), calls) && Ran(STAGE, calls, |old(calls)|, |calls|, ok)
      ensures ok ==>
                var n := |old(calls)|;
                |calls| == n + 7 && before == calls[n + 2].images && backup == calls[n + 3].path && after == calls[n + 6].images
    {
      ghost var n := |calls|;
      hide Walked, BusyWith, Leads, Onward, Going, Ran, Extends;
      backup, after := "", [];
      SetPhase(Preparing, id, OpState.Running, Preflight);
      Way(Stack, Preparing, Fail);
      ok, before := LookAtStack();
      if !ok {
        return;
      }
      ghost var seen := calls;
      Way(Stack, Preparing, KeepBefore);
      SetImages(KeepBefore, id, before, []);
      ok, backup := KeepCheckpoint(n, id);
      ExtendsTwice(old(calls), seen, calls);
      if !ok {
        return;
      }
      ghost var kept := calls;
      StillThere(seen, kept, n + 2);
      ok, after := PullStack(n, id, before);
      ExtendsTwice(old(calls), kept, calls);
      StillThere(kept, calls, n + 2);
      StillThere(kept, calls, n + 3);
    }

    method LookAtStack() returns (ok: bool, before: seq<Image>)
      modifies this`calls
      ensures Extends(old(calls), calls)
      ensures if ok then Going(STAGE, calls, |old(calls)|) else Ran(STAGE, calls, |old(calls)|, |calls|, false)
      ensures ok ==> |calls| == |old(calls)| + 3 && calls[|old(calls)| + 2].images == before
    {
      ghost var n := |calls|;
      GoingStarts(STAGE, calls);
      hide Going, Ran, Extends;
      before := [];
      ok := TryNext(STAGE, n, ValidateRuntime);
      if !ok {
        return;
      }
      ok := TryNext(STAGE, n, PingScanner);
      if !ok {
        return;
      }
      ok, before := NextImages(STAGE, n, SnapshotImages);
    }

    // The database checkpoint, taken and on disk.
    method KeepCheckpoint(ghost n: nat, id: nat) returns (ok: bool, backup: string)
      requires Walked() && me.pc == Saving(KeepBefore) && me.kind == Stack && BusyWith(state, id)
      requires Going(STAGE, calls, n) && |calls| == n + 3
      modifies this`state, this`disk, this`me, this`path, this`calls
      ensures Walked() && BusyWith(state, id) && Extends(old(calls), calls)
      ensures if ok then me == old(me).(pc := Saving(KeepBackup), backup := backup) else Enters(Fail) && me.kind == Stack
      ensures if ok then Going(STAGE, calls, n) && |calls| == n + 5 && calls[n + 3].path == backup
              else Ran(STAGE, calls, n, |calls|, false)
    {
      hide Walked, BusyWith, Leads, Onward, Going, Ran, Extends, Appended;
      FailedSaveWay(Stack);
      Way(Stack, KeepBefore, Checkpointing);
      SetPhase(Checkpointing, id, OpState.Running, Checkpoint);
      Way(Stack, Checkpointing, Fail);
      ok, backup := NextPath(STAGE, n, MakeBackup);
      if !ok {
        return;
      }
      Way(Stack, Checkpointing, KeepBackup);
      ghost var asked := calls;
      ok := SetBackup(id, backup);
      AppendedLength(asked, calls, Asked(SaveRecord, ok, [], ""));
      AppendedExtends(asked, calls, Asked(SaveRecord, ok, [], ""));
      GoingOn(STAGE, asked, calls, n, Asked(SaveRecord, ok, [], ""));
      StillThere(asked, calls, n + 3);
    }

    method PullStack(ghost n: nat, id: nat, before: seq<Image>) returns (ok: bool, after: seq<Image>)
      requires Walked() && me.pc == Saving(KeepBackup) && me.before == before && me.kind == Stack && BusyWith(state, id)
      requires Going(STAGE, calls, n) && |calls| == n + 5
      modifies this`state, this`disk, this`me, this`path, this`calls
      ensures Walked() && BusyWith(state, id) && Extends(old(calls), calls) && Ran(STAGE, calls, n, |calls|, ok)
      ensures if ok then me == old(me).(pc := Saving(KeepAfter)) else Enters(Fail) && me.kind == Stack
      ensures ok ==> |calls| == n + 7 && after == calls[n + 6].images
    {
      hide Walked, BusyWith, Leads, Onward, Going, Ran, Extends;
      after := [];
      Way(Stack, KeepBackup, StagingImages);
      SetPhase(StagingImages, id, OpState.Running, Staging);
      Way(Stack, StagingImages, Fail);
      ok := TryNext(STAGE, n, PullStackImages);
      if !ok {
        return;
      }
      ok, after := NextImages(STAGE, n, ResolveImages);
      if !ok {
        return;
      }
      GoingEnds(STAGE, calls, n);
      Way(Stack, StagingImages, KeepAfter);
      SetImages(KeepAfter, id, before, after);
    }

    method RunStack(id: nat, origin: Origin) returns (failed: bool, ghost end: OpState)
      requires Walked() && me.pc.Submitting? && me.kind == Stack && BusyWith(state, id) && calls == [] && outcomes == []
      modifies this`state, this`disk, this`me, this`path, this`calls, this`outcomes
      ensures Leaves(id, failed) && Comes(id, failed, end) && StackRan(id, calls, end)
      ensures (end == Cancelled ==> origin == Scheduled) && RestoresOnly(calls, Own(id, me))
    {
      var scans := WaitForScans(id, origin);
      hide Polled, AllOk, NotPastScans, RestoresOnly;
      if scans == Failing {
        PolledRestores(calls, Own(id, me), OpState.Failed);
        return true, OpState.Failed;
      }
      if scans == Deferred {
        PolledRestores(calls, Own(id, me), Cancelled);
        return false, Cancelled;
      }
      failed, end := Upgrade(id);
    }

    // With no scan active.
    method Upgrade(id: nat) returns (failed: bool, ghost end: OpState)
      requires Enters(Preparing) && me.kind == Stack && BusyWith(state, id) && outcomes == [] && NoScans(calls)
      modifies this`state, this`disk, this`me, this`path, this`calls, this`outcomes
      ensures Leaves(id, failed) && Comes(id, failed, end) && StackRan(id, calls, end) && end != Cancelled
      ensures RestoresOnly(calls, Own(id, me))
    {
      hide Walked, BusyWith, Leads, Onward, StackRan, Differ, Ran, ApplyRan, NoScans, Extends, Appended, RestoresOnly;
      ghost var polled := calls;
      var ok, before, backup, after := Stage(id);
      if !ok {
        StageStops(id, polled, calls, Own(id, me));
        return true, OpState.Failed;
      }
      ghost var staged := calls;
      var changed := ImagesChanged(before, after);
      if !changed {
        Way(Stack, KeepAfter, CleanUp);
        var removed := RemoveImages(id);
        ghost var removing := calls;
        Way(Stack, CleanUp, Fail);
        ok := Try(DropBackups);
        StackUnchanged(id, polled, staged, removing, calls, Asked(DropImages, removed, [], ""), Asked(DropBackups, ok, [], ""), Own(id, me));
        return !ok, if ok then Succeeded else OpState.Failed;
      }
      failed, end := ApplyAndVerify(id, before, backup);
      StackApplied(id, polled, staged, calls, Own(id, me), end);
    }

    // An error of ApplyStack leads into the rollback.
    method ApplyAndVerify(id: nat, before: seq<Image>, backup: string) returns (failed: bool, ghost end: OpState)
      requires Walked() && me.pc == Saving(KeepAfter) && me.kind == Stack && BusyWith(state, id) && outcomes == []
      requires Own(id, me) == Checkpointed(id, before, backup)
      modifies this`state, this`disk, this`me, this`path, this`calls, this`outcomes
      ensures Leaves(id, failed) && Comes(id, failed, end) && Own(id, me) == old(Own(id, me))
      ensures Extends(old(calls), calls) && ApplyRan(Own(id, me), calls, |old(calls)|, end)
    {
      hide Walked, BusyWith, Leads, Onward, RestoreRan, ApplyRan, Comes, Leaves, Appended, Extends;
      ApplyWays(Stack);
      Way(Stack, KeepAfter, Node.Apply);
      SetPhase(Node.Apply, id, OpState.Running, Applying);
      Step(InApply);
      var ok := Try(RunApplyStack);
      if !ok {
        ghost var applying := calls;
        failed, end := Rollback(id, before, backup);
        ApplyFails(Own(id, me), old(calls), applying, calls, Asked(RunApplyStack, false, [], ""), end);
        return;
      }
      failed, end := VerifyStack(id, before, backup, old(calls));
    }

    // And so does one of the verification; what cleanup brings does not count.
    method VerifyStack(id: nat, before: seq<Image>, backup: string, ghost was: seq<Asked>) returns (failed: bool, ghost end: OpState)
      requires Walked() && me.pc == InApply && me.kind == Stack && BusyWith(state, id) && outcomes == []
      requires Own(id, me) == Checkpointed(id, before, backup) && Appended(was, calls, Asked(RunApplyStack, true, [], ""))
      modifies this`state, this`disk, this`me, this`path, this`calls, this`outcomes
      ensures Leaves(id, failed) && Comes(id, failed, end) && Own(id, me) == old(Own(id, me))
      ensures Extends(was, calls) && ApplyRan(Own(id, me), calls, |was|, end)
    {
      hide Walked, BusyWith, Leads, Onward, RestoreRan, ApplyRan, Comes, Leaves, Appended, Extends, Cleaned;
      ApplyWays(Stack);
      VerifyWays(Stack);
      ghost var applying := calls;
      SetPhase(Verify, id, OpState.Running, Verifying);
      Step(InVerify);
      var ok := Try(AwaitScanner);
      ghost var verifying := calls;
      if !ok {
        failed, end := Rollback(id, before, backup);
        VerifyFails(Own(id, me), was, applying, verifying, calls,
                    Asked(RunApplyStack, true, [], ""), Asked(AwaitScanner, false, [], ""), end);
        return;
      }
      failed, end := Clean(id);
      ApplyEnds(Own(id, me), was, applying, verifying, calls, Asked(RunApplyStack, true, [], ""), Asked(AwaitScanner, true, [], ""));
    }

    // After a verified upgrade; errors here are only logged.
    method Clean(id: nat) returns (failed: bool, ghost end: OpState)
      requires Enters(CleanUpApplied) && me.kind == Stack && BusyWith(state, id) && outcomes == []
      modifies this`state, this`disk, this`me, this`path, this`calls
      ensures !failed && end == Succeeded && Leaves(id, failed) && Comes(id, failed, end) && Own(id, me) == old(Own(id, me))
      ensures Extends(old(calls), calls) && Cleaned(old(calls), calls)
    {
      hide Walked, BusyWith, Leads, Onward, Appended, Extends, Cleaned;
      var pruned := Try(DropBackups);
      ghost var pruning := calls;
      SetPhase(CleanUpApplied, id, OpState.Running, Cleanup);
      var removed := Try(DropImages);
      Way(Stack, CleanUpApplied, Succeed);
      CleanedUp(old(calls), pruning, calls, Asked(DropBackups, pruned, [], ""), Asked(DropImages, removed, [], ""));
      return false, Succeeded;
    }

    // One call of Runtime.Rollback; whatever it brings, automation is paused before the operation ends.
    method Rollback(id: nat, images: seq<Image>, backup: string) returns (failed: bool, ghost end: OpState)
      requires Enters(RollBack) && me.kind == Stack && Own(id, me) == Checkpointed(id, images, backup) && BusyWith(state, id) && outcomes == []
      modifies this`state, this`disk, this`me, this`path, this`calls, this`outcomes
      ensures Leaves(id, failed) && Comes(id, failed, end) && Own(id, me) == old(Own(id, me))
      ensures Extends(old(calls), calls) && RestoreRan(Own(id, me), calls, |old(calls)|, end)
    {
      hide Walked, BusyWith, Leads, Onward, RestoreRan, Appended, Extends;
      RestoreWays(Stack);
      SetPhase(RollBack, id, OpState.Running, RollingBack);
      var restored := CallRollback(id, images, backup);
      if !restored {
        RestoreFails(Own(id, me), old(calls), calls, Asked(Restore(Own(id, me)), false, [], ""));
        PauseAfterFailure(id);
        return true, OpState.Failed;
      }
      ghost var restoring := calls;
      var verified := Try(AwaitScanner);
      RestoreEnds(Own(id, me), old(calls), restoring, calls, Asked(Restore(Own(id, me)), true, [], ""), Asked(AwaitScanner, verified, [], ""));
      if !verified {
        PauseAfterFailure(id);
        return true, OpState.Failed;
      }
      PauseAndEnd(id);
      return false, RolledBack;
    }

    method PauseAndEnd(id: nat)
      requires Enters(PauseRolledBack) && me.kind == Stack && BusyWith(state, id)
      modifies this`state, this`disk, this`me, this`path, this`outcomes
      ensures me == old(me).(pc := me.pc) && Enters(Succeed) && !BusyWith(state, id) && outcomes == old(outcomes) + [RolledBack]
    {
      hide Walked, BusyWith, Leads, Onward;
      PauseAutomation(PauseRolledBack, id);
      Way(Stack, PauseRolledBack, EndRolledBack);
      Finish(EndRolledBack, id, RolledBack);
      Way(Stack, EndRolledBack, Succeed);
    }

    method PauseAfterFailure(id: nat)
      requires Enters(PauseFailed) && me.kind == Stack && BusyWith(state, id)
      modifies this`state, this`disk, this`me, this`path
      ensures me == old(me).(pc := Saving(PauseFailed)) && BusyWith(state, id) && Enters(FailRolled)
    {
      hide Walked, BusyWith, Leads, Onward;
      PauseAutomation(PauseFailed, id);
      Way(Stack, PauseFailed, FailRolled);
    }

    // Every path of an operation follows the ways of its code to the end and leaves it over, with the one end that
    // what it asked and what came back call for.
    method Execute(id: nat, origin: Origin)
      requires Walked() && me.pc.Submitting? && BusyWith(state, id) && state.active.value.kind == me.kind && calls == [] && outcomes == []
      modifies this`state, this`disk, this`me, this`path, this`calls, this`outcomes
      ensures Walked() && me.pc == Gone && !BusyWith(state, id)
      ensures |outcomes| == 1 && Told(old(me.kind), id, calls, outcomes[0])
      ensures outcomes[0] == Succeeded ==> CountedOk(calls)
      ensures BrokenIsRestored(id, calls) && (outcomes[0] == RolledBack <==> Restored(calls))
      ensures outcomes[0] == Cancelled ==> origin == Scheduled
      ensures RestoresOnly(calls, Own(id, me))
    {
      hide CountedOk, BrokenIsRestored, Restored, CheckRan, FeedRan, StackRan;
      var failed;
      ghost var end;
      match state.active.value.kind {
        case Check =>
          failed := RunCheck(id);
          end := if failed then OpState.Failed else Succeeded;
          EndsMean(Check, id, calls, end);
          RestoresNothing(id, calls);
        case Feed =>
          failed, end := RunFeed(id);
          EndsMean(Feed, id, calls, end);
          RestoresNothing(id, calls);
        case Stack =>
          failed, end := RunStack(id, origin);
          EndsMean(Stack, id, calls, end);
      }
      Conclude(id, failed, end);
    }

    // The finish of execute: in vain where the operation has ended already.
    method Conclude(id: nat, failed: bool, ghost end: OpState)
      requires Leaves(id, failed) && Comes(id, failed, end)
      modifies this`state, this`disk, this`me, this`path, this`outcomes
      ensures Walked() && me == old(me).(pc := Gone) && !BusyWith(state, id) && outcomes == [end]
    {
      hide Walked, BusyWith, Follows;
      if failed {
        ghost var n := if Enters(Fail) then Fail else FailRolled;
        Finish(n, id, OpState.Failed);
      } else {
        Finish(Succeed, id, Succeeded);
      }
      if me.pc != Gone {
        LastWay(me.kind, me.pc.node);
        Step(Gone);
      }
    }

    // ---- After a restart ----

    // A failed rollback ends the operation first and pauses afterwards.
    method RecoverUpgrade(id: nat, before: seq<Image>, backup: string)
      requires Walked() && BusyWith(state, id) && me == Thread(Stack, At(RecoverRoll), before, backup)
      modifies this`state, this`disk, this`me, this`path, this`calls, this`outcomes
      ensures Walked() && me.kind == Stack && !BusyWith(state, id) && me.pc in {Saving(RecoverPauseLate), Saving(RecoverEnd)}
      ensures |calls| == |old(calls)| + 1 && old(calls) <= calls && calls[|old(calls)|].call == Restore(Checkpointed(id, before, backup))
      ensures outcomes == old(outcomes) + [if calls[|old(calls)|].ok then RolledBack else OpState.Failed]
    {
      hide Walked, BusyWith, Leads, Onward;
      RestoreWays(Stack);
      SetPhase(RecoverRoll, id, OpState.Running, RollingBack);
      var ok := CallRollback(id, before, backup);
      if !ok {
        Finish(RecoverFail, id, OpState.Failed);
        Way(Stack, RecoverFail, RecoverPauseLate);
        PauseAutomation(RecoverPauseLate, id);
      } else {
        PauseAutomation(RecoverPause, id);
        Way(Stack, RecoverPause, RecoverEnd);
        Finish(RecoverEnd, id, RolledBack);
      }
    }

    // A dangerous record is rolled back from its own checkpoint, any other is given up.
    method RecoverInterrupted(id: nat, kind: Kind, phase: Phase, before: seq<Image>, backup: string)
      requires Walked() && BusyWith(state, id)
      requires me == Thread(kind, At(if Risky(kind, phase) then RecoverRoll else GiveUp), before, backup)
      modifies this`state, this`disk, this`me, this`path, this`calls, this`outcomes
      ensures Walked() && me.pc == Gone && !BusyWith(state, id)
      ensures Risky(kind, phase) ==>
                && |calls| == |old(calls)| + 1 && old(calls) <= calls && calls[|old(calls)|].call == Restore(Checkpointed(id, before, backup))
                && outcomes == old(outcomes) + [if calls[|old(calls)|].ok then RolledBack else OpState.Failed]
      ensures !Risky(kind, phase) ==> calls == old(calls) && outcomes == old(outcomes) + [Degraded]
    {
      hide Walked, BusyWith, Leads, Onward;
      if kind == Stack && (phase == Applying || phase == Verifying || phase == RollingBack) {
        RecoverUpgrade(id, before, backup);
      } else {
        Finish(GiveUp, id, Degraded);
      }
      LastWay(kind, me.pc.node);
      Step(Gone);
    }

    // Load and Start: what is recovered, and with what, is what disk holds. Nothing starts over a runtime that does not
    // validate.
    method Start() returns (ok: bool)
      modifies this
      ensures |calls| > 0 && calls[0].call == ValidateRuntime && calls[0].ok == ok
      ensures !ok || !Busy(old(disk)) ==> state == old(disk) && disk == old(disk) && |calls| == 1 && outcomes == []
      ensures ok && Busy(old(disk)) ==>
                var op := old(disk).active.value;
                && Walked() && from == Recoverers(old(disk))[op.id].pc && me.pc == Gone && !BusyWith(state, op.id)
                && if op.kind == Stack && op.phase in {Applying, Verifying, RollingBack} then
                     && |calls| == 2 && calls[1].call == Restore(Checkpointed(op.id, op.before, old(disk).backupPath))
                     && outcomes == [if calls[1].ok then RolledBack else OpState.Failed]
                   else |calls| == 1 && outcomes == [Degraded]
    {
      state := disk;
      calls, outcomes := [], [];
      ok := Try(ValidateRuntime);
      if !ok {
        return;
      }
      if state.active.Some? && !state.active.value.state.Terminal() {
        var op := state.active.value;
        me := Recoverers(disk)[op.id];
        from, path := me.pc, [me.pc];
        RecoverInterrupted(op.id, op.kind, op.phase, op.before, state.backupPath);
      }
    }
  }

  // imagesChanged
  method ImagesChanged(before: seq<Image>, after: seq<Image>) returns (changed: bool)
    ensures changed <==> Differ(before, after)
  {
    var ids: map<string, string> := map[];
    for i := 0 to |before|
      invariant ids == IdsOf(before[..i])
    {
      assert before[..i + 1][..i] == before[..i];
      ids := ids[before[i].service := before[i].digest];
    }
    assert before[..|before|] == before;
    if |ids| != |after| {
      return true;
    }
    for i := 0 to |after|
      invariant forall j :: 0 <= j < i ==> IdOf(ids, after[j].service) == after[j].digest
    {
      if IdOf(ids, after[i].service) != after[i].digest {
        return true;
      }
    }
    return false;
  }

  // Checks and feed refreshes roll nothing back.
  lemma RestoresNothing(id: nat, log: seq<Asked>)
    requires CheckRan(log, OpState.Failed) || CheckRan(log, Succeeded) || exists end :: FeedRan(log, end)
    ensures forall own :: RestoresOnly(log, own)
  {
    if end :| FeedRan(log, end) {
      FeedCalls(log, end);
    }
  }
}
