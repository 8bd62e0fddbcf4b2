/** Every interleaving of requests, operation goroutines, saves and crashes, and what holds in all of them. */
module UpdaterRuns {
  import opened Options
  import opened UpdaterState
  import opened UpdaterCode

  // ---- The system ----

  // `ended` lists all finished operations, newest first, and endedOnDisk those the disk knows of. The rest
  // records what has happened: the operations that began, with their keys; the checkpoints made durable; the
  // operations that entered the applying phase, and those whose ApplyStack may have started and cleanup has
  // not; those whose new stack was verified; the rollbacks called. `blocked` holds from a rollback until someone acknowledges, `owed` names failed
  // recoveries since which no pause became durable, `lost` those whose goroutine a crash stopped.
  datatype World = World(mem: Persist, disk: Persist, threads: map<nat, Thread>, used: set<nat>, begun: map<nat, string>,
                         ended: seq<Operation>, endedOnDisk: seq<Operation>,
                         captured: map<nat, Checkpointed>, armed: set<nat>, exposed: set<nat>, verified: set<nat>,
                         rollbacks: seq<Checkpointed>, blocked: bool, owed: set<nat>, lost: set<nat>)

  datatype Step =
    | Submit(kind: Kind, origin: Origin, key: string, id: nat)
    | Acknowledge
    | SaveNow
    | Act(id: nat, images: seq<Image>, path: string)
    | Save(id: nat, next: Pc)
    | SaveFails(id: nat)
    | Return(id: nat, next: Pc)
    | Crash

  predicate Possible(w: World, step: Step) {
    match step
    case Submit(kind, _, key, id) =>
      id !in w.used && key !in w.mem.keys && !Busy(w.mem) && (kind == Stack ==> !w.mem.paused)
    case Act(id, _, _) => id in w.threads && w.threads[id].pc.At?
    case Save(id, next) =>
      && id in w.threads
      && var th := w.threads[id];
         (th.pc.Submitting? && Leads(th.kind, th.pc, next)) || (th.pc.Saving? && Onward(th.kind, th.pc.node, next))
    case SaveFails(id) => id in w.threads && (w.threads[id].pc.Submitting? || w.threads[id].pc == Saving(KeepBackup))
    case Return(id, next) =>
      && id in w.threads
      && var th := w.threads[id];
         (th.pc.InApply? || th.pc.InVerify? || th.pc.InRestore?) && Leads(th.kind, th.pc, next)
    case _ => true
  }

  function Moved(w: World, id: nat, pc: Pc): World
    requires id in w.threads
  {
    w.(threads := w.threads[id := w.threads[id].(pc := pc)])
  }

  // Disk takes over what memory holds.
  function Stored(w: World): World {
    w.(disk := w.mem, endedOnDisk := w.ended, owed := if w.mem.paused then {} else w.owed)
  }

  function Submitted(w: World, kind: Kind, origin: Origin, key: string, id: nat): World {
    w.(mem := Admitted(w.mem, Operation(id, kind, origin, Queued, Fresh, [], []), key),
       threads := w.threads[id := Thread(kind, Submitting(key), [], "")],
       used := w.used + {id})
  }

  function Acted(w: World, id: nat, images: seq<Image>, path: string): World
    requires id in w.threads && w.threads[id].pc.At?
  {
    var th := w.threads[id];
    var n := th.pc.node;
    var mem := Effect(w.mem, id, th, n, images, path);
    if OutcomeOf(n).Some? then
      if BusyWith(w.mem, id) then Moved(w, id, Saving(n)).(mem := mem, ended := [mem.active.value] + w.ended)
      else Moved(w, id, Gone)
    else
      w.(mem := mem,
         threads := w.threads[id := Noted(th, n, images, path).(pc := Saving(n))],
         armed := if n == Node.Apply then w.armed + {id} else w.armed,
         exposed := if n == CleanUpApplied then w.exposed - {id} else w.exposed)
  }

  // Past its save, a goroutine goes on.
  function Passed(w: World, id: nat, next: Pc): World
    requires id in w.threads
  {
    var th := w.threads[id];
    var s := Moved(w, id, next);
    if th.pc.Submitting? then s.(begun := s.begun[id := th.pc.key])
    else if th.pc == Saving(KeepBackup) then s.(captured := s.captured[id := Own(id, th)])
    else if next.InApply? then s.(exposed := s.exposed + {id})
    else if next.InRestore? then s.(rollbacks := s.rollbacks + [Own(id, th)])
    else s
  }

  function Failing(w: World, id: nat): World
    requires id in w.threads
  {
    var pc := w.threads[id].pc;
    if pc.Submitting? then w.(mem := TakenBack(w.mem, id, pc.key), threads := w.threads - {id})
    else Moved(w, id, At(Fail))
  }

  // The new stack answered: the only way from its verification into cleanup.
  function Approved(w: World, id: nat, next: Pc): World
    requires id in w.threads
  {
    if w.threads[id].pc.InVerify? && next == At(CleanUpApplied) then w.(verified := w.verified + {id}) else w
  }

  function Returned(w: World, id: nat, next: Pc): World
    requires id in w.threads
  {
    var s := Moved(Approved(w, id, next), id, next);
    if w.threads[id].pc.InRestore? then s.(blocked := true, owed := if next == At(RecoverFail) then s.owed + {id} else s.owed) else s
  }

  // A restart: memory is what the disk holds, and an operation not over there is recovered.
  function Restarted(w: World): World {
    var threads := Recoverers(w.disk);
    w.(mem := w.disk, threads := threads, ended := w.endedOnDisk, lost := w.lost + (w.owed - threads.Keys))
  }

  function After(w: World, step: Step): World
    requires Possible(w, step)
  {
    match step
    case Submit(kind, origin, key, id) => Submitted(w, kind, origin, key, id)
    case Acknowledge => w.(mem := w.mem.(paused := false), blocked := false, owed := {})
    case SaveNow => Stored(w)
    case Act(id, images, path) => Acted(w, id, images, path)
    case Save(id, next) => Passed(Stored(w), id, next)
    case SaveFails(id) => Failing(w, id)
    case Return(id, next) => Returned(w, id, next)
    case Crash => Restarted(w)
  }

  const BLANK: Persist := Persist(None, [], false, "", map[])

  const START: World := World(BLANK, BLANK, map[], {}, map[], [], [], map[], {}, {}, {}, [], false, {}, {})

  // A run lists its worlds; steps[i] leads from the i-th to the next.
  ghost predicate IsRun(worlds: seq<World>, steps: seq<Step>) {
    && |worlds| == |steps| + 1 && worlds[0] == START
    && forall i :: 0 <= i < |steps| ==> Possible(worlds[i], steps[i]) && worlds[i + 1] == After(worlds[i], steps[i])
  }

  // ---- The invariant: records ----

  ghost predicate Over(ended: seq<Operation>, id: nat) {
    exists i :: 0 <= i < |ended| && ended[i].id == id
  }

  // A record beside the full list of finished operations: each is there once, the history shows the newest.
  ghost predicate Ledger(s: Persist, ended: seq<Operation>) {
    && s.history == Newest(ended)
    && (forall i :: 0 <= i < |ended| ==> ended[i].state.Terminal())
    && (forall i, j :: 0 <= i < j < |ended| ==> ended[i].id != ended[j].id)
    && (Busy(s) ==> !Over(ended, s.active.value.id))
    && (s.active.Some? && !Busy(s) ==> ended != [] && ended[0] == s.active.value)
  }

  ghost predicate Suffix<T>(a: seq<T>, b: seq<T>) {
    |a| <= |b| && a == b[|b| - |a|..]
  }

  // A begun operation that can be looked up is still under its key.
  ghost predicate KeysKept(s: Persist, begun: map<nat, string>) {
    forall id :: id in begun && (IsActive(s, id) || InHistory(s, id)) ==> begun[id] in s.keys && s.keys[begun[id]] == id
  }

  // A retained key is that of the active operation or of one that is over.
  ghost predicate KeysTold(s: Persist, ended: seq<Operation>) {
    forall k :: k in s.keys ==> IsActive(s, s.keys[k]) || Over(ended, s.keys[k])
  }

  ghost predicate Records(w: World) {
    && Sound(w.mem, w.used) && Sound(w.disk, w.used) && Ledger(w.mem, w.ended) && Ledger(w.disk, w.endedOnDisk)
    && (forall i :: 0 <= i < |w.ended| ==> w.ended[i].id in w.used)
    && Suffix(w.endedOnDisk, w.ended)
    && w.begun.Keys <= w.used && KeysKept(w.mem, w.begun) && KeysKept(w.disk, w.begun)
    && KeysTold(w.mem, w.ended) && KeysTold(w.disk, w.endedOnDisk)
  }

  // ---- The invariant: goroutines ----

  // What a goroutine's place says of the record: nothing dangerous, on its way in, in danger, on its way out.
  datatype Stage = Quiet | Entering | Danger | Leaving | Done

  function StageOf(pc: Pc): Stage {
    match pc
    case Submitting(_) => Quiet
    case InApply => Danger
    case InVerify => Danger
    case InRestore(_) => Danger
    case Gone => Done
    case At(n) => StageBefore(n)
    case Saving(n) =>
      if n == Node.Apply then Entering
      else if n == CleanUpApplied then Leaving
      else if OutcomeOf(n).Some? then Done
      else StageBefore(n)
  }

  function StageBefore(n: Node): Stage {
    match n
    case Verify | RollBack | CleanUpApplied => Danger
    case PauseRolledBack | PauseFailed | EndRolledBack | FailRolled => Danger
    case RecoverRoll | RecoverPause | RecoverEnd | RecoverFail => Danger
    case RecoverPauseLate => Done
    case _ => Quiet
  }

  // Places of a stack upgrade from the durable checkpoint to the applying phase.
  predicate PastCheckpoint(pc: Pc) {
    match pc
    case At(n) => n == StagingImages || n == KeepAfter || n == Node.Apply
    case Saving(n) => n == StagingImages || n == KeepAfter
    case _ => false
  }

  predicate KnowsBefore(pc: Pc) {
    match pc
    case At(n) => n == Checkpointing || n == KeepBackup || PastCheckpoint(pc)
    case Saving(n) => n == KeepBefore || n == Checkpointing || n == KeepBackup || PastCheckpoint(pc)
    case _ => false
  }

  // Places only a stack upgrade reaches before it applies, and only another operation.
  predicate StackOnly(pc: Pc) {
    match pc
    case At(n) => n == Checkpointing || n == KeepBackup || n == Node.Apply
    case Saving(n) => n == Checkpointing || n == KeepBackup
    case _ => false
  }

  predicate FeedOnly(pc: Pc) {
    match pc
    case At(n) => n == Pull || n == ApplyFeed || n == Import
    case Saving(n) => n == Pull || n == ApplyFeed || n == Import
    case _ => false
  }

  // Places before anything is applied.
  predicate Early(pc: Pc) {
    match pc
    case Submitting(_) => true
    case At(n) => n == Wait || n == Preparing || n == KeepBefore || KnowsBefore(pc)
    case Saving(n) => n == Wait || n == Preparing || KnowsBefore(pc)
    case _ => false
  }

  // Places after the last thing a stack upgrade that succeeds has to do.
  predicate Settling(pc: Pc) {
    match pc
    case At(n) => n == CleanUp || n == CleanUpApplied || n == Succeed
    case Saving(n) => n == CleanUp || n == CleanUpApplied
    case _ => false
  }

  // Places from the call of a rollback to the end of its operation.
  predicate Restoring(pc: Pc) {
    match pc
    case InRestore(_) => true
    case At(n) => (Pausing(pc) && n != RecoverRoll) || n == EndRolledBack || n == FailRolled || n == RecoverEnd || n == RecoverFail
    case Saving(n) => Pausing(pc) && n != RecoverRoll
    case _ => false
  }

  // Places from a rollback's return until its pause is durable; a restart takes it back to the recovery's start.
  predicate Pausing(pc: Pc) {
    match pc
    case InRestore(recovering) => recovering
    case At(n) => n == PauseRolledBack || n == PauseFailed || n == RecoverRoll || n == RecoverPause
    case Saving(n) => n == PauseRolledBack || n == PauseFailed || n == RecoverRoll || n == RecoverPause
    case _ => false
  }

  // Places of a recovery before its pause is durable.
  predicate Owing(pc: Pc) {
    match pc
    case InRestore(recovering) => recovering
    case At(n) => n == RecoverRoll || n == RecoverPause || n == RecoverFail || n == RecoverPauseLate
    case Saving(n) => n == RecoverRoll || n == RecoverPause || n == RecoverFail || n == RecoverPauseLate
    case _ => false
  }

  ghost predicate Called(rollbacks: seq<Checkpointed>, e: Checkpointed) {
    exists i :: 0 <= i < |rollbacks| && rollbacks[i] == e
  }

  ghost predicate InHand(w: World, id: nat, own: Checkpointed) {
    id in w.captured && w.captured[id] == own && id in w.armed
  }

  // How dangerous memory and disk are at a stage.
  ghost predicate StageOk(w: World, id: nat, stage: Stage, own: Checkpointed) {
    match stage
    case Quiet => !Dangerous(w.mem) && (BusyWith(w.disk, id) ==> !Dangerous(w.disk))
    case Entering => InHand(w, id, own) && Carries(w.mem, own) && (Dangerous(w.disk) ==> Carries(w.disk, own))
    case Danger => InHand(w, id, own) && Carries(w.mem, own) && Carries(w.disk, own)
    case Leaving => InHand(w, id, own) && !Dangerous(w.mem) && (Dangerous(w.disk) ==> Carries(w.disk, own))
    case Done => false
  }

  // What the goroutine of the operation that is not over knows.
  ghost predicate Knows(w: World, id: nat, th: Thread)
    requires w.mem.active.Some?
  {
    && (th.pc.Submitting? ==> th.pc.key in w.mem.keys && w.mem.keys[th.pc.key] == id && id !in w.begun)
    && (!th.pc.Submitting? ==> BusyWith(w.disk, id))
    && (th.kind == Stack && KnowsBefore(th.pc) ==> w.mem.active.value.before == th.before)
    && (th.pc == Saving(KeepBackup) ==> w.mem.backupPath == th.backup)
    && (th.kind == Stack && PastCheckpoint(th.pc) ==>
          w.mem.backupPath == th.backup && id in w.captured && w.captured[id] == Own(id, th))
    && (StackOnly(th.pc) ==> th.kind == Stack) && (FeedOnly(th.pc) ==> th.kind != Stack)
    && (th.kind == Stack && Early(th.pc) ==> id !in w.armed)
    && (th.kind == Stack && Settling(th.pc) && id in w.armed ==> id in w.verified)
    && (Restoring(th.pc) ==> Called(w.rollbacks, Own(id, th)))
  }

  ghost predicate LiveOk(w: World, id: nat, th: Thread)
    requires w.mem.active.Some?
  {
    w.mem.active.value.kind == th.kind && Knows(w, id, th) && StageOk(w, id, StageOf(th.pc), Own(id, th))
  }

  // The goroutine of an operation that is over has at most a save, a pause or a vain finish to make.
  ghost predicate TailOk(w: World, id: nat, th: Thread) {
    Over(w.ended, id) && (StageOf(th.pc) == Done || th.pc == At(Succeed))
  }

  ghost predicate ThreadOk(w: World, id: nat) {
    id in w.threads ==>
      id in w.used && if BusyWith(w.mem, id) then LiveOk(w, id, w.threads[id]) else TailOk(w, id, w.threads[id])
  }

  ghost predicate Threads(w: World) {
    && (Busy(w.mem) ==> w.mem.active.value.id in w.threads)
    && (forall id :: ThreadOk(w, id))
  }

  // ---- The invariant: rollbacks ----

  // A dangerous record carries the checkpoint made durable for its operation.
  ghost predicate DangerTold(w: World, s: Persist) {
    Dangerous(s) ==>
      var id := s.active.value.id;
      id in w.captured && id in w.armed && Carries(s, w.captured[id])
  }

  ghost predicate EndedBy(ended: seq<Operation>, id: nat, states: set<OpState>) {
    exists i :: 0 <= i < |ended| && ended[i].id == id && ended[i].state in states
  }

  // An operation whose ApplyStack may have started will be rolled back, or was.
  ghost predicate ExposedTold(w: World, s: Persist, ended: seq<Operation>, id: nat) {
    id in w.exposed ==>
      && id in w.captured
      && (Carries(s, w.captured[id]) || (EndedBy(ended, id, {RolledBack, Failed}) && Called(w.rollbacks, w.captured[id])))
  }

  // Only what was rolled back ended so.
  ghost predicate RollbackTold(w: World, op: Operation) {
    op.state == RolledBack ==> op.id in w.captured && Called(w.rollbacks, w.captured[op.id])
  }

  // A stack upgrade that entered the applying phase succeeded only with its new stack verified.
  ghost predicate SuccessTold(w: World, op: Operation) {
    op.kind == Stack && op.state == Succeeded && op.id in w.armed ==> op.id in w.verified
  }

  ghost predicate Logs(w: World) {
    && (forall i :: 0 <= i < |w.rollbacks| ==>
          var e := w.rollbacks[i]; e.id in w.captured && w.captured[e.id] == e && e.id in w.armed)
    && (forall id :: id in w.captured ==> id in w.used && w.captured[id].id == id)
    && w.armed <= w.used && w.armed <= w.captured.Keys && w.exposed <= w.armed
    && DangerTold(w, w.mem) && DangerTold(w, w.disk)
    && (forall id :: ExposedTold(w, w.mem, w.ended, id)) && (forall id :: ExposedTold(w, w.disk, w.endedOnDisk, id))
    && (forall i :: 0 <= i < |w.ended| ==> RollbackTold(w, w.ended[i]) && SuccessTold(w, w.ended[i]))
  }

  // ---- The invariant: the pause ----

  ghost predicate LivePausing(w: World) {
    Busy(w.mem) && w.mem.active.value.id in w.threads && Pausing(w.threads[w.mem.active.value.id].pc)
  }

  // A failed recovery has its goroutine on the way to the pause, or lost it in a crash.
  ghost predicate OwesOk(w: World, id: nat) {
    id in w.owed ==>
      && id in w.used
      && (BusyWith(w.mem, id) ==> Dangerous(w.mem)) && (BusyWith(w.disk, id) ==> Dangerous(w.disk))
      && if id in w.threads then
           Owing(w.threads[id].pc) && (w.threads[id].pc.Saving? && Pauses(w.threads[id].pc.node) ==> w.mem.paused)
         else id in w.lost
  }

  // After a rollback automation is paused in memory and on disk until someone acknowledges, unless the operation
  // has yet to pause it or a failed recovery owes the pause.
  ghost predicate Guard(w: World) {
    && (w.blocked ==> (w.mem.paused && w.disk.paused) || w.owed != {} || LivePausing(w))
    && (w.owed != {} ==> w.blocked)
    && (Busy(w.mem) && w.mem.active.value.id in w.threads ==>
          var pc := w.threads[w.mem.active.value.id].pc; pc.Saving? && Pauses(pc.node) && w.blocked ==> w.mem.paused)
    && (forall id :: OwesOk(w, id))
  }

  ghost predicate Inv(w: World) {
    Records(w) && Threads(w) && Logs(w) && Guard(w)
  }
}
