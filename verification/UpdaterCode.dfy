/** The code a goroutine of the updater runs, as places and the ways between them. Each node is a critical
    section of execute, runStack, runFeed, runCheck, rollback or recoverInterrupted; the save after it is a
    place of its own. */
module UpdaterCode {
  import opened Options
  import opened UpdaterState

  datatype Node =
    | Wait | Cancel | Preparing | KeepBefore | Checkpointing | KeepBackup | StagingImages | KeepAfter
    | Apply | Verify | RollBack | PauseRolledBack | PauseFailed | EndRolledBack | FailRolled
    | Pull | ApplyFeed | Import | EndDegraded
    | CleanUp | CleanUpApplied | Succeed | Fail
    | RecoverRoll | RecoverPause | RecoverEnd | RecoverFail | RecoverPauseLate | GiveUp

  // Submitting: in Trigger, before its save. At: about to enter a section. Saving: past it, before the save.
  datatype Pc = Submitting(key: string) | At(node: Node) | Saving(node: Node) | InApply | InVerify
              | InRestore(recovering: bool) | Gone

  // A goroutine: its place, and the images and the backup it holds for a rollback.
  datatype Thread = Thread(kind: Kind, pc: Pc, before: seq<Image>, backup: string)

  function Own(id: nat, th: Thread): Checkpointed {
    Checkpointed(id, th.before, th.backup)
  }

  // ---- The ways ----

  predicate First(kind: Kind, n: Node) {
    n == Preparing || (kind == Stack && (n == Wait || n == Fail))
  }

  // From one section to the next; calls into the runtime and the scanner may go either way.
  predicate Follows(kind: Kind, n: Node, m: Node) {
    match n
    case Wait => m == Wait || m == Cancel || m == Preparing || m == Fail
    case Cancel => m == Succeed
    case Preparing => m == Fail || m == (if kind == Check then Succeed else KeepBefore)
    case KeepBefore => m == if kind == Stack then Checkpointing else Pull
    case Checkpointing => m == KeepBackup || m == Fail
    case KeepBackup => m == StagingImages
    case StagingImages => m == KeepAfter || m == Fail
    case KeepAfter => m == CleanUp || (kind == Feed && m == ApplyFeed) || (kind == Stack && m == Node.Apply)
    case PauseRolledBack => m == EndRolledBack
    case PauseFailed => m == FailRolled
    case EndRolledBack => m == Succeed
    case Pull => m == KeepAfter || m == Fail
    case ApplyFeed => m == Import || m == Fail
    case Import => m == CleanUp || m == EndDegraded
    case EndDegraded => m == Succeed
    case CleanUp => m == Succeed || (kind == Stack && m == Fail)
    case CleanUpApplied => m == Succeed
    case RecoverPause => m == RecoverEnd
    case RecoverFail => m == RecoverPauseLate
    case _ => false
  }

  // The sections after whose save the goroutine is done.
  predicate Last(n: Node) {
    n == FailRolled || n == Succeed || n == Fail || n == RecoverEnd || n == RecoverPauseLate || n == GiveUp
  }

  // After a save: into a runtime call, on to another section, or done.
  predicate Onward(kind: Kind, n: Node, next: Pc) {
    match next
    case At(m) => Follows(kind, n, m)
    case InApply => n == Node.Apply
    case InVerify => n == Verify
    case InRestore(recovering) => n == if recovering then RecoverRoll else RollBack
    case Gone => Last(n)
    case _ => false
  }

  // Every way from one place to the next.
  predicate Leads(kind: Kind, pc: Pc, next: Pc) {
    match pc
    case Submitting(_) => next.At? && First(kind, next.node)
    case At(n) => next == Saving(n) || (OutcomeOf(n).Some? && next == Gone)
    case Saving(n) => Onward(kind, n, next) || (n == KeepBackup && next == At(Fail))
    case InApply => next == At(Verify) || next == At(RollBack)
    case InVerify => next == At(CleanUpApplied) || next == At(RollBack)
    case InRestore(recovering) =>
      if recovering then next == At(RecoverPause) || next == At(RecoverFail)
      else next == At(PauseRolledBack) || next == At(PauseFailed)
    case Gone => false
  }

  lemma Way(kind: Kind, n: Node, m: Node)
    requires Follows(kind, n, m)
    ensures Leads(kind, Saving(n), At(m))
  {
  }

  lemma FailedSaveWay(kind: Kind)
    ensures Leads(kind, Saving(KeepBackup), At(Fail))
  {
  }

  lemma ApplyWays(kind: Kind)
    ensures Leads(kind, Saving(Node.Apply), InApply) && Leads(kind, InApply, At(RollBack)) && Leads(kind, InApply, At(Verify))
  {
  }

  lemma VerifyWays(kind: Kind)
    ensures Leads(kind, Saving(Verify), InVerify) && Leads(kind, InVerify, At(RollBack)) && Leads(kind, InVerify, At(CleanUpApplied))
  {
  }

  lemma RestoreWays(kind: Kind)
    ensures Leads(kind, InRestore(false), At(PauseFailed)) && Leads(kind, InRestore(false), At(PauseRolledBack))
    ensures Leads(kind, InRestore(true), At(RecoverPause)) && Leads(kind, InRestore(true), At(RecoverFail))
  {
  }

  lemma LastWay(kind: Kind, n: Node)
    requires Last(n)
    ensures Leads(kind, Saving(n), Gone)
  {
  }

  // ---- What a section does ----

  function PhaseOf(n: Node): Option<(OpState, Phase)> {
    match n
    case Wait => Some((Waiting, WaitingForScans))
    case Preparing => Some((Running, Preflight))
    case Checkpointing => Some((Running, Checkpoint))
    case StagingImages => Some((Running, Staging))
    case Apply => Some((Running, Applying))
    case Verify => Some((Running, Verifying))
    case RollBack => Some((Running, RollingBack))
    case Pull => Some((Running, Pulling))
    case ApplyFeed => Some((Running, Applying))
    case Import => Some((Running, Importing))
    case CleanUp => Some((Running, Cleanup))
    case CleanUpApplied => Some((Running, Cleanup))
    case RecoverRoll => Some((Running, RollingBack))
    case _ => None
  }

  function OutcomeOf(n: Node): Option<OpState> {
    match n
    case Cancel => Some(Cancelled)
    case EndRolledBack => Some(RolledBack)
    case FailRolled => Some(Failed)
    case EndDegraded => Some(Degraded)
    case Succeed => Some(Succeeded)
    case Fail => Some(Failed)
    case RecoverEnd => Some(RolledBack)
    case RecoverFail => Some(Failed)
    case GiveUp => Some(Degraded)
    case _ => None
  }

  predicate Pauses(n: Node) {
    n == PauseRolledBack || n == PauseFailed || n == RecoverPause || n == RecoverPauseLate
  }

  // The record a section leaves behind.
  function Effect(s: Persist, id: nat, th: Thread, n: Node, images: seq<Image>, path: string): Persist {
    if OutcomeOf(n).Some? then (if BusyWith(s, id) then Finished(s, OutcomeOf(n).value) else s)
    else if Pauses(n) then s.(paused := true)
    else if !IsActive(s, id) then s
    else if PhaseOf(n).Some? then WithPhase(s, PhaseOf(n).value.0, PhaseOf(n).value.1)
    else if n == KeepBefore then WithImages(s, images, [])
    else if n == KeepAfter then WithImages(s, th.before, images)
    else s.(backupPath := path)
  }

  // What the goroutine holds afterwards.
  function Noted(th: Thread, n: Node, images: seq<Image>, path: string): Thread {
    if n == KeepBefore then th.(before := images) else if n == KeepBackup then th.(backup := path) else th
  }

  // The goroutine a restart begins with: none, or that of the operation not over on disk.
  function Recoverers(disk: Persist): map<nat, Thread> {
    if !Busy(disk) then map[]
    else
      var op := disk.active.value;
      map[op.id := Thread(op.kind, At(if Dangerous(disk) then RecoverRoll else GiveUp), op.before, disk.backupPath)]
  }
}
