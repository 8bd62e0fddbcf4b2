/** What an operation asks of the runtime and the scanner, what comes back, and the end that must follow. */
module UpdaterCalls {
  import opened UpdaterState

  datatype Call =
    | ListScans | Pause | ValidateRuntime | PingScanner | SnapshotImages | ListFeeds | SaveRecord | MakeBackup
    | PullFeedImages | PullStackImages | ResolveImages | RunApplyFeed | AwaitFeeds | RunApplyStack | AwaitScanner
    | Restore(to: Checkpointed) | DropBackups | DropImages

  // A call and its answer: images of a snapshot, the path of a backup.
  datatype Asked = Asked(call: Call, ok: bool, images: seq<Image>, path: string)

  // ---- Comparing images ----

  // The last image of a service counts.
  function IdsOf(images: seq<Image>): map<string, string> {
    if images == [] then map[] else IdsOf(images[..|images| - 1])[images[|images| - 1].service := images[|images| - 1].digest]
  }

  function IdOf(ids: map<string, string>, service: string): string {
    if service in ids then ids[service] else ""
  }

  predicate Differ(before: seq<Image>, after: seq<Image>) {
    |IdsOf(before)| != |after| || exists i :: 0 <= i < |after| && IdOf(IdsOf(before), after[i].service) != after[i].digest
  }

  ghost predicate OnePerService(images: seq<Image>) {
    forall i, j :: 0 <= i < j < |images| ==> images[i].service != images[j].service
  }

  lemma LastIsNew(images: seq<Image>, image: Image)
    requires OnePerService(images) && images != [] && image in images[..|images| - 1]
    ensures image.service != images[|images| - 1].service
  {
    var i :| 0 <= i < |images| - 1 && images[i] == image;
  }

  lemma {:induction false} IdsOfImages(images: seq<Image>)
    requires OnePerService(images)
    ensures |IdsOf(images)| == |images|
    ensures forall image :: image in images <==> image.service in IdsOf(images) && IdsOf(images)[image.service] == image.digest
  {
    if images != [] {
      var front, last := images[..|images| - 1], images[|images| - 1];
      IdsOfImages(front);
      assert images == front + [last];
      if last.service in IdsOf(front) {
        LastIsNew(images, Image(last.service, IdsOf(front)[last.service]));
      }
      forall image | image in front ensures image.service != last.service {
        LastIsNew(images, image);
      }
    }
  }

  lemma SubsetOfSize(a: set<string>, b: set<string>)
    requires a <= b && |a| >= |b|
    ensures a == b
  {
    assert b == a + (b - a);
  }

  lemma IdsListed(images: seq<Image>, service: string)
    requires OnePerService(images) && service in IdsOf(images)
    ensures Image(service, IdsOf(images)[service]) in images
  {
    IdsOfImages(images);
  }

  lemma Unchanged(before: seq<Image>, after: seq<Image>)
    requires OnePerService(before) && OnePerService(after) && !Differ(before, after)
    requires forall i :: 0 <= i < |after| ==> after[i].digest != ""
    ensures forall image :: image in before <==> image in after
  {
    IdsOfImages(before);
    IdsOfImages(after);
    hide IdsOf, OnePerService;
    var a, b := IdsOf(after), IdsOf(before);
    forall image | image in after ensures image in before {
      var i :| 0 <= i < |after| && after[i] == image;
      assert IdOf(b, after[i].service) == after[i].digest;
    }
    forall service | service in a ensures service in b {
      IdsListed(after, service);
    }
    assert |a| == |a.Keys| && |b| == |b.Keys|;
    SubsetOfSize(a.Keys, b.Keys);
    forall image | image in before ensures image in after {
      IdsListed(after, image.service);
    }
  }

  // With one named image for each service, nothing has changed exactly when the same images are listed, in any order.
  lemma SameImages(before: seq<Image>, after: seq<Image>)
    requires OnePerService(before) && OnePerService(after) && forall i :: 0 <= i < |after| ==> after[i].digest != ""
    ensures !Differ(before, after) <==> forall image :: image in before <==> image in after
  {
    if !Differ(before, after) {
      Unchanged(before, after);
    }
    if forall image :: image in before <==> image in after {
      SameIsUnchanged(before, after);
    }
  }

  lemma SameIsUnchanged(before: seq<Image>, after: seq<Image>)
    requires OnePerService(before) && OnePerService(after) && forall image :: image in before <==> image in after
    ensures !Differ(before, after)
  {
    IdsOfImages(before);
    IdsOfImages(after);
    hide IdsOf, OnePerService;
    var a, b := IdsOf(after), IdsOf(before);
    assert a.Keys == b.Keys by {
      forall service | service in a || service in b ensures service in a && service in b {
        if service in a { IdsListed(after, service); } else { IdsListed(before, service); }
      }
    }
    assert |a| == |a.Keys| && |b| == |b.Keys|;
    assert forall i :: 0 <= i < |after| ==> after[i] in before;
  }

  // ---- Scripts ----

  // The calls of the log from `from` to `to` are those of the script: all of it, each well, or up to the first that
  // came back with an error.
  ghost predicate Ran(script: seq<Call>, log: seq<Asked>, from: nat, to: nat, ok: bool) {
    && from <= to <= |log| && (if ok then to - from == |script| else 0 < to - from <= |script|)
    && forall i :: from <= i < to ==> log[i].call == script[i - from] && (log[i].ok <==> ok || i < to - 1)
  }

  // One more call, and any number.
  ghost predicate Appended(was: seq<Asked>, now: seq<Asked>, asked: Asked) {
    |now| == |was| + 1 && now[|was|] == asked && forall i :: 0 <= i < |was| ==> now[i] == was[i]
  }

  ghost predicate Extends(was: seq<Asked>, now: seq<Asked>) {
    |was| <= |now| && forall i :: 0 <= i < |was| ==> now[i] == was[i]
  }

  // The calls since `from` are those of the script so far, each well.
  ghost predicate Going(script: seq<Call>, log: seq<Asked>, from: nat) {
    && from <= |log| <= from + |script|
    && forall i :: from <= i < |log| ==> log[i].call == script[i - from] && log[i].ok
  }

  lemma GoingStarts(script: seq<Call>, log: seq<Asked>)
    ensures Going(script, log, |log|) && Extends(log, log)
  {
  }

  lemma GoingOn(script: seq<Call>, was: seq<Asked>, now: seq<Asked>, from: nat, asked: Asked)
    requires Going(script, was, from) && |was| < from + |script| && Appended(was, now, asked) && asked.call == script[|was| - from]
    ensures if asked.ok then Going(script, now, from) else Ran(script, now, from, |now|, false)
  {
  }

  lemma GoingEnds(script: seq<Call>, log: seq<Asked>, from: nat)
    requires Going(script, log, from) && |log| == from + |script|
    ensures Ran(script, log, from, |log|, true)
  {
  }

  lemma RanStays(script: seq<Call>, was: seq<Asked>, now: seq<Asked>, from: nat, to: nat, ok: bool)
    requires Ran(script, was, from, to, ok) && Extends(was, now)
    ensures Ran(script, now, from, to, ok)
  {
  }

  // Every log this call's log extended is extended still.
  lemma AppendedExtends(was: seq<Asked>, now: seq<Asked>, asked: Asked)
    requires Appended(was, now, asked)
    ensures Extends(was, now) && forall older :: Extends(older, was) ==> Extends(older, now)
  {
  }

  lemma AppendedLength(was: seq<Asked>, now: seq<Asked>, asked: Asked)
    requires Appended(was, now, asked)
    ensures |now| == |was| + 1
  {
  }

  lemma StillThere(was: seq<Asked>, now: seq<Asked>, i: nat)
    requires Extends(was, now) && i < |was|
    ensures i < |now| && now[i] == was[i]
  {
  }

  lemma ExtendsTwice(a: seq<Asked>, b: seq<Asked>, c: seq<Asked>)
    requires Extends(a, b) && Extends(b, c)
    ensures Extends(a, c)
  {
  }

  const CHECK: seq<Call> := [ValidateRuntime, PingScanner, SnapshotImages, ListFeeds, SaveRecord]

  const FEED: seq<Call> := [ValidateRuntime, SnapshotImages, ListFeeds, PullFeedImages, ResolveImages]

  const STAGE: seq<Call> :=
    [ValidateRuntime, PingScanner, SnapshotImages, MakeBackup, SaveRecord, PullStackImages, ResolveImages]

  ghost predicate CheckRan(log: seq<Asked>, end: OpState) {
    (end == Succeeded || end == Failed) && Ran(CHECK, log, 0, |log|, end == Succeeded)
  }

  // A refresh: nothing to apply, or applied and imported; an import that does not come degrades it.
  ghost predicate FeedRan(log: seq<Asked>, end: OpState) {
    || (end == Failed && Ran(FEED, log, 0, |log|, false))
    || (Ran(FEED, log, 0, 5, true)
        && if !Differ(log[1].images, log[4].images) then |log| == 6 && log[5].call == DropImages && end == Succeeded
           else
             || (end == Failed && |log| == 6 && Ran([RunApplyFeed, AwaitFeeds], log, 5, 6, false))
             || (end == Degraded && |log| == 7 && Ran([RunApplyFeed, AwaitFeeds], log, 5, 7, false))
             || (end == Succeeded && |log| == 8 && Ran([RunApplyFeed, AwaitFeeds], log, 5, 7, true) && log[7].call == DropImages))
  }

  // A rollback and the verification of what it restored.
  ghost predicate RestoreRan(own: Checkpointed, log: seq<Asked>, from: nat, end: OpState) {
    (end == RolledBack || end == Failed) && Ran([Restore(own), AwaitScanner], log, from, |log|, end == RolledBack)
  }

  // ApplyStack and the verification of what it made; an error of either leads into the rollback at once.
  ghost predicate ApplyRan(own: Checkpointed, log: seq<Asked>, from: nat, end: OpState) {
    || (end == Succeeded && |log| == from + 4 && Ran([RunApplyStack, AwaitScanner], log, from, from + 2, true)
        && log[from + 2].call == DropBackups && log[from + 3].call == DropImages)
    || (Ran([RunApplyStack, AwaitScanner], log, from, from + 1, false) && RestoreRan(own, log, from + 1, end))
    || (Ran([RunApplyStack, AwaitScanner], log, from, from + 2, false) && RestoreRan(own, log, from + 2, end))
  }

  // The first `n` calls ask for scans and wait in turn.
  ghost predicate Polled(log: seq<Asked>, n: nat) {
    n <= |log| && forall i :: 0 <= i < n ==> log[i].call == if i % 2 == 0 then ListScans else Pause
  }

  ghost predicate AllOk(log: seq<Asked>, n: nat) {
    n <= |log| && forall i :: 0 <= i < n ==> log[i].ok
  }

  // Never past the scans: put off with scans still active, or given up.
  ghost predicate NotPastScans(log: seq<Asked>, end: OpState) {
    && Polled(log, |log|) && |log| > 0
    && if end == Cancelled then AllOk(log, |log|) && |log| % 2 == 1 else end == Failed && AllOk(log, |log| - 1) && !log[|log| - 1].ok
  }

  // A stack upgrade that found no scan active at its `n`-th call.
  ghost predicate StackRanFrom(id: nat, log: seq<Asked>, n: nat, end: OpState) {
    && Polled(log, n) && AllOk(log, n) && n % 2 == 1
    && (|| (end == Failed && Ran(STAGE, log, n, |log|, false))
        || (Ran(STAGE, log, n, n + 7, true)
            && if !Differ(log[n + 2].images, log[n + 6].images) then
                 && |log| == n + 9 && log[n + 7].call == DropImages && log[n + 8].call == DropBackups
                 && end == if log[n + 8].ok then Succeeded else Failed
               else ApplyRan(Checkpointed(id, log[n + 2].images, log[n + 3].path), log, n + 7, end)))
  }

  ghost predicate StackRan(id: nat, log: seq<Asked>, end: OpState) {
    NotPastScans(log, end) || exists n :: StackRanFrom(id, log, n, end)
  }

  // The end an operation of this kind comes to, by what it asked and what came back.
  ghost predicate Told(kind: Kind, id: nat, log: seq<Asked>, end: OpState) {
    match kind
    case Check => CheckRan(log, end)
    case Feed => FeedRan(log, end)
    case Stack => StackRan(id, log, end)
  }

  // ---- How an operation comes to its end ----

  // The logs here are those before and after each call.

  lemma FeedStops(log: seq<Asked>)
    requires Ran(FEED, log, 0, |log|, false)
    ensures FeedRan(log, Failed)
  {
  }

  lemma FeedUnchanged(staged: seq<Asked>, log: seq<Asked>, removed: Asked)
    requires |staged| == 5 && Ran(FEED, staged, 0, 5, true) && !Differ(staged[1].images, staged[4].images)
    requires Appended(staged, log, removed) && removed.call == DropImages
    ensures FeedRan(log, Succeeded)
  {
    RanStays(FEED, staged, log, 0, 5, true);
    hide Differ, Ran;
  }

  lemma FeedNotApplied(staged: seq<Asked>, log: seq<Asked>, applied: Asked)
    requires |staged| == 5 && Ran(FEED, staged, 0, 5, true) && Differ(staged[1].images, staged[4].images)
    requires Appended(staged, log, applied) && applied.call == RunApplyFeed && !applied.ok
    ensures FeedRan(log, Failed)
  {
    RanStays(FEED, staged, log, 0, 5, true);
    hide Differ;
  }

  lemma FeedNotImported(staged: seq<Asked>, applying: seq<Asked>, log: seq<Asked>, applied: Asked, imported: Asked)
    requires |staged| == 5 && Ran(FEED, staged, 0, 5, true) && Differ(staged[1].images, staged[4].images)
    requires Appended(staged, applying, applied) && applied.call == RunApplyFeed && applied.ok
    requires Appended(applying, log, imported) && imported.call == AwaitFeeds && !imported.ok
    ensures FeedRan(log, Degraded)
  {
    RanStays(FEED, staged, log, 0, 5, true);
    hide Differ;
  }

  lemma FeedImported(staged: seq<Asked>, applying: seq<Asked>, importing: seq<Asked>, log: seq<Asked>,
                     applied: Asked, imported: Asked, removed: Asked)
    requires |staged| == 5 && Ran(FEED, staged, 0, 5, true) && Differ(staged[1].images, staged[4].images)
    requires Appended(staged, applying, applied) && applied.call == RunApplyFeed && applied.ok
    requires Appended(applying, importing, imported) && imported.call == AwaitFeeds && imported.ok
    requires Appended(importing, log, removed) && removed.call == DropImages
    ensures FeedRan(log, Succeeded)
  {
    RanStays(FEED, staged, log, 0, 5, true);
    hide Differ;
  }

  lemma RestoreFails(own: Checkpointed, was: seq<Asked>, log: seq<Asked>, restored: Asked)
    requires Appended(was, log, restored) && restored.call == Restore(own) && !restored.ok
    ensures Extends(was, log) && RestoreRan(own, log, |was|, Failed)
  {
  }

  lemma RestoreEnds(own: Checkpointed, was: seq<Asked>, restoring: seq<Asked>, log: seq<Asked>, restored: Asked, verified: Asked)
    requires Appended(was, restoring, restored) && restored.call == Restore(own) && restored.ok
    requires Appended(restoring, log, verified) && verified.call == AwaitScanner
    ensures Extends(was, log) && RestoreRan(own, log, |was|, if verified.ok then RolledBack else Failed)
  {
  }

  lemma ApplyFails(own: Checkpointed, was: seq<Asked>, applying: seq<Asked>, log: seq<Asked>, applied: Asked, end: OpState)
    requires Appended(was, applying, applied) && applied.call == RunApplyStack && !applied.ok
    requires Extends(applying, log) && RestoreRan(own, log, |applying|, end)
    ensures Extends(was, log) && ApplyRan(own, log, |was|, end)
  {
    assert log[|was|] == applied;
    hide RestoreRan;
  }

  lemma VerifyFails(own: Checkpointed, was: seq<Asked>, applying: seq<Asked>, verifying: seq<Asked>, log: seq<Asked>,
                    applied: Asked, verified: Asked, end: OpState)
    requires Appended(was, applying, applied) && applied.call == RunApplyStack && applied.ok
    requires Appended(applying, verifying, verified) && verified.call == AwaitScanner && !verified.ok
    requires Extends(verifying, log) && RestoreRan(own, log, |verifying|, end)
    ensures Extends(was, log) && ApplyRan(own, log, |was|, end)
  {
    assert log[|was|] == applied && log[|was| + 1] == verified;
    hide RestoreRan;
  }

  lemma ApplyEnds(own: Checkpointed, was: seq<Asked>, applying: seq<Asked>, verifying: seq<Asked>, log: seq<Asked>,
                  applied: Asked, verified: Asked)
    requires Appended(was, applying, applied) && applied.call == RunApplyStack && applied.ok
    requires Appended(applying, verifying, verified) && verified.call == AwaitScanner && verified.ok
    requires Extends(verifying, log) && Cleaned(verifying, log)
    ensures Extends(was, log) && ApplyRan(own, log, |was|, Succeeded)
  {
    assert log[|was|] == applied && log[|was| + 1] == verified;
  }

  ghost predicate Cleaned(was: seq<Asked>, log: seq<Asked>) {
    |log| == |was| + 2 && log[|was|].call == DropBackups && log[|was| + 1].call == DropImages
  }

  lemma CleanedUp(was: seq<Asked>, pruning: seq<Asked>, log: seq<Asked>, pruned: Asked, removed: Asked)
    requires Appended(was, pruning, pruned) && pruned.call == DropBackups && Appended(pruning, log, removed) && removed.call == DropImages
    ensures Extends(was, log) && Cleaned(was, log)
  {
  }

  // What a rollback may have been called with.
  ghost predicate RestoresOnly(log: seq<Asked>, own: Checkpointed) {
    forall i :: 0 <= i < |log| && log[i].call.Restore? ==> log[i].call.to == own
  }

  ghost predicate NoScans(log: seq<Asked>) {
    Polled(log, |log|) && AllOk(log, |log|) && |log| % 2 == 1
  }

  lemma PolledRestores(log: seq<Asked>, own: Checkpointed, end: OpState)
    requires NotPastScans(log, end)
    ensures RestoresOnly(log, own)
  {
  }

  // An upgrade stopped on its stage.
  lemma StageStops(id: nat, polled: seq<Asked>, log: seq<Asked>, own: Checkpointed)
    requires NoScans(polled) && Extends(polled, log) && Ran(STAGE, log, |polled|, |log|, false)
    ensures StackRan(id, log, Failed) && RestoresOnly(log, own)
  {
    assert StackRanFrom(id, log, |polled|, Failed);
  }

  // Past its stage.
  ghost predicate Staged(polled: seq<Asked>, staged: seq<Asked>) {
    NoScans(polled) && Extends(polled, staged) && |staged| == |polled| + 7 && Ran(STAGE, staged, |polled|, |staged|, true)
  }

  lemma StagedStays(polled: seq<Asked>, staged: seq<Asked>, log: seq<Asked>)
    requires Staged(polled, staged) && Extends(staged, log)
    ensures var n := |polled|;
            && Polled(log, n) && AllOk(log, n) && n % 2 == 1 && Ran(STAGE, log, n, n + 7, true)
            && log[n + 2] == staged[n + 2] && log[n + 3] == staged[n + 3] && log[n + 6] == staged[n + 6]
  {
  }

  // With nothing to apply.
  lemma StackUnchanged(id: nat, polled: seq<Asked>, staged: seq<Asked>, removing: seq<Asked>, log: seq<Asked>,
                       removed: Asked, pruned: Asked, own: Checkpointed)
    requires Staged(polled, staged) && !Differ(staged[|polled| + 2].images, staged[|polled| + 6].images)
    requires Appended(staged, removing, removed) && removed.call == DropImages && Appended(removing, log, pruned) && pruned.call == DropBackups
    ensures StackRan(id, log, if pruned.ok then Succeeded else Failed) && RestoresOnly(log, own)
  {
    TwoMore(staged, removing, log, removed, pruned);
    StagedStays(polled, staged, log);
    StageIsHarmless(log, |polled|);
    var n, end := |polled|, if pruned.ok then Succeeded else Failed;
    assert |log| == n + 9 && log[n + 7] == removed && log[n + 8] == pruned;
    assert RestoresOnly(log, own);
    hide Differ, Ran, ApplyRan, Polled, AllOk, Extends, Appended, Staged, Harmless, RestoresOnly;
    UnchangedRan(id, log, n, end);
  }

  lemma UnchangedRan(id: nat, log: seq<Asked>, n: nat, end: OpState)
    requires Polled(log, n) && AllOk(log, n) && n % 2 == 1 && Ran(STAGE, log, n, n + 7, true)
    requires !Differ(log[n + 2].images, log[n + 6].images)
    requires |log| == n + 9 && log[n + 7].call == DropImages && log[n + 8].call == DropBackups && end == if log[n + 8].ok then Succeeded else Failed
    ensures StackRan(id, log, end)
  {
    hide Differ, Ran, ApplyRan, Polled, AllOk;
    assert StackRanFrom(id, log, n, end);
  }

  lemma TwoMore(was: seq<Asked>, between: seq<Asked>, now: seq<Asked>, first: Asked, second: Asked)
    requires Appended(was, between, first) && Appended(between, now, second)
    ensures Extends(was, now) && |now| == |was| + 2 && now[|was|] == first && now[|was| + 1] == second
  {
  }

  // Through the dangerous part.
  lemma StackApplied(id: nat, polled: seq<Asked>, staged: seq<Asked>, log: seq<Asked>, own: Checkpointed, end: OpState)
    requires Staged(polled, staged) && Differ(staged[|polled| + 2].images, staged[|polled| + 6].images)
    requires own == Checkpointed(id, staged[|polled| + 2].images, staged[|polled| + 3].path)
    requires Extends(staged, log) && ApplyRan(own, log, |staged|, end)
    ensures StackRan(id, log, end) && RestoresOnly(log, own) && end != Cancelled
  {
    StagedStays(polled, staged, log);
    StageIsHarmless(log, |polled|);
    ApplyRestores(log, own, |staged|, end);
    hide Differ, Ran, ApplyRan, Polled, AllOk, Extends;
    assert StackRanFrom(id, log, |polled|, end);
  }

  lemma ApplyRestores(log: seq<Asked>, own: Checkpointed, from: nat, end: OpState)
    requires ApplyRan(own, log, from, end) && Harmless(log, from)
    ensures RestoresOnly(log, own) && end != Cancelled
  {
  }

  // ---- What the ends mean ----

  ghost predicate Calls(log: seq<Asked>, i: nat, call: Call) {
    i < |log| && log[i].call == call
  }

  // No call failed but a removal of images, or of old backups once the new stack was applied.
  ghost predicate CountedOk(log: seq<Asked>) {
    forall i :: 0 <= i < |log| && !log[i].ok ==>
      log[i].call == DropImages || (log[i].call == DropBackups && exists j: nat :: j < i && Calls(log, j, RunApplyStack))
  }

  // ApplyStack, or the verification that follows it, came back with an error.
  ghost predicate Broken(log: seq<Asked>, i: nat) {
    && i < |log| && !log[i].ok
    && (log[i].call == RunApplyStack || (log[i].call == AwaitScanner && i > 0 && log[i - 1].call == RunApplyStack))
  }

  // The images of a snapshot and the path of a backup, taken before.
  ghost predicate FromStage(log: seq<Asked>, i: nat, own: Checkpointed) {
    && (exists j: nat :: j < i && Calls(log, j, SnapshotImages) && log[j].images == own.images)
    && (exists j: nat :: j < i && Calls(log, j, MakeBackup) && log[j].path == own.backup)
  }

  // After such an error comes one rollback, at once, from the images and the backup of this operation; there is no
  // rollback otherwise.
  ghost predicate BrokenIsRestored(id: nat, log: seq<Asked>) {
    && (forall i: nat :: Broken(log, i) ==>
          i + 1 < |log| && log[i + 1].call.Restore? && log[i + 1].call.to.id == id && FromStage(log, i, log[i + 1].call.to))
    && (forall i :: 0 <= i < |log| && log[i].call.Restore? ==> i > 0 && Broken(log, i - 1))
    && (forall i, j :: 0 <= i < j < |log| && log[i].call.Restore? ==> !log[j].call.Restore?)
  }

  // The rollback and the verification after it both came back well.
  ghost predicate Restored(log: seq<Asked>) {
    exists i :: 0 <= i < |log| - 1 && log[i].call.Restore? && log[i].ok && log[i + 1].call == AwaitScanner && log[i + 1].ok
  }

  // Without ApplyStack and without a rollback there is nothing to restore.
  lemma NothingApplied(id: nat, log: seq<Asked>)
    requires forall i :: 0 <= i < |log| ==> log[i].call != RunApplyStack && !log[i].call.Restore?
    ensures !Restored(log) && BrokenIsRestored(id, log)
  {
    forall i: nat ensures !Broken(log, i) {
    }
  }

  lemma LastFailed(log: seq<Asked>)
    requires |log| > 0 && !log[|log| - 1].ok && log[|log| - 1].call != DropImages && log[|log| - 1].call != DropBackups
    ensures !CountedOk(log)
  {
  }

  lemma CheckMeans(id: nat, log: seq<Asked>, end: OpState)
    requires CheckRan(log, end)
    ensures end == Succeeded || end == Failed
    ensures (end == Succeeded <==> CountedOk(log)) && !Restored(log) && BrokenIsRestored(id, log)
  {
    NothingApplied(id, log);
    hide Restored, BrokenIsRestored;
    if end == Failed {
      LastFailed(log);
    }
  }

  lemma FeedMeans(id: nat, log: seq<Asked>, end: OpState)
    requires FeedRan(log, end)
    ensures end == Succeeded || end == Failed || end == Degraded
    ensures (end == Succeeded <==> CountedOk(log)) && !Restored(log) && BrokenIsRestored(id, log)
  {
    FeedCalls(log, end);
    NothingApplied(id, log);
    hide Restored, BrokenIsRestored;
    if end != Succeeded {
      LastFailed(log);
    }
  }

  lemma FeedCalls(log: seq<Asked>, end: OpState)
    requires FeedRan(log, end)
    ensures forall i :: 0 <= i < |log| ==> log[i].call != RunApplyStack && !log[i].call.Restore? && log[i].call != DropBackups
    ensures end == Succeeded ==> forall i :: 0 <= i < |log| ==> log[i].ok || log[i].call == DropImages
    ensures end != Succeeded ==> |log| > 0 && !log[|log| - 1].ok && log[|log| - 1].call != DropImages
  {
    hide Differ;
  }

  lemma StackStageMeans(id: nat, log: seq<Asked>, n: nat)
    requires Polled(log, n) && AllOk(log, n) && Ran(STAGE, log, n, |log|, false)
    ensures !CountedOk(log) && !Restored(log) && BrokenIsRestored(id, log)
  {
    NothingApplied(id, log);
    LastFailed(log);
  }

  lemma StackUnchangedMeans(id: nat, log: seq<Asked>, n: nat)
    requires Polled(log, n) && AllOk(log, n) && Ran(STAGE, log, n, n + 7, true)
    requires |log| == n + 9 && log[n + 7].call == DropImages && log[n + 8].call == DropBackups
    ensures (log[n + 8].ok <==> CountedOk(log)) && !Restored(log) && BrokenIsRestored(id, log)
  {
    StageIsHarmless(log, n);
    hide Polled, AllOk, Ran;
    NothingApplied(id, log);
  }

  // Before the dangerous part nothing failed, and nothing was applied or rolled back.
  lemma StageIsHarmless(log: seq<Asked>, n: nat)
    requires Polled(log, n) && AllOk(log, n) && Ran(STAGE, log, n, n + 7, true)
    ensures Harmless(log, n + 7) && Calls(log, n + 2, SnapshotImages) && Calls(log, n + 3, MakeBackup)
  {
  }

  ghost predicate Harmless(log: seq<Asked>, n: nat) {
    && n <= |log|
    && forall i :: 0 <= i < n ==> log[i].ok && !log[i].call.Restore? && log[i].call != RunApplyStack && log[i].call != AwaitScanner
  }

  lemma ApplyMeans(id: nat, log: seq<Asked>, n: nat, end: OpState)
    requires Polled(log, n) && AllOk(log, n) && Ran(STAGE, log, n, n + 7, true)
    requires ApplyRan(Checkpointed(id, log[n + 2].images, log[n + 3].path), log, n + 7, end)
    ensures end == Succeeded || end == RolledBack || end == Failed
    ensures (end == Succeeded <==> CountedOk(log)) && (end == RolledBack <==> Restored(log)) && BrokenIsRestored(id, log)
  {
    StageIsHarmless(log, n);
    hide Polled, AllOk, Ran, Harmless, CountedOk, Restored, BrokenIsRestored;
    var own := Checkpointed(id, log[n + 2].images, log[n + 3].path);
    var from := n + 7;
    if end == Succeeded {
      NotRestoring(own, log, from, end);
      VerifiedMeans(id, log, from);
    } else if Ran([RunApplyStack, AwaitScanner], log, from, from + 1, false) && RestoreRan(own, log, from + 1, end) {
      assert FromStage(log, from, own);
      RestoreMeans(log, from, from + 1, own, end);
    } else {
      assert FromStage(log, from, own);
      RestoreMeans(log, from, from + 2, own, end);
    }
  }

  lemma NotRestoring(own: Checkpointed, log: seq<Asked>, from: nat, end: OpState)
    requires end == Succeeded
    ensures !RestoreRan(own, log, from + 1, end) && !RestoreRan(own, log, from + 2, end)
  {
  }

  lemma VerifiedMeans(id: nat, log: seq<Asked>, from: nat)
    requires |log| == from + 4 && Ran([RunApplyStack, AwaitScanner], log, from, from + 2, true)
    requires log[from + 2].call == DropBackups && log[from + 3].call == DropImages && Harmless(log, from)
    ensures CountedOk(log) && !Restored(log) && BrokenIsRestored(id, log)
  {
    assert log[from].call == RunApplyStack && log[from].ok && log[from + 1].call == AwaitScanner && log[from + 1].ok;
    assert Calls(log, from, RunApplyStack);
    hide Ran;
    forall i | 0 <= i < |log| ensures !log[i].call.Restore? && (log[i].ok || i >= from + 2) {
    }
  }

  // The rollback at `at`, right after the error.
  lemma RestoreMeans(log: seq<Asked>, from: nat, at: nat, own: Checkpointed, end: OpState)
    requires at == from + 1 || at == from + 2
    requires Ran([RunApplyStack, AwaitScanner], log, from, at, false) && RestoreRan(own, log, at, end)
    requires Harmless(log, from) && FromStage(log, from, own)
    ensures end == RolledBack || end == Failed
    ensures !CountedOk(log) && (end == RolledBack <==> Restored(log)) && BrokenIsRestored(own.id, log)
  {
    RestoreLog(log, from, at, own, end);
    hide Ran, RestoreRan, Harmless;
    assert !CountedOk(log) by {
      assert !log[at - 1].ok;
    }
    assert end == RolledBack <==> Restored(log) by {
      if end == RolledBack {
        assert log[at].call.Restore? && log[at].ok && log[at + 1].call == AwaitScanner && log[at + 1].ok;
      }
    }
    hide Restored, CountedOk;
    LaterFromStage(log, from, at - 1, own);
    hide FromStage;
    forall i: nat | Broken(log, i) ensures i == at - 1 {
    }
  }

  lemma LaterFromStage(log: seq<Asked>, i: nat, j: nat, own: Checkpointed)
    requires FromStage(log, i, own) && i <= j
    ensures FromStage(log, j, own)
  {
  }

  // What such a log looks like, call by call.
  lemma RestoreLog(log: seq<Asked>, from: nat, at: nat, own: Checkpointed, end: OpState)
    requires at == from + 1 || at == from + 2
    requires Ran([RunApplyStack, AwaitScanner], log, from, at, false) && RestoreRan(own, log, at, end) && Harmless(log, from)
    ensures end == RolledBack || end == Failed
    ensures at < |log| <= at + 2 && log[at].call == Restore(own) && Broken(log, at - 1)
    ensures log[at - 1].call == RunApplyStack || log[at - 1].call == AwaitScanner
    ensures |log| == at + 2 ==> log[at].ok && log[at + 1].call == AwaitScanner
    ensures end == RolledBack <==> |log| == at + 2 && log[at + 1].ok
    ensures forall i :: 0 <= i < |log| && i != at ==> !log[i].call.Restore?
    ensures forall i: nat :: Broken(log, i) ==> i == at - 1
  {
    assert log[from].call == RunApplyStack;
    assert at == from + 2 ==> log[from].ok && log[from + 1].call == AwaitScanner;
  }

  lemma NotPastScansMeans(id: nat, log: seq<Asked>, end: OpState)
    requires NotPastScans(log, end)
    ensures end == Cancelled || end == Failed
    ensures (end == Failed ==> !CountedOk(log)) && !Restored(log) && BrokenIsRestored(id, log)
  {
    NothingApplied(id, log);
    hide Restored, BrokenIsRestored;
    if end == Failed {
      LastFailed(log);
    }
  }

  /** An operation succeeds only if no call failed whose error counts; one whose ApplyStack or verification failed is
      rolled back exactly once, at once and from its own checkpoint, and no other is; and it ends rolled back exactly
      when the rollback and the verification after it came back well. */
  lemma EndsMean(kind: Kind, id: nat, log: seq<Asked>, end: OpState)
    requires Told(kind, id, log, end)
    ensures end == Succeeded ==> CountedOk(log)
    ensures end == Failed || end == Degraded || end == RolledBack ==> !CountedOk(log)
    ensures end == RolledBack <==> Restored(log)
    ensures BrokenIsRestored(id, log)
  {
    hide CountedOk, Restored, BrokenIsRestored, CheckRan, FeedRan, NotPastScans, StackRanFrom;
    match kind {
      case Check => CheckMeans(id, log, end);
      case Feed => FeedMeans(id, log, end);
      case Stack =>
        if NotPastScans(log, end) {
          NotPastScansMeans(id, log, end);
        } else {
          var n :| StackRanFrom(id, log, n, end);
          StackMeans(id, log, n, end);
        }
    }
  }

  lemma StackMeans(id: nat, log: seq<Asked>, n: nat, end: OpState)
    requires StackRanFrom(id, log, n, end)
    ensures end == Succeeded || end == RolledBack || end == Failed
    ensures (end == Succeeded <==> CountedOk(log)) && (end == RolledBack <==> Restored(log)) && BrokenIsRestored(id, log)
  {
    hide CountedOk, Restored, BrokenIsRestored, Polled, AllOk, ApplyRan;
    if end == Failed && Ran(STAGE, log, n, |log|, false) {
      StackStageMeans(id, log, n);
    } else if !Differ(log[n + 2].images, log[n + 6].images) {
      StackUnchangedMeans(id, log, n);
    } else {
      ApplyMeans(id, log, n, end);
    }
  }

  /** A stack upgrade calls ApplyStack exactly when it came past its stage and the images differ. */
  lemma AppliesOnlyChanges(id: nat, log: seq<Asked>, n: nat, end: OpState)
    requires StackRanFrom(id, log, n, end)
    ensures (exists i: nat :: Calls(log, i, RunApplyStack)) <==>
            Ran(STAGE, log, n, n + 7, true) && Differ(log[n + 2].images, log[n + 6].images)
  {
    hide IdsOf, Differ;
    if Ran(STAGE, log, n, n + 7, true) {
      if Differ(log[n + 2].images, log[n + 6].images) {
        assert Calls(log, n + 7, RunApplyStack);
      } else {
        forall i | 0 <= i < |log| ensures log[i].call != RunApplyStack {
        }
      }
    } else {
      forall i | 0 <= i < |log| ensures log[i].call != RunApplyStack {
      }
    }
  }
}
