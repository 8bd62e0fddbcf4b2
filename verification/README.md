# Verified model of openvasconf

openvasconf keeps Greenbone scan configurations in step with a list of customers and their networks. This
project models the five parts of it that hold state over time or rest on arithmetic, and proves what they
are for:

- **Network planning** (`Cidr`, `RangeToCidr`, `Planner`, `PlanLaws`, `PlanTheorems`, `PlanStability`,
  `HostSpecs`). Ranges and CIDR networks become aligned blocks, blocks become /24s, overlaps go in one
  sweep, endpoints decide the class, and a greedy packer fills targets. Addresses are naturals below 2^32; a
  prefix is a base and a mask length. Everything rests on `Cidr.Laminar`: two blocks that meet are nested.
- **Reconciliation with Greenbone** (`Markers`, `ReconcileState`, `ReconcileFrames`, `Reconciler`). Checkpoint rows and remote
  objects are two maps. Every repository or Greenbone call is one step that may succeed, fail, or take
  effect with its reply lost, and a run may stop at any of them. `faults` counts the calls that went wrong,
  `failed` names the keys whose write came back with an error, and `lost` counts writes to Greenbone the
  process ended in and row writes that did not come back.
- **Findings and tickets** (`FindingTables`, `FindingStore`, `FindingLaws`, `FindingColumns`, `TicketText`,
  `Outbox`, `OutboxLaws`, `OutboxPayloads`). Tables are maps, the outbox is a sequence in id order, and one SQL
  transaction is one call.
- **The updater** (`UpdaterState`, `UpdaterCode`, `UpdaterCalls`, `Updater`, `UpdaterRuns`, `UpdaterInvariant`,
  `UpdaterTheorems`). Memory and disk are separate records. `Updater` is the code: critical sections and the
  operations made of them, each proved to follow the ways of `UpdaterCode`, to leave the record its `Effect`
  says, and to come to the end that the log of its runtime and scanner calls demands (`UpdaterCalls.Told`).
  `UpdaterRuns` lets any number of such goroutines, requests, acknowledgements, saves and
  crashes take turns in any order, a section and its save being two steps; the theorems hold in all its runs.
- **The login limiter, the PDF writer and two escapers** (`LoginLimiter`, `PdfWriter`, `Decimal`, `Escapers`).

Code that changes things in place is a class whose methods are proved equal to a specification function or
against the property itself; the theorems are then about that function over whole runs.

## What holds only under a condition

- Ownership markers are found by substring and end in `sequence=%d`, so target 1's marker also occurs in the
  comment of target 10 (`Markers.MarkerTest`). The protocol theorems therefore ask for keys that cannot be
  mistaken for each other (`ClashFree`), which for the numbered targets of a class means at most nine
  (`Markers.NineTargetsPerClass`, both directions). At ten, an old row of target 1 without an id takes over
  target 10's object, and target 10 can no longer be applied (`Reconciler.Reconciler.RecoverBesideClash`).
- The desired state may change before a run has completed exactly when no row orphans, dangles or misleads
  under the next one: then the protocol's invariant carries over (`ReconcileState.MayReplaceExactly`) and
  `ReconcileEpochs` goes on. Otherwise some row spoils every run that completes, or doubles in stopped ones
  (`Reconciler.MayReplaceUnlessItShows`). A spoilt run leaves a live object without a row, or a row that passes
  for current over a wrong object or none, or does not complete at all (`Reconciler.Reconciler.RunTooEarly`);
  a doubling row gets one more live object each time a run stops after its create
  (`Reconciler.Reconciler.ApplyOverDangling`). One lost reply reaches each spoiling kind
  (`Reconciler.LostRepliesSpoil`). A completed run always allows the change (`ConvergedStartsNextEpoch`), and
  a row misleads only through a stop or a lost record: while every write is answered and every row write comes
  back, a failed write shows as an error in its key's row, and no row ever misleads under any later desired
  state (`Reconciler.Reconciler.ReconcileUntilDone`, `ReconcileEpochs`).
- The order in which reports are imported shows in the exposure exactly when two reports that tie for a
  task's newest scan end disagree on findings or severities
  (`FindingLaws.OrderShowsExactlyAtDisagreeingTies`). Reports without a scan end tie with each other.
- Once all its events are delivered, a finding's ticket column is wrong exactly when the ticket should be
  closed and the open of its generation wrote the column last (`OutboxLaws.DrainedTicketWrongExactly`). That
  takes a close of this very generation sent before the open had arrived (`WrongTicketHadEarlyClose`), and
  there is such a run (`OutOfTurnLeavesTicketOpen`); all other events may overtake each other freely.
- The outbox insert meets a taken event key exactly when one answer of the candidate query holds a finding
  twice, which happens because a report may list a fingerprint twice (`OutboxLaws.ConflictOnlyOnRepeat`).
  It is harmless there.
- A failed rollback during recovery is recorded before automation is paused. Between a rollback's return and
  the next acknowledgement a stack upgrade can start exactly when nothing runs, memory is not paused and a
  failed recovery still misses its pause (`UpdaterTheorems.PauseOutrunExactly`). A request in that window is
  enough (`RequestOutrunsPause`); a crash there loses the pause for good (`CrashLosesPause`). Without a failed
  recovery no stack upgrade ever starts there (`PauseHolds`).
- A repeated idempotency key is answered with its operation while that runs or is among the newest hundred
  that ended, and with the inconsistency error after that (`UpdaterTheorems.RepeatAnswer`), which a hundred
  and one plain operations reach (`OldKeyIsInconsistent`).
- Updater saves succeed, except the two whose failure the code reports: the one after the checkpoint and
  the one in `Trigger`.
- A client keeps a bucket of its own while the table has room, or while it has one that the check does not drop
  from a table overfull by the shared bucket (`LoginLimiter.Roomy`).
- A description is never cut when the finding has no CVE references (`TicketText.DescriptionWhole`).
- Login attempts are serialized and the clock does not run back. Two checks admitted before either failure
  is recorded would share one place in the budget.
- A cross-reference entry is 20 bytes exactly while its offset has at most ten digits
  (`PdfWriter.EntrySizeFixed`), so the reader theorem asks for a file of at most 10^10 bytes.

## Model

| member | source | states |
|---|---|---|
| Cidr.Laminar | internal/networkplan/plan.go:376-398 | two masked prefixes that share an address are nested, the wider one outside |
| Cidr.MaskedFits | internal/networkplan/plan.go:489-491 | a masked prefix lies inside the 32-bit space |
| RangeToCidr.GrowBlock | internal/networkplan/plan.go:283-291 | the doubling loop finds the largest aligned block that fits what remains |
| RangeToCidr.MaskLength | internal/networkplan/plan.go:292-296 | the mask length found by halving belongs to the block size |
| RangeToCidr.ParseRange | internal/networkplan/plan.go:261-301 | the loop yields the greedy decomposition, or the error for a start after the end, without leaving the 32-bit space |
| RangeToCidr.RangeCoveredExactly | internal/networkplan/plan.go:277-301 | the blocks are masked, pairwise disjoint and cover exactly the range |
| RangeToCidr.RangeBlocksTile | internal/networkplan/plan.go:277-301 | the blocks are adjacent, without gap from start to end |
| RangeToCidr.RangeBlocksMinimal | internal/networkplan/plan.go:277-301 | no set of CIDR blocks with the same union is smaller |
| RangeToCidr.RangeBlocksAtMost62 | internal/networkplan/plan.go:277-301 | never more than 62 blocks |
| Planner.Split | internal/networkplan/plan.go:353-374 | /24 pieces in order, narrower networks whole, the error for a network of too many pieces |
| Planner.ParseAndExpand | internal/networkplan/plan.go:329-351 | every input expanded and split in order, the first error or the expansion limit ending it |
| Planner.RemoveOverlaps | internal/networkplan/plan.go:376-398 | the sweep over the sorted blocks keeps exactly what no wider block covers; the library sort is taken by its result |
| Planner.Pack | internal/networkplan/plan.go:453-487 | the flushing loop equals the greedy grouping, targets numbered from one |
| Planner.Build | internal/networkplan/plan.go:71-126 | the plan of the overlap-free blocks, or the error the first failing stage gives |
| PlanLaws.SplitCovers | internal/networkplan/plan.go:353-374 | the /24 pieces cover exactly the network |
| PlanLaws.AllPiecesCover | internal/networkplan/plan.go:329-351 | the expanded blocks cover exactly what the inputs name |
| PlanLaws.AddInputsOutcome | internal/networkplan/plan.go:329-351 | the expansion succeeds exactly when every input is fit and the pieces stay under the limit, and then keeps all of them |
| PlanLaws.WithoutOverlapsLaws | internal/networkplan/plan.go:376-398 | overlap removal keeps the union and leaves ascending, pairwise disjoint blocks |
| PlanLaws.EndpointsDecide | internal/networkplan/plan.go:400-451 | for a block of /24 or narrower the endpoint test gives every address's own verdict |
| PlanLaws.GroupsKeepOrder | internal/networkplan/plan.go:453-487 | packing keeps order and loses nothing |
| PlanLaws.GroupsBounded | internal/networkplan/plan.go:453-487 | no target exceeds the limit, or 256 when the limit is below that |
| PlanLaws.GroupsFewest | internal/networkplan/plan.go:453-487 | no contiguous split under the limit has fewer targets |
| PlanLaws.GroupsNearlyFull | internal/networkplan/plan.go:453-487 | every target but the last is nearly full, which bounds their number |
| PlanLaws.DefaultTargetCount | internal/networkplan/plan.go:453-487 | at the default limit at most ceil(total / 3840) targets per class |
| PlanTheorems.PlanConservesAddresses | internal/networkplan/plan.go:71-126 | the targets' union is the inputs', no address is in two targets, and every address, not only the endpoints, has its target's class |
| PlanTheorems.PlanCountsEveryAddressOnce | internal/networkplan/plan.go:201-204 | the target counts sum to the number of addresses named |
| PlanTheorems.UniqueAddresses | internal/networkplan/plan.go:201-204 | the analysis total is that number |
| PlanStability.PlanIgnoresInputOrder | internal/networkplan/plan.go:93-119 | every permutation of the inputs is accepted or rejected alike and yields the same targets |
| PlanStability.PlanIsFixedPoint | internal/networkplan/plan.go:71-126 | a plan rebuilt from its own target prefixes is the same plan |
| PlanStability.StoredPrefixesGiveSamePlan | internal/reconcile/reconciler.go:380-392 | planning the stored expanded prefixes, in any order, gives the plan of the form's entries |
| PlanStability.SortedUnique | internal/networkplan/plan.go:377-385 | the sort has one result whatever the order of its input |
| HostSpecs.GmpHostSpecifications | internal/reconcile/reconciler.go:934-963 | the merging loop equals the specified merge, also at 255.255.255.255 |
| HostSpecs.PrefixEndOfMasked | internal/reconcile/reconciler.go:965-971 | setting the host bits gives the last address of the prefix |
| HostSpecs.HostRangesExact | internal/reconcile/reconciler.go:934-963 | the ranges ascend with a gap between neighbours and cover exactly the prefixes |
| HostSpecs.CanonicalUnique | internal/reconcile/reconciler.go:934-963 | two such range lists with one union are equal |
| HostSpecs.SameUnionSameHosts | internal/reconcile/reconciler.go:934-963 | prefix lists with equal unions print the same ranges |
| HostSpecs.HostRangesFewest | internal/reconcile/reconciler.go:934-963 | no set of ranges with the same union is smaller |
| Markers.MarkerTest | internal/gmp/resources.go:365-368 | the substring test accepts a comment exactly when installation, customer and class are the wanted ones and the wanted number is a decimal prefix |
| Markers.NineTargetsPerClass | internal/reconcile/reconciler.go:914-923 | the targets of a class can be told apart exactly up to nine |
| Markers.OneDigitKeys | internal/reconcile/reconciler.go:914-923 | keys with one-digit numbers never clash |
| Reconciler.Reconciler.FindResource | internal/gmp/resources.go:350-383 | the scan finds the one object whose comment passes the marker test, none, or reports several |
| Reconciler.Reconciler.ApplyResource | internal/reconcile/reconciler.go:646-746 | intent row, recovery by marker, ownership check, write and checkpoint: under the invariant the key is settled on success and every stop keeps it; without it, a row that passes for current is taken at its word, a foreign object refused, any other row ends on its own object, the one found or a new one, and no other key is touched; a write that comes back with an error leaves the row in error unless recording it fails too, and a row that told its object's value still does |
| Reconciler.Reconciler.OpenRow | internal/reconcile/reconciler.go:666-697 | on success the row is ready for its write, with its own id, the one recovered by marker, or none when nothing live bears the marker |
| Reconciler.Reconciler.WriteObject | internal/reconcile/reconciler.go:699-722 | on success one live owned object carries the wanted value, the known one if there was one; it fails only with a faulty call, and then rows and objects are as they were or the row is in error |
| Reconciler.Reconciler.ModifyOwned | internal/reconcile/reconciler.go:699-708 | the owned object carries the value, or the modify came back with an error and the key's row is in error, so no value passes for current there, unless the recording write failed too |
| Reconciler.Reconciler.CreateNew | internal/reconcile/reconciler.go:715-723 | one new object under the key's marker, or the row without an id is in error, unless the recording write failed too |
| Reconciler.Reconciler.Checkpoint | internal/reconcile/reconciler.go:724-746 | the written object is checkpointed and the key settled |
| Reconciler.Reconciler.ApplyTask | internal/reconcile/reconciler.go:540-575 | the task is replaced when its wanted value changed, applied and given its retention |
| Reconciler.Reconciler.EnsureRetention | internal/reconcile/reconciler.go:549-560 | an owned current task gets its retention preference, or its row is in error, or nothing about it changed |
| Reconciler.Reconciler.ReleaseTaskForTargetChange | internal/reconcile/reconciler.go:577-591 | no task of the slot is left before its target is written; other rows stay |
| Reconciler.Reconciler.ReplaceChangedTask | internal/reconcile/reconciler.go:593-605 | a task whose wanted value changed is removed, any other left alone |
| Reconciler.Reconciler.RemoveManagedTask | internal/reconcile/reconciler.go:607-644 | the task's object, found by id or marker, and its row are gone |
| Reconciler.Reconciler.DeleteResource | internal/reconcile/reconciler.go:849-900 | an owned object is deleted, a missing or foreign one handled as the code does, and no live object of the key is left; of an empty row nothing is looked up; a delete that comes back with an error shows in the row |
| Reconciler.Reconciler.SortForDeletion | internal/reconcile/reconciler.go:836-847 | the same rows, each once: every task before every target, the schedule last, of a kind private before public, and of a class the highest sequence first |
| Reconciler.Reconciler.CleanupSurplus | internal/reconcile/reconciler.go:783-811 | exactly the rows no longer desired go, settled keys stay settled |
| Reconciler.Reconciler.ReconcileSlot | internal/reconcile/reconciler.go:413-494 | one target and its task are settled, earlier slots stay so |
| Reconciler.Reconciler.ApplyDesired | internal/reconcile/reconciler.go:413-494 | schedule, then slot by slot: all settled on success; an error of a write shows in its row, and truthful rows stay truthful |
| Reconciler.Reconciler.ReconcileCustomer | internal/reconcile/reconciler.go:294-361 | a run that completes leaves exactly the desired keys, each applied with its value on a live owned object, and a second run changes nothing; from books out of order it leaves orphans, current rows and current tasks as it found them |
| Reconciler.Reconciler.CleanupCustomer | internal/reconcile/reconciler.go:813-834 | a removed customer keeps no row and no managed object; from books out of order, what an empty row stands for lives on |
| Reconciler.Reconciler.ReconcileUntilDone | internal/reconcile/reconciler.go:413-494 | however often runs or removals stop, no key ever has two live objects, every write hit an owned object, and the first completed run converges; an attempt fails only with a faulty call, unless a dead task blocks all of them; without a stop in a write or a lost record no row misleads under any later desired state |
| Reconciler.Reconciler.ReconcileEpochs | internal/reconcile/reconciler.go:294-361 | the same over any sequence of desired states, removal among them, each replaced after a completed run or earlier where that is allowed |
| Reconciler.Reconciler.RecoverBesideClash | internal/reconcile/reconciler.go:689-708 | beyond nine targets, a row of one key without an id takes over the object of another, whose row then points at a foreign object and can no longer be applied |
| ReconcileState.InvAtStart | internal/reconcile/reconciler.go:294-361 | before the first run the invariant holds |
| ReconcileState.ConvergedMeans | internal/reconcile/reconciler.go:413-494 | what a completed run leaves at Greenbone: the schedule, and for each slot its target and a task over exactly these two, in their desired form; no other object bears a marker |
| ReconcileState.ConvergedStartsNextEpoch | internal/reconcile/reconciler.go:294-361 | a completed run is a valid start for every next desired state, removal included |
| ReconcileState.CreateKeeps | internal/reconcile/reconciler.go:715-733 | a create keeps the invariant whether or not its reply arrives |
| ReconcileState.TrashKeeps | internal/reconcile/reconciler.go:849-900 | deleting an owned object of an unwanted or replaced key keeps the invariant, and nothing live refers to it |
| ReconcileState.MayReplaceExactly | internal/reconcile/reconciler.go:294-361 | in the middle of any run, the next desired state keeps the protocol's invariant exactly when no row orphans, dangles or misleads under it |
| ReconcileState.RestingRowsAllowEverything | internal/reconcile/reconciler.go:294-361 | a row whose object is live and carries the row's value stands in the way of no change |
| ReconcileState.RemovalMayStart | internal/reconcile/reconciler.go:813-834 | removal may start exactly when no row without an id has a live object |
| Reconciler.MayReplaceUnlessItShows | internal/reconcile/reconciler.go:294-361 | the next desired state may replace the present one exactly when no row spoils completed runs and none doubles in stopped ones |
| Reconciler.Reconciler.RunTooEarly | internal/reconcile/reconciler.go:413-494 | a completed run for a state that came too early leaves an orphan's object live without a row and every misleading or current but dangling row unsettled; a task whose object is gone lets none complete |
| Reconciler.Reconciler.ApplyOverDangling | internal/reconcile/reconciler.go:715-733 | two runs over a dangling row that is not current, each stopped after its create, leave the key two live objects |
| Reconciler.OrphanIsDoubled | internal/reconcile/reconciler.go:670-690 | applying a key that has a live object and no row makes it a second |
| Reconciler.LostRepliesSpoil | internal/reconcile/reconciler.go:646-746 | one lost reply of a create, a modify or a row's delete, then a removal or the edit taken back, reaches a row of every spoiling kind |
| ReconcileState.LostCreateThenRemoved | internal/reconcile/reconciler.go:858-860 | a create whose reply is lost, then removal: a state the protocol reaches and may not leave that way |
| ReconcileState.LostModifyThenReverted | internal/reconcile/reconciler.go:646-665 | a modify whose reply is lost, then the edit taken back: the row passes for current and the object keeps the other value |
| ReconcileState.LostRowDeleteThenReverted | internal/reconcile/reconciler.go:540-575 | a task trashed, its row's delete lost, then the edit taken back: the row passes for current and its task is gone |
| FindingStore.Store.SaveReportSnapshot | internal/store/reports.go:83-213 | insert or replace the snapshot, then the newest or the historical reconciliation |
| FindingStore.Store.ReconcileFindingStates | internal/store/findings.go:60-104 | the reconciliation whose every column `FindingColumns.NewestImportColumns` fixes |
| FindingStore.Store.ReconcileHistoricalFindingStates | internal/store/findings.go:106-132 | only first-seen moves for a known finding, an unknown one enters as absent, column by column in `FindingColumns.OlderImportColumns` |
| FindingStore.Store.RecordReportImportFailure | internal/store/reports.go:234-297 | a failure never touches an imported row |
| FindingStore.Store.DeleteFailedReportImport | internal/store/reports.go:313-325 | only failed rows of the report go |
| FindingStore.Store.PruneReportSnapshots | internal/store/retention.go:11-33 | the ranked delete with its guard, references to deleted rows emptied |
| FindingLaws.RunTracks | internal/store/reports.go:188-206 | in every reachable state the tables agree with the reports imported so far |
| FindingLaws.OrderShowsExactlyAtDisagreeingTies | internal/store/reports.go:188-206 | any two runs that import one set of reports, with failures and pruning anywhere, show the same exposure exactly when the reports tied for the newest scan end of each task agree |
| FindingLaws.AgreeingTiesSameExposure | internal/store/reports.go:188-206 | agreeing ties leave the order of imports no room |
| FindingLaws.LastTiedWins | internal/store/reports.go:188-198 | of the newest reports the one imported last carries the exposure |
| FindingLaws.ImportOrderDoesNotMatter | internal/store/reports.go:188-206 | with distinct scan ends the order never matters |
| FindingLaws.ExposureIsRecomputed | internal/store/findings.go:60-132 | present findings, severities and last-seen of a task are those of one of its newest reports, first-seen is the earliest scan end ever holding the finding |
| FindingLaws.NewMeansOnlyTheNewest | internal/store/findings.go:205-212 | a present finding is new exactly when no report older than the newest ever held it |
| FindingLaws.PresentRefersToNewest | internal/store/findings.go:78-103 | a present finding refers to a kept row of a newest report |
| FindingLaws.PruneKeepsThreeNewest | internal/store/retention.go:11-33 | pruning leaves exactly the min(3, n) newest imported rows of each task |
| FindingLaws.PruneKeepsEvidence | internal/store/retention.go:11-33 | pruning never drops the report a present finding needs |
| FindingLaws.TiedImportsDependOnOrder | internal/store/reports.go:188-198 | with equal scan ends two import orders show different exposures |
| FindingColumns.NewestImportColumns | internal/store/findings.go:60-104 | the newest report sets present, last-seen, severity and reference of what it lists; of the task's other findings only the presence goes, and no other task's finding changes |
| FindingColumns.OlderImportColumns | internal/store/findings.go:106-132 | an older report moves nothing but the first-seen date of what it lists, and only back; a finding new to the table enters absent |
| FindingColumns.ImportKeepsRows | internal/store/reports.go:83-213 | an import writes one row, a new one or the report's failed one, and no other |
| FindingColumns.RunRefers | internal/store/findings.go:60-132 | in every reachable state a finding refers to an imported row whose report lists it at the finding's severity and ended when it was last seen, or to none |
| FindingColumns.NoneOnlyAfterPrune | internal/store/retention.go:11-33 | a finding refers to none only because a prune deleted the row it referred to, and ever since |
| FindingColumns.PruneColumns | internal/store/retention.go:11-33 | a prune deletes imported rows only, and changes of a finding only the reference to a deleted row |
| FindingColumns.FailureCounted | internal/store/reports.go:234-297 | a failure is recorded and counted in the one row of its report, an imported one stays, and nothing else changes |
| FindingColumns.AttemptsCounted | internal/store/reports.go:234-325 | in every run a report never imported has a row exactly while it failed since its failure was last dropped, and the row counts how often |
| TicketText.SummaryShape | internal/store/hookwise.go:331-352 | a summary has at most 90 characters, is never blank, and ends in the whole asset and key suffix after a title |
| TicketText.TitleHasRoom | internal/store/hookwise.go:348-351 | at least 23 characters are left for the title, so the narrow fallback is never taken |
| TicketText.SameSummarySameShortKey | internal/store/hookwise.go:331-352 | equal summaries of full-length fingerprints share the short key |
| TicketText.BoundedFits | internal/store/hookwise.go:481-491 | bounded text keeps its bound, and a text that is not blank stays so |
| TicketText.NormalizedCVEsLaws | internal/store/hookwise.go:447-479 | the normalised CVE ids are valid and distinct, and no valid candidate is lost |
| TicketText.KeptInOrder | internal/store/hookwise.go:447-463 | the ids stand in the order of their first mention |
| TicketText.SummaryTells | internal/store/hookwise.go:331-352 | the summary is the first CVE, the severity and the title, whole where they fit and else cut to the last character, then asset and key |
| TicketText.SeverityReads | internal/store/hookwise.go:342 | without its point the severity's text reads as its tenths |
| TicketText.DescriptionWhole | internal/store/hookwise.go:354-423 | a description keeps its limit, and without CVE references it is never cut |
| Outbox.OutboxStore.ReconcileHookwiseOutbox | internal/store/hookwise.go:78-184 | one pass of the switch over the query's answer, on columns read before the loop |
| Outbox.OutboxStore.Enqueue | internal/store/hookwise.go:186-293 | the payload, the insert that yields to a taken key, and the finding's new columns |
| Outbox.OutboxStore.FindLatestOpen | internal/store/hookwise.go:308-314 | the latest open payload of a generation |
| Outbox.OutboxStore.MarkHookwiseDelivered | internal/store/hookwise.go:529-559 | only this event is marked, delivered and counted, its id and payload stay, and only the ticket column of its finding moves, while the generation is current |
| Outbox.OutboxStore.MarkHookwiseFailed | internal/store/hookwise.go:561-599 | only this event's attempt is counted, and only the ticket column of its finding moves, while the generation is current |
| Outbox.OutboxStore.RecreateHookwiseFinding | internal/store/hookwise.go:649-743 | a forced open event exactly when the query finds the finding, else nothing |
| OutboxLaws.RunLogShape | internal/store/hookwise.go:146-293 | in every reachable state a finding's log is determined: one open per generation up to the current one, and a close missing exactly before a forced generation or while the ticket is to stay open |
| OutboxLaws.RunKeeps | internal/store/hookwise.go:146-293 | log shape, payloads and distinct event keys hold after every run, whatever fails |
| OutboxLaws.RunClosesMatchOpens | internal/store/hookwise.go:239-261 | a close carries the summary of its generation's one open, which lies before it, and after the report expired agrees with it on all but five fields |
| OutboxLaws.PassMeetsTargets | internal/store/hookwise.go:146-179 | one pass, rows in any order and repeated at will, brings every live customer's finding to its target and moves nothing else |
| OutboxLaws.PassMatchesEligibility | internal/store/hookwise.go:146-179 | desired-open equals eligibility for routed findings, and an ineligible one is closed even without a customer name |
| OutboxLaws.SecondPassIsIdle | internal/store/hookwise.go:146-179 | a second pass changes nothing |
| OutboxLaws.ConflictOnlyOnRepeat | internal/store/hookwise.go:266-277 | the insert meets a taken key exactly at a repeated row of one answer |
| OutboxLaws.DrainedTicketWrongExactly | internal/store/hookwise.go:529-559 | once a finding's events are delivered, in any order, its ticket is wrong exactly when it should be closed and its generation's open wrote the column last |
| OutboxLaws.DrainedTicketIsRight | internal/store/hookwise.go:529-559 | it is right when the close of its own current generation was not delivered before the open, whatever happened to other generations and findings |
| OutboxLaws.WrongTicketHadEarlyClose | internal/store/hookwise.go:529-559 | a wrong one had exactly that close sent before its open had arrived |
| OutboxLaws.OutOfTurnLeavesTicketOpen | internal/store/hookwise.go:529-559 | a run that ends with every event delivered and a closed finding's ticket open |
| OutboxPayloads.RunTells | internal/store/hookwise.go:186-293 | every event of every reachable log was queued by one step and never rewritten; it carries the facts the tables held then: an open names the customer's ConnectWise route and name, the finding, its priority and severity, the texts, id, path and scan end of the kept report, under the next generation, for a routed finding that deserves a ticket; a close is for one that does not |
| OutboxPayloads.PassTells | internal/store/hookwise.go:146-179 | the same of the events one pass adds, read off the tables field by field |
| OutboxPayloads.PassKeepsFindings | internal/store/hookwise.go:146-179 | a pass moves only ticket columns |
| OutboxPayloads.ForcedAfterDelivery | internal/store/hookwise.go:647-743 | an operator's new ticket is queued only after the open of the generation before has arrived |
| UpdaterState.FinishSound | internal/updater/controller.go:639-657 | finishing keeps one entry per operation, at most a hundred, and no operation running |
| UpdaterState.AdmitSound | internal/updater/controller.go:245-252 | admitting starts the only running operation, under its own key |
| UpdaterState.TrimKeepsFindable | internal/updater/controller.go:695-711 | a key whose operation can be looked up survives the trim |
| UpdaterState.TrimBounds | internal/updater/controller.go:695-711 | a trim leaves at most 101 keys, and where it drops any it keeps none whose operation is past looking up |
| Updater.Controller.Admit | internal/updater/controller.go:211-253 | a retained key never starts a second operation, a busy or paused updater refuses, and refusals change nothing |
| Updater.Controller.Trigger | internal/updater/controller.go:211-274 | a request is admitted exactly when its key is new, nothing runs and a stack upgrade is not paused; then it is saved before it runs, or taken back |
| Updater.Controller.TrimIdempotency | internal/updater/controller.go:695-711 | keys beyond the bound go unless their operation is active or in the history |
| Updater.Controller.Acknowledge | internal/updater/controller.go:276-282 | the pause is lifted in memory and on disk, and nothing else changes |
| Updater.Controller.PhaseLocked | internal/updater/controller.go:605-615 | only the active operation's phase changes, as the section's place says |
| Updater.Controller.ImagesLocked | internal/updater/controller.go:619-625 | only the active operation's images change |
| Updater.Controller.BackupLocked | internal/updater/controller.go:629-635 | only the active operation's backup changes |
| Updater.Controller.FinishLocked | internal/updater/controller.go:639-655 | a running operation ends with exactly this outcome and enters the history first; any other call changes nothing |
| Updater.Controller.PauseLocked | internal/updater/controller.go:675-679 | automation is paused whatever runs or is over |
| Updater.Controller.Finish | internal/updater/controller.go:639-657 | no operation of the id runs afterwards, whatever others did in between |
| Updater.Controller.PauseAutomation | internal/updater/controller.go:675-681 | the pause may come before or after the end of the operation, whatever others were admitted |
| Updater.Controller.SetBackup | internal/updater/controller.go:629-637 | a success is reported only with the backup on disk |
| Updater.Controller.WaitForScans | internal/updater/controller.go:509-533 | clear exactly after polls that all came back well, failing at the first that did not or at the deadline, and cancelled only for a scheduled upgrade with scans active |
| Updater.Controller.RunCheck | internal/updater/controller.go:365-388 | five calls in order, up to the first that comes back with an error; it fails exactly then |
| Updater.Controller.RunFeed | internal/updater/controller.go:390-434 | a feed refresh asks in order up to the first error, applies exactly changed images, and is degraded exactly when the import does not come |
| Updater.Controller.Stage | internal/updater/controller.go:448-476 | seven calls in order up to the first error; on success the goroutine holds the images the snapshot and the backup the checkpoint gave, saved, and stands before the apply |
| Updater.Controller.RunStack | internal/updater/controller.go:436-500 | the end of a stack upgrade by its log: scans, stage, then cleanup for unchanged images or the dangerous part for changed ones, with what it saved |
| Updater.Controller.ApplyAndVerify | internal/updater/controller.go:482-499 | an error of ApplyStack or of the verification is followed at once by the one rollback; without one it is cleaned up and succeeds |
| Updater.Controller.VerifyStack | internal/updater/controller.go:486-499 | the verification's part of that |
| Updater.Controller.Rollback | internal/updater/controller.go:560-584 | one rollback call and, if it came back well, one verification; the pause comes before the end, and the end is rolled back exactly when both came back well |
| Updater.Controller.Execute | internal/updater/controller.go:328-363 | every path follows the ways of the code and ends once, with the end its log demands: succeeded only if no call failed whose error counts, every failed apply or verification rolled back exactly once, at once and from its own checkpoint |
| Updater.Controller.RecoverInterrupted | internal/updater/controller.go:586-603 | a dangerous record is rolled back once with its own images and backup and ends rolled back or failed as that call comes back; any other is given up as degraded without a rollback |
| Updater.Controller.Start | internal/updater/controller.go:140-168 | nothing starts over a runtime that does not validate; else what is recovered, and with what, is what disk holds |
| Updater.ImagesChanged | internal/updater/controller.go:728-742 | the loops find a change exactly when the counts or some service's image differ |
| UpdaterCalls.SameImages | internal/updater/controller.go:728-742 | with one named image for each service, nothing has changed exactly when the same images are listed, in any order |
| UpdaterCalls.EndsMean | internal/updater/controller.go:328-500 | what the ends mean: succeeded only if every call whose error counts came back well, failed, degraded or rolled back only if one did not, rolled back exactly when the rollback and its verification did, and a rollback exactly after a failed apply or verification |
| UpdaterCalls.AppliesOnlyChanges | internal/updater/controller.go:476-484 | a stack upgrade calls ApplyStack exactly when it came past its stage and the images differ |
| UpdaterInvariant.RunKeeps | internal/updater/controller.go:211-681 | in every run records, goroutines, rollbacks and pause stay as the invariant says |
| UpdaterTheorems.CrashRollsBack | internal/updater/controller.go:586-603 | from the call of ApplyStack until cleanup, a crash at any point makes the restart roll back that operation from its own checkpoint, unless that was done and is on disk |
| UpdaterTheorems.OnlyCheckpointsRollBack | internal/updater/controller.go:560-603 | no rollback is ever called, and no restart would call one, but with the checkpoint an operation made durable before it entered the applying phase |
| UpdaterTheorems.CheckpointStays | internal/updater/controller.go:629-637 | that checkpoint never changes |
| UpdaterTheorems.EndOnce | internal/updater/controller.go:639-657 | each operation ends once, histories in memory and on disk show the newest hundred, and at most one goroutine's operation is not over |
| UpdaterTheorems.EndingsStay | internal/updater/controller.go:639-657 | an end on disk is never lost or changed by any later step, and memory forgets one only in a crash |
| UpdaterTheorems.EndsTold | internal/updater/controller.go:560-603 | rolled back is said only of what was rolled back, and an operation whose ApplyStack may have started ends rolled back or failed after its rollback was called |
| UpdaterTheorems.SucceededWasVerified | internal/updater/controller.go:482-499 | in every run a stack upgrade that entered the applying phase and ended succeeded had its new stack verified before |
| UpdaterTheorems.OverIsFinal | internal/updater/controller.go:605-617 | an operation that is over is not touched until another is admitted, although setting a phase does not ask |
| UpdaterTheorems.OthersLeaveRunning | internal/updater/controller.go:605-681 | between a goroutine's own sections others change nothing of its operation but the pause |
| UpdaterTheorems.RepeatStartsNothing | internal/updater/controller.go:225-233 | while an operation that began can be looked up, no request with its key starts another, through crashes, failed saves and trims |
| UpdaterTheorems.RepeatAnswer | internal/updater/controller.go:226-232 | a retained key is answered with the running operation or its one ending, and with the inconsistency error exactly when a hundred newer ones ended |
| UpdaterTheorems.OldKeyIsInconsistent | internal/updater/controller.go:226-232 | a run of a hundred and one checks reaches that error |
| UpdaterTheorems.PauseOutrunExactly | internal/updater/controller.go:586-603 | between a rollback's return and an acknowledgement a stack upgrade can start exactly when nothing runs, memory is not paused and a failed recovery misses its pause |
| UpdaterTheorems.PausedUntilAcknowledged | internal/updater/controller.go:560-603 | from a rollback's return to the acknowledgement memory and disk are paused, once its operation has come to the pause and no failed recovery owes one |
| UpdaterTheorems.PauseHolds | internal/updater/controller.go:560-600 | without a failed recovery none ever starts there |
| UpdaterTheorems.RequestOutrunsPause | internal/updater/controller.go:592-596 | a request between the failed end and the pause is admitted, no crash needed |
| UpdaterTheorems.CrashLosesPause | internal/updater/controller.go:592-596 | a crash there leaves nothing to recover and automation running |
| LoginLimiter.Limiter.Allowed | internal/web/middleware.go:180-199 | admits exactly while the window holds fewer failures than the budget of all clients and of this client's bucket, its own while it has room, counted over all failures ever recorded; forgets only what expired |
| LoginLimiter.Limiter.Failure | internal/web/middleware.go:201-208 | one more failure, under the client's own bucket and no other while it has one or there is room, keeps every window within budget |
| LoginLimiter.Limiter.Success | internal/web/middleware.go:210-215 | the client's own bucket is forgotten and no other, while it has one or there is room |
| LoginLimiter.Limiter.Key | internal/web/middleware.go:219-224 | the client's own bucket exactly while it has one or there is room, else the shared one |
| LoginLimiter.Limiter.Sweep | internal/web/middleware.go:228-240 | expired attempts and empty buckets go, at most once per interval |
| LoginLimiter.Limiter.RecentAttempts | internal/web/middleware.go:242-250 | exactly the attempts strictly after the cutoff, in order |
| LoginLimiter.Limiter.Login | internal/web/handlers.go:36-60 | after every attempt all windows hold at most 50 failures, and 5 per client bucket, in a table of at most 10,001; a client with room and fewer than five recent failures of its own is admitted whenever fewer than fifty are recent in all, its outcome goes to its own bucket, and no other client's bucket changes beyond expiry |
| LoginLimiter.FailureThrottled | internal/web/middleware.go:180-208 | a failure admitted by the tracked remainder keeps every half-open window within its budget |
| LoginLimiter.WindowHoldsFew | internal/web/middleware.go:154-165 | wherever a 15-minute window is laid, it holds no more recorded failures than the budget |
| PdfWriter.PdfDocument.Render | internal/report/pdf.go:38-65 | every object, table entry and the trailer stand where the offsets say |
| PdfWriter.ReaderFindsObject | internal/report/pdf.go:42-56 | the digits of entry n, read as section 7.5.4 of ISO 32000-1 prescribes, lead to object n |
| PdfWriter.ReaderFindsTable | internal/report/pdf.go:50-61 | the number before the end-of-file mark leads to the table |
| PdfWriter.ReaderReadsObject | internal/report/pdf.go:41-47 | the object an entry leads to is numbered as the entry, and its body stands whole between its marks |
| PdfWriter.ReaderReadsTable | internal/report/pdf.go:48-52 | the table tells one entry more than there are objects and starts with the free one |
| PdfWriter.ReaderReadsTrailer | internal/report/pdf.go:56-61 | the file ends in the number of entries, the root object and the table's place, read digit by digit |
| PdfWriter.EntrySizeFixed | internal/report/pdf.go:53-56 | an entry is 20 bytes exactly while its offset has at most ten digits |
| Decimals.PaddedValue | internal/report/pdf.go:55 | a padded number reads back as itself |
| Escapers.PdfRoundTrip | internal/report/pdf.go:78-89 | a reader of the literal string, section 7.3.4.2 of ISO 32000-1, stops where the writer closed it and sees the text with unprintable characters replaced |
| Escapers.TextRoundTrip | internal/reconcile/calendar.go:43-49 | a reader of the TEXT value, section 3.3.11 of RFC 5545, gets the text back without carriage returns, and the written value never breaks its line |

## Left out

- Text of addresses: parsing of IP and CIDR text and the printing of host ranges; the planner starts from numbers, with masked prefixes as its parser gives them.
- Names and hashes: safe names, target names and the diagnostics of an analysis; SHA-256 is taken as injective, so a hash is the value it stands for.
- PlanLaws.GroupsBounded: a configured limit below 256 is not kept by the packer, so the bound is the larger of the two.
- Greenbone and Docker: their XML, HTTP and command traffic; a call is a step that may fail or lose its reply.
- Reconciler.Reconciler.ReconcileUntilDone: objects deleted outside the tool are not recovered from; progress, audit events, settings checks and the retry of transient errors change no row or object and are single calls that may fail.
- FindingLaws.ImportOrderDoesNotMatter: last-seen of absent findings is not included, because the historical branch keeps no maximum there.
- Outbox.OutboxStore.ReconcileHookwiseOutbox: the expiry of a risk acceptance plays no part, as in the code; the SQL answer is a parameter, and the event-key text stands for its three parts, which holds for ids without colons.
- Outbox.OutboxStore.MarkHookwiseFailed: back-off times, batch size and manual retries are not modelled; any pending event may be sent or fail at any time.
- TicketText.SummaryShape: severity comes in tenths, and a fingerprint is cut by characters, which agrees with bytes for its hexadecimal text.
- Planner.RemoveOverlaps: the sort of the standard library is not modelled step by step, its specification stands for it.
- Updater.Controller.RunStack: schedules, the contents of feeds and detail texts are not modelled; a time-out is a call that comes back with an error, and shutdown is a stop like a crash.
- Updater.Controller.PersistBestEffort: a best-effort save that fails unnoticed is not modelled; a record lost that way is not covered by crash safety.
- UpdaterTheorems.EndOnce: that an operation ends at all is shown of its code, not of the scheduler.
- LoginLimiter.Limiter.Failure: no window bound for the shared overflow bucket is claimed; it can be entered between a check and its failure by a client whose own bucket expired while the table was full. The overflow name is taken to be no client address.
- Escapers.PdfRoundTrip: bytes beyond ASCII are one replaced character each; page layout, fonts and line breaking are not modelled.
- Time zones, daylight saving and the text of timestamps; times are integers.
- Web pages, forms, sessions, migrations and the health page; they hold no further state machine.
