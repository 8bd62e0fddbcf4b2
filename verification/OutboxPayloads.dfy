/** What an event tells: every event of every reachable log carries the facts the tables held when it was queued. */
module OutboxPayloads {
  import opened Decimals
  import opened FindingTables
  import opened Options
  import opened Outbox
  import opened OutboxLaws
  import opened TicketText

  // ---- One event against the tables ----

  // A ticket is wanted for the finding.
  ghost predicate Wanted(row: TicketRow) {
    && row.state.present && row.state.severity >= 70 && row.disposition == Active
    && row.remediation != Resolved && row.remediation != WontFix
  }

  // The kept report the finding was last seen in lists it with these texts.
  ghost predicate ListsAbout(db: Db, k: StateKey, about: About)
    requires k in db.findings
  {
    var id := db.findings[k].state.lastSnapshot;
    && id in db.snapshots && db.snapshots[id].Imported?
    && exists f :: f in db.snapshots[id].report.findings && f.fingerprint == k.fingerprint && f.about == about
  }

  // The route, the customer, the finding and its report, field by field.
  ghost predicate FactsTold(db: Db, k: StateKey, p: Payload) {
    && k in db.findings && k.ref.customer in db.customers && !db.customers[k.ref.customer].deleted
    && var row, customer, id, c := db.findings[k], db.customers[k.ref.customer], db.findings[k].state.lastSnapshot, p.context;
    && c.ticketName == customer.ticketName && c.customerName == customer.name && c.key == k
    && c.severity == row.state.severity && c.priority == (if row.state.severity >= 85 then "P1-Critical" else "P2-High")
    && (ListsAbout(db, k, c.about) || (c.about == NO_ABOUT && forall about :: !ListsAbout(db, k, about)))
    && (if id in db.snapshots && db.snapshots[id].Imported? then
          && c.reportId == db.snapshots[id].reportId && c.taskName == db.snapshots[id].report.taskName
          && c.scanEnd == TimeText(db.snapshots[id].report.scanEnd)
        else c.reportId == "" && c.taskName == k.ref.task && c.scanEnd == TimeText(row.state.lastSeen))
    && c.description == Description(Subject(k.fingerprint, row.state.severity, c.about, customer.name, c.taskName, c.reportId, c.scanEnd))
    && p.reportPath == "/reports/" + Decimal(id)
    && p.resolution == row.justification && p.remediation == row.remediation
  }

  // An open is queued for a routed finding that deserves a ticket, under the next generation, and tells its facts.
  ghost predicate OpenTells(db: Db, e: Event) {
    var k, c := e.id.key, e.payload.context;
    && FactsTold(db, k, e.payload) && Wanted(db.findings[k]) && db.customers[k.ref.customer].ticketName != ""
    && e.id.generation == db.findings[k].generation + 1
    && e.payload.summary ==
         NewSummary(Subject(k.fingerprint, db.findings[k].state.severity, c.about, db.customers[k.ref.customer].name, c.taskName, c.reportId, c.scanEnd))
  }

  // A close is queued for a finding whose ticket is no longer wanted, under the open's generation. It tells the facts
  // while the finding still refers to a report.
  ghost predicate CloseTells(db: Db, e: Event) {
    var k := e.id.key;
    && k in db.findings && k.ref.customer in db.customers && !db.customers[k.ref.customer].deleted
    && !Wanted(db.findings[k]) && db.findings[k].desiredOpen && e.id.generation == db.findings[k].generation
    && (db.findings[k].state.lastSnapshot != NO_SNAPSHOT ==> FactsTold(db, k, e.payload))
    && e.payload.resolution == db.findings[k].justification && e.payload.remediation == db.findings[k].remediation
    && (db.findings[k].state.lastSnapshot == NO_SNAPSHOT ==> e.payload.reportPath == "")
  }

  // A pending event that was never sent.
  ghost predicate QueuedTells(db: Db, e: Event) {
    && e.payload.eventId == e.id && e.payload.state == e.id.kind && !e.delivered && e.attempts == 0
    && (e.id.kind == Opens ==> OpenTells(db, e)) && (e.id.kind == Closes ==> CloseTells(db, e))
  }

  // ---- Queueing one event ----

  lemma RowAbout(db: Db, c: Candidate)
    requires IsRow(db, c)
    ensures ListsAbout(db, c.key, c.about) || (c.about == NO_ABOUT && forall about :: !ListsAbout(db, c.key, about))
  {
    if f :| Shown(db, c.key, f) && f.about == c.about {
      assert f in db.snapshots[db.findings[c.key].state.lastSnapshot].report.findings;
    } else {
      forall about ensures !ListsAbout(db, c.key, about) {
        if ListsAbout(db, c.key, about) {
          var f :| f in db.snapshots[db.findings[c.key].state.lastSnapshot].report.findings && f.fingerprint == c.key.fingerprint && f.about == about;
          assert Shown(db, c.key, f);
        }
      }
    }
  }

  lemma RowTells(db: Db, events: seq<Event>, c: Candidate, kind: Kind, generation: nat)
    requires IsRow(db, c) && (kind == Opens || db.findings[c.key].state.lastSnapshot != NO_SNAPSHOT)
    ensures FactsTold(db, c.key, PayloadFor(events, c, kind, generation))
  {
    hide Description, NewSummary, ListsAbout, TrimSpace, LatestOpen, Shown;
    RowAbout(db, c);
  }

  lemma EventTells(db: Db, events: seq<Event>, c: Candidate, kind: Kind, generation: nat)
    requires IsRow(db, c) && (kind == Opens ==> Wanted(c.finding) && c.customer.ticketName != "" && generation == c.finding.generation + 1)
    requires kind == Closes ==> !Wanted(c.finding) && c.finding.desiredOpen && generation == c.finding.generation
    ensures QueuedTells(db, Event(EventKey(c.key, generation, kind), PayloadFor(events, c, kind, generation), false, 0))
  {
    hide Description, NewSummary, ListsAbout, TrimSpace, LatestOpen, Shown, Wanted, FactsTold;
    if kind == Opens || db.findings[c.key].state.lastSnapshot != NO_SNAPSHOT {
      RowTells(db, events, c, kind, generation);
    }
  }

  // The events added to a log all tell the facts of the given tables.
  ghost predicate AddedTell(db: Db, was: seq<Event>, now: seq<Event>) {
    && |was| <= |now| && (forall j :: 0 <= j < |was| ==> now[j].id == was[j].id && now[j].payload == was[j].payload)
    && forall j :: |was| <= j < |now| ==> QueuedTells(db, now[j])
  }

  lemma AddedTwice(db: Db, a: seq<Event>, b: seq<Event>, c: seq<Event>)
    requires AddedTell(db, a, b) && (c == b || (|c| == |b| + 1 && c == b + [c[|b|]] && QueuedTells(db, c[|b|])))
    ensures AddedTell(db, a, c)
  {
    hide QueuedTells;
  }

  lemma SettleTells(db: Db, mid: Db, c: Candidate)
    requires IsRow(db, c) && c.key in mid.findings
    ensures var now := Settled(mid, c).events;
            now == mid.events || (|now| == |mid.events| + 1 && now == mid.events + [now[|mid.events|]] && QueuedTells(db, now[|mid.events|]))
  {
    hide PayloadFor, IsRow, QueuedTells;
    assert c.finding.Eligible() <==> Wanted(c.finding);
    hide Wanted;
    if c.finding.Eligible() && c.customer.ticketName != "" && !c.finding.desiredOpen {
      EventTells(db, mid.events, c, Opens, c.finding.generation + 1);
    } else if !c.finding.Eligible() && c.finding.desiredOpen {
      EventTells(db, mid.events, c, Closes, c.finding.generation);
    }
  }

  lemma {:induction false} PassTells(db: Db, cs: seq<Candidate>)
    requires Rows(db, cs) && forall i :: 0 <= i < |cs| ==> cs[i].key in db.findings
    ensures AddedTell(db, db.events, Passed(db, cs).events)
  {
    hide QueuedTells, IsRow, Settled;
    if cs != [] {
      var front, c := cs[..|cs| - 1], cs[|cs| - 1];
      PassTells(db, front);
      var mid := Passed(db, front);
      SettleTells(db, mid, c);
      AddedTwice(db, db.events, mid.events, Settled(mid, c).events);
    }
  }

  // ---- Runs ----

  lemma AnswerRows(db: Db, cs: seq<Candidate>)
    requires IsAnswer(db, cs)
    ensures Rows(db, cs) && forall i :: 0 <= i < |cs| ==> cs[i].key in db.findings
  {
    forall i | 0 <= i < |cs| ensures cs[i].key in db.findings {
      RowLive(db, cs[i]);
    }
  }

  lemma RecreateTells(db: Db, row: Candidate)
    requires IsRow(db, row) && MayRecreate(db, row.key)
    ensures AddedTell(db, db.events, Recreated(db, row).events)
  {
    hide IsRow, MayRecreate, PayloadFor, QueuedTells, Wanted;
    RecreatedWanted(db, row);
    EventTells(db, db.events, row, Opens, row.finding.generation + 1);
  }

  lemma RecreatedWanted(db: Db, row: Candidate)
    requires IsRow(db, row) && MayRecreate(db, row.key)
    ensures row.key in db.findings && Wanted(row.finding) && row.customer.ticketName != ""
  {
    hide Shown, Reported;
  }

  lemma StepTells(w: World, op: Op)
    requires Possible(w.db, op)
    ensures AddedTell(w.db, w.db.events, Next(w, op).db.events)
  {
    hide QueuedTells, MayRecreate, IsRow;
    match op {
      case Pass(rows) =>
        AnswerRows(w.db, rows);
        hide Passed;
        PassTells(w.db, rows);
      case Recreate(row) =>
        hide Recreated;
        RecreateTells(w.db, row);
      case _ =>
    }
  }

  // Step `n` queued event `j` of the last log, which still tells what the tables held then.
  ghost predicate QueuedAt(worlds: seq<World>, ops: seq<Op>, n: nat, j: nat)
    requires |worlds| == |ops| + 1
  {
    && n < |ops| && |worlds[n].db.events| <= j < |worlds[n + 1].db.events| && j < |worlds[|ops|].db.events|
    && var e, last := worlds[n + 1].db.events[j], worlds[|ops|].db.events[j];
       QueuedTells(worlds[n].db, e) && last.id == e.id && last.payload == e.payload
  }

  /** Every event of every reachable log was queued by some step, carries the facts the tables held then, and was never
      rewritten: an open names the customer's route and name, the finding, its priority, and the texts, id, path and scan
      end of the kept report. */
  lemma {:induction false} RunTells(worlds: seq<World>, ops: seq<Op>, j: nat)
    requires IsRun(worlds, ops) && j < |worlds[|ops|].db.events|
    ensures exists n :: QueuedAt(worlds, ops, n, j)
  {
    hide QueuedTells, Possible, Next;
    assert ops != [];
    var m := |ops| - 1;
    assert worlds[m + 1] == Next(worlds[m], ops[m]);
    StepTells(worlds[m], ops[m]);
    if j < |worlds[m].db.events| {
      RunPrefix(worlds, ops, m);
      RunTells(worlds[..m + 1], ops[..m], j);
      var n :| QueuedAt(worlds[..m + 1], ops[..m], n, j);
      assert QueuedAt(worlds, ops, n, j);
    } else {
      assert QueuedAt(worlds, ops, m, j);
    }
  }

  // ---- What a pass and a recreation leave alone ----

  lemma SettleKeepsFinding(db: Db, c: Candidate, k: StateKey)
    requires c.key in db.findings && k in db.findings
    ensures k in Settled(db, c).findings && SameFinding(db.findings[k], Settled(db, c).findings[k])
  {
    hide PayloadFor, HasEvent, TicketRow.Eligible;
  }

  /** A pass moves only the ticket columns. */
  lemma {:induction false} PassKeepsFindings(db: Db, cs: seq<Candidate>, k: StateKey)
    requires (forall i :: 0 <= i < |cs| ==> cs[i].key in db.findings) && k in db.findings
    ensures k in Passed(db, cs).findings && SameFinding(db.findings[k], Passed(db, cs).findings[k])
  {
    hide Settled;
    if cs != [] {
      PassKeepsFindings(db, cs[..|cs| - 1], k);
      SettleKeepsFinding(Passed(db, cs[..|cs| - 1]), cs[|cs| - 1], k);
    }
  }

  // Whoever wrote the column last by a delivery did deliver.
  ghost predicate WritesHappened(w: World) {
    forall k :: LastWrite(w, k).Delivering? ==> IsDelivered(w.db.events, LastWrite(w, k).id)
  }

  // Nothing delivered is forgotten.
  ghost predicate StaysDelivered(was: seq<Event>, now: seq<Event>) {
    forall id :: IsDelivered(was, id) ==> IsDelivered(now, id)
  }

  lemma StepDelivers(w: World, op: Op)
    requires Inv(w.db, w.forced) && Possible(w.db, op)
    ensures StaysDelivered(w.db.events, Next(w, op).db.events)
  {
    hide Inv, IsAnswer;
    var r := Next(w, op);
    match op {
      case Pass(rows) =>
        if w.db.enabled {
          PassMeetsTargets(w.db, w.forced, rows);
          forall id ensures IsDelivered(w.db.events, id) ==> IsDelivered(r.db.events, id) {
            ExtendedDelivers(w.db.events, r.db.events, id);
          }
        }
      case Send(i) =>
        forall id ensures IsDelivered(w.db.events, id) ==> IsDelivered(r.db.events, id) {
          MarkDelivers(w.db.events, i, id);
        }
      case Bounce(i) =>
        forall id ensures IsDelivered(w.db.events, id) ==> IsDelivered(r.db.events, id) {
          MarkDelivers(w.db.events, i, id);
        }
      case Recreate(row) =>
        forall id | IsDelivered(w.db.events, id) ensures IsDelivered(r.db.events, id) {
          var i :| 0 <= i < |w.db.events| && w.db.events[i].id == id && w.db.events[i].delivered;
          assert r.db.events[i] == w.db.events[i];
        }
      case Elsewhere(to) =>
    }
  }

  lemma StepWrites(w: World, op: Op)
    requires Inv(w.db, w.forced) && Possible(w.db, op) && WritesHappened(w)
    ensures WritesHappened(Next(w, op))
  {
    StepDelivers(w, op);
    var r := Next(w, op);
    if op.Send? {
      MarkDelivers(w.db.events, op.i, w.db.events[op.i].id);
    }
    hide Inv, IsDelivered, Possible;
    forall k | LastWrite(r, k).Delivering? ensures IsDelivered(r.db.events, LastWrite(r, k).id) {
      assert LastWrite(r, k) == LastWrite(w, k) || (op.Send? && LastWrite(r, k).id == w.db.events[op.i].id);
      assert LastWrite(w, k).Delivering? ==> IsDelivered(w.db.events, LastWrite(w, k).id);
    }
  }

  // A recreation asks for a delivered open.
  lemma RecreatedWasDelivered(w: World, row: Candidate)
    requires Inv(w.db, w.forced) && Columns(w) && WritesHappened(w) && Possible(w.db, Recreate(row))
    ensures row.finding.generation > 0 && IsDelivered(w.db.events, EventKey(row.key, row.finding.generation, Opens))
  {
    assert ColumnAt(w, row.key);
    hide IsDelivered, Log, Life, PayloadsTrue, DistinctIds, Shown, Reported;
  }

  ghost predicate ForcedDelivered(w: World) {
    forall k, n :: (k, n) in w.forced ==> n >= 2 && IsDelivered(w.db.events, EventKey(k, n - 1, Opens))
  }

  /** An operator's new ticket follows a delivered one: no generation is forced before the open of the one before it has
      arrived. */
  lemma {:induction false} ForcedAfterDelivery(worlds: seq<World>, ops: seq<Op>)
    requires IsRun(worlds, ops)
    ensures WritesHappened(worlds[|ops|]) && ForcedDelivered(worlds[|ops|])
  {
    if ops != [] {
      var m := |ops| - 1;
      RunPrefix(worlds, ops, m);
      ForcedAfterDelivery(worlds[..m + 1], ops[..m]);
      RunKeeps(worlds[..m + 1], ops[..m]);
      var w, op := worlds[m], ops[m];
      assert worlds[m + 1] == Next(w, op);
      StepWrites(w, op);
      StepDelivers(w, op);
      if op.Recreate? {
        RecreatedWasDelivered(w, op.row);
      }
      hide Inv, Columns, IsDelivered, Possible, WritesHappened, Passed, Delivered, SendFailed, Recreated;
    }
  }
}
