/** Over every run of passes, sends, failures, recreations and unrelated writes, each finding's log
    is determined by its generation, its desired state and the generations an operator forced. */
module OutboxLaws {
  import opened Decimals
  import opened FindingTables
  import opened Options
  import opened Outbox
  import opened TicketText

  // ---- The log of one finding ----

  datatype Entry = Entry(generation: nat, kind: Kind)

  function Log(events: seq<Event>, k: StateKey): seq<Entry> {
    if events == [] then []
    else
      var last := events[|events| - 1];
      Log(events[..|events| - 1], k) + (if last.id.key == k then [Entry(last.id.generation, last.id.kind)] else [])
  }

  // Generations 1..g, one open each, then its close unless the next generation was forced;
  // generation g has its close unless the ticket is still to be open.
  function Life(forced: set<(StateKey, nat)>, k: StateKey, g: nat, open: bool): seq<Entry> {
    if g == 0 then []
    else Life(forced, k, g - 1, (k, g) in forced) + [Entry(g, Opens)] + (if open then [] else [Entry(g, Closes)])
  }

  function LifeOf(db: Db, forced: set<(StateKey, nat)>, k: StateKey): seq<Entry> {
    if k in db.findings then Life(forced, k, db.findings[k].generation, db.findings[k].desiredOpen) else []
  }

  ghost predicate InShape(db: Db, forced: set<(StateKey, nat)>) {
    && (forall k :: Log(db.events, k) == LifeOf(db, forced, k))
    && (forall k :: k in db.findings && db.findings[k].desiredOpen ==> db.findings[k].generation > 0)
    && (forall k, n :: (k, n) in forced ==> k in db.findings && n <= db.findings[k].generation)
  }

  // ---- Payloads ----

  // What a close shares with its open: the summary always, and all but five fields once the report expired.
  ghost predicate ClosesTruly(close: Payload, open: Payload) {
    && close.summary == open.summary
    && (close.reportPath == "" ==>
          close == open.(eventId := close.eventId, state := close.state, resolution := close.resolution,
                         remediation := close.remediation, reportPath := ""))
  }

  ghost predicate OpenBefore(events: seq<Event>, j: nat)
    requires j < |events|
  {
    exists i :: 0 <= i < j && events[i].id == events[j].id.(kind := Opens) && ClosesTruly(events[j].payload, events[i].payload)
  }

  ghost predicate PayloadTrue(events: seq<Event>, j: nat)
    requires j < |events|
  {
    var e := events[j];
    && e.payload.eventId == e.id && e.payload.state == e.id.kind && TrimSpace(e.payload.summary) != ""
    && |e.payload.summary| <= MAX_SUMMARY
    && (e.id.kind == Closes ==> OpenBefore(events, j))
  }

  ghost predicate PayloadsTrue(events: seq<Event>) {
    forall j :: 0 <= j < |events| ==> PayloadTrue(events, j)
  }

  ghost predicate DistinctIds(events: seq<Event>) {
    forall i, j :: 0 <= i < j < |events| ==> events[i].id != events[j].id
  }

  ghost predicate Inv(db: Db, forced: set<(StateKey, nat)>) {
    InShape(db, forced) && PayloadsTrue(db.events) && DistinctIds(db.events)
  }

  // ---- Facts about logs ----

  predicate SameIds(a: seq<Event>, b: seq<Event>) {
    |a| == |b| && forall i :: 0 <= i < |a| ==> a[i].id == b[i].id
  }

  lemma {:induction false} LogOfIds(a: seq<Event>, b: seq<Event>, k: StateKey)
    requires SameIds(a, b)
    ensures Log(a, k) == Log(b, k)
  {
    if a != [] {
      LogOfIds(a[..|a| - 1], b[..|b| - 1], k);
    }
  }

  lemma LogAppend(events: seq<Event>, e: Event, k: StateKey)
    ensures Log(events + [e], k) == Log(events, k) + (if e.id.key == k then [Entry(e.id.generation, e.id.kind)] else [])
  {
    assert (events + [e])[..|events|] == events;
  }

  lemma {:induction false} LogMembers(events: seq<Event>, id: EventKey)
    ensures Entry(id.generation, id.kind) in Log(events, id.key) <==> HasEvent(events, id)
  {
    if events != [] {
      var front := events[..|events| - 1];
      LogMembers(front, id);
      assert forall i :: 0 <= i < |front| ==> front[i] == events[i];
      if HasEvent(events, id) && events[|events| - 1].id != id {
        var i :| 0 <= i < |events| && events[i].id == id;
        assert front[i].id == id;
      }
      if HasEvent(front, id) {
        var i :| 0 <= i < |front| && front[i].id == id;
        assert events[i].id == id;
      }
    }
  }

  lemma {:induction false} LifeMembers(forced: set<(StateKey, nat)>, k: StateKey, g: nat, open: bool, e: Entry)
    ensures e in Life(forced, k, g, open) ==> 1 <= e.generation <= g
    ensures e.kind == Opens ==> (e in Life(forced, k, g, open) <==> 1 <= e.generation <= g)
    ensures e.kind == Closes ==>
      (e in Life(forced, k, g, open) <==>
        1 <= e.generation <= g && (if e.generation == g then !open else (k, e.generation + 1) !in forced))
  {
    if g > 0 {
      LifeMembers(forced, k, g - 1, (k, g) in forced, e);
    }
  }

  // A forced generation beyond g does not show in the log up to g.
  lemma {:induction false} LifeIgnoresLater(f1: set<(StateKey, nat)>, f2: set<(StateKey, nat)>, k: StateKey, g: nat, open: bool)
    requires forall n :: n <= g ==> ((k, n) in f1 <==> (k, n) in f2)
    ensures Life(f1, k, g, open) == Life(f2, k, g, open)
  {
    if g > 0 {
      LifeIgnoresLater(f1, f2, k, g - 1, (k, g) in f1);
    }
  }

  // What the log says, event by event: exactly one open per generation, and which closes are missing.
  lemma EventsOf(db: Db, forced: set<(StateKey, nat)>, id: EventKey)
    requires InShape(db, forced) && id.key in db.findings
    ensures var f := db.findings[id.key];
            HasEvent(db.events, id) <==>
              && 1 <= id.generation <= f.generation
              && (id.kind == Closes ==>
                    if id.generation == f.generation then !f.desiredOpen else (id.key, id.generation + 1) !in forced)
  {
    var f := db.findings[id.key];
    assert Log(db.events, id.key) == LifeOf(db, forced, id.key);
    LogMembers(db.events, id);
    LifeMembers(forced, id.key, f.generation, f.desiredOpen, Entry(id.generation, id.kind));
  }

  lemma {:induction false} LatestOpenFound(events: seq<Event>, k: StateKey, g: nat) returns (i: nat)
    requires HasEvent(events, EventKey(k, g, Opens))
    ensures i < |events| && events[i].id == EventKey(k, g, Opens) && LatestOpen(events, k, g) == Some(events[i].payload)
  {
    var last := |events| - 1;
    if events[last].id == EventKey(k, g, Opens) {
      i := last;
    } else {
      var j :| 0 <= j < |events| && events[j].id == EventKey(k, g, Opens);
      assert events[..last][j].id == EventKey(k, g, Opens);
      i := LatestOpenFound(events[..last], k, g);
    }
  }

  // ---- Queueing one event ----

  // The transitions the callers may ask for: a next generation, or the close of the current one.
  ghost predicate Due(db: Db, c: Candidate, kind: Kind, generation: nat) {
    && c.key in db.findings && c.finding == db.findings[c.key]
    && (kind == Opens ==> generation == c.finding.generation + 1)
    && (kind == Closes ==> c.finding.desiredOpen && generation == c.finding.generation)
  }

  function ForcedBy(db: Db, c: Candidate, kind: Kind, generation: nat): set<(StateKey, nat)> {
    if kind == Opens && c.finding.desiredOpen then {(c.key, generation)} else {}
  }

  lemma DueIsNew(db: Db, forced: set<(StateKey, nat)>, c: Candidate, kind: Kind, generation: nat)
    requires InShape(db, forced) && Due(db, c, kind, generation)
    ensures !HasEvent(db.events, EventKey(c.key, generation, kind))
    ensures kind == Closes ==> HasEvent(db.events, EventKey(c.key, generation, Opens))
  {
    EventsOf(db, forced, EventKey(c.key, generation, kind));
    EventsOf(db, forced, EventKey(c.key, generation, Opens));
  }

  // The lives of all findings after the transition: one entry more for its own, none for the others.
  lemma LifeAfter(db: Db, forced: set<(StateKey, nat)>, c: Candidate, kind: Kind, generation: nat, k: StateKey)
    requires InShape(db, forced) && Due(db, c, kind, generation)
    ensures LifeOf(Enqueued(db, c, kind, generation), forced + ForcedBy(db, c, kind, generation), k)
         == LifeOf(db, forced, k) + (if k == c.key then [Entry(generation, kind)] else [])
  {
    hide PayloadFor, HasEvent, Log;
    var forced' := forced + ForcedBy(db, c, kind, generation);
    if k in db.findings {
      LifeIgnoresLater(forced, forced', k, db.findings[k].generation, db.findings[k].desiredOpen);
    }
    if k == c.key && kind == Closes {
      LifeIgnoresLater(forced, forced', k, generation - 1, (k, generation) in forced);
    }
  }

  lemma EnqueueKeepsShape(db: Db, forced: set<(StateKey, nat)>, c: Candidate, kind: Kind, generation: nat)
    requires InShape(db, forced) && Due(db, c, kind, generation)
    ensures InShape(Enqueued(db, c, kind, generation), forced + ForcedBy(db, c, kind, generation))
  {
    hide PayloadFor, Life;
    DueIsNew(db, forced, c, kind, generation);
    var db' := Enqueued(db, c, kind, generation);
    var forced' := forced + ForcedBy(db, c, kind, generation);
    var e := Event(EventKey(c.key, generation, kind), PayloadFor(db.events, c, kind, generation), false, 0);
    assert db'.events == db.events + [e];
    forall k ensures Log(db'.events, k) == LifeOf(db', forced', k) {
      LogAppend(db.events, e, k);
      LifeAfter(db, forced, c, kind, generation, k);
      assert Log(db.events, k) == LifeOf(db, forced, k);
    }
  }

  lemma EnqueueKeepsPayloads(db: Db, forced: set<(StateKey, nat)>, c: Candidate, kind: Kind, generation: nat)
    requires Inv(db, forced) && Due(db, c, kind, generation)
    ensures PayloadsTrue(Enqueued(db, c, kind, generation).events)
  {
    hide NewSummary, Description, ReportPath, Log, Life;
    DueIsNew(db, forced, c, kind, generation);
    SummaryShape(SubjectOf(c));
    var events := db.events;
    var payload := PayloadFor(events, c, kind, generation);
    var e := Event(EventKey(c.key, generation, kind), payload, false, 0);
    var events' := events + [e];
    assert Enqueued(db, c, kind, generation).events == events';
    PayloadsAppend(events, e);
    if kind == Closes {
      var i := LatestOpenFound(events, c.key, generation);
      assert PayloadTrue(events, i);
      assert events'[i] == events[i];
      assert ClosesTruly(payload, events[i].payload) by {
        ReportPathNotEmpty(c.finding.state.lastSnapshot);
      }
      assert events'[i].id == events'[|events|].id.(kind := Opens);
      assert OpenBefore(events', |events|);
    }
    assert PayloadTrue(events', |events|);
  }

  lemma ReportPathNotEmpty(snapshot: nat)
    ensures ReportPath(snapshot) != ""
  {
  }

  lemma PayloadsAppend(events: seq<Event>, e: Event)
    requires PayloadsTrue(events)
    ensures forall j :: 0 <= j < |events| ==> PayloadTrue(events + [e], j)
  {
    hide ClosesTruly;
    var events' := events + [e];
    forall j | 0 <= j < |events| ensures PayloadTrue(events', j) {
      assert PayloadTrue(events, j);
      assert events'[j] == events[j];
      if events[j].id.kind == Closes {
        assert OpenBefore(events, j);
        var i :| 0 <= i < j && events[i].id == events[j].id.(kind := Opens) && ClosesTruly(events[j].payload, events[i].payload);
        assert events'[i] == events[i];
        assert OpenBefore(events', j);
      }
    }
  }

  lemma EnqueueKeeps(db: Db, forced: set<(StateKey, nat)>, c: Candidate, kind: Kind, generation: nat)
    requires Inv(db, forced) && Due(db, c, kind, generation)
    ensures Inv(Enqueued(db, c, kind, generation), forced + ForcedBy(db, c, kind, generation))
  {
    EnqueueKeepsShape(db, forced, c, kind, generation);
    EnqueueKeepsPayloads(db, forced, c, kind, generation);
    DueIsNew(db, forced, c, kind, generation);
    hide InShape, PayloadsTrue, PayloadFor, HasEvent, DistinctIds, Due;
    DistinctAppend(db.events, Event(EventKey(c.key, generation, kind), PayloadFor(db.events, c, kind, generation), false, 0));
  }

  lemma DistinctAppend(events: seq<Event>, e: Event)
    requires DistinctIds(events) && !HasEvent(events, e.id)
    ensures DistinctIds(events + [e])
  {
    assert forall i :: 0 <= i < |events| ==> (events + [e])[i] == events[i];
  }

  // ---- One pass ----

  // What a pass owes a finding, from the row as it stood when the pass began.
  function Target(db: Db, k: StateKey): TicketRow
    requires Live(db, k)
  {
    var f := db.findings[k];
    if f.Eligible() then
      if f.desiredOpen then f
      else if db.customers[k.ref.customer].ticketName == "" then f.(ticket := Blocked)
      else Queued(f, Opens, f.generation + 1)
    else if f.desiredOpen then Queued(f, Closes, f.generation)
    else if f.ticket == Blocked then f.(ticket := NoTicket)
    else f
  }

  lemma PlainKeeps(db: Db, forced: set<(StateKey, nat)>, k: StateKey, ticket: Ticket)
    requires k in db.findings && !db.findings[k].desiredOpen && Inv(db, forced)
    ensures var db' := db.(findings := db.findings[k := db.findings[k].(ticket := ticket)]);
            Inv(db', forced)
  {
    hide Log, Life, PayloadsTrue, DistinctIds;
    var db' := db.(findings := db.findings[k := db.findings[k].(ticket := ticket)]);
    forall q ensures Log(db'.events, q) == LifeOf(db', forced, q) {
      assert Log(db.events, q) == LifeOf(db, forced, q);
    }
  }

  // The first row of a finding does what the pass owes it.
  lemma SettleFirst(db0: Db, db: Db, forced: set<(StateKey, nat)>, c: Candidate)
    requires Inv(db, forced) && IsRow(db0, c) && db.customers == db0.customers
    requires c.key in db.findings && db.findings[c.key] == db0.findings[c.key]
    ensures var r := Settled(db, c);
            && r == db.(findings := db.findings[c.key := Target(db0, c.key)], events := r.events)
            && Inv(r, forced) && Extended(db.events, r.events)
  {
    hide InShape, PayloadsTrue, DistinctIds, PayloadFor, Shown, Reported, HasEvent;
    var f := c.finding;
    if f.Eligible() && c.customer.ticketName != "" && !f.desiredOpen {
      EnqueueKeeps(db, forced, c, Opens, f.generation + 1);
      assert forced + {} == forced;
    } else if !f.Eligible() && f.desiredOpen {
      EnqueueKeeps(db, forced, c, Closes, f.generation);
      assert forced + {} == forced;
    } else if !f.desiredOpen && f.Eligible() {
      PlainKeeps(db, forced, c.key, Blocked);
    } else if !f.desiredOpen && f.ticket == Blocked {
      PlainKeeps(db, forced, c.key, NoTicket);
    } else {
      assert db.findings[c.key := f] == db.findings;
    }
  }

  // Any further row of the same finding does nothing: the event key is taken and the row already written.
  lemma SettleAgain(db0: Db, db: Db, forced: set<(StateKey, nat)>, c: Candidate)
    requires InShape(db, forced) && InShape(db0, forced) && IsRow(db0, c)
    requires c.key in db.findings && db.findings[c.key] == Target(db0, c.key)
    ensures Settled(db, c) == db
  {
    assert c.finding.desiredOpen ==> c.finding.generation > 0;
    hide InShape, PayloadFor, Shown, Reported, HasEvent;
    var f := c.finding;
    if f.Eligible() && c.customer.ticketName != "" && !f.desiredOpen {
      EventsOf(db, forced, EventKey(c.key, f.generation + 1, Opens));
    } else if !f.Eligible() && f.desiredOpen {
      EventsOf(db, forced, EventKey(c.key, f.generation, Closes));
    }
    assert db.findings[c.key := db.findings[c.key]] == db.findings;
  }

  // Events were added at the end, none of them delivered.
  ghost predicate Extended(was: seq<Event>, now: seq<Event>) {
    was <= now && forall i :: |was| <= i < |now| ==> !now[i].delivered
  }

  ghost predicate Rows(db: Db, cs: seq<Candidate>) {
    forall i :: 0 <= i < |cs| ==> IsRow(db, cs[i])
  }

  // The state midway through a pass over `cs`.
  ghost predicate Midway(db0: Db, db: Db, cs: seq<Candidate>) {
    && db == db0.(findings := db.findings, events := db.events) && db.findings.Keys == db0.findings.Keys
    && Extended(db0.events, db.events)
    && (forall i :: 0 <= i < |cs| ==> Live(db0, cs[i].key))
    && forall k :: k in db.findings ==>
         if Listed(k, cs) then Live(db0, k) && db.findings[k] == Target(db0, k) else db.findings[k] == db0.findings[k]
  }

  lemma ListedGrows(cs: seq<Candidate>, k: StateKey)
    requires cs != []
    ensures Listed(k, cs) <==> Listed(k, cs[..|cs| - 1]) || cs[|cs| - 1].key == k
  {
    var front := cs[..|cs| - 1];
    assert forall i :: 0 <= i < |front| ==> front[i] == cs[i];
    if Listed(k, cs) && cs[|cs| - 1].key != k {
      var i :| 0 <= i < |cs| && cs[i].key == k;
      assert front[i].key == k;
    }
    if Listed(k, front) {
      var i :| 0 <= i < |front| && front[i].key == k;
      assert cs[i].key == k;
    }
  }

  lemma MidwayGrows(db0: Db, db: Db, r: Db, cs: seq<Candidate>)
    requires cs != [] && Midway(db0, db, cs[..|cs| - 1])
    requires var c := cs[|cs| - 1];
             && Live(db0, c.key) && c.key in db.findings
             && r == db.(findings := db.findings[c.key := Target(db0, c.key)], events := r.events)
             && Extended(db.events, r.events)
    ensures Midway(db0, r, cs)
  {
    hide Target, Listed, Live;
    forall k ensures Listed(k, cs) <==> Listed(k, cs[..|cs| - 1]) || cs[|cs| - 1].key == k {
      ListedGrows(cs, k);
    }
    forall i | 0 <= i < |cs| ensures Live(db0, cs[i].key) {
      if i < |cs| - 1 { assert cs[..|cs| - 1][i] == cs[i]; }
    }
  }

  lemma {:induction false} PassReaches(db: Db, forced: set<(StateKey, nat)>, cs: seq<Candidate>)
    requires Inv(db, forced) && Rows(db, cs)
    ensures Midway(db, Passed(db, cs), cs) && Inv(Passed(db, cs), forced)
  {
    assert cs == [] ==> forall k :: !Listed(k, cs);
    hide InShape, PayloadsTrue, DistinctIds, Settled, Target, Listed, IsRow;
    if cs != [] {
      var c, front := cs[|cs| - 1], cs[..|cs| - 1];
      PassReaches(db, forced, front);
      var mid := Passed(db, front);
      assert IsRow(db, c);
      RowLive(db, c);
      if Listed(c.key, front) {
        SettleAgain(db, mid, forced, c);
        assert mid.findings == mid.findings[c.key := Target(db, c.key)];
      } else {
        SettleFirst(db, mid, forced, c);
      }
      hide Inv;
      MidwayGrows(db, mid, Settled(mid, c), cs);
    }
  }

  lemma RowLive(db: Db, c: Candidate)
    requires IsRow(db, c)
    ensures Live(db, c.key) && c.finding == db.findings[c.key]
  {
  }

  // One pass over the query's answer, rows in any order and any number of times: every finding of a live
  // customer reaches its target, nothing else moves, and the log keeps its shape.
  lemma PassMeetsTargets(db: Db, forced: set<(StateKey, nat)>, cs: seq<Candidate>)
    requires Inv(db, forced) && IsAnswer(db, cs)
    ensures var r := Passed(db, cs);
            && Inv(r, forced) && Extended(db.events, r.events)
            && r == db.(findings := r.findings, events := r.events) && r.findings.Keys == db.findings.Keys
            && (forall k :: Live(db, k) ==> r.findings[k] == Target(db, k))
            && (forall k :: k in db.findings && !Live(db, k) ==> r.findings[k] == db.findings[k])
  {
    PassReaches(db, forced, cs);
  }

  // Desired-open equals eligibility for every routed finding; an ineligible finding is closed even when
  // its customer lost the name.
  lemma PassMatchesEligibility(db: Db, forced: set<(StateKey, nat)>, cs: seq<Candidate>, k: StateKey)
    requires Inv(db, forced) && IsAnswer(db, cs) && Live(db, k)
    ensures var f := Passed(db, cs).findings[k];
            && (db.customers[k.ref.customer].ticketName != "" ==> (f.desiredOpen <==> db.findings[k].Eligible()))
            && (!db.findings[k].Eligible() ==> !f.desiredOpen && f.ticket != Blocked)
            && (f.Eligible() <==> db.findings[k].Eligible())
  {
    PassMeetsTargets(db, forced, cs);
    hide Inv, IsAnswer, Passed;
  }

  // A second pass, over any answer read after the first, changes nothing at all.
  lemma SecondPassIsIdle(db: Db, forced: set<(StateKey, nat)>, cs: seq<Candidate>, again: seq<Candidate>)
    requires Inv(db, forced) && IsAnswer(db, cs) && IsAnswer(Passed(db, cs), again)
    ensures Passed(Passed(db, cs), again) == Passed(db, cs)
  {
    PassReaches(db, forced, cs);
    var r := Passed(db, cs);
    hide Inv, IsRow, Settled, Target, Listed;
    assert r.customers == db.customers;
    forall c | IsRow(r, c) ensures Settled(r, c) == r {
      RowLive(r, c);
      assert Live(db, c.key);
      SettleAtTarget(db, r, c);
    }
    IdlePass(r, again);
  }

  lemma SettleAtTarget(db: Db, r: Db, c: Candidate)
    requires Live(db, c.key) && r.customers == db.customers
    requires IsRow(r, c) && r.findings[c.key] == Target(db, c.key)
    ensures Settled(r, c) == r
  {
    hide Shown, Reported, Enqueued;
    assert r.findings[c.key := r.findings[c.key]] == r.findings;
  }

  lemma {:induction false} IdlePass(db: Db, cs: seq<Candidate>)
    requires Rows(db, cs) && forall c :: IsRow(db, c) ==> Settled(db, c) == db
    ensures Passed(db, cs) == db
  {
    hide IsRow, Settled;
    if cs != [] {
      IdlePass(db, cs[..|cs| - 1]);
      assert IsRow(db, cs[|cs| - 1]);
    }
  }

  // The event a row asks for, if any.
  function DueEvent(c: Candidate): Option<EventKey> {
    if c.finding.Eligible() && c.customer.ticketName != "" && !c.finding.desiredOpen
    then Some(EventKey(c.key, c.finding.generation + 1, Opens))
    else if !c.finding.Eligible() && c.finding.desiredOpen then Some(EventKey(c.key, c.finding.generation, Closes))
    else None
  }

  // The duplicate-key branch of the insert is taken exactly at a repeated row of one answer.
  lemma ConflictOnlyOnRepeat(db: Db, forced: set<(StateKey, nat)>, cs: seq<Candidate>, c: Candidate)
    requires Inv(db, forced) && Rows(db, cs) && IsRow(db, c) && DueEvent(c).Some?
    ensures HasEvent(Passed(db, cs).events, DueEvent(c).value) <==> Listed(c.key, cs)
  {
    hide PayloadsTrue, DistinctIds, Log, Life, HasEvent;
    PassReaches(db, forced, cs);
    var r := Passed(db, cs);
    assert c.finding.desiredOpen ==> c.finding.generation > 0;
    EventsOf(r, forced, DueEvent(c).value);
  }

  // ---- Runs ----

  // Elsewhere stands for every other transaction: imports, annotations, customer edits, pruning, settings.
  datatype Op = Pass(rows: seq<Candidate>) | Send(i: nat) | Bounce(i: nat) | Recreate(row: Candidate) | Elsewhere(to: Db)

  // What last wrote a finding's ticket column.
  datatype TicketWrite = Untouched | Blocking | Unblocking | Queueing(kind: Kind) | Delivering(id: EventKey) | Failing(id: EventKey)

  // The database, the generations forced so far, and who wrote each ticket column last.
  datatype World = World(db: Db, forced: set<(StateKey, nat)>, writes: map<StateKey, TicketWrite>)

  function LastWrite(w: World, k: StateKey): TicketWrite {
    if k in w.writes then w.writes[k] else Untouched
  }

  ghost predicate OtherWrite(db: Db, to: Db) {
    && to.events == db.events && db.findings.Keys <= to.findings.Keys
    && forall k :: k in to.findings ==>
         var was := if k in db.findings then (db.findings[k].desiredOpen, db.findings[k].generation, db.findings[k].ticket)
                    else (false, 0, NoTicket);
         (to.findings[k].desiredOpen, to.findings[k].generation, to.findings[k].ticket) == was
  }

  ghost predicate Possible(db: Db, op: Op) {
    match op
    case Pass(rows) => IsAnswer(db, rows)
    case Send(i) => i < |db.events| && !db.events[i].delivered
    case Bounce(i) => i < |db.events| && !db.events[i].delivered
    case Recreate(row) => IsRow(db, row) && MayRecreate(db, row.key)
    case Elsewhere(to) => OtherWrite(db, to)
  }

  // The close of this generation of this finding goes out only after its open; no other event has to wait.
  ghost predicate InTurn(db: Db, op: Op, k: StateKey, g: nat) {
    op.Send? && op.i < |db.events| && db.events[op.i].id == EventKey(k, g, Closes) ==>
      IsDelivered(db.events, EventKey(k, g, Opens))
  }

  ghost predicate IsDelivered(events: seq<Event>, id: EventKey) {
    exists i :: 0 <= i < |events| && events[i].id == id && events[i].delivered
  }

  // The write a pass makes to one ticket column, if any.
  function PassWrite(db: Db, k: StateKey, was: TicketWrite): TicketWrite
    requires k in db.findings
  {
    if !Live(db, k) then was
    else
      var f := db.findings[k];
      if f.Eligible() then
        if f.desiredOpen then was else if db.customers[k.ref.customer].ticketName == "" then Blocking else Queueing(Opens)
      else if f.desiredOpen then Queueing(Closes)
      else if f.ticket == Blocked then Unblocking
      else was
  }

  function MarkWrite(w: World, id: EventKey, write: TicketWrite): map<StateKey, TicketWrite> {
    if id.key in w.db.findings && w.db.findings[id.key].generation == id.generation then w.writes[id.key := write] else w.writes
  }

  ghost function Next(w: World, op: Op): World
    requires Possible(w.db, op)
  {
    match op
    case Pass(rows) =>
      if w.db.enabled then
        World(Passed(w.db, rows), w.forced, map k | k in w.db.findings :: PassWrite(w.db, k, LastWrite(w, k)))
      else w
    case Send(i) => World(Delivered(w.db, i), w.forced, MarkWrite(w, w.db.events[i].id, Delivering(w.db.events[i].id)))
    case Bounce(i) => World(SendFailed(w.db, i), w.forced, MarkWrite(w, w.db.events[i].id, Failing(w.db.events[i].id)))
    case Recreate(row) =>
      World(Recreated(w.db, row), w.forced + {(row.key, row.finding.generation + 1)}, w.writes[row.key := Queueing(Opens)])
    case Elsewhere(to) => World(to, w.forced, w.writes)
  }

  ghost predicate Fresh(w: World) {
    w.db.findings == map[] && w.db.events == [] && w.forced == {} && w.writes == map[]
  }

  // A run lists its worlds; ops[i] leads from the i-th to the next.
  ghost predicate IsRun(worlds: seq<World>, ops: seq<Op>) {
    && |worlds| == |ops| + 1 && Fresh(worlds[0])
    && forall i :: 0 <= i < |ops| ==> Possible(worlds[i].db, ops[i]) && worlds[i + 1] == Next(worlds[i], ops[i])
  }

  ghost predicate RunInTurn(worlds: seq<World>, ops: seq<Op>, k: StateKey, g: nat)
    requires |worlds| == |ops| + 1
  {
    forall i :: 0 <= i < |ops| ==> InTurn(worlds[i].db, ops[i], k, g)
  }

  lemma MarkKeepsPayloads(events: seq<Event>, marked: seq<Event>)
    requires PayloadsTrue(events) && SameIds(marked, events)
    requires forall i :: 0 <= i < |events| ==> marked[i].payload == events[i].payload
    ensures PayloadsTrue(marked)
  {
    hide ClosesTruly, TrimSpace;
    forall j | 0 <= j < |marked| ensures PayloadTrue(marked, j) {
      assert PayloadTrue(events, j) && marked[j].id == events[j].id;
      if events[j].id.kind == Closes {
        var i :| 0 <= i < j && events[i].id == events[j].id.(kind := Opens) && ClosesTruly(events[j].payload, events[i].payload);
        assert marked[i].id == events[i].id;
        assert OpenBefore(marked, j);
      }
    }
  }

  // Marking an event, or writing ticket-free columns, leaves the log's shape alone.
  lemma QuietKeeps(db: Db, db': Db, forced: set<(StateKey, nat)>)
    requires Inv(db, forced) && SameIds(db'.events, db.events) && db.findings.Keys <= db'.findings.Keys
    requires forall i :: 0 <= i < |db.events| ==> db'.events[i].payload == db.events[i].payload
    requires forall k :: k in db'.findings ==>
      if k in db.findings then db'.findings[k].desiredOpen == db.findings[k].desiredOpen
                               && db'.findings[k].generation == db.findings[k].generation
      else !db'.findings[k].desiredOpen && db'.findings[k].generation == 0
    ensures Inv(db', forced)
  {
    MarkKeepsPayloads(db.events, db'.events);
    assert DistinctIds(db'.events);
    forall k ensures Log(db'.events, k) == LifeOf(db', forced, k) {
      LogOfIds(db'.events, db.events, k);
      assert Log(db.events, k) == LifeOf(db, forced, k);
    }
  }

  // ---- Ticket columns ----

  function TicketOf(write: TicketWrite): Ticket {
    match write
    case Untouched => NoTicket
    case Blocking => Blocked
    case Unblocking => NoTicket
    case Queueing(kind) => if kind == Opens then QueuedOpen else QueuedClose
    case Delivering(id) => if id.kind == Opens then IsOpen else IsClosed
    case Failing(id) => Failed
  }

  // A ticket column shows its last write, which speaks of the current generation; a finding to stay open
  // whose open went out shows exactly that delivery.
  ghost predicate ColumnAt(w: World, k: StateKey)
    requires k in w.db.findings
  {
    var f, write := w.db.findings[k], LastWrite(w, k);
    var open := EventKey(k, f.generation, Opens);
    && f.ticket == TicketOf(write)
    && (write.Delivering? || write.Failing? ==> write.id.key == k && write.id.generation == f.generation)
    && (f.desiredOpen && IsDelivered(w.db.events, open) ==> write == Delivering(open))
  }

  // An open has not overwritten its delivered close.
  ghost predicate CloseLastAt(w: World, k: StateKey)
    requires k in w.db.findings
  {
    var f := w.db.findings[k];
    var open := EventKey(k, f.generation, Opens);
    !f.desiredOpen && IsDelivered(w.db.events, open.(kind := Closes)) ==>
      IsDelivered(w.db.events, open) && LastWrite(w, k) != Delivering(open)
  }

  ghost predicate Columns(w: World) {
    w.writes.Keys <= w.db.findings.Keys && forall k :: k in w.db.findings ==> ColumnAt(w, k)
  }

  // One operation spoils no column's last close but by sending that close early; a new generation starts clean.
  ghost predicate KeepsCloseLast(w: World, op: Op, r: World) {
    forall k :: k in r.db.findings && (k in w.db.findings && w.db.findings[k].generation == r.db.findings[k].generation ==>
                                         CloseLastAt(w, k) && InTurn(w.db, op, k, w.db.findings[k].generation)) ==>
      CloseLastAt(r, k)
  }

  // A column nothing happened to.
  lemma ColumnCopies(w: World, r: World, k: StateKey)
    requires k in w.db.findings && k in r.db.findings && LastWrite(r, k) == LastWrite(w, k)
    requires var f, g := w.db.findings[k], r.db.findings[k];
             f.desiredOpen == g.desiredOpen && f.generation == g.generation && f.ticket == g.ticket
    requires forall kind :: IsDelivered(r.db.events, EventKey(k, w.db.findings[k].generation, kind))
                       <==> IsDelivered(w.db.events, EventKey(k, w.db.findings[k].generation, kind))
    ensures ColumnAt(w, k) ==> ColumnAt(r, k)
    ensures CloseLastAt(w, k) ==> CloseLastAt(r, k)
  {
    hide IsDelivered, TicketOf, LastWrite;
  }

  lemma ExtendedDelivers(was: seq<Event>, now: seq<Event>, id: EventKey)
    requires Extended(was, now)
    ensures IsDelivered(was, id) <==> IsDelivered(now, id)
  {
    if i :| 0 <= i < |was| && was[i].id == id && was[i].delivered {
      assert now[i] == was[i];
    }
    if i :| 0 <= i < |now| && now[i].id == id && now[i].delivered {
      assert was[i] == now[i];
    }
  }

  // Queueing leaves a column whose generation has nothing delivered, or whose close is pending.
  lemma QueuedIsUndelivered(w: World, k: StateKey)
    requires Inv(w.db, w.forced) && k in w.db.findings
    ensures var g := w.db.findings[k].generation;
            && !IsDelivered(w.db.events, EventKey(k, g + 1, Opens))
            && (w.db.findings[k].desiredOpen ==> !IsDelivered(w.db.events, EventKey(k, g, Closes)))
  {
    var g := w.db.findings[k].generation;
    EventsOf(w.db, w.forced, EventKey(k, g + 1, Opens));
    EventsOf(w.db, w.forced, EventKey(k, g, Closes));
  }

  lemma PassColumns(w: World, rows: seq<Candidate>)
    requires Inv(w.db, w.forced) && Columns(w) && w.db.enabled && IsAnswer(w.db, rows)
    ensures Columns(Next(w, Pass(rows))) && KeepsCloseLast(w, Pass(rows), Next(w, Pass(rows)))
  {
    PassMeetsTargets(w.db, w.forced, rows);
    var r := Next(w, Pass(rows));
    assert forall k :: k in w.db.findings ==> LastWrite(r, k) == PassWrite(w.db, k, LastWrite(w, k));
    assert r.writes.Keys <= r.db.findings.Keys;
    hide Inv, IsAnswer, Passed, Target, PassWrite, LastWrite, ColumnAt, CloseLastAt;
    forall k | k in r.db.findings
      ensures ColumnAt(r, k) && (CloseLastAt(w, k) || w.db.findings[k].generation != r.db.findings[k].generation ==> CloseLastAt(r, k))
    {
      assert ColumnAt(w, k);
      PassColumn(w, r, k);
    }
  }

  lemma PassColumn(w: World, r: World, k: StateKey)
    requires Inv(w.db, w.forced) && k in w.db.findings && ColumnAt(w, k) && k in r.db.findings
    requires Extended(w.db.events, r.db.events)
    requires r.db.findings[k] == if Live(w.db, k) then Target(w.db, k) else w.db.findings[k]
    requires LastWrite(r, k) == PassWrite(w.db, k, LastWrite(w, k))
    ensures ColumnAt(r, k)
    ensures CloseLastAt(w, k) || w.db.findings[k].generation != r.db.findings[k].generation ==> CloseLastAt(r, k)
  {
    var g := r.db.findings[k].generation;
    QueuedIsUndelivered(w, k);
    ExtendedDelivers(w.db.events, r.db.events, EventKey(k, g, Opens));
    ExtendedDelivers(w.db.events, r.db.events, EventKey(k, g, Closes));
    hide Inv, IsDelivered, Extended;
  }

  // Marking event `i` adds at most its own id to the delivered ones.
  lemma MarkDelivers(events: seq<Event>, i: nat, id: EventKey)
    requires i < |events|
    ensures IsDelivered(events[i := events[i].(delivered := true, attempts := events[i].attempts + 1)], id)
       <==> IsDelivered(events, id) || events[i].id == id
    ensures IsDelivered(events[i := events[i].(attempts := events[i].attempts + 1)], id) <==> IsDelivered(events, id)
  {
    var sent := events[i := events[i].(delivered := true, attempts := events[i].attempts + 1)];
    var bounced := events[i := events[i].(attempts := events[i].attempts + 1)];
    assert sent[i].id == events[i].id && bounced[i].id == events[i].id;
    if j :| 0 <= j < |events| && events[j].id == id && events[j].delivered {
      assert sent[j].delivered && sent[j].id == id && bounced[j].delivered && bounced[j].id == id;
    }
  }

  // A pending event of the current generation of a finding to stay open is its open.
  lemma PendingIsOpen(w: World, i: nat)
    requires Inv(w.db, w.forced) && i < |w.db.events| && !w.db.events[i].delivered
    requires var id := w.db.events[i].id;
             id.key in w.db.findings && w.db.findings[id.key].generation == id.generation
    ensures !IsDelivered(w.db.events, w.db.events[i].id)
    ensures w.db.findings[w.db.events[i].id.key].desiredOpen ==> w.db.events[i].id.kind == Opens
  {
    var id := w.db.events[i].id;
    EventsOf(w.db, w.forced, id);
    assert HasEvent(w.db.events, id);
  }

  // The delivery of an event of the current generation.
  lemma SendColumn(w: World, i: nat)
    requires Inv(w.db, w.forced) && Possible(w.db, Send(i))
    requires var id := w.db.events[i].id;
             id.key in w.db.findings && w.db.findings[id.key].generation == id.generation && ColumnAt(w, id.key)
    ensures var r, id := Next(w, Send(i)), w.db.events[i].id;
            ColumnAt(r, id.key) && (CloseLastAt(w, id.key) && InTurn(w.db, Send(i), id.key, id.generation) ==> CloseLastAt(r, id.key))
  {
    var id := w.db.events[i].id;
    PendingIsOpen(w, i);
    assert HasEvent(w.db.events, id);
    EventsOf(w.db, w.forced, id);
    EventsOf(w.db, w.forced, id.(kind := Opens));
    MarkDelivers(w.db.events, i, id.(kind := Opens));
    MarkDelivers(w.db.events, i, id.(kind := Closes));
    hide Inv, IsDelivered, HasEvent;
  }

  lemma SendColumns(w: World, i: nat)
    requires Inv(w.db, w.forced) && Columns(w) && Possible(w.db, Send(i))
    ensures Columns(Next(w, Send(i))) && KeepsCloseLast(w, Send(i), Next(w, Send(i)))
  {
    hide Inv, ColumnAt, CloseLastAt, InTurn, IsDelivered;
    var r, id := Next(w, Send(i)), w.db.events[i].id;
    forall k | k in r.db.findings
      ensures ColumnAt(r, k) && (CloseLastAt(w, k) && InTurn(w.db, Send(i), k, w.db.findings[k].generation) ==> CloseLastAt(r, k))
    {
      assert ColumnAt(w, k);
      if k == id.key && w.db.findings[k].generation == id.generation {
        SendColumn(w, i);
      } else {
        forall kind ensures IsDelivered(r.db.events, EventKey(k, w.db.findings[k].generation, kind))
                       <==> IsDelivered(w.db.events, EventKey(k, w.db.findings[k].generation, kind)) {
          MarkDelivers(w.db.events, i, EventKey(k, w.db.findings[k].generation, kind));
        }
        ColumnCopies(w, r, k);
      }
    }
  }

  lemma BounceColumns(w: World, i: nat)
    requires Inv(w.db, w.forced) && Columns(w) && Possible(w.db, Bounce(i))
    ensures Columns(Next(w, Bounce(i))) && KeepsCloseLast(w, Bounce(i), Next(w, Bounce(i)))
  {
    hide Inv, CloseLastAt, IsDelivered;
    var r, id := Next(w, Bounce(i)), w.db.events[i].id;
    forall k | k in r.db.findings ensures ColumnAt(r, k) && (CloseLastAt(w, k) ==> CloseLastAt(r, k)) {
      assert ColumnAt(w, k);
      forall kind ensures IsDelivered(r.db.events, EventKey(k, w.db.findings[k].generation, kind))
                     <==> IsDelivered(w.db.events, EventKey(k, w.db.findings[k].generation, kind)) {
        MarkDelivers(w.db.events, i, EventKey(k, w.db.findings[k].generation, kind));
      }
      if k == id.key && w.db.findings[k].generation == id.generation {
        PendingIsOpen(w, i);
        BouncedCloseLast(w, r, k, id);
      } else {
        ColumnCopies(w, r, k);
      }
    }
  }

  lemma BouncedCloseLast(w: World, r: World, k: StateKey, id: EventKey)
    requires k in w.db.findings && k in r.db.findings && LastWrite(r, k) == Failing(id)
    requires r.db.findings[k] == w.db.findings[k].(ticket := Failed)
    requires forall kind :: IsDelivered(r.db.events, EventKey(k, w.db.findings[k].generation, kind))
                       <==> IsDelivered(w.db.events, EventKey(k, w.db.findings[k].generation, kind))
    ensures CloseLastAt(w, k) ==> CloseLastAt(r, k)
  {
    hide IsDelivered;
  }

  lemma RecreateColumns(w: World, row: Candidate)
    requires Inv(w.db, w.forced) && Columns(w) && Possible(w.db, Recreate(row))
    ensures Columns(Next(w, Recreate(row))) && KeepsCloseLast(w, Recreate(row), Next(w, Recreate(row)))
  {
    hide PayloadFor, Shown, Reported, ColumnAt, CloseLastAt, IsDelivered;
    var r := Next(w, Recreate(row));
    DueIsNew(w.db, w.forced, row, Opens, row.finding.generation + 1);
    QueuedIsUndelivered(w, row.key);
    assert Extended(w.db.events, r.db.events);
    forall any ensures IsDelivered(r.db.events, any) <==> IsDelivered(w.db.events, any) {
      ExtendedDelivers(w.db.events, r.db.events, any);
    }
    hide Inv;
    forall k | k in r.db.findings ensures ColumnAt(r, k) && (k == row.key || CloseLastAt(w, k) ==> CloseLastAt(r, k)) {
      assert ColumnAt(w, k);
      if k == row.key {
        FreshOpenColumn(r, k);
      } else {
        ColumnCopies(w, r, k);
      }
    }
  }

  lemma FreshOpenColumn(r: World, k: StateKey)
    requires k in r.db.findings && r.db.findings[k].desiredOpen && r.db.findings[k].ticket == QueuedOpen
    requires LastWrite(r, k) == Queueing(Opens) && !IsDelivered(r.db.events, EventKey(k, r.db.findings[k].generation, Opens))
    ensures ColumnAt(r, k) && CloseLastAt(r, k)
  {
  }

  lemma ElsewhereColumns(w: World, to: Db)
    requires Inv(w.db, w.forced) && Columns(w) && OtherWrite(w.db, to)
    ensures Columns(Next(w, Elsewhere(to))) && KeepsCloseLast(w, Elsewhere(to), Next(w, Elsewhere(to)))
  {
    hide ColumnAt, CloseLastAt, IsDelivered;
    var r := Next(w, Elsewhere(to));
    forall k | k in to.findings ensures ColumnAt(r, k) && ((k in w.db.findings ==> CloseLastAt(w, k)) ==> CloseLastAt(r, k)) {
      if k in w.db.findings {
        assert ColumnAt(w, k);
        ColumnCopies(w, r, k);
      } else {
        assert Log(w.db.events, k) == LifeOf(w.db, w.forced, k);
        NewColumn(r, k);
      }
    }
  }

  lemma NewColumn(r: World, k: StateKey)
    requires k in r.db.findings && k !in r.writes && Log(r.db.events, k) == []
    requires !r.db.findings[k].desiredOpen && r.db.findings[k].ticket == NoTicket
    ensures ColumnAt(r, k) && CloseLastAt(r, k)
  {
    LogMembers(r.db.events, EventKey(k, r.db.findings[k].generation, Closes));
    assert !HasEvent(r.db.events, EventKey(k, r.db.findings[k].generation, Closes));
  }

  lemma StepKeeps(w: World, op: Op)
    requires Inv(w.db, w.forced) && Possible(w.db, op)
    ensures Inv(Next(w, op).db, Next(w, op).forced)
  {
    match op
    case Pass(rows) =>
      hide Inv;
      PassReaches(w.db, w.forced, rows);
    case Send(i) =>
      QuietKeeps(w.db, Delivered(w.db, i), w.forced);
    case Bounce(i) =>
      QuietKeeps(w.db, SendFailed(w.db, i), w.forced);
    case Recreate(row) =>
      hide Inv, Enqueued, Shown, Reported;
      EnqueueKeeps(w.db, w.forced, row, Opens, row.finding.generation + 1);
    case Elsewhere(to) =>
      QuietKeeps(w.db, to, w.forced);
  }

  lemma StepColumns(w: World, op: Op)
    requires Inv(w.db, w.forced) && Columns(w) && Possible(w.db, op)
    ensures Columns(Next(w, op)) && KeepsCloseLast(w, op, Next(w, op))
  {
    hide Inv, Columns, InTurn;
    match op
    case Pass(rows) => if w.db.enabled { PassColumns(w, rows); }
    case Send(i) => SendColumns(w, i);
    case Bounce(i) => BounceColumns(w, i);
    case Recreate(row) => RecreateColumns(w, row);
    case Elsewhere(to) => ElsewhereColumns(w, to);
  }

  lemma RunPrefix(worlds: seq<World>, ops: seq<Op>, n: nat)
    requires IsRun(worlds, ops) && n < |ops|
    ensures IsRun(worlds[..n + 1], ops[..n])
  {
    var before, done := worlds[..n + 1], ops[..n];
    forall i | 0 <= i < n ensures Possible(before[i].db, done[i]) && before[i + 1] == Next(before[i], done[i]) {
      assert worlds[i + 1] == Next(worlds[i], ops[i]);
    }
  }

  // Every reachable state has the log shape, true payloads and told columns, whatever fails and whatever
  // order sends land in.
  lemma {:induction false} RunKeeps(worlds: seq<World>, ops: seq<Op>)
    requires IsRun(worlds, ops)
    ensures var w := worlds[|ops|]; Inv(w.db, w.forced) && Columns(w)
  {
    if ops == [] {
      hide Life;
      var w := worlds[0];
      forall k ensures Log(w.db.events, k) == LifeOf(w.db, w.forced, k) {
      }
    } else {
      var n := |ops| - 1;
      RunPrefix(worlds, ops, n);
      RunKeeps(worlds[..n + 1], ops[..n]);
      hide Inv, Columns;
      assert worlds[n + 1] == Next(worlds[n], ops[n]);
      StepKeeps(worlds[n], ops[n]);
      StepColumns(worlds[n], ops[n]);
    }
  }

  // Where a generation's close waited for its open, the open has not overwritten it.
  lemma {:induction false} RunClosesLast(worlds: seq<World>, ops: seq<Op>, k: StateKey)
    requires IsRun(worlds, ops) && k in worlds[|ops|].db.findings
    requires RunInTurn(worlds, ops, k, worlds[|ops|].db.findings[k].generation)
    ensures CloseLastAt(worlds[|ops|], k)
  {
    if ops != [] {
      var n := |ops| - 1;
      var g := worlds[n + 1].db.findings[k].generation;
      RunPrefix(worlds, ops, n);
      RunKeeps(worlds[..n + 1], ops[..n]);
      hide Inv, Columns, InTurn, CloseLastAt;
      assert worlds[n + 1] == Next(worlds[n], ops[n]);
      assert InTurn(worlds[n].db, ops[n], k, g);
      StepColumns(worlds[n], ops[n]);
      if k in worlds[n].db.findings && worlds[n].db.findings[k].generation == g {
        forall i | 0 <= i < n ensures InTurn(worlds[i].db, ops[i], k, g) {
        }
        RunClosesLast(worlds[..n + 1], ops[..n], k);
      }
    }
  }

  // Exactly one open per generation up to the current one and none beyond; a close is missing exactly
  // before a forced generation, or for the current generation while the ticket is to stay open.
  lemma RunLogShape(worlds: seq<World>, ops: seq<Op>, k: StateKey, g: nat)
    requires IsRun(worlds, ops) && k in worlds[|ops|].db.findings
    ensures var w := worlds[|ops|]; var f := w.db.findings[k];
            && Log(w.db.events, k) == Life(w.forced, k, f.generation, f.desiredOpen)
            && DistinctIds(w.db.events)
            && (HasEvent(w.db.events, EventKey(k, g, Opens)) <==> 1 <= g <= f.generation)
            && (HasEvent(w.db.events, EventKey(k, g, Closes)) <==>
                  1 <= g <= f.generation && (if g == f.generation then !f.desiredOpen else (k, g + 1) !in w.forced))
  {
    RunKeeps(worlds, ops);
    var w := worlds[|ops|];
    EventsOf(w.db, w.forced, EventKey(k, g, Opens));
    EventsOf(w.db, w.forced, EventKey(k, g, Closes));
    assert Log(w.db.events, k) == LifeOf(w.db, w.forced, k);
  }

  // A close carries the summary of the one open of its generation; once the report expired it agrees with
  // that payload on everything but event id, state, resolution, remediation state and report path.
  lemma RunClosesMatchOpens(worlds: seq<World>, ops: seq<Op>, i: nat, j: nat)
    requires IsRun(worlds, ops)
    requires var events := worlds[|ops|].db.events;
             && i < |events| && j < |events| && events[j].id.kind == Closes && events[i].id == events[j].id.(kind := Opens)
    ensures var events := worlds[|ops|].db.events;
            i < j && ClosesTruly(events[j].payload, events[i].payload) && |events[j].payload.summary| <= MAX_SUMMARY
  {
    RunKeeps(worlds, ops);
    var events := worlds[|ops|].db.events;
    assert PayloadTrue(events, j) && OpenBefore(events, j);
    var o :| 0 <= o < j && events[o].id == events[j].id.(kind := Opens) && ClosesTruly(events[j].payload, events[o].payload);
    assert o == i;
  }

  ghost predicate Drained(db: Db, k: StateKey) {
    forall i :: 0 <= i < |db.events| && db.events[i].id.key == k ==> db.events[i].delivered
  }

  lemma DrainedDelivers(db: Db, forced: set<(StateKey, nat)>, id: EventKey)
    requires Drained(db, id.key) && HasEvent(db.events, id)
    ensures IsDelivered(db.events, id)
  {
    var i :| 0 <= i < |db.events| && db.events[i].id == id;
    assert db.events[i].delivered;
  }

  // Once all events of a finding are delivered, in any order and after any failures, its ticket column is
  // wrong exactly when the ticket is to be closed and the delivery of its generation's open wrote it last.
  lemma DrainedTicketWrongExactly(worlds: seq<World>, ops: seq<Op>, k: StateKey)
    requires IsRun(worlds, ops) && k in worlds[|ops|].db.findings && Drained(worlds[|ops|].db, k)
    requires worlds[|ops|].db.findings[k].generation > 0
    ensures var w := worlds[|ops|]; var f := w.db.findings[k];
            !(f.ticket == IsOpen <==> f.desiredOpen)
            <==> !f.desiredOpen && LastWrite(w, k) == Delivering(EventKey(k, f.generation, Opens))
  {
    RunKeeps(worlds, ops);
    var w := worlds[|ops|];
    var open := EventKey(k, w.db.findings[k].generation, Opens);
    EventsOf(w.db, w.forced, open);
    DrainedDelivers(w.db, w.forced, open);
    assert ColumnAt(w, k);
    hide Inv, IsDelivered;
  }

  // It is right whenever the close of its own generation went out after the open, whatever else was late.
  lemma DrainedTicketIsRight(worlds: seq<World>, ops: seq<Op>, k: StateKey)
    requires IsRun(worlds, ops) && k in worlds[|ops|].db.findings && Drained(worlds[|ops|].db, k)
    requires worlds[|ops|].db.findings[k].generation > 0
    requires RunInTurn(worlds, ops, k, worlds[|ops|].db.findings[k].generation)
    ensures var f := worlds[|ops|].db.findings[k]; f.ticket == IsOpen <==> f.desiredOpen
  {
    RunKeeps(worlds, ops);
    DrainedTicketWrongExactly(worlds, ops, k);
    RunClosesLast(worlds, ops, k);
    var w := worlds[|ops|];
    var close := EventKey(k, w.db.findings[k].generation, Closes);
    if !w.db.findings[k].desiredOpen {
      EventsOf(w.db, w.forced, close);
      DrainedDelivers(w.db, w.forced, close);
    }
    hide Inv, IsDelivered;
  }

  // So a wrong ticket has one cause: the close of its own generation was sent while the open had not arrived.
  lemma WrongTicketHadEarlyClose(worlds: seq<World>, ops: seq<Op>, k: StateKey) returns (i: nat)
    requires IsRun(worlds, ops) && k in worlds[|ops|].db.findings && Drained(worlds[|ops|].db, k)
    requires worlds[|ops|].db.findings[k].generation > 0
    requires var f := worlds[|ops|].db.findings[k]; !(f.ticket == IsOpen <==> f.desiredOpen)
    ensures i < |ops| && ops[i].Send? && ops[i].i < |worlds[i].db.events|
    ensures var g := worlds[|ops|].db.findings[k].generation;
            && worlds[i].db.events[ops[i].i].id == EventKey(k, g, Closes)
            && !IsDelivered(worlds[i].db.events, EventKey(k, g, Opens))
  {
    var g := worlds[|ops|].db.findings[k].generation;
    if RunInTurn(worlds, ops, k, g) {
      DrainedTicketIsRight(worlds, ops, k);
      assert false;
    }
    i :| 0 <= i < |ops| && !InTurn(worlds[i].db, ops[i], k, g);
  }

  // ---- A run that ends wrong ----

  const SOME: StateKey := StateKey(TaskRef("customer", "task"), "fingerprint")

  function Sighted(present: bool, desiredOpen: bool, generation: nat, ticket: Ticket): TicketRow {
    TicketRow(FindingState(0, 0, 1, present, TICKET_SEVERITY), Active, ToDo, "", desiredOpen, generation, ticket)
  }

  function RowFor(db: Db): Candidate
    requires SOME in db.findings && SOME.ref.customer in db.customers
  {
    Candidate(SOME, db.findings[SOME], db.customers[SOME.ref.customer], NO_ABOUT, "", SOME.ref.task,
              TimeText(db.findings[SOME].state.lastSeen))
  }

  // One pass over a table with this one finding, whose report is gone.
  lemma LonePass(db: Db)
    requires db.findings.Keys == {SOME} && db.snapshots == map[]
    requires SOME.ref.customer in db.customers && !db.customers[SOME.ref.customer].deleted
    ensures IsAnswer(db, [RowFor(db)]) && Passed(db, [RowFor(db)]) == Settled(db, RowFor(db))
  {
    hide Settled;
    var rows := [RowFor(db)];
    assert forall k :: k in db.findings <==> k == SOME;
    assert IsRow(db, rows[0]);
    assert rows[0].key == SOME;
    assert Listed(SOME, rows);
    assert rows[..0] == [];
  }

  lemma RunExtends(worlds: seq<World>, ops: seq<Op>, op: Op)
    requires IsRun(worlds, ops) && Possible(worlds[|ops|].db, op)
    ensures IsRun(worlds + [Next(worlds[|ops|], op)], ops + [op])
  {
    hide Possible, Next;
    var longer, more := worlds + [Next(worlds[|ops|], op)], ops + [op];
    forall i | 0 <= i < |more| ensures Possible(longer[i].db, more[i]) && longer[i + 1] == Next(longer[i], more[i]) {
      assert i < |ops| ==> longer[i] == worlds[i] && longer[i + 1] == worlds[i + 1] && more[i] == ops[i];
    }
  }

  // Seen, queued, backed off once.
  lemma OpenBacksOff() returns (worlds: seq<World>, ops: seq<Op>)
    ensures IsRun(worlds, ops)
    ensures var db := worlds[|ops|].db;
            && db.enabled && db.findings == map[SOME := Sighted(true, true, 1, Failed)] && db.snapshots == map[]
            && db.customers == map[SOME.ref.customer := Customer("Customer", "Customer", false)]
            && |db.events| == 1 && db.events[0].id == EventKey(SOME, 1, Opens) && !db.events[0].delivered
  {
    hide PayloadFor, Inv;
    var customers := map[SOME.ref.customer := Customer("Customer", "Customer", false)];
    var w0 := World(Db(true, customers, map[], map[], []), {}, map[]);
    var seen := w0.db.(findings := map[SOME := Sighted(true, false, 0, NoTicket)]);
    var w1 := Next(w0, Elsewhere(seen));
    LonePass(seen);
    var first := Pass([RowFor(seen)]);
    var w2 := Next(w1, first);
    assert w2.db.findings == map[SOME := Sighted(true, true, 1, QueuedOpen)] && |w2.db.events| == 1;
    worlds, ops := [w0, w1, w2, Next(w2, Bounce(0))], [Elsewhere(seen), first, Bounce(0)];
  }

  // Then gone, so a pass queues its close as well.
  lemma GonePass(db: Db)
    requires db.findings == map[SOME := Sighted(false, true, 1, Failed)] && db.snapshots == map[]
    requires SOME.ref.customer in db.customers && !db.customers[SOME.ref.customer].deleted
    requires |db.events| == 1 && db.events[0].id == EventKey(SOME, 1, Opens) && !db.events[0].delivered
    ensures var rows := [RowFor(db)];
            var r := Passed(db, rows);
            && IsAnswer(db, rows) && r.findings == map[SOME := Sighted(false, false, 1, QueuedClose)]
            && |r.events| == 2 && r.events[0] == db.events[0]
            && r.events[1].id == EventKey(SOME, 1, Closes) && !r.events[1].delivered
  {
    hide PayloadFor;
    LonePass(db);
  }

  lemma CloseQueuedToo() returns (worlds: seq<World>, ops: seq<Op>)
    ensures IsRun(worlds, ops)
    ensures var db := worlds[|ops|].db;
            && db.findings == map[SOME := Sighted(false, false, 1, QueuedClose)]
            && |db.events| == 2 && db.events[0].id == EventKey(SOME, 1, Opens) && db.events[1].id == EventKey(SOME, 1, Closes)
            && !db.events[0].delivered && !db.events[1].delivered
  {
    hide Passed, IsAnswer, Fresh;
    var before, done := OpenBacksOff();
    var w := before[|done|];
    var gone := w.db.(findings := map[SOME := Sighted(false, true, 1, Failed)]);
    var w1 := Next(w, Elsewhere(gone));
    GonePass(gone);
    var second := Pass([RowFor(gone)]);
    RunExtends(before, done, Elsewhere(gone));
    RunExtends(before + [w1], done + [Elsewhere(gone)], second);
    worlds, ops := before + [w1] + [Next(w1, second)], done + [Elsewhere(gone)] + [second];
  }

  // The open backs off once, its close is delivered first, and the late open has the last word: every event is
  // delivered, the finding is gone, and its ticket shows open.
  lemma OutOfTurnLeavesTicketOpen() returns (worlds: seq<World>, ops: seq<Op>)
    ensures IsRun(worlds, ops)
    ensures var db := worlds[|ops|].db;
            SOME in db.findings && !RunInTurn(worlds, ops, SOME, db.findings[SOME].generation) && db.findings[SOME].generation > 0 && Drained(db, SOME)
            && !db.findings[SOME].desiredOpen && db.findings[SOME].ticket == IsOpen
  {
    var before, done := CloseQueuedToo();
    var n, w := |done|, before[|done|];
    assert !InTurn(w.db, Send(1), SOME, 1);
    var w1 := Next(w, Send(1));
    RunExtends(before, done, Send(1));
    RunExtends(before + [w1], done + [Send(1)], Send(0));
    worlds, ops := before + [w1] + [Next(w1, Send(0))], done + [Send(1)] + [Send(0)];
    assert worlds[n] == w && ops[n] == Send(1);
  }
}
