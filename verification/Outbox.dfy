/** The ticket outbox: finding rows with their ticket columns, and the log of queued events.
    One call is one transaction. */
module Outbox {
  import opened Decimals
  import opened FindingTables
  import opened Options
  import opened TicketText

  const TICKET_SEVERITY: nat := 70
  const CRITICAL_SEVERITY: nat := 85

  datatype Disposition = Active | FalsePositive | AcceptedRisk

  datatype Remediation = ToDo | InProgress | Resolved | WontFix

  datatype Ticket = NoTicket | Blocked | QueuedOpen | IsOpen | QueuedClose | IsClosed | Failed

  // One row of finding_states with its ticket columns.
  datatype TicketRow = TicketRow(state: FindingState, disposition: Disposition, remediation: Remediation, justification: string,
                                 desiredOpen: bool, generation: nat, ticket: Ticket)
  {
    predicate Eligible() {
      && state.present && state.severity >= TICKET_SEVERITY && disposition == Active
      && remediation != Resolved && remediation != WontFix
    }
  }

  datatype Customer = Customer(name: string, ticketName: string, deleted: bool)

  datatype Kind = Opens | Closes

  datatype EventKey = EventKey(key: StateKey, generation: nat, kind: Kind)

  // The fields a late close takes over from its open.
  datatype Context = Context(ticketName: string, customerName: string, key: StateKey, priority: string, severity: int, about: About,
                             description: string, reportId: string, taskName: string, scanEnd: string)

  datatype Payload = Payload(eventId: EventKey, state: Kind, resolution: string, remediation: Remediation,
                             reportPath: string, summary: string, context: Context)

  datatype Event = Event(id: EventKey, payload: Payload, delivered: bool, attempts: nat)

  datatype Db = Db(enabled: bool, customers: map<string, Customer>, findings: map<StateKey, TicketRow>,
                   snapshots: map<nat, Snapshot>, events: seq<Event>)

  // One row of the candidate query: columns as they stood when it was read.
  datatype Candidate = Candidate(key: StateKey, finding: TicketRow, customer: Customer, about: About, reportId: string,
                                 taskName: string, scanEnd: string)

  // ---- The candidate query ----

  predicate Live(db: Db, k: StateKey) {
    k in db.findings && k.ref.customer in db.customers && !db.customers[k.ref.customer].deleted
  }

  // The report a finding was last seen in is kept.
  predicate Reported(db: Db, k: StateKey)
    requires k in db.findings
  {
    var id := db.findings[k].state.lastSnapshot;
    id in db.snapshots && db.snapshots[id].Imported?
  }

  predicate Shown(db: Db, k: StateKey, f: Finding)
    requires k in db.findings
  {
    && Reported(db, k) && f.fingerprint == k.fingerprint
    && f in db.snapshots[db.findings[k].state.lastSnapshot].report.findings
  }

  // A time as the database stores it; its number stands for the text.
  function TimeText(t: int): string {
    if t < 0 then "-" + Decimal(-t) else Decimal(t)
  }

  // The outer joins: a report that lists the finding twice gives two rows, no report gives empty columns.
  ghost predicate IsRow(db: Db, c: Candidate) {
    && Live(db, c.key) && c.finding == db.findings[c.key] && c.customer == db.customers[c.key.ref.customer]
    && (if Reported(db, c.key) then
          var snapshot := db.snapshots[c.finding.state.lastSnapshot];
          c.reportId == snapshot.reportId && c.taskName == snapshot.report.taskName && c.scanEnd == TimeText(snapshot.report.scanEnd)
        else c.reportId == "" && c.taskName == c.key.ref.task && c.scanEnd == TimeText(c.finding.state.lastSeen))
    && ((exists f :: Shown(db, c.key, f) && f.about == c.about) || (c.about == NO_ABOUT && forall f :: !Shown(db, c.key, f)))
  }

  ghost predicate Listed(k: StateKey, cs: seq<Candidate>) {
    exists i :: 0 <= i < |cs| && cs[i].key == k
  }

  ghost predicate IsAnswer(db: Db, cs: seq<Candidate>) {
    && (forall i :: 0 <= i < |cs| ==> IsRow(db, cs[i]))
    && (forall k :: Live(db, k) ==> Listed(k, cs))
  }

  // ---- The log ----

  predicate HasEvent(events: seq<Event>, id: EventKey) {
    exists i :: 0 <= i < |events| && events[i].id == id
  }

  // The payload of the latest open event of a generation.
  function LatestOpen(events: seq<Event>, k: StateKey, generation: nat): Option<Payload> {
    if events == [] then None
    else
      var last := events[|events| - 1];
      if last.id == EventKey(k, generation, Opens) then Some(last.payload)
      else LatestOpen(events[..|events| - 1], k, generation)
  }

  function ReportPath(snapshot: nat): string {
    "/reports/" + Decimal(snapshot)
  }

  function ConnectWisePriority(severity: int): string {
    if severity >= CRITICAL_SEVERITY then "P1-Critical" else "P2-High"
  }

  function SubjectOf(c: Candidate): Subject {
    Subject(c.key.fingerprint, c.finding.state.severity, c.about, c.customer.name, c.taskName, c.reportId, c.scanEnd)
  }

  function ContextOf(c: Candidate): Context {
    Context(c.customer.ticketName, c.customer.name, c.key, ConnectWisePriority(c.finding.state.severity), c.finding.state.severity,
            c.about, Description(SubjectOf(c)), c.reportId, c.taskName, c.scanEnd)
  }

  function SummaryFor(events: seq<Event>, c: Candidate, kind: Kind, generation: nat): string {
    var open := LatestOpen(events, c.key, generation);
    if kind == Closes && open.Some? && TrimSpace(open.value.summary) != "" then open.value.summary
    else NewSummary(SubjectOf(c))
  }

  function PayloadFor(events: seq<Event>, c: Candidate, kind: Kind, generation: nat): Payload {
    var id := EventKey(c.key, generation, kind);
    var fields := Payload(id, kind, c.finding.justification, c.finding.remediation, ReportPath(c.finding.state.lastSnapshot),
                          SummaryFor(events, c, kind, generation), ContextOf(c));
    if kind == Closes && c.finding.state.lastSnapshot == NO_SNAPSHOT then
      var open := LatestOpen(events, c.key, generation);
      var kept := if open.Some?
                  then open.value.(eventId := id, state := kind, resolution := fields.resolution, remediation := fields.remediation)
                  else fields;
      kept.(reportPath := "")
    else fields
  }

  // ---- Transitions ----

  function Queued(f: TicketRow, kind: Kind, generation: nat): TicketRow {
    f.(desiredOpen := kind == Opens, generation := generation, ticket := if kind == Opens then QueuedOpen else QueuedClose)
  }

  // enqueueHookwiseTx: the insert does nothing when the event key is taken.
  function Enqueued(db: Db, c: Candidate, kind: Kind, generation: nat): Db
    requires c.key in db.findings
  {
    var id := EventKey(c.key, generation, kind);
    db.(events := if HasEvent(db.events, id) then db.events
                  else db.events + [Event(id, PayloadFor(db.events, c, kind, generation), false, 0)],
        findings := db.findings[c.key := Queued(db.findings[c.key], kind, generation)])
  }

  // One turn of the candidate loop, deciding on the columns read before the loop.
  function Settled(db: Db, c: Candidate): Db
    requires c.key in db.findings
  {
    var eligible := c.finding.Eligible();
    var now := db.findings[c.key];
    if eligible && c.customer.ticketName == "" then
      if now.desiredOpen then db else db.(findings := db.findings[c.key := now.(ticket := Blocked)])
    else if eligible && !c.finding.desiredOpen then Enqueued(db, c, Opens, c.finding.generation + 1)
    else if !eligible && c.finding.desiredOpen then Enqueued(db, c, Closes, c.finding.generation)
    else if !eligible && now.ticket == Blocked then db.(findings := db.findings[c.key := now.(ticket := NoTicket)])
    else db
  }

  // ReconcileHookwiseOutbox over the query's answer.
  function Passed(db: Db, cs: seq<Candidate>): (r: Db)
    requires forall i :: 0 <= i < |cs| ==> cs[i].key in db.findings
    ensures r.findings.Keys == db.findings.Keys
  {
    if cs == [] then db else Settled(Passed(db, cs[..|cs| - 1]), cs[|cs| - 1])
  }

  lemma PassedStep(db: Db, cs: seq<Candidate>, i: nat)
    requires i < |cs| && forall j :: 0 <= j < |cs| ==> cs[j].key in db.findings
    ensures Passed(db, cs[..i + 1]) == Settled(Passed(db, cs[..i]), cs[i])
  {
    assert cs[..i + 1][..i] == cs[..i];
  }

  // Two rows that differ in nothing but the ticket columns.
  predicate SameFinding(a: TicketRow, b: TicketRow) {
    && a.state == b.state && a.disposition == b.disposition && a.remediation == b.remediation && a.justification == b.justification
  }

  // One event is marked, and at most the ticket column of its finding follows, while the generation is current.
  ghost predicate MarkedAt(was: seq<Event>, now: seq<Event>, i: nat, delivered: bool)
    requires i < |was|
  {
    && |now| == |was| && (forall j :: 0 <= j < |was| && j != i ==> now[j] == was[j])
    && now[i].id == was[i].id && now[i].payload == was[i].payload && now[i].attempts == was[i].attempts + 1
    && now[i].delivered == (was[i].delivered || delivered)
  }

  ghost predicate TicketMoved(was: map<StateKey, TicketRow>, now: map<StateKey, TicketRow>, id: EventKey, ticket: Ticket) {
    && now.Keys == was.Keys
    && forall k :: k in was ==>
         && SameFinding(was[k], now[k]) && now[k].desiredOpen == was[k].desiredOpen && now[k].generation == was[k].generation
         && now[k].ticket == if k == id.key && was[k].generation == id.generation then ticket else was[k].ticket
  }

  // MarkHookwiseDelivered: the finding's ticket column moves only while the generation is current.
  function Delivered(db: Db, i: nat): Db
    requires i < |db.events|
  {
    var e := db.events[i];
    var k := e.id.key;
    db.(events := db.events[i := e.(delivered := true, attempts := e.attempts + 1)],
        findings := if k in db.findings && db.findings[k].generation == e.id.generation
                    then db.findings[k := db.findings[k].(ticket := if e.id.kind == Opens then IsOpen else IsClosed)]
                    else db.findings)
  }

  // MarkHookwiseFailed
  function SendFailed(db: Db, i: nat): Db
    requires i < |db.events|
  {
    var e := db.events[i];
    var k := e.id.key;
    db.(events := db.events[i := e.(attempts := e.attempts + 1)],
        findings := if k in db.findings && db.findings[k].generation == e.id.generation
                    then db.findings[k := db.findings[k].(ticket := Failed)]
                    else db.findings)
  }

  // What RecreateHookwiseFinding's query demands; its inner joins need the report's own row.
  ghost predicate MayRecreate(db: Db, k: StateKey) {
    && Live(db, k) && db.customers[k.ref.customer].ticketName != "" && db.findings[k].Eligible()
    && db.findings[k].desiredOpen && db.findings[k].ticket == IsOpen
    && exists f :: Shown(db, k, f)
  }

  function Recreated(db: Db, c: Candidate): Db
    requires c.key in db.findings
  {
    Enqueued(db, c, Opens, c.finding.generation + 1)
  }

  // ---- The store ----

  class OutboxStore {
    var enabled: bool
    var customers: map<string, Customer>
    var findings: map<StateKey, TicketRow>
    var snapshots: map<nat, Snapshot>
    var events: seq<Event>

    ghost function Contents(): Db
      reads this
    {
      Db(enabled, customers, findings, snapshots, events)
    }

    // The answer of the candidate query is a parameter: any order, rows repeated at will.
    method ReconcileHookwiseOutbox(candidates: seq<Candidate>)
      requires IsAnswer(Contents(), candidates)
      modifies this`findings, this`events
      ensures Contents() == if enabled then Passed(old(Contents()), candidates) else old(Contents())
    {
      if !enabled {
        return;
      }
      ghost var before := Contents();
      assert forall i :: 0 <= i < |candidates| ==> candidates[i].key in before.findings;
      assert Passed(before, candidates[..0]) == before;
      hide IsAnswer, Settled, Passed;
      for i := 0 to |candidates|
        invariant Contents() == Passed(before, candidates[..i])
      {
        PassedStep(before, candidates, i);
        Settle(candidates[i]);
      }
      assert candidates[..|candidates|] == candidates;
    }

    // The switch of the candidate loop.
    method Settle(value: Candidate)
      requires value.key in findings
      modifies this`findings, this`events
      ensures Contents() == Settled(old(Contents()), value)
    {
      hide Enqueued;
      var eligible := && value.finding.state.present && value.finding.state.severity >= TICKET_SEVERITY
                      && value.finding.disposition == Active
                      && value.finding.remediation != Resolved && value.finding.remediation != WontFix;
      if eligible && value.customer.ticketName == "" {
        if !findings[value.key].desiredOpen {
          findings := findings[value.key := findings[value.key].(ticket := Blocked)];
        }
      } else if eligible && !value.finding.desiredOpen {
        Enqueue(value, Opens, value.finding.generation + 1);
      } else if !eligible && value.finding.desiredOpen {
        Enqueue(value, Closes, value.finding.generation);
      } else if !eligible && !value.finding.desiredOpen {
        if findings[value.key].ticket == Blocked {
          findings := findings[value.key := findings[value.key].(ticket := NoTicket)];
        }
      }
    }

    method Enqueue(value: Candidate, kind: Kind, generation: nat)
      requires value.key in findings
      modifies this`findings, this`events
      ensures Contents() == Enqueued(old(Contents()), value, kind, generation)
    {
      hide NewSummary, Description, TrimSpace, ReportPath, LatestOpen, HasEvent;
      var open := FindLatestOpen(value.key, generation);
      var id := EventKey(value.key, generation, kind);
      var summary := NewSummary(SubjectOf(value));
      if kind == Closes && open.Some? && TrimSpace(open.value.summary) != "" {
        summary := open.value.summary;
      }
      var fields := Payload(id, kind, value.finding.justification, value.finding.remediation,
                            ReportPath(value.finding.state.lastSnapshot), summary, ContextOf(value));
      if kind == Closes && value.finding.state.lastSnapshot == NO_SNAPSHOT {
        if open.Some? {
          fields := open.value.(eventId := id, state := kind, resolution := fields.resolution, remediation := fields.remediation);
        }
        fields := fields.(reportPath := "");
      }
      if !HasEvent(events, id) {
        events := events + [Event(id, fields, false, 0)];
      }
      findings := findings[value.key := findings[value.key].(
        desiredOpen := kind == Opens, generation := generation, ticket := if kind == Opens then QueuedOpen else QueuedClose)];
    }

    // ORDER BY id DESC LIMIT 1 over the open events of a generation.
    method FindLatestOpen(key: StateKey, generation: nat) returns (open: Option<Payload>)
      ensures open == LatestOpen(events, key, generation)
    {
      var i := |events|;
      assert events[..i] == events;
      while i > 0
        invariant 0 <= i <= |events|
        invariant LatestOpen(events, key, generation) == LatestOpen(events[..i], key, generation)
      {
        i := i - 1;
        assert events[..i + 1][..i] == events[..i];
        if events[i].id == EventKey(key, generation, Opens) {
          return Some(events[i].payload);
        }
      }
      return None;
    }

    // The event carries the columns its batch read; only its id is used to find the row.
    method MarkHookwiseDelivered(i: nat)
      requires i < |events|
      modifies this`findings, this`events
      ensures Contents() == Delivered(old(Contents()), i)
      ensures MarkedAt(old(events), events, i, true)
      ensures TicketMoved(old(findings), findings, old(events)[i].id, if old(events)[i].id.kind == Opens then IsOpen else IsClosed)
    {
      var event := events[i];
      events := events[i := event.(delivered := true, attempts := event.attempts + 1)];
      var ticketState := IsClosed;
      if event.id.kind == Opens {
        ticketState := IsOpen;
      }
      MarkCurrent(event.id, ticketState);
    }

    method MarkHookwiseFailed(i: nat)
      requires i < |events|
      modifies this`findings, this`events
      ensures Contents() == SendFailed(old(Contents()), i)
      ensures MarkedAt(old(events), events, i, false) && TicketMoved(old(findings), findings, old(events)[i].id, Failed)
    {
      var event := events[i];
      events := events[i := event.(attempts := event.attempts + 1)];
      MarkCurrent(event.id, Failed);
    }

    method MarkCurrent(id: EventKey, ticket: Ticket)
      modifies this`findings
      ensures findings == if id.key in old(findings) && old(findings)[id.key].generation == id.generation
                          then old(findings)[id.key := old(findings)[id.key].(ticket := ticket)] else old(findings)
    {
      if id.key in findings && findings[id.key].generation == id.generation {
        findings := findings[id.key := findings[id.key].(ticket := ticket)];
      }
    }

    // `row` is the query's one row, when there is one.
    method RecreateHookwiseFinding(key: StateKey, row: Option<Candidate>) returns (ok: bool)
      requires row.Some? <==> MayRecreate(Contents(), key)
      requires row.Some? ==> row.value.key == key && IsRow(Contents(), row.value)
      modifies this`findings, this`events
      ensures ok <==> MayRecreate(old(Contents()), key)
      ensures Contents() == if ok then Recreated(old(Contents()), row.value) else old(Contents())
    {
      hide Enqueued, MayRecreate;
      match row
      case None => ok := false;
      case Some(value) =>
        Enqueue(value, Opens, value.finding.generation + 1);
        ok := true;
    }
  }
}
