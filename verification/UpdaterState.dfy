/** The updater's durable record: the active operation, the history, the pause and the idempotency keys.
    Each function is one critical section of the controller. */
module UpdaterState {
  import opened Options

  const MAX_HISTORY: nat := 100

  datatype Image = Image(service: string, digest: string)

  datatype Kind = Check | Feed | Stack

  datatype Origin = Admin | Scheduled

  datatype OpState = Queued | Waiting | Running | Succeeded | Degraded | RolledBack | Failed | Cancelled {
    predicate Terminal() {
      Succeeded? || Degraded? || RolledBack? || Failed? || Cancelled?
    }
  }

  datatype Phase =
    | Fresh | WaitingForScans | Preflight | Checkpoint | Staging | Pulling
    | Applying | Importing | Verifying | Cleanup | RollingBack | Ended(outcome: OpState)

  datatype Operation = Operation(id: nat, kind: Kind, origin: Origin, state: OpState, phase: Phase,
                                 before: seq<Image>, after: seq<Image>)

  datatype Persist = Persist(active: Option<Operation>, history: seq<Operation>, paused: bool, backupPath: string,
                             keys: map<string, nat>)

  // ---- Reading ----

  predicate Busy(s: Persist) {
    s.active.Some? && !s.active.value.state.Terminal()
  }

  predicate BusyWith(s: Persist, id: nat) {
    Busy(s) && s.active.value.id == id
  }

  predicate InHistory(s: Persist, id: nat) {
    exists i :: 0 <= i < |s.history| && s.history[i].id == id
  }

  function HistoryEntry(history: seq<Operation>, id: nat): Option<Operation> {
    if history == [] then None else if history[0].id == id then Some(history[0]) else HistoryEntry(history[1..], id)
  }

  // operationLocked
  function OperationOf(s: Persist, id: nat): Option<Operation> {
    if s.active.Some? && s.active.value.id == id then s.active else HistoryEntry(s.history, id)
  }

  // ---- Writing ----

  predicate IsActive(s: Persist, id: nat) {
    s.active.Some? && s.active.value.id == id
  }

  function WithPhase(s: Persist, state: OpState, phase: Phase): Persist
    requires s.active.Some?
  {
    s.(active := Some(s.active.value.(state := state, phase := phase)))
  }

  function WithImages(s: Persist, before: seq<Image>, after: seq<Image>): Persist
    requires s.active.Some?
  {
    s.(active := Some(s.active.value.(before := before, after := after)))
  }

  function Newest(history: seq<Operation>): seq<Operation> {
    if |history| > MAX_HISTORY then history[..MAX_HISTORY] else history
  }

  function Finished(s: Persist, state: OpState): Persist
    requires s.active.Some?
  {
    var done := s.active.value.(state := state, phase := Ended(state));
    s.(active := Some(done), history := Newest([done] + s.history), backupPath := "")
  }

  // An operation whose first save failed, taken back.
  function TakenBack(s: Persist, id: nat, key: string): Persist {
    if IsActive(s, id) then s.(active := None, keys := s.keys - {key}) else s
  }

  // Keys survive a trim while their operation is active or in the history.
  function Trimmed(s: Persist): map<string, nat> {
    if |s.keys| <= MAX_HISTORY + 1 then s.keys
    else map k | k in s.keys && ((s.active.Some? && s.active.value.id == s.keys[k]) || InHistory(s, s.keys[k])) :: s.keys[k]
  }

  function Admitted(s: Persist, op: Operation, key: string): Persist {
    var t := s.(active := Some(op), backupPath := "", keys := s.keys[key := op.id]);
    t.(keys := Trimmed(t))
  }

  // ---- What every reachable record satisfies ----

  ghost predicate HistoryDone(history: seq<Operation>) {
    && |history| <= MAX_HISTORY
    && (forall i :: 0 <= i < |history| ==> history[i].state.Terminal())
    && (forall i, j :: 0 <= i < j < |history| ==> history[i].id != history[j].id)
  }

  // At most one operation is not over, each finished one is in the history once, and no two keys share an operation.
  ghost predicate Sound(s: Persist, used: set<nat>) {
    && HistoryDone(s.history)
    && (forall i :: 0 <= i < |s.history| ==> s.history[i].id in used)
    && (s.active.Some? ==> s.active.value.id in used)
    && (s.active.Some? && s.active.value.state.Terminal() ==> s.history != [] && s.history[0] == s.active.value)
    && (Busy(s) ==> !InHistory(s, s.active.value.id))
    && (forall k :: k in s.keys ==> s.keys[k] in used)
    && (forall k, l :: k in s.keys && l in s.keys && s.keys[k] == s.keys[l] ==> k == l)
  }

  lemma PhaseSound(s: Persist, used: set<nat>, id: nat, state: OpState, phase: Phase)
    requires Sound(s, used) && BusyWith(s, id) && !state.Terminal()
    ensures Sound(WithPhase(s, state, phase), used) && BusyWith(WithPhase(s, state, phase), id)
  {
  }

  lemma ImagesSound(s: Persist, used: set<nat>, id: nat, before: seq<Image>, after: seq<Image>)
    requires Sound(s, used) && BusyWith(s, id)
    ensures Sound(WithImages(s, before, after), used) && BusyWith(WithImages(s, before, after), id)
  {
  }

  lemma FinishSound(s: Persist, used: set<nat>, id: nat, state: OpState)
    requires Sound(s, used) && BusyWith(s, id) && state.Terminal()
    ensures Sound(Finished(s, state), used) && !Busy(Finished(s, state))
  {
    var done := s.active.value.(state := state, phase := Ended(state));
    var longer := [done] + s.history;
    assert forall i :: 1 <= i < |longer| ==> longer[i] == s.history[i - 1];
    assert forall i :: 0 <= i < |s.history| ==> s.history[i].id != id;
    var history := Finished(s, state).history;
    assert forall i :: 0 <= i < |history| ==> history[i] == longer[i];
  }

  lemma AdmitSound(s: Persist, used: set<nat>, op: Operation, key: string)
    requires Sound(s, used) && !Busy(s) && op.id !in used && !op.state.Terminal()
    ensures Sound(Admitted(s, op, key), used + {op.id}) && BusyWith(Admitted(s, op, key), op.id)
    ensures key in Admitted(s, op, key).keys && Admitted(s, op, key).keys[key] == op.id
  {
  }

  // A retained key is one whose operation can still be looked up, as long as the trim has had its say.
  lemma TrimKeepsFindable(s: Persist, key: string)
    requires key in s.keys && OperationOf(s, s.keys[key]).Some?
    ensures key in Trimmed(s)
  {
    EntryFound(s.history, s.keys[key]);
  }

  ghost function Kept(s: Persist): set<nat> {
    (set i | 0 <= i < |s.history| :: s.history[i].id) + (if s.active.Some? then {s.active.value.id} else {})
  }

  lemma {:induction false} FewIds(history: seq<Operation>)
    ensures |set i | 0 <= i < |history| :: history[i].id| <= |history|
  {
    var ids := set i | 0 <= i < |history| :: history[i].id;
    if history != [] {
      var front := history[..|history| - 1];
      FewIds(front);
      var rest := set i | 0 <= i < |front| :: front[i].id;
      forall x | x in ids ensures x in rest + {history[|history| - 1].id} {
        var i :| 0 <= i < |history| && history[i].id == x;
        assert i < |front| ==> front[i].id == x;
      }
      Fewer(ids, rest + {history[|history| - 1].id});
    }
  }

  lemma Fewer(a: set<nat>, b: set<nat>)
    requires a <= b
    ensures |a| <= |b|
  {
    assert b == a + (b - a);
  }

  lemma {:induction false} FewKeys(keys: map<string, nat>, ids: set<nat>)
    requires forall k :: k in keys ==> keys[k] in ids
    requires forall k, l :: k in keys && l in keys && keys[k] == keys[l] ==> k == l
    ensures |keys| <= |ids|
    decreases |keys|
  {
    if k :| k in keys {
      var rest := keys - {k};
      assert keys.Keys == rest.Keys + {k};
      assert |keys| == |keys.Keys| && |rest| == |rest.Keys|;
      FewKeys(rest, ids - {keys[k]});
    } else {
      assert keys == map[];
    }
  }

  /** The trim bounds the keys, and once it drops any it keeps none whose operation is past looking up. */
  lemma TrimBounds(s: Persist, used: set<nat>)
    requires Sound(s, used)
    ensures |Trimmed(s)| <= MAX_HISTORY + 1
    ensures |s.keys| > MAX_HISTORY + 1 ==> forall k :: k in Trimmed(s) ==> OperationOf(s, s.keys[k]).Some?
  {
    if |s.keys| > MAX_HISTORY + 1 {
      TrimmedInKept(s);
      FewIds(s.history);
      hide Trimmed, HistoryDone;
      FewKeys(Trimmed(s), Kept(s));
    }
  }

  lemma TrimmedInKept(s: Persist)
    requires |s.keys| > MAX_HISTORY + 1
    ensures forall k :: k in Trimmed(s) ==>
              k in s.keys && Trimmed(s)[k] == s.keys[k] && s.keys[k] in Kept(s) && OperationOf(s, s.keys[k]).Some?
  {
    forall k | k in Trimmed(s) ensures OperationOf(s, s.keys[k]).Some? && s.keys[k] in Kept(s) {
      EntryFound(s.history, s.keys[k]);
    }
  }

  lemma {:induction false} EntryFound(history: seq<Operation>, id: nat)
    ensures HistoryEntry(history, id).Some? <==> exists i :: 0 <= i < |history| && history[i].id == id
    ensures HistoryEntry(history, id).Some? ==> HistoryEntry(history, id).value in history
  {
    if history != [] {
      EntryFound(history[1..], id);
      if i :| 0 <= i < |history| && history[i].id == id {
        assert i > 0 ==> history[1..][i - 1].id == id;
      }
      if j :| 0 <= j < |history[1..]| && history[1..][j].id == id {
        assert history[j + 1].id == id;
      }
    }
  }

  // ---- Recovery after a restart ----

  // What a rollback is called with.
  datatype Checkpointed = Checkpointed(id: nat, images: seq<Image>, backup: string)

  // A restart rolls back exactly the records in one of these phases.
  predicate Risky(kind: Kind, phase: Phase) {
    kind == Stack && (phase == Applying || phase == Verifying || phase == RollingBack)
  }

  predicate Dangerous(s: Persist) {
    Busy(s) && Risky(s.active.value.kind, s.active.value.phase)
  }

  predicate Carries(s: Persist, e: Checkpointed) {
    Dangerous(s) && s.active.value.id == e.id && s.active.value.before == e.images && s.backupPath == e.backup
  }
}
