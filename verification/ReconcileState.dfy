/** The reconciler's two stores: checkpoint rows and remote objects, as one value. */
module ReconcileState {
  import opened NetworkClass
  import opened Markers

  // A Greenbone id; 0 stands for the empty id of a row without a remote object.
  type Id = nat

  const NO_ID: Id := 0

  // The values written to Greenbone. Two values hash alike exactly when they are equal.
  datatype Spec =
    | ScheduleSpec(content: string)
    | TargetSpec(content: string)
    | TaskSpec(content: string, targetId: Id, scheduleId: Id)

  datatype Comment = Marked(key: Key) | Unmarked

  // `retained` says that the three-report retention preference is set.
  datatype Object = Object(kind: Kind, comment: Comment, spec: Spec, retained: bool)

  datatype RowState = Creating | Applied | Error

  datatype Row = Row(gvmId: Id, hash: Spec, state: RowState)

  datatype Op = Created | Modified | Deleted | Retained

  // One remote write, with what was true of its object when it happened.
  datatype Write = Write(op: Op, key: Key, owned: bool, referenced: bool, tasksLeft: bool)

  datatype State = State(
    rows: map<Key, Row>,
    objects: map<Id, Object>,
    nextId: Id,
    log: seq<Write>,
    faults: nat)

  // ---- Desired state ----

  datatype Slot = Slot(cls: Class, sequence: nat)

  datatype Desired =
    | Active(schedule: string, slots: seq<Slot>, targetText: map<Slot, string>, taskText: map<Slot, string>)
    | Removed

  function TargetOf(s: Slot): Key { TargetKey(s.cls, s.sequence) }

  function TaskOf(s: Slot): Key { TaskKey(s.cls, s.sequence) }

  function Lookup(texts: map<Slot, string>, s: Slot): string {
    if s in texts then texts[s] else ""
  }

  predicate IsDesired(d: Desired, k: Key) {
    && d.Active?
    && match k
       case ScheduleKey => true
       case TargetKey(c, n) => Slot(c, n) in d.slots
       case TaskKey(c, n) => Slot(c, n) in d.slots
  }

  function DesiredKeys(d: Desired): set<Key> {
    if d.Removed? then {}
    else {ScheduleKey} + (set s | s in d.slots :: TargetOf(s)) + (set s | s in d.slots :: TaskOf(s))
  }

  predicate HasId(rows: map<Key, Row>, k: Key) {
    k in rows && rows[k].gvmId != NO_ID
  }

  // The value the current run would write for a key.
  predicate Wants(d: Desired, rows: map<Key, Row>, k: Key, spec: Spec) {
    && IsDesired(d, k)
    && match k
       case ScheduleKey => spec == ScheduleSpec(d.schedule)
       case TargetKey(c, n) => spec == TargetSpec(Lookup(d.targetText, Slot(c, n)))
       case TaskKey(c, n) =>
         && HasId(rows, TargetKey(c, n)) && HasId(rows, ScheduleKey)
         && spec == TaskSpec(Lookup(d.taskText, Slot(c, n)), rows[TargetKey(c, n)].gvmId, rows[ScheduleKey].gvmId)
  }

  predicate UpToDate(d: Desired, rows: map<Key, Row>, k: Key) {
    HasId(rows, k) && rows[k].state == Applied && Wants(d, rows, k, rows[k].hash)
  }

  // The target of this task's slot exists but has not been applied in its desired form.
  predicate NeedsRelease(d: Desired, rows: map<Key, Row>, k: Key) {
    && k.TaskKey? && IsDesired(d, k)
    && HasId(rows, TargetKey(k.cls, k.sequence))
    && !UpToDate(d, rows, TargetKey(k.cls, k.sequence))
  }

  // A desired task that this run removes before it creates it again.
  predicate Doomed(s: State, d: Desired, key: Key) {
    key.TaskKey? && key in s.rows && (NeedsRelease(d, s.rows, key) || !Wants(d, s.rows, key, s.rows[key].hash))
  }

  predicate NoLive(s: State, key: Key) {
    forall i :: i in s.objects ==> s.objects[i].comment != Marked(key)
  }

  // ---- Effects of single calls ----

  function Faulted(s: State): State { s.(faults := s.faults + 1) }

  function Upserted(s: State, k: Key, row: Row): State { s.(rows := s.rows[k := row]) }

  function RowGone(s: State, k: Key): State { s.(rows := s.rows - {k}) }

  predicate LiveTask(o: Object) {
    o.comment.Marked? && o.comment.key.TaskKey?
  }

  predicate Referenced(s: State, id: Id) {
    exists i :: i in s.objects && LiveTask(s.objects[i]) && s.objects[i].spec.TaskSpec? && s.objects[i].spec.targetId == id
  }

  predicate TasksLeft(s: State) {
    exists i :: i in s.objects && LiveTask(s.objects[i])
  }

  predicate Owns(o: Object, k: Key) {
    o.comment.Marked? && Matches(o.comment.key, k)
  }

  function Logged(s: State, op: Op, k: Key, id: Id): seq<Write> {
    s.log + [Write(op, k, id in s.objects && Owns(s.objects[id], k), Referenced(s, id), TasksLeft(s))]
  }

  function Made(s: State, k: Key, spec: Spec): State {
    s.(objects := s.objects[s.nextId := Object(k.Kind(), Marked(k), spec, true)],
       nextId := s.nextId + 1,
       log := s.log + [Write(Created, k, true, false, TasksLeft(s))])
  }

  function Changed(s: State, k: Key, id: Id, spec: Spec): State
    requires id in s.objects
  {
    s.(objects := s.objects[id := s.objects[id].(comment := Marked(k), spec := spec, retained := true)],
       log := Logged(s, Modified, k, id))
  }

  function Trashed(s: State, k: Key, id: Id): State {
    s.(objects := s.objects - {id}, log := Logged(s, Deleted, k, id))
  }

  function RetentionSet(s: State, k: Key, id: Id): State
    requires id in s.objects
  {
    if s.objects[id].retained then s
    else s.(objects := s.objects[id := s.objects[id].(retained := true)], log := Logged(s, Retained, k, id))
  }

  // ---- The invariant of an epoch with desired state d ----

  ghost predicate IdsBounded(s: State) {
    && s.nextId > 0
    && (forall i :: i in s.objects ==> 0 < i < s.nextId)
    && (forall k :: k in s.rows ==> s.rows[k].gvmId < s.nextId)
  }

  // Every live managed object belongs to a row that carries its id or no id yet.
  ghost predicate MarkedHaveRows(s: State) {
    forall i :: i in s.objects && s.objects[i].comment.Marked? ==>
      var k := s.objects[i].comment.key;
      && k in s.rows && (s.rows[k].gvmId == NO_ID || s.rows[k].gvmId == i)
      && s.objects[i].kind == k.Kind()
  }

  // No resource key has two live objects.
  ghost predicate OneLive(s: State) {
    forall i, j | i in s.objects && j in s.objects && s.objects[i].comment.Marked? && s.objects[j].comment.Marked? ::
      s.objects[i].comment == s.objects[j].comment ==> i == j
  }

  ghost predicate RowsOwn(s: State) {
    forall k :: k in s.rows && s.rows[k].gvmId in s.objects ==> s.objects[s.rows[k].gvmId].comment == Marked(k)
  }

  // A row without an id is completed by the next run, or has nothing live to lose.
  ghost predicate EmptyIdsHarmless(s: State, d: Desired) {
    forall k :: k in s.rows && s.rows[k].gvmId == NO_ID ==> s.rows[k].state != Applied && (IsDesired(d, k) || NoLive(s, k))
  }

  ghost predicate TasksBacked(s: State) {
    forall k :: k in s.rows && k.TaskKey? ==> HasId(s.rows, TargetKey(k.cls, k.sequence)) && HasId(s.rows, ScheduleKey)
  }

  // A live managed task refers to the target of its own slot.
  ghost predicate TasksRefer(s: State) {
    forall i :: i in s.objects && LiveTask(s.objects[i]) ==>
      var k := s.objects[i].comment.key;
      && HasId(s.rows, TargetKey(k.cls, k.sequence))
      && s.objects[i].spec.TaskSpec? && s.objects[i].spec.targetId == s.rows[TargetKey(k.cls, k.sequence)].gvmId
  }

  // The row of a dead object that the run would take for current: every look at it fails.
  predicate DeadTask(s: State, d: Desired, k: Key) {
    && k.TaskKey? && UpToDate(d, s.rows, k) && !NeedsRelease(d, s.rows, k)
    && s.rows[k].gvmId !in s.objects
  }

  ghost predicate NoneDead(s: State, d: Desired) {
    forall k :: k in s.rows ==> !DeadTask(s, d, k)
  }

  ghost predicate DeadSame(a: State, b: State, d: Desired) {
    forall k :: DeadTask(a, d, k) <==> DeadTask(b, d, k)
  }

  // A desired row with a dead object is a task: one that the next run removes again, or a dead one.
  ghost predicate NoDangling(s: State, d: Desired) {
    forall k :: k in s.rows && IsDesired(d, k) && s.rows[k].gvmId != NO_ID && s.rows[k].gvmId !in s.objects ==>
      Doomed(s, d, k) || DeadTask(s, d, k)
  }

  // A row that passes for current, and is not about to be removed, tells its object's value.
  ghost predicate AppliedTrue(s: State, d: Desired) {
    forall k :: k in s.rows && UpToDate(d, s.rows, k) && s.rows[k].gvmId in s.objects && !Doomed(s, d, k) ==>
      s.objects[s.rows[k].gvmId].spec == s.rows[k].hash
  }

  // `u` bounds the keys in play; their markers can be told apart.
  ghost predicate KeysIn(s: State, d: Desired, u: set<Key>) {
    && ClashFree(u) && s.rows.Keys <= u && (forall k :: IsDesired(d, k) ==> k in u)
  }

  // Rows and live objects fit together, whatever is desired.
  ghost predicate Tied(s: State) {
    && IdsBounded(s) && MarkedHaveRows(s) && OneLive(s) && RowsOwn(s) && TasksBacked(s) && TasksRefer(s)
  }

  // What is left over from stopped runs will be completed, and applied rows tell the truth.
  ghost predicate Pending(s: State, d: Desired) {
    EmptyIdsHarmless(s, d) && NoDangling(s, d) && AppliedTrue(s, d)
  }

  ghost predicate Inv(s: State, d: Desired, u: set<Key>) {
    KeysIn(s, d, u) && Tied(s) && Pending(s, d)
  }

  // ---- Goals ----

  ghost predicate Settled(s: State, d: Desired, k: Key) {
    && UpToDate(d, s.rows, k)
    && s.rows[k].gvmId in s.objects
    && var o := s.objects[s.rows[k].gvmId];
       o.comment == Marked(k) && o.kind == k.Kind() && o.spec == s.rows[k].hash && (k.TaskKey? ==> o.retained)
  }

  // Exactly the desired keys, each applied with its desired value on a live owned object.
  ghost predicate Converged(s: State, d: Desired) {
    && s.rows.Keys == DesiredKeys(d)
    && forall k :: k in s.rows ==> Settled(s, d, k)
  }

  ghost predicate Justified(w: Write) {
    && w.owned
    && (w.key.TargetKey? && (w.op == Modified || w.op == Deleted) ==> !w.referenced)
    && (w.key == ScheduleKey && w.op == Deleted ==> !w.tasksLeft)
  }

  ghost predicate LogGrows(a: State, b: State) {
    && |a.log| <= |b.log| && b.log[..|a.log|] == a.log
    && forall j :: |a.log| <= j < |b.log| ==> Justified(b.log[j])
  }

  // Objects without a marker never change, appear or vanish.
  ghost predicate UnmarkedKept(a: State, b: State) {
    forall i :: (i in a.objects && a.objects[i].comment == Unmarked) || (i in b.objects && b.objects[i].comment == Unmarked) ==>
      i in a.objects && i in b.objects && a.objects[i] == b.objects[i]
  }

  // Only the row and objects of one key may differ.
  ghost predicate OthersKept(a: State, b: State, key: Key) {
    && (forall k :: k != key ==> (k in a.rows <==> k in b.rows) && (k in a.rows ==> a.rows[k] == b.rows[k]))
    && (forall i :: (i in a.objects && a.objects[i].comment != Marked(key)) || (i in b.objects && b.objects[i].comment != Marked(key)) ==>
          i in a.objects && i in b.objects && a.objects[i] == b.objects[i])
  }

  ghost predicate Safe(a: State, b: State) {
    LogGrows(a, b) && UnmarkedKept(a, b) && a.faults <= b.faults
  }

  lemma SafeTransitive(a: State, b: State, c: State)
    requires Safe(a, b) && Safe(b, c)
    ensures Safe(a, c)
  {
    assert c.log[..|a.log|] == c.log[..|b.log|][..|a.log|];
    forall j | |a.log| <= j < |c.log| ensures Justified(c.log[j]) {
      if j < |b.log| { assert c.log[j] == c.log[..|b.log|][j]; }
    }
  }

  lemma OthersTransitive(a: State, b: State, c: State, key: Key)
    requires OthersKept(a, b, key) && OthersKept(b, c, key)
    ensures OthersKept(a, c, key)
  {
  }

  // ---- Each call keeps the invariant ----

  lemma FaultKeeps(s: State, d: Desired, u: set<Key>)
    requires Inv(s, d, u)
    ensures Inv(Faulted(s), d, u) && Safe(s, Faulted(s))
    ensures (forall key :: OthersKept(s, Faulted(s), key)) && DeadSame(s, Faulted(s), d)
  {
    hide ClashFree;
  }

  // Rows of tasks that depend on the given key.
  ghost predicate NoTaskFor(s: State, key: Key) {
    && (key.TargetKey? ==> TaskKey(key.cls, key.sequence) !in s.rows)
    && (key == ScheduleKey ==> forall k :: k in s.rows ==> !k.TaskKey?)
  }

  // A row write that keeps the row's id, records a live object's id, or opens an empty row.
  ghost predicate RowWrite(s: State, key: Key, row: Row) {
    && row.gvmId < s.nextId
    && (key in s.rows ==> s.rows[key].gvmId == row.gvmId || s.rows[key].gvmId == NO_ID)
    && (key in s.rows && row.gvmId != s.rows[key].gvmId ==>
          || (row.gvmId in s.objects && s.objects[row.gvmId].comment == Marked(key))
          || (key.TaskKey? && row.gvmId !in s.objects && NoLive(s, key)))
    && (key !in s.rows ==>
          && row.gvmId == NO_ID && NoLive(s, key)
          && (key.TaskKey? ==> HasId(s.rows, TargetKey(key.cls, key.sequence)) && HasId(s.rows, ScheduleKey)))
  }

  lemma RowWriteTied(s: State, key: Key, row: Row)
    requires Tied(s) && RowWrite(s, key, row)
    ensures Tied(Upserted(s, key, row))
    ensures Safe(s, Upserted(s, key, row)) && OthersKept(s, Upserted(s, key, row), key)
  {
    RowWriteOwned(s, key, row);
    RowWriteBacked(s, key, row);
    hide RowWrite, MarkedHaveRows, RowsOwn, TasksBacked, TasksRefer;
  }

  lemma RowWriteOwned(s: State, key: Key, row: Row)
    requires Tied(s) && RowWrite(s, key, row)
    ensures IdsBounded(Upserted(s, key, row)) && MarkedHaveRows(Upserted(s, key, row)) && RowsOwn(Upserted(s, key, row))
  {
    hide TasksBacked, TasksRefer;
  }

  lemma RowWriteBacked(s: State, key: Key, row: Row)
    requires Tied(s) && RowWrite(s, key, row)
    ensures TasksBacked(Upserted(s, key, row)) && TasksRefer(Upserted(s, key, row))
  {
    hide OneLive, MarkedHaveRows, RowsOwn;
  }

  // A task row's wanted value is fixed through the ids of its target and the schedule, which no
  // row write changes while the task row exists.
  lemma WantsStable(s: State, d: Desired, key: Key, row: Row, k: Key, spec: Spec)
    requires Tied(s) && RowWrite(s, key, row) && k in s.rows
    ensures Wants(d, Upserted(s, key, row).rows, k, spec) <==> Wants(d, s.rows, k, spec)
  {
    hide MarkedHaveRows, OneLive, RowsOwn, TasksRefer, IdsBounded;
  }

  // What a row write may say for the invariant to survive it.
  ghost predicate RowSays(s: State, d: Desired, key: Key, row: Row) {
    && (row.gvmId == NO_ID ==> row.state != Applied && (IsDesired(d, key) || NoLive(s, key)))
    && (row.state == Applied ==>
          row.gvmId in s.objects && s.objects[row.gvmId].spec == row.hash && (key.TargetKey? ==> NoTaskFor(s, key)))
    && (row.gvmId != NO_ID && row.gvmId !in s.objects && IsDesired(d, key) ==>
          key in s.rows && row.hash == s.rows[key].hash && Doomed(s, d, key))
    && (row.gvmId !in s.objects || !DeadTask(s, d, key))
    && (key.TargetKey? ==> NoTaskFor(s, key))
  }

  // Dead tasks stay dead, and no other task dies.
  lemma RowWriteDead(s: State, d: Desired, key: Key, row: Row)
    requires Tied(s) && RowWrite(s, key, row) && RowSays(s, d, key, row)
    ensures DeadSame(s, Upserted(s, key, row), d)
  {
    var t := Upserted(s, key, row);
    forall k, spec | k in s.rows ensures Wants(d, t.rows, k, spec) <==> Wants(d, s.rows, k, spec) {
      WantsStable(s, d, key, row, k, spec);
    }
    hide Tied, MarkedHaveRows, OneLive, RowsOwn, TasksRefer, IdsBounded;
  }

  lemma RowWriteDangling(s: State, d: Desired, key: Key, row: Row)
    requires Tied(s) && NoDangling(s, d) && RowWrite(s, key, row) && RowSays(s, d, key, row)
    ensures NoDangling(Upserted(s, key, row), d)
  {
    RowWriteDead(s, d, key, row);
    var t := Upserted(s, key, row);
    forall k | k in t.rows && IsDesired(d, k) && t.rows[k].gvmId != NO_ID && t.rows[k].gvmId !in t.objects
      ensures Doomed(t, d, k) || DeadTask(t, d, k)
    {
      assert k in s.rows && s.rows[k].hash == t.rows[k].hash;
      assert Doomed(s, d, k) || DeadTask(s, d, k);
      WantsStable(s, d, key, row, k, t.rows[k].hash);
      hide Tied, DeadTask;
    }
  }

  lemma RowWriteApplied(s: State, d: Desired, key: Key, row: Row)
    requires Tied(s) && AppliedTrue(s, d) && RowWrite(s, key, row) && RowSays(s, d, key, row)
    ensures AppliedTrue(Upserted(s, key, row), d)
  {
    var t := Upserted(s, key, row);
    forall k | k in s.rows ensures Wants(d, t.rows, k, s.rows[k].hash) <==> Wants(d, s.rows, k, s.rows[k].hash) {
      WantsStable(s, d, key, row, k, s.rows[k].hash);
    }
    hide Tied, RowWrite, Wants;
  }

  lemma RowWritePending(s: State, d: Desired, key: Key, row: Row)
    requires Tied(s) && Pending(s, d) && RowWrite(s, key, row) && RowSays(s, d, key, row)
    ensures Pending(Upserted(s, key, row), d) && DeadSame(s, Upserted(s, key, row), d)
  {
    RowWriteDead(s, d, key, row);
    RowWriteDangling(s, d, key, row);
    RowWriteApplied(s, d, key, row);
    hide Tied, RowWrite, NoDangling, AppliedTrue, DeadSame;
  }

  // The intent row, written before the remote create.
  lemma IntentKeeps(s: State, d: Desired, u: set<Key>, key: Key, hash: Spec)
    requires Inv(s, d, u) && key !in s.rows && Wants(d, s.rows, key, hash) && (key.TargetKey? ==> NoTaskFor(s, key))
    ensures var t := Upserted(s, key, Row(NO_ID, hash, Creating));
            Inv(t, d, u) && Safe(s, t) && OthersKept(s, t, key) && NoLive(t, key) && Wants(d, t.rows, key, hash)
            && DeadSame(s, t, d)
  {
    hide ClashFree, Pending, OneLive, RowsOwn, TasksRefer;
    var row := Row(NO_ID, hash, Creating);
    assert NoLive(s, key);
    RowWriteTied(s, key, row);
    RowWritePending(s, d, key, row);
  }

  // The remote create, whether or not its reply arrives.
  lemma CreateKeeps(s: State, d: Desired, u: set<Key>, key: Key, hash: Spec)
    requires Inv(s, d, u) && key in s.rows && s.rows[key].gvmId == NO_ID && NoLive(s, key)
    requires Wants(d, s.rows, key, hash)
    ensures var t := Made(s, key, hash);
            && Inv(t, d, u) && Safe(s, t) && OthersKept(s, t, key)
            && t.objects[s.nextId].comment == Marked(key) && t.objects[s.nextId].spec == hash
            && t.objects[s.nextId].retained && DeadSame(s, t, d)
  {
    hide ClashFree, Pending, MarkedHaveRows, OneLive, RowsOwn, TasksBacked, TasksRefer;
    MadeTied(s, d, key, hash);
    MadePending(s, d, key, hash);
  }

  lemma MadeTied(s: State, d: Desired, key: Key, hash: Spec)
    requires Tied(s) && key in s.rows && s.rows[key].gvmId == NO_ID && NoLive(s, key) && Wants(d, s.rows, key, hash)
    ensures Tied(Made(s, key, hash))
  {
  }

  lemma MadePending(s: State, d: Desired, key: Key, hash: Spec)
    requires IdsBounded(s) && Pending(s, d) && IsDesired(d, key)
    ensures Pending(Made(s, key, hash), d) && DeadSame(s, Made(s, key, hash), d)
  {
  }

  // The checkpoint after a create or modify.
  lemma AppliedKeeps(s: State, d: Desired, u: set<Key>, key: Key, id: Id, hash: Spec)
    requires Inv(s, d, u) && key in s.rows && (s.rows[key].gvmId == NO_ID || s.rows[key].gvmId == id)
    requires id in s.objects && s.objects[id].comment == Marked(key) && s.objects[id].spec == hash
    requires Wants(d, s.rows, key, hash) && (key.TargetKey? ==> NoTaskFor(s, key))
    ensures var t := Upserted(s, key, Row(id, hash, Applied));
            && Inv(t, d, u) && Safe(s, t) && OthersKept(s, t, key) && UpToDate(d, t.rows, key) && DeadSame(s, t, d)
            && (s.objects[id].retained ==> Settled(t, d, key))
  {
    hide ClashFree, Pending, OneLive, RowsOwn, TasksRefer;
    var row := Row(id, hash, Applied);
    RowWriteTied(s, key, row);
    RowWritePending(s, d, key, row);
    WantsStable(s, d, key, row, key, hash);
  }

  // A failed call is recorded in the row; its id may be one just recovered.
  lemma ErrorKeeps(s: State, d: Desired, u: set<Key>, key: Key, id: Id)
    requires Inv(s, d, u) && key in s.rows
    requires id < s.nextId
    requires || s.rows[key].gvmId == id
             || (s.rows[key].gvmId == NO_ID && id in s.objects && s.objects[id].comment == Marked(key))
             || (s.rows[key].gvmId == NO_ID && id !in s.objects && NoLive(s, key) && Doomed(s, d, key))
    requires id == NO_ID || id in s.objects || !IsDesired(d, key) || Doomed(s, d, key)
    requires key.TargetKey? ==> NoTaskFor(s, key)
    ensures var t := Upserted(s, key, Row(id, s.rows[key].hash, Error));
            Inv(t, d, u) && Safe(s, t) && OthersKept(s, t, key) && DeadSame(s, t, d)
  {
    hide ClashFree, NoDangling, AppliedTrue, OneLive, RowsOwn, TasksRefer;
    var row := Row(id, s.rows[key].hash, Error);
    RowWriteTied(s, key, row);
    RowWritePending(s, d, key, row);
  }

  // A failed create leaves the row without an id.
  lemma CreateFailedKeeps(s: State, d: Desired, u: set<Key>, key: Key, hash: Spec)
    requires Inv(s, d, u) && key in s.rows && s.rows[key].gvmId == NO_ID && (key.TargetKey? ==> NoTaskFor(s, key))
    ensures var t := Upserted(s, key, Row(NO_ID, hash, Error));
            Inv(t, d, u) && Safe(s, t) && OthersKept(s, t, key) && DeadSame(s, t, d)
  {
    hide ClashFree, NoDangling, AppliedTrue, OneLive, RowsOwn, TasksRefer;
    var row := Row(NO_ID, hash, Error);
    RowWriteTied(s, key, row);
    RowWritePending(s, d, key, row);
  }

  lemma ModifyKeeps(s: State, d: Desired, u: set<Key>, key: Key, id: Id, spec: Spec)
    requires Inv(s, d, u) && key in s.rows && (s.rows[key].gvmId == NO_ID || s.rows[key].gvmId == id)
    requires id in s.objects && s.objects[id].comment == Marked(key)
    requires Wants(d, s.rows, key, spec) && !UpToDate(d, s.rows, key)
    requires key.TargetKey? ==> NoTaskFor(s, key)
    ensures var t := Changed(s, key, id, spec);
            && Inv(t, d, u) && Safe(s, t) && OthersKept(s, t, key)
            && t.objects[id].comment == Marked(key) && t.objects[id].spec == spec && t.objects[id].retained && DeadSame(s, t, d)
  {
    hide ClashFree, Matches, Pending, MarkedHaveRows, OneLive, TasksRefer;
    OwnMarkerMatches(key);
    if key.TargetKey? { NotReferenced(s, key, id); }
    ChangeTied(s, d, key, id, spec);
    ChangePending(s, d, key, id, spec);
  }

  lemma ChangeTied(s: State, d: Desired, key: Key, id: Id, spec: Spec)
    requires Tied(s) && id in s.objects && s.objects[id].comment == Marked(key) && Wants(d, s.rows, key, spec)
    ensures Tied(Changed(s, key, id, spec))
  {
  }

  lemma ChangePending(s: State, d: Desired, key: Key, id: Id, spec: Spec)
    requires RowsOwn(s) && Pending(s, d) && id in s.objects && s.objects[id].comment == Marked(key)
    requires !UpToDate(d, s.rows, key)
    ensures Pending(Changed(s, key, id, spec), d) && DeadSame(s, Changed(s, key, id, spec), d)
  {
  }

  lemma OwnMarkerMatches(key: Key)
    ensures Matches(key, key)
  {
  }

  // Without a task row for its slot, nothing live refers to a target.
  lemma NotReferenced(s: State, key: Key, id: Id)
    requires Tied(s) && id in s.objects && s.objects[id].comment == Marked(key)
    requires NoTaskFor(s, key)
    ensures key.TargetKey? ==> !Referenced(s, id)
    ensures key == ScheduleKey ==> !TasksLeft(s)
  {
  }

  // Trashing an object: of an unwanted key, or a task about to be replaced.
  lemma TrashKeeps(s: State, d: Desired, u: set<Key>, key: Key, id: Id)
    requires Inv(s, d, u) && key in s.rows && (s.rows[key].gvmId == NO_ID || s.rows[key].gvmId == id)
    requires id in s.objects && s.objects[id].comment == Marked(key)
    requires NoTaskFor(s, key)
    requires IsDesired(d, key) ==> Doomed(s, d, key)
    ensures var t := Trashed(s, key, id);
            Inv(t, d, u) && Safe(s, t) && OthersKept(s, t, key) && NoLive(t, key) && DeadSame(s, t, d)
  {
    hide ClashFree, Matches, Pending, OneLive, TasksRefer, TasksBacked;
    OwnMarkerMatches(key);
    NotReferenced(s, key, id);
    TrashTied(s, key, id);
    TrashPending(s, d, key, id);
  }

  lemma TrashTied(s: State, key: Key, id: Id)
    requires Tied(s) && id in s.objects && s.objects[id].comment == Marked(key)
    ensures Tied(Trashed(s, key, id)) && NoLive(Trashed(s, key, id), key)
  {
  }

  lemma TrashPending(s: State, d: Desired, key: Key, id: Id)
    requires RowsOwn(s) && Pending(s, d) && id in s.objects && s.objects[id].comment == Marked(key) && key in s.rows
    requires IsDesired(d, key) ==> Doomed(s, d, key)
    ensures Pending(Trashed(s, key, id), d) && DeadSame(s, Trashed(s, key, id), d)
  {
  }

  lemma RowGoneKeeps(s: State, d: Desired, u: set<Key>, key: Key)
    requires Inv(s, d, u) && key in s.rows && NoLive(s, key) && NoTaskFor(s, key)
    requires IsDesired(d, key) ==> Doomed(s, d, key)
    ensures var t := RowGone(s, key);
            Inv(t, d, u) && Safe(s, t) && OthersKept(s, t, key) && DeadSame(s, t, d)
  {
    hide ClashFree, Pending, MarkedHaveRows, OneLive, RowsOwn, TasksBacked, TasksRefer;
    RowGoneTied(s, key);
    RowGonePending(s, d, key);
  }

  lemma RowGoneTied(s: State, key: Key)
    requires Tied(s) && key in s.rows && NoLive(s, key) && NoTaskFor(s, key)
    ensures Tied(RowGone(s, key))
  {
  }

  lemma RowGonePending(s: State, d: Desired, key: Key)
    requires TasksBacked(s) && Pending(s, d) && key in s.rows && NoTaskFor(s, key)
    requires IsDesired(d, key) ==> Doomed(s, d, key)
    ensures Pending(RowGone(s, key), d) && DeadSame(s, RowGone(s, key), d)
  {
    var t := RowGone(s, key);
    assert forall k, spec :: k in t.rows ==> (Wants(d, t.rows, k, spec) <==> Wants(d, s.rows, k, spec));
  }

  lemma RetentionKeeps(s: State, d: Desired, u: set<Key>, key: Key, id: Id)
    requires Inv(s, d, u) && id in s.objects && s.objects[id].comment == Marked(key) && key.TaskKey?
    ensures var t := RetentionSet(s, key, id);
            && Inv(t, d, u) && Safe(s, t) && OthersKept(s, t, key) && t.rows == s.rows
            && id in t.objects && t.objects[id] == s.objects[id].(retained := true) && DeadSame(s, t, d)
  {
    hide ClashFree, Matches, Pending, MarkedHaveRows, OneLive, RowsOwn, TasksBacked, TasksRefer;
    OwnMarkerMatches(key);
    RetentionTied(s, key, id);
    RetentionPending(s, d, key, id);
  }

  lemma RetentionTied(s: State, key: Key, id: Id)
    requires Tied(s) && id in s.objects
    ensures Tied(RetentionSet(s, key, id))
  {
  }

  lemma RetentionPending(s: State, d: Desired, key: Key, id: Id)
    requires Pending(s, d) && id in s.objects
    ensures Pending(RetentionSet(s, key, id), d) && DeadSame(s, RetentionSet(s, key, id), d)
  {
  }

  // Among keys whose markers do not clash, the substring test finds only the key's own object.
  lemma OwnsIsExact(s: State, d: Desired, u: set<Key>, key: Key, id: Id)
    requires Inv(s, d, u) && key in u && id in s.objects
    ensures Owns(s.objects[id], key) <==> s.objects[id].comment == Marked(key)
  {
    hide Matches, NoDangling, AppliedTrue, TasksRefer;
    OwnMarkerMatches(key);
  }

  // Work on one key leaves another key settled when its wanted value does not change.
  lemma SettledStays(a: State, b: State, d: Desired, k: Key, key: Key)
    requires Settled(a, d, k) && OthersKept(a, b, key) && k != key
    requires k.TaskKey? && (key == ScheduleKey || key == TargetKey(k.cls, k.sequence)) ==>
      HasId(b.rows, key) && b.rows[key].gvmId == a.rows[key].gvmId
    ensures Settled(b, d, k)
  {
  }

  /** Before the first run nothing is managed, and the invariant holds. */
  lemma InvAtStart(s: State, d: Desired, u: set<Key>)
    requires s.rows == map[] && IdsBounded(s) && ClashFree(u) && (forall k :: IsDesired(d, k) ==> k in u)
    requires forall i :: i in s.objects ==> s.objects[i].comment == Unmarked
    ensures Inv(s, d, u) && NoneDead(s, d)
  {
  }

  // The object a row names is there, marked as the row's, and carries this value.
  ghost predicate Carries(s: State, k: Key, kind: Kind, spec: Spec) {
    && k in s.rows && s.rows[k].gvmId in s.objects
    && var o := s.objects[s.rows[k].gvmId]; o.comment == Marked(k) && o.kind == kind && o.spec == spec
  }

  /** What a completed run leaves at Greenbone: the schedule, and for each slot its target and a task over exactly these
      two with its retention preference, in their desired form; no other object bears a marker. */
  lemma ConvergedMeans(s: State, d: Desired, u: set<Key>)
    requires Inv(s, d, u) && Converged(s, d) && d.Active?
    ensures Carries(s, ScheduleKey, Schedule, ScheduleSpec(d.schedule))
    ensures forall slot :: slot in d.slots ==>
              var target, task := TargetKey(slot.cls, slot.sequence), TaskKey(slot.cls, slot.sequence);
              && Carries(s, target, TargetKind, TargetSpec(Lookup(d.targetText, slot)))
              && Carries(s, task, TaskKind, TaskSpec(Lookup(d.taskText, slot), s.rows[target].gvmId, s.rows[ScheduleKey].gvmId))
              && s.objects[s.rows[task].gvmId].retained
    ensures forall i :: i in s.objects && s.objects[i].comment.Marked? ==>
              var k := s.objects[i].comment.key;
              k in s.rows && s.rows[k].gvmId == i && (k == ScheduleKey || Slot(k.cls, k.sequence) in d.slots)
  {
    hide ClashFree, Pending;
    assert ScheduleKey in DesiredKeys(d);
    assert Settled(s, d, ScheduleKey);
    forall slot | slot in d.slots
      ensures TargetKey(slot.cls, slot.sequence) in s.rows && TaskKey(slot.cls, slot.sequence) in s.rows
    {
      assert TargetOf(slot) in DesiredKeys(d) && TaskOf(slot) in DesiredKeys(d);
    }
    forall i | i in s.objects && s.objects[i].comment.Marked?
      ensures var k := s.objects[i].comment.key;
              k in s.rows && s.rows[k].gvmId == i && (k == ScheduleKey || Slot(k.cls, k.sequence) in d.slots)
    {
      assert Settled(s, d, s.objects[i].comment.key);
    }
  }

  // ---- Changing the desired state before a run has completed ----

  // The row has no id yet, is no longer wanted, and its object is out there: cleanup drops the row unseen.
  predicate Orphans(s: State, next: Desired, k: Key)
    requires k in s.rows
  {
    s.rows[k].gvmId == NO_ID && !IsDesired(next, k) && !NoLive(s, k)
  }

  // The object is gone, and the row is wanted again without being removed first: it passes for current, is
  // looked at in vain on every run, or is created anew beside a reply that may be lost.
  predicate Dangles(s: State, next: Desired, k: Key)
    requires k in s.rows
  {
    IsDesired(next, k) && s.rows[k].gvmId != NO_ID && s.rows[k].gvmId !in s.objects && !Doomed(s, next, k)
  }

  // The object carries another value than its row, and the row's value is wanted again without being removed
  // first: it is never corrected.
  predicate Misleads(s: State, next: Desired, k: Key)
    requires k in s.rows
  {
    && UpToDate(next, s.rows, k) && s.rows[k].gvmId in s.objects && s.objects[s.rows[k].gvmId].spec != s.rows[k].hash
    && !Doomed(s, next, k)
  }

  predicate MayReplace(s: State, next: Desired) {
    forall k :: k in s.rows ==> !Orphans(s, next, k) && !Dangles(s, next, k) && !Misleads(s, next, k)
  }

  /** In the middle of any run, the desired state may be replaced exactly when no row orphans, dangles or
      misleads under the next one: then, and only then, the invariant of the protocol carries over. */
  lemma MayReplaceExactly(s: State, d: Desired, u: set<Key>, next: Desired, v: set<Key>)
    requires Inv(s, d, u) && KeysIn(s, next, v)
    ensures Inv(s, next, v) && NoneDead(s, next) <==> MayReplace(s, next)
  {
    hide ClashFree, Tied;
    forall k | k in s.rows ensures UpToDate(next, s.rows, k) ==> IsDesired(next, k) {
    }
  }

  // Rows at rest, live and carrying what they say, stand in the way of no change.
  lemma RestingRowsAllowEverything(s: State, next: Desired, k: Key)
    requires k in s.rows && s.rows[k].gvmId != NO_ID && s.rows[k].gvmId in s.objects
    requires s.objects[s.rows[k].gvmId].spec == s.rows[k].hash
    ensures !Orphans(s, next, k) && !Dangles(s, next, k) && !Misleads(s, next, k)
  {
  }

  /** A completed run is a valid start for every next desired state, including removal. */
  lemma ConvergedStartsNextEpoch(s: State, d: Desired, u: set<Key>, next: Desired, v: set<Key>)
    requires Inv(s, d, u) && Converged(s, d) && KeysIn(s, next, v)
    ensures Inv(s, next, v) && NoneDead(s, next)
  {
    forall k | k in s.rows ensures !Orphans(s, next, k) && !Dangles(s, next, k) && !Misleads(s, next, k) {
      assert Settled(s, d, k);
      RestingRowsAllowEverything(s, next, k);
    }
    hide Inv, Converged;
    MayReplaceExactly(s, d, u, next, v);
  }

  /** Removal may start exactly when no row without an id has a live object. */
  lemma RemovalMayStart(s: State, d: Desired, u: set<Key>)
    requires Inv(s, d, u)
    ensures Inv(s, Removed, u) <==> forall k :: k in s.rows && s.rows[k].gvmId == NO_ID ==> NoLive(s, k)
  {
    hide Tied, ClashFree;
  }

  // ---- Reaching them ----

  const SLOT: Slot := Slot(PrivateIP, 1)

  function Wanting(schedule: string, target: string, task: string): Desired {
    Active(schedule, [SLOT], map[SLOT := target], map[SLOT := task])
  }

  const KEYS: set<Key> := {ScheduleKey, TargetOf(SLOT), TaskOf(SLOT)}

  const NOTHING: State := State(map[], map[], 1, [], 0)

  lemma KeysClashFree(s: State, schedule: string, target: string, task: string)
    requires s.rows.Keys <= KEYS
    ensures KeysIn(s, Wanting(schedule, target, task), KEYS) && KeysIn(s, Removed, KEYS)
  {
    OneDigitKeys(KEYS);
    forall k | IsDesired(Wanting(schedule, target, task), k) ensures k in KEYS {
      assert k == ScheduleKey || Slot(k.cls, k.sequence) == SLOT;
    }
  }

  // The effects of one create: intent, remote create, checkpoint.
  function Installed(s: State, k: Key, spec: Spec): State {
    Upserted(Made(Upserted(s, k, Row(NO_ID, spec, Creating)), k, spec), k, Row(s.nextId, spec, Applied))
  }

  /** The first create's reply is lost; the customer is removed before the next run. */
  lemma LostCreateThenRemoved(a: string, b: string, c: string)
    ensures var d := Wanting(a, b, c);
            var s := Made(Upserted(NOTHING, ScheduleKey, Row(NO_ID, ScheduleSpec(a), Creating)), ScheduleKey, ScheduleSpec(a));
            Inv(s, d, KEYS) && Orphans(s, Removed, ScheduleKey) && !Inv(s, Removed, KEYS)
  {
    hide ClashFree;
    var d := Wanting(a, b, c);
    KeysClashFree(NOTHING, a, b, c);
    InvAtStart(NOTHING, d, KEYS);
    var intent := Upserted(NOTHING, ScheduleKey, Row(NO_ID, ScheduleSpec(a), Creating));
    IntentKeeps(NOTHING, d, KEYS, ScheduleKey, ScheduleSpec(a));
    CreateKeeps(intent, d, KEYS, ScheduleKey, ScheduleSpec(a));
    var s := Made(intent, ScheduleKey, ScheduleSpec(a));
    assert 1 in s.objects && s.objects[1].comment == Marked(ScheduleKey);
  }

  /** The schedule's modify takes effect, its reply is lost, and the edit is taken back. */
  lemma LostModifyThenReverted(a: string, edited: string, b: string, c: string)
    requires a != edited
    ensures var d, e := Wanting(a, b, c), Wanting(edited, b, c);
            var s := Changed(Installed(NOTHING, ScheduleKey, ScheduleSpec(a)), ScheduleKey, 1, ScheduleSpec(edited));
            Inv(s, e, KEYS) && Misleads(s, d, ScheduleKey) && !Inv(s, d, KEYS)
  {
    hide ClashFree;
    var s := Changed(Installed(NOTHING, ScheduleKey, ScheduleSpec(a)), ScheduleKey, 1, ScheduleSpec(edited));
    KeysClashFree(s, edited, b, c);
    assert s.rows == map[ScheduleKey := Row(1, ScheduleSpec(a), Applied)];
    assert s.objects.Keys == {1} && s.objects[1] == Object(Schedule, Marked(ScheduleKey), ScheduleSpec(edited), true);
  }

  /** The edited task's old object is trashed, the delete of its row is lost, and the edit is taken back. */
  lemma LostRowDeleteThenReverted(a: string, b: string, c: string, edited: string)
    requires c != edited
    ensures var d, e := Wanting(a, b, c), Wanting(a, b, edited);
            var s := Trashed(AllInstalled(a, b, c), TaskOf(SLOT), 3);
            Inv(s, e, KEYS) && NoneDead(s, e) && DeadTask(s, d, TaskOf(SLOT)) && Dangles(s, d, TaskOf(SLOT))
  {
    var all := AllInstalled(a, b, c);
    var s := Trashed(all, TaskOf(SLOT), 3);
    AllInstalledIs(a, b, c);
    KeysClashFree(s, a, b, edited);
    AllInstalledTied(a, b, c);
    TrashTied(all, TaskOf(SLOT), 3);
    hide KeysIn, Tied, AllInstalled, Logged;
    assert s.rows == all.rows && s.objects == all.objects - {3};
    DeadTaskSurvives(s, a, b, c, edited);
  }

  lemma DeadTaskSurvives(s: State, a: string, b: string, c: string, edited: string)
    requires c != edited && s.objects.Keys == {1, 2}
    requires s.rows == map[ScheduleKey := Row(1, ScheduleSpec(a), Applied), TargetOf(SLOT) := Row(2, TargetSpec(b), Applied),
                           TaskOf(SLOT) := Row(3, TaskSpec(c, 2, 1), Applied)]
    requires s.objects[1].spec == ScheduleSpec(a) && s.objects[2].spec == TargetSpec(b)
    ensures Pending(s, Wanting(a, b, edited)) && NoneDead(s, Wanting(a, b, edited))
    ensures DeadTask(s, Wanting(a, b, c), TaskOf(SLOT)) && Dangles(s, Wanting(a, b, c), TaskOf(SLOT))
  {
  }

  lemma AllInstalledTied(a: string, b: string, c: string)
    ensures Tied(AllInstalled(a, b, c))
  {
    AllInstalledIs(a, b, c);
    hide AllInstalled;
  }

  // Everything for one slot installed by a first run.
  function AllInstalled(a: string, b: string, c: string): State {
    Installed(Installed(Installed(NOTHING, ScheduleKey, ScheduleSpec(a)), TargetOf(SLOT), TargetSpec(b)), TaskOf(SLOT), TaskSpec(c, 2, 1))
  }

  lemma AllInstalledIs(a: string, b: string, c: string)
    ensures var s := AllInstalled(a, b, c);
            && s.rows == map[ScheduleKey := Row(1, ScheduleSpec(a), Applied), TargetOf(SLOT) := Row(2, TargetSpec(b), Applied),
                             TaskOf(SLOT) := Row(3, TaskSpec(c, 2, 1), Applied)]
            && s.objects == map[1 := Object(Schedule, Marked(ScheduleKey), ScheduleSpec(a), true),
                                2 := Object(TargetKind, Marked(TargetOf(SLOT)), TargetSpec(b), true),
                                3 := Object(TaskKind, Marked(TaskOf(SLOT)), TaskSpec(c, 2, 1), true)]
            && s.nextId == 4
  {
  }
}
