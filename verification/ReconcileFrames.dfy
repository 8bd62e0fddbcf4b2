/** What work on one key leaves alone, whatever the books say: no invariant is asked for here. */
module ReconcileFrames {
  import opened Markers
  import opened ReconcileState

  // Ids are handed out in order and none is empty.
  ghost predicate Fresh(s: State) {
    s.nextId > 0 && forall i :: i in s.objects ==> 0 < i < s.nextId
  }

  // Other rows, and objects whose comment the key's marker does not occur in, stay as they were. What changed
  // bears the key's marker, or the comment it had.
  ghost predicate Beside(a: State, b: State, key: Key) {
    && Fresh(b) && a.nextId <= b.nextId
    && (forall k :: k != key ==> (k in a.rows <==> k in b.rows) && (k in a.rows ==> a.rows[k] == b.rows[k]))
    && (forall i :: i in a.objects && !Owns(a.objects[i], key) ==> i in b.objects && b.objects[i] == a.objects[i])
    && (forall i :: i in b.objects ==> BesideAt(a, b, key, i))
  }

  ghost predicate BesideAt(a: State, b: State, key: Key, i: Id)
    requires i in b.objects
  {
    if i in a.objects then
      b.objects[i] == a.objects[i]
      || (Owns(a.objects[i], key) && (b.objects[i].comment == Marked(key) || b.objects[i].comment == a.objects[i].comment))
    else a.nextId <= i && b.objects[i].comment == Marked(key)
  }

  lemma BesideReflexive(s: State, key: Key)
    requires Fresh(s)
    ensures Beside(s, s, key)
  {
  }

  lemma BesideTransitive(a: State, b: State, c: State, key: Key)
    requires Beside(a, b, key) && Beside(b, c, key)
    ensures Beside(a, c, key)
  {
    hide Owns;
    OwnMarkerOwned(key);
    forall i | i in c.objects ensures BesideAt(a, c, key, i) {
      assert BesideAt(b, c, key, i);
      if i in b.objects {
        assert BesideAt(a, b, key, i);
      }
    }
  }

  lemma OwnMarkerOwned(key: Key)
    ensures forall o: Object :: o.comment == Marked(key) ==> Owns(o, key)
  {
    OwnMarkerMatches(key);
  }

  lemma FaultedBeside(s: State, key: Key)
    requires Fresh(s)
    ensures Beside(s, Faulted(s), key)
  {
  }

  lemma UpsertedBeside(s: State, key: Key, row: Row)
    requires Fresh(s)
    ensures Beside(s, Upserted(s, key, row), key) && Beside(s, RowGone(s, key), key)
  {
  }

  lemma MadeBeside(s: State, key: Key, spec: Spec)
    requires Fresh(s)
    ensures Beside(s, Made(s, key, spec), key)
  {
  }

  lemma OwnedBeside(s: State, key: Key, id: Id, spec: Spec)
    requires Fresh(s) && id in s.objects && Owns(s.objects[id], key)
    ensures Beside(s, Changed(s, key, id, spec), key) && Beside(s, Trashed(s, key, id), key) && Beside(s, RetentionSet(s, key, id), key)
  {
    hide Matches;
  }

  // ---- Among keys that can be told apart ----

  // The keys in play, desired or on a row or in a marker, have markers that do not clash.
  ghost predicate Frame(s: State, d: Desired, u: set<Key>) {
    && KeysIn(s, d, u) && Fresh(s)
    && forall i :: i in s.objects && s.objects[i].comment.Marked? ==> s.objects[i].comment.key in u
  }

  // One key's row and objects are as they were.
  ghost predicate Same(a: State, b: State, k: Key) {
    (k in a.rows <==> k in b.rows) && (k in a.rows ==> a.rows[k] == b.rows[k]) && SameObjects(a, b, k)
  }

  ghost predicate SameObjects(a: State, b: State, k: Key) {
    && (forall i :: i in a.objects && a.objects[i].comment == Marked(k) ==> i in b.objects && b.objects[i] == a.objects[i])
    && (forall i :: i in b.objects && b.objects[i].comment == Marked(k) ==> i in a.objects && b.objects[i] == a.objects[i])
  }

  // An object that is gone stays gone.
  ghost predicate NoneReturns(a: State, b: State) {
    a.nextId <= b.nextId && forall i :: i < a.nextId && i in b.objects ==> i in a.objects
  }

  // Tied books and keys that do not clash make a frame.
  lemma TiedFrames(s: State, d: Desired, u: set<Key>)
    requires KeysIn(s, d, u) && Tied(s)
    ensures Frame(s, d, u)
  {
    hide ClashFree;
  }

  lemma BesideSame(a: State, b: State, d: Desired, u: set<Key>, key: Key)
    requires Frame(a, d, u) && Beside(a, b, key) && key in u
    ensures Frame(b, d, u) && NoneReturns(a, b)
    ensures forall k :: k in u && k != key ==> Same(a, b, k)
  {
    forall i | i in b.objects ensures b.objects[i].comment.Marked? ==> b.objects[i].comment.key in u {
      assert BesideAt(a, b, key, i);
    }
    forall i | i in a.objects ensures Owns(a.objects[i], key) ==> a.objects[i].comment == Marked(key) {
      hide Matches;
    }
    hide Owns, ClashFree;
    forall k | k in u && k != key ensures Same(a, b, k) {
      forall i | i in b.objects && b.objects[i].comment == Marked(k) ensures i in a.objects && b.objects[i] == a.objects[i] {
        assert BesideAt(a, b, key, i);
      }
    }
  }

  // ---- What rows tell ----

  // A row that says applied tells the value of its object, if that is there.
  ghost predicate TrueAt(s: State, k: Key) {
    k in s.rows && s.rows[k].state == Applied && s.rows[k].gvmId in s.objects ==> s.objects[s.rows[k].gvmId].spec == s.rows[k].hash
  }

  ghost predicate RowsTrue(s: State) {
    forall k :: TrueAt(s, k)
  }

  // The lists name the keys whose write to Greenbone came back with an error. At most one was added, and its row is in
  // error: no value passes for current there.
  ghost predicate ErrorShown(was: seq<Key>, now: seq<Key>, rows: map<Key, Row>) {
    || now == was
    || (|now| == |was| + 1 && now[..|was|] == was && now[|was|] in rows && rows[now[|was|]].state == Error)
  }

  // Work on one key: an error is its own and shows in its row, and a row that told the truth still does.
  ghost predicate Accounted(was: seq<Key>, now: seq<Key>, a: State, b: State, key: Key) {
    && (now == was || (now == was + [key] && key in b.rows && b.rows[key].state == Error))
    && (TrueAt(a, key) ==> TrueAt(b, key))
  }

  lemma AccountedShown(was: seq<Key>, now: seq<Key>, a: State, b: State, key: Key)
    requires Accounted(was, now, a, b, key)
    ensures ErrorShown(was, now, b.rows)
  {
  }

  lemma NothingAccounted(was: seq<Key>, s: State, key: Key)
    ensures Accounted(was, was, s, s, key)
  {
  }

  lemma ErrorAccounted(was: seq<Key>, a: State, b: State, key: Key)
    requires key in b.rows && b.rows[key].state == Error
    ensures Accounted(was, was + [key], a, b, key)
  {
  }

  // The row as it was or gone, and no object with another value.
  lemma QuietAccounted(was: seq<Key>, a: State, b: State, key: Key)
    requires b.rows == a.rows || key !in b.rows
    requires forall i :: i in b.objects ==> i in a.objects && b.objects[i].spec == a.objects[i].spec
    ensures Accounted(was, was, a, b, key)
  {
  }

  lemma AccountedTwice(was: seq<Key>, now: seq<Key>, a: State, b: State, c: State, key: Key)
    requires Accounted(was, was, a, b, key) && Accounted(was, now, b, c, key)
    ensures Accounted(was, now, a, c, key)
  {
    hide TrueAt;
  }

  // Rows that tell the truth mislead under no desired state.
  lemma TruthMisleadsNever(s: State, next: Desired, k: Key)
    requires RowsTrue(s) && k in s.rows
    ensures !Misleads(s, next, k)
  {
    assert TrueAt(s, k);
  }
}
