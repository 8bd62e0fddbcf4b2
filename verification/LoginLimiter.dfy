/** The login sliding-window limiter, with times as integers. */
module LoginLimiter {
  const WINDOW: int := 15 * 60 * 1_000_000_000
  const SWEEP_INTERVAL: int := 60 * 1_000_000_000
  const CLIENT_FAILURES: nat := 5
  const GLOBAL_FAILURES: nat := 50
  const MAX_CLIENTS: nat := 10000

  // The overflow bucket's name is no client address.
  datatype Bucket = Own(client: string) | Overflow

  datatype LoginResult = Accepted | WrongCredentials | Unavailable

  // ---- Specification ----

  // The attempts strictly after the cutoff.
  function Recent(times: seq<int>, cutoff: int): seq<int> {
    if times == [] then []
    else
      var last := times[|times| - 1];
      Recent(times[..|times| - 1], cutoff) + (if last > cutoff then [last] else [])
  }

  function Swept(attempts: map<Bucket, seq<int>>, cutoff: int): map<Bucket, seq<int>> {
    map k | k in attempts && Recent(attempts[k], cutoff) != [] :: Recent(attempts[k], cutoff)
  }

  // The bucket of a client: its own while it has one or the table has room.
  function KeyOf(attempts: map<Bucket, seq<int>>, client: string): Bucket {
    if Own(client) in attempts || |attempts| < MAX_CLIENTS then Own(client) else Overflow
  }

  // The table as a check at `now` finds it.
  function SweptAt(attempts: map<Bucket, seq<int>>, lastSweep: int, now: int): map<Bucket, seq<int>> {
    if now - lastSweep < SWEEP_INTERVAL then attempts else Swept(attempts, now - WINDOW)
  }

  // One bucket brought up to date, gone with its last attempt.
  function Refreshed(attempts: map<Bucket, seq<int>>, key: Bucket, cutoff: int): map<Bucket, seq<int>> {
    var recent := Recent(Entry(attempts, key), cutoff);
    if recent == [] then attempts - {key} else attempts[key := recent]
  }

  // The table after a check that all clients' budget leaves room for.
  function Checked(attempts: map<Bucket, seq<int>>, lastSweep: int, client: string, now: int): map<Bucket, seq<int>> {
    var swept := SweptAt(attempts, lastSweep, now);
    Refreshed(swept, KeyOf(swept, client), now - WINDOW)
  }

  predicate Sorted(times: seq<int>) {
    forall i, j :: 0 <= i <= j < |times| ==> times[i] <= times[j]
  }

  // At most `budget` of the recorded times fall into any half-open window of WINDOW.
  predicate Throttled(times: seq<int>, budget: nat) {
    forall i, j :: 0 <= i <= j < |times| && times[j] - times[i] < WINDOW ==> j - i + 1 <= budget
  }

  // `kept` is the end of `all`, and whatever was dropped had left the window by `clock`.
  predicate Tracks(kept: seq<int>, all: seq<int>, clock: int) {
    && |kept| <= |all| && kept == all[|all| - |kept|..]
    && (forall i :: 0 <= i < |all| ==> all[i] <= clock)
    && forall i :: 0 <= i < |all| - |kept| ==> all[i] <= clock - WINDOW
  }

  lemma RecentFrom(times: seq<int>, cutoff: int, d: nat)
    requires d <= |times|
    requires forall i :: 0 <= i < d ==> times[i] <= cutoff
    requires forall i :: d <= i < |times| ==> times[i] > cutoff
    ensures Recent(times, cutoff) == times[d..]
  {
    var i := 0;
    while i < |times|
      invariant 0 <= i <= |times|
      invariant Recent(times[..i], cutoff) == if i <= d then [] else times[d..i]
    {
      RecentGrows(times, cutoff, i);
      assert i >= d ==> times[d..i] + [times[i]] == times[d..i + 1];
      i := i + 1;
    }
    assert times[..i] == times;
  }

  lemma RecentGrows(times: seq<int>, cutoff: int, i: nat)
    requires i < |times|
    ensures Recent(times[..i + 1], cutoff) == Recent(times[..i], cutoff) + (if times[i] > cutoff then [times[i]] else [])
  {
    assert times[..i + 1][..i] == times[..i];
  }

  lemma CutoffSplits(times: seq<int>, cutoff: int) returns (d: nat)
    requires Sorted(times)
    ensures d <= |times| && (forall i :: 0 <= i < d ==> times[i] <= cutoff) && (forall i :: d <= i < |times| ==> times[i] > cutoff)
  {
    d := |times|;
    while d > 0 && times[d - 1] > cutoff
      invariant d <= |times| && forall i :: d <= i < |times| ==> times[i] > cutoff
    {
      d := d - 1;
    }
  }

  // Of a sorted list the filter keeps an end.
  lemma RecentIsEnd(times: seq<int>, cutoff: int)
    requires Sorted(times)
    ensures var r := Recent(times, cutoff);
            && |r| <= |times| && r == times[|times| - |r|..]
            && (forall i :: 0 <= i < |times| - |r| ==> times[i] <= cutoff)
            && (forall i :: 0 <= i < |r| ==> r[i] > cutoff)
  {
    var d := CutoffSplits(times, cutoff);
    RecentFrom(times, cutoff, d);
  }

  // While nothing dropped is later than the cutoff, the filter cannot tell the tracked end from the full record.
  lemma RecentAgrees(kept: seq<int>, all: seq<int>, clock: int, cutoff: int)
    requires Tracks(kept, all, clock) && Sorted(all) && clock - WINDOW <= cutoff
    ensures Recent(kept, cutoff) == Recent(all, cutoff)
  {
    var d := CutoffSplits(all, cutoff);
    var dropped := |all| - |kept|;
    RecentFrom(all, cutoff, d);
    assert d < |all| ==> all[d] > cutoff;
    assert forall i :: 0 <= i < |kept| ==> kept[i] == all[dropped + i];
    RecentFrom(kept, cutoff, d - dropped);
  }

  lemma {:induction false} RecentTwice(times: seq<int>, cutoff: int)
    ensures Recent(Recent(times, cutoff), cutoff) == Recent(times, cutoff)
  {
    if times != [] {
      var front := times[..|times| - 1];
      RecentTwice(front, cutoff);
      var r, last := Recent(front, cutoff), times[|times| - 1];
      if last > cutoff {
        assert (r + [last])[..|r|] == r;
        assert Recent(r + [last], cutoff) == Recent(r, cutoff) + [last];
      } else {
        assert Recent(times, cutoff) == r;
      }
    }
  }

  lemma RecentTracks(kept: seq<int>, all: seq<int>, clock: int, now: int)
    requires Tracks(kept, all, clock) && Sorted(all) && clock <= now
    ensures Tracks(Recent(kept, now - WINDOW), all, now)
  {
    RecentIsEnd(kept, now - WINDOW);
    var r := Recent(kept, now - WINDOW);
    var d := |all| - |kept|;
    forall i | 0 <= i < |all| - |r| ensures all[i] <= now - WINDOW {
      if i >= d {
        assert all[i] == kept[i - d];
      }
    }
    assert r == all[|all| - |r|..];
  }

  // One more failure, with room left among those still tracked, keeps every window within its budget.
  lemma FailureThrottled(kept: seq<int>, all: seq<int>, clock: int, now: int, budget: nat)
    requires Tracks(kept, all, clock) && Sorted(all) && Throttled(all, budget) && clock <= now && |kept| < budget
    ensures var more := all + [now];
            Sorted(more) && Throttled(more, budget) && Tracks(kept + [now], more, now)
  {
    var more := all + [now];
    assert forall i :: 0 <= i < |all| ==> more[i] == all[i];
    forall i, j | 0 <= i <= j < |more| && more[j] - more[i] < WINDOW ensures j - i + 1 <= budget {
      if j == |all| && i < |all| {
        assert all[i] > clock - WINDOW;
        assert i >= |all| - |kept|;
      }
    }
    assert kept + [now] == more[|more| - |kept| - 1..];
  }

  lemma {:induction false} IndicesFew(indices: set<int>, low: int, n: nat)
    requires forall i :: i in indices ==> low <= i < low + n
    ensures |indices| <= n
  {
    if n == 0 {
      assert forall i :: i !in indices;
    } else {
      IndicesFew(indices - {low + n - 1}, low, n - 1);
    }
  }

  // Counted as a set: wherever the window is laid, it holds no more failures than the budget.
  lemma WindowHoldsFew(times: seq<int>, budget: nat, from: int)
    requires Throttled(times, budget)
    ensures |set i | 0 <= i < |times| && from <= times[i] < from + WINDOW| <= budget
  {
    var inside := set i | 0 <= i < |times| && from <= times[i] < from + WINDOW;
    if inside != {} {
      var first :| first in inside && forall i :: 0 <= i < first ==> i !in inside by {
        var any :| any in inside;
        FirstInside(inside, any);
      }
      IndicesFew(inside, first, budget);
    }
  }

  lemma FirstInside(indices: set<int>, any: int)
    requires any in indices && forall i :: i in indices ==> i >= 0
    ensures exists first :: first in indices && forall i :: 0 <= i < first ==> i !in indices
    decreases any
  {
    if i :| 0 <= i < any && i in indices {
      FirstInside(indices, i);
    }
  }

  // ---- All buckets ----

  function Entry(attempts: map<Bucket, seq<int>>, key: Bucket): seq<int> {
    if key in attempts then attempts[key] else []
  }

  // Nothing was recorded or forgotten under any other bucket.
  ghost predicate OnlyEntry(was: map<Bucket, seq<int>>, now: map<Bucket, seq<int>>, key: Bucket) {
    forall k :: k != key ==> Entry(now, k) == Entry(was, k)
  }

  lemma Recorded(was: map<Bucket, seq<int>>, key: Bucket, times: seq<int>)
    ensures Entry(was[key := times], key) == times && OnlyEntry(was, was[key := times], key)
  {
  }

  lemma Cleared(was: map<Bucket, seq<int>>, key: Bucket)
    ensures Entry(was - {key}, key) == [] && OnlyEntry(was, was - {key}, key)
  {
  }

  // The client has a bucket of its own for the check at the cutoff and for the outcome after it: a full table could
  // otherwise drop its expired bucket and still be full of others.
  predicate Roomy(attempts: map<Bucket, seq<int>>, client: string, cutoff: int) {
    || |attempts| < MAX_CLIENTS
    || (Own(client) in attempts && (|attempts| == MAX_CLIENTS || Recent(attempts[Own(client)], cutoff) != []))
  }

  // Every bucket keeps what is still in the window, and no client's own bucket ever held six failures in one.
  ghost predicate Buckets(attempts: map<Bucket, seq<int>>, since: map<Bucket, seq<int>>, clock: int) {
    && attempts.Keys <= since.Keys
    && forall k :: k in since ==>
         Fine(Entry(attempts, k), since[k], clock, k.Own?, CLIENT_FAILURES)
  }

  // A list of recent failures agrees with the full record, which kept its budget if one applies.
  ghost predicate Fine(kept: seq<int>, all: seq<int>, clock: int, limited: bool, budget: nat) {
    Sorted(all) && Tracks(kept, all, clock) && (limited ==> Throttled(all, budget))
  }

  lemma FineLater(kept: seq<int>, all: seq<int>, before: int, now: int, limited: bool, budget: nat)
    requires Fine(kept, all, before, limited, budget) && before <= now
    ensures Fine(kept, all, now, limited, budget) && Fine(Recent(kept, now - WINDOW), all, now, limited, budget)
  {
    RecentTracks(kept, all, before, now);
  }

  lemma FineAgrees(kept: seq<int>, all: seq<int>, clock: int, limited: bool, budget: nat, cutoff: int)
    requires Fine(kept, all, clock, limited, budget) && clock - WINDOW <= cutoff
    ensures Recent(kept, cutoff) == Recent(all, cutoff)
  {
    RecentAgrees(kept, all, clock, cutoff);
  }

  lemma BucketsAgree(attempts: map<Bucket, seq<int>>, since: map<Bucket, seq<int>>, clock: int, key: Bucket, cutoff: int)
    requires Buckets(attempts, since, clock) && clock - WINDOW <= cutoff
    ensures Recent(Entry(attempts, key), cutoff) == Recent(Entry(since, key), cutoff)
  {
    hide Fine, Recent;
    if key in since {
      FineAgrees(Entry(attempts, key), since[key], clock, key.Own?, CLIENT_FAILURES, cutoff);
    }
  }

  lemma FineFails(kept: seq<int>, all: seq<int>, before: int, now: int, limited: bool, budget: nat)
    requires Fine(kept, all, before, limited, budget) && before <= now && (limited ==> |kept| < budget)
    ensures Fine(kept + [now], all + [now], now, limited, budget)
  {
    if limited {
      FailureThrottled(kept, all, before, now, budget);
    } else {
      FailureTracked(kept, all, before, now);
    }
  }

  lemma FineEmpty(clock: int, limited: bool, budget: nat)
    ensures Fine([], [], clock, limited, budget)
  {
  }

  ghost predicate Aged(was: map<Bucket, seq<int>>, now: map<Bucket, seq<int>>, cutoff: int) {
    && now.Keys <= was.Keys
    && forall k :: Entry(now, k) == Entry(was, k) || Entry(now, k) == Recent(Entry(was, k), cutoff)
  }

  // Only what has expired is forgotten.
  ghost predicate KeepsRecent(was: map<Bucket, seq<int>>, now: map<Bucket, seq<int>>, cutoff: int) {
    forall k :: Recent(Entry(now, k), cutoff) == Recent(Entry(was, k), cutoff)
  }

  lemma KeepsRecentTwice(a: map<Bucket, seq<int>>, b: map<Bucket, seq<int>>, c: map<Bucket, seq<int>>, cutoff: int, key: Bucket)
    requires KeepsRecent(a, b, cutoff) && KeepsRecent(b, c, cutoff)
    ensures KeepsRecent(a, c, cutoff) && Recent(Entry(b, key), cutoff) == Recent(Entry(a, key), cutoff)
  {
    hide Recent;
  }

  lemma AgedKeepsRecent(was: map<Bucket, seq<int>>, now: map<Bucket, seq<int>>, cutoff: int)
    requires Aged(was, now, cutoff)
    ensures KeepsRecent(was, now, cutoff)
  {
    hide Recent;
    forall k ensures Recent(Entry(now, k), cutoff) == Recent(Entry(was, k), cutoff) {
      RecentTwice(Entry(was, k), cutoff);
    }
  }

  // A roomy client keeps its own bucket, or a place for one, through the sweep and the check.
  lemma RoomyStays(was: map<Bucket, seq<int>>, now: map<Bucket, seq<int>>, client: string, cutoff: int)
    requires Roomy(was, client, cutoff) && now.Keys <= was.Keys && KeepsRecent(was, now, cutoff)
    ensures Roomy(now, client, cutoff) && (Own(client) in now || |now| < MAX_CLIENTS)
  {
    Fewer(was.Keys, now.Keys);
    assert |was| == |was.Keys| && |now| == |now.Keys|;
    assert Recent(Entry(now, Own(client)), cutoff) == Recent(Entry(was, Own(client)), cutoff);
    if |was| >= MAX_CLIENTS && Own(client) !in now {
      assert Recent([], cutoff) == [];
      Fewer(was.Keys - {Own(client)}, now.Keys);
    }
  }

  lemma AgedKeys(was: map<Bucket, seq<int>>, now: map<Bucket, seq<int>>, cutoff: int)
    requires Aged(was, now, cutoff)
    ensures now.Keys <= was.Keys
  {
  }

  lemma SweepAges(was: map<Bucket, seq<int>>, cutoff: int)
    ensures Aged(was, was, cutoff) && Aged(was, Swept(was, cutoff), cutoff)
  {
  }

  lemma CheckAges(was: map<Bucket, seq<int>>, key: Bucket, cutoff: int)
    ensures Aged(was, Refreshed(was, key, cutoff), cutoff)
  {
    hide Recent;
    assert key !in was ==> Recent([], cutoff) == [] by {
      RecentFrom([], cutoff, 0);
    }
  }

  lemma BucketsAge(was: map<Bucket, seq<int>>, after: map<Bucket, seq<int>>, since: map<Bucket, seq<int>>, before: int, now: int)
    requires Buckets(was, since, before) && Aged(was, after, now - WINDOW) && before <= now
    ensures Buckets(after, since, now)
  {
    hide Fine, Recent;
    forall k | k in since ensures Fine(Entry(after, k), since[k], now, k.Own?, CLIENT_FAILURES) {
      FineLater(Entry(was, k), since[k], before, now, k.Own?, CLIENT_FAILURES);
    }
  }

  lemma BucketsFail(attempts: map<Bucket, seq<int>>, since: map<Bucket, seq<int>>, before: int, now: int, key: Bucket)
    requires Buckets(attempts, since, before) && before <= now
    requires key != Overflow ==> |Entry(attempts, key)| < CLIENT_FAILURES
    ensures Buckets(attempts[key := Entry(attempts, key) + [now]], since[key := Entry(since, key) + [now]], now)
  {
    hide Fine;
    var kept, all := Entry(attempts, key), Entry(since, key);
    FineEmpty(before, key.Own?, CLIENT_FAILURES);
    assert key !in since ==> kept == [] && all == [];
    FineFails(kept, all, before, now, key.Own?, CLIENT_FAILURES);
    var attempts', since' := attempts[key := kept + [now]], since[key := all + [now]];
    forall k | k in since' ensures Fine(Entry(attempts', k), since'[k], now, k.Own?, CLIENT_FAILURES) {
      if k != key {
        FineLater(Entry(attempts, k), since[k], before, now, k.Own?, CLIENT_FAILURES);
      }
    }
  }

  lemma BucketsClear(attempts: map<Bucket, seq<int>>, since: map<Bucket, seq<int>>, clock: int, key: Bucket)
    requires Buckets(attempts, since, clock)
    ensures Buckets(attempts - {key}, since[key := []], clock)
  {
    hide Fine;
    FineEmpty(clock, key.Own?, CLIENT_FAILURES);
  }

  // The table's clients, the overflow bucket aside.
  ghost predicate Fits(keys: set<Bucket>) {
    |keys - {Overflow}| <= MAX_CLIENTS
  }

  // What a check can rely on once the table is swept.
  lemma SweptKeeps(was: map<Bucket, seq<int>>, lastSweep: int, since: map<Bucket, seq<int>>, before: int, now: int, client: string)
    requires Buckets(was, since, before) && Fits(was.Keys) && before <= now
    ensures var swept := SweptAt(was, lastSweep, now);
            && Buckets(swept, since, now) && Fits(swept.Keys) && KeepsRecent(was, swept, now - WINDOW)
            && (Roomy(was, client, now - WINDOW) ==>
                  Roomy(swept, client, now - WINDOW) && (Own(client) in swept || |swept| < MAX_CLIENTS))
  {
    hide Buckets, Fits, KeepsRecent, Roomy, Aged, Swept;
    var swept, cutoff := SweptAt(was, lastSweep, now), now - WINDOW;
    SweepAges(was, cutoff);
    AgedKeys(was, swept, cutoff);
    BucketsAge(was, swept, since, before, now);
    AgedKeepsRecent(was, swept, cutoff);
    FewerFit(was.Keys, swept.Keys);
    if Roomy(was, client, cutoff) {
      RoomyStays(was, swept, client, cutoff);
    }
  }

  // ---- The limiter ----

  class Limiter {
    var attempts: map<Bucket, seq<int>>
    var global: seq<int>
    var lastSweep: int

    // Every failure recorded so far, and per bucket those since its last success.
    ghost var failures: seq<int>
    ghost var since: map<Bucket, seq<int>>
    ghost var clock: int

    ghost predicate Valid()
      reads this
    {
      && Fine(global, failures, clock, true, GLOBAL_FAILURES)
      && Buckets(attempts, since, clock)
      && Fits(attempts.Keys)
    }

    // What a successful check promises the failure that may follow it.
    ghost predicate Room(client: string)
      reads this`attempts, this`global
    {
      && |global| < GLOBAL_FAILURES
      && var key := KeyOf(attempts, client); key != Overflow ==> |Entry(attempts, key)| < CLIENT_FAILURES
    }

    constructor ()
      ensures Valid() && failures == [] && since == map[]
    {
      attempts, global, lastSweep := map[], [], 0;
      failures, since, clock := [], map[], 0;
    }

    method RecentAttempts(times: seq<int>, cutoff: int) returns (recent: seq<int>)
      ensures recent == Recent(times, cutoff)
    {
      recent := [];
      for i := 0 to |times|
        invariant recent == Recent(times[..i], cutoff)
      {
        assert times[..i + 1][..i] == times[..i];
        if times[i] > cutoff {
          recent := recent + [times[i]];
        }
      }
      assert times[..|times|] == times;
    }

    method Sweep(now: int, cutoff: int)
      modifies this`attempts, this`lastSweep
      requires cutoff == now - WINDOW
      ensures attempts == SweptAt(old(attempts), old(lastSweep), now)
      ensures lastSweep == if now - old(lastSweep) < SWEEP_INTERVAL then old(lastSweep) else now
      ensures now - old(lastSweep) < SWEEP_INTERVAL ==> attempts == old(attempts)
      ensures now - old(lastSweep) >= SWEEP_INTERVAL ==>
                && (forall k :: Entry(attempts, k) == Recent(Entry(old(attempts), k), cutoff))
                && forall k :: k in attempts ==> attempts[k] != []
    {
      if now - lastSweep < SWEEP_INTERVAL {
        return;
      }
      lastSweep := now;
      var rest := attempts.Keys;
      ghost var was := attempts;
      while rest != {}
        invariant lastSweep == now
        invariant rest <= was.Keys && rest <= attempts.Keys
        invariant forall k :: k in rest ==> attempts[k] == was[k]
        invariant forall k :: k in was && k !in rest ==> (k in attempts <==> Recent(was[k], cutoff) != [])
        invariant forall k :: k in attempts && k !in rest ==> k in was && attempts[k] == Recent(was[k], cutoff)
        decreases rest
      {
        var key :| key in rest;
        rest := rest - {key};
        var recent := RecentAttempts(attempts[key], cutoff);
        if |recent| == 0 {
          attempts := attempts - {key};
        } else {
          attempts := attempts[key := recent];
        }
      }
      assert attempts == Swept(was, cutoff);
    }

    // Denied exactly when the window holds the whole budget of all clients or of this client's bucket.
    method Allowed(client: string, now: int) returns (ok: bool)
      requires Valid() && clock <= now
      modifies this`attempts, this`global, this`lastSweep, this`clock
      ensures Valid() && clock == now
      ensures global == Recent(old(global), now - WINDOW)
      ensures var swept := SweptAt(old(attempts), old(lastSweep), now);
              var key := KeyOf(swept, client);
              && attempts == (if |global| >= GLOBAL_FAILURES then swept else Refreshed(swept, key, now - WINDOW))
              && (ok <==> |global| < GLOBAL_FAILURES && |Recent(Entry(swept, key), now - WINDOW)| < CLIENT_FAILURES)
      ensures ok ==> Room(client)
      ensures |Recent(failures, now - WINDOW)| >= GLOBAL_FAILURES ==> !ok
      ensures Roomy(old(attempts), client, now - WINDOW) && |Recent(failures, now - WINDOW)| < GLOBAL_FAILURES ==>
                && (ok <==> |Recent(Entry(since, Own(client)), now - WINDOW)| < CLIENT_FAILURES)
                && (Own(client) in attempts || |attempts| < MAX_CLIENTS)
      ensures KeepsRecent(old(attempts), attempts, now - WINDOW)
    {
      hide Throttled, Sorted, Tracks, Fine, Fits, Buckets, Aged, Swept, Recent, Roomy, KeepsRecent, OnlyEntry;
      var cutoff := now - WINDOW;
      FineAgrees(global, failures, clock, true, GLOBAL_FAILURES, cutoff);
      BucketsAgree(attempts, since, clock, Own(client), cutoff);
      ghost var was, lastSweepWas := attempts, lastSweep;
      Sweep(now, cutoff);
      ghost var swept := attempts;
      global := RecentAttempts(global, cutoff);
      FineLater(old(global), failures, clock, now, true, GLOBAL_FAILURES);
      SweptKeeps(was, lastSweepWas, since, clock, now, client);
      clock := now;
      if |global| >= GLOBAL_FAILURES {
        return false;
      }
      var key := Key(client);
      var recent := Refresh(key, now);
      FewerFit(swept.Keys, attempts.Keys);
      if Roomy(was, client, cutoff) {
        RoomyStays(swept, attempts, client, cutoff);
      }
      KeepsRecentTwice(was, swept, attempts, cutoff, Own(client));
      ok := |recent| < CLIENT_FAILURES;
    }

    // Drops what left the window from one bucket, and the bucket with its last attempt.
    method Refresh(key: Bucket, now: int) returns (recent: seq<int>)
      requires Buckets(attempts, since, now)
      modifies this`attempts
      ensures Buckets(attempts, since, now) && attempts.Keys <= old(attempts).Keys
      ensures attempts == Refreshed(old(attempts), key, now - WINDOW) && recent == Recent(Entry(old(attempts), key), now - WINDOW)
      ensures Entry(attempts, key) == recent && OnlyEntry(old(attempts), attempts, key)
      ensures key in attempts <==> recent != []
      ensures KeepsRecent(old(attempts), attempts, now - WINDOW)
    {
      hide Buckets, Aged, Recent;
      ghost var was := attempts;
      recent := RecentAttempts(Entry(attempts, key), now - WINDOW);
      CheckAges(was, key, now - WINDOW);
      if |recent| == 0 {
        attempts := attempts - {key};
      } else {
        attempts := attempts[key := recent];
      }
      AgedKeys(was, attempts, now - WINDOW);
      AgedKeepsRecent(was, attempts, now - WINDOW);
      BucketsAge(was, attempts, since, now, now);
    }

    method Key(client: string) returns (key: Bucket)
      ensures key == KeyOf(attempts, client)
      ensures key == Own(client) <==> Own(client) in attempts || |attempts| < MAX_CLIENTS
      ensures key == Own(client) || key == Overflow
    {
      if Own(client) in attempts || |attempts| < MAX_CLIENTS {
        return Own(client);
      }
      return Overflow;
    }

    method Failure(client: string, now: int)
      requires Valid() && Room(client) && clock <= now
      modifies this`attempts, this`global, this`failures, this`since, this`clock
      ensures Valid() && clock == now
      ensures failures == old(failures) + [now] && global == old(global) + [now]
      ensures var key := KeyOf(old(attempts), client);
              attempts == old(attempts)[key := Entry(old(attempts), key) + [now]]
              && since == old(since)[key := Entry(old(since), key) + [now]]
      ensures Own(client) in old(attempts) || |old(attempts)| < MAX_CLIENTS ==>
                && Entry(attempts, Own(client)) == Entry(old(attempts), Own(client)) + [now]
                && Entry(since, Own(client)) == Entry(old(since), Own(client)) + [now]
                && OnlyEntry(old(attempts), attempts, Own(client)) && OnlyEntry(old(since), since, Own(client))
      ensures Own(client) !in old(attempts) && |old(attempts)| >= MAX_CLIENTS ==>
                && Entry(attempts, Overflow) == Entry(old(attempts), Overflow) + [now]
                && OnlyEntry(old(attempts), attempts, Overflow) && OnlyEntry(old(since), since, Overflow)
    {
      hide Fine, Fits, Buckets, OnlyEntry;
      var key := Key(client);
      Recorded(attempts, key, Entry(attempts, key) + [now]);
      Recorded(since, key, Entry(since, key) + [now]);
      FineFails(global, failures, clock, now, true, GLOBAL_FAILURES);
      BucketsFail(attempts, since, clock, now, key);
      ClientsBounded(attempts.Keys, attempts.Keys + {key}, key);
      attempts := attempts[key := Entry(attempts, key) + [now]];
      assert attempts.Keys == old(attempts.Keys) + {key};
      global := global + [now];
      failures := failures + [now];
      since := since[key := Entry(since, key) + [now]];
      clock := now;
    }

    method Success(client: string)
      requires Valid()
      modifies this`attempts, this`since
      ensures Valid()
      ensures attempts == old(attempts) - {KeyOf(old(attempts), client)}
      ensures since == old(since)[KeyOf(old(attempts), client) := []]
      ensures Own(client) in old(attempts) || |old(attempts)| < MAX_CLIENTS ==>
                && Own(client) !in attempts && Entry(since, Own(client)) == []
                && OnlyEntry(old(attempts), attempts, Own(client)) && OnlyEntry(old(since), since, Own(client))
      ensures Own(client) !in old(attempts) && |old(attempts)| >= MAX_CLIENTS ==>
                && Overflow !in attempts
                && OnlyEntry(old(attempts), attempts, Overflow) && OnlyEntry(old(since), since, Overflow)
    {
      hide Fine, Fits, Buckets, OnlyEntry;
      var key := Key(client);
      Cleared(attempts, key);
      Recorded(since, key, []);
      BucketsClear(attempts, since, clock, key);
      FewerFit(attempts.Keys, (attempts - {key}).Keys);
      attempts := attempts - {key};
      since := since[key := []];
    }

    // The login handler: the check and its outcome are one attempt, the clock never runs back. The outcome goes to
    // the bucket the client has in the checked table, which may be another than the one checked.
    method Login(client: string, now: int, later: int, result: LoginResult) returns (denied: bool)
      requires Valid() && clock <= now <= later
      modifies this
      ensures Valid() && clock <= later
      ensures failures == if !denied && result == WrongCredentials then old(failures) + [later] else old(failures)
      ensures denied || result == Unavailable ==> since == old(since)
      ensures !denied ==>
                var table := Checked(old(attempts), old(lastSweep), client, now);
                var key := KeyOf(table, client);
                match result
                case WrongCredentials =>
                  && since == old(since)[key := Entry(old(since), key) + [later]]
                  && attempts == table[key := Entry(table, key) + [later]]
                case Accepted => since == old(since)[key := []] && attempts == table - {key}
                case Unavailable => attempts == table
      ensures |attempts| <= MAX_CLIENTS + 1
      ensures |Recent(old(failures), now - WINDOW)| >= GLOBAL_FAILURES ==> denied
      ensures Roomy(old(attempts), client, now - WINDOW) && |Recent(old(failures), now - WINDOW)| < GLOBAL_FAILURES ==>
                && (denied <==> |Recent(Entry(old(since), Own(client)), now - WINDOW)| >= CLIENT_FAILURES)
                && OnlyEntry(old(since), since, Own(client))
                && (!denied && result == WrongCredentials ==>
                      Entry(since, Own(client)) == Entry(old(since), Own(client)) + [later])
                && (!denied && result == Accepted ==> Entry(since, Own(client)) == [] && Own(client) !in attempts)
      ensures forall other :: other != client ==>
                && Entry(since, Own(other)) == Entry(old(since), Own(other))
                && Recent(Entry(attempts, Own(other)), now - WINDOW) == Recent(Entry(old(attempts), Own(other)), now - WINDOW)
    {
      hide Fine, Buckets, Fits, Recent, Swept;
      var ok := Allowed(client, now);
      if !ok {
        SizeBounded(attempts.Keys);
        return true;
      }
      if result == WrongCredentials {
        Failure(client, later);
      } else if result == Accepted {
        Success(client);
      }
      SizeBounded(attempts.Keys);
      return false;
    }
  }

  // ---- Facts about single buckets ----

  lemma FailureTracked(kept: seq<int>, all: seq<int>, before: int, now: int)
    requires Tracks(kept, all, before) && Sorted(all) && before <= now
    ensures Tracks(kept + [now], all + [now], now) && Sorted(all + [now])
  {
    assert kept + [now] == (all + [now])[|all| - |kept|..];
  }

  lemma Fewer(before: set<Bucket>, after: set<Bucket>)
    requires after <= before
    ensures |after| <= |before|
  {
    assert before == after + (before - after);
  }

  lemma FewerFit(before: set<Bucket>, after: set<Bucket>)
    requires Fits(before) && after <= before
    ensures Fits(after)
  {
    Fewer(before - {Overflow}, after - {Overflow});
  }

  lemma ClientsBounded(before: set<Bucket>, after: set<Bucket>, key: Bucket)
    requires after == before + {key} && Fits(before)
    requires key in before || |before| < MAX_CLIENTS || key == Overflow
    ensures Fits(after)
  {
    if key in before || key == Overflow {
      assert after - {Overflow} == before - {Overflow};
    } else {
      Fewer(before, before - {Overflow});
      assert after - {Overflow} == (before - {Overflow}) + {key};
    }
  }

  lemma SizeBounded(keys: set<Bucket>)
    requires Fits(keys)
    ensures |keys| <= MAX_CLIENTS + 1
  {
    assert keys <= (keys - {Overflow}) + {Overflow};
    Fewer((keys - {Overflow}) + {Overflow}, keys);
  }
}
