/** The log throttle: one report per key and window, over a bounded map in insertion order. */
module LogThrottle {
  import opened Common

  /** One entry of the map; the sequence of entries is its iteration order. */
  datatype Bucket = Bucket(key: string, lastLoggedAt: int, suppressed: nat)

  datatype ThrottleEnv = ThrottleEnv(windowMs: int, maxTracked: nat)

  predicate DistinctKeys(bs: seq<Bucket>) {
    forall i, j :: 0 <= i < j < |bs| ==> bs[i].key != bs[j].key
  }

  /** The position of a key, or the length. */
  function IndexOf(bs: seq<Bucket>, key: string): (i: nat)
    ensures i <= |bs| && (i < |bs| ==> bs[i].key == key)
    ensures forall j :: 0 <= j < i ==> bs[j].key != key
  {
    if bs == [] then 0 else if bs[0].key == key then 0 else 1 + IndexOf(bs[1..], key)
  }

  /** The oldest entry makes room, unless its key is the empty text. */
  predicate Evicts(env: ThrottleEnv, bs: seq<Bucket>, key: string) {
    IndexOf(bs, key) == |bs| && |bs| >= env.maxTracked && bs != [] && bs[0].key != ""
  }

  predicate Suppresses(env: ThrottleEnv, bs: seq<Bucket>, key: string, now: int) {
    var i := IndexOf(bs, key);
    i < |bs| && now - bs[i].lastLoggedAt < env.windowMs
  }

  /** One call: the entries after it, and how many duplicates it reports, or None when it waits. */
  function Take(env: ThrottleEnv, bs: seq<Bucket>, key: string, now: int): (seq<Bucket>, Option<nat>) {
    var i := IndexOf(bs, key);
    if Suppresses(env, bs, key, now) then (bs[i := bs[i].(suppressed := bs[i].suppressed + 1)], None)
    else if i < |bs| then (bs[i := Bucket(key, now, 0)], Some(bs[i].suppressed))
    else ((if Evicts(env, bs, key) then bs[1..] else bs) + [Bucket(key, now, 0)], Some(0))
  }

  // ---- Runs ----

  datatype Call = Call(key: string, now: int)

  /** The entries after the first `n` calls. */
  function After(env: ThrottleEnv, calls: seq<Call>, n: nat): seq<Bucket>
    requires n <= |calls|
  {
    if n == 0 then [] else Take(env, After(env, calls, n - 1), calls[n - 1].key, calls[n - 1].now).0
  }

  predicate AdmittedAt(env: ThrottleEnv, calls: seq<Call>, i: nat)
    requires i < |calls|
  {
    Take(env, After(env, calls, i), calls[i].key, calls[i].now).1.Some?
  }

  predicate EvictedAt(env: ThrottleEnv, calls: seq<Call>, i: nat, key: string)
    requires i < |calls|
  {
    Evicts(env, After(env, calls, i), calls[i].key) && After(env, calls, i)[0].key == key
  }

  lemma TakeKeepsDistinct(env: ThrottleEnv, bs: seq<Bucket>, key: string, now: int)
    requires DistinctKeys(bs)
    ensures DistinctKeys(Take(env, bs, key, now).0)
  {
    hide IndexOf;
    var next := Take(env, bs, key, now).0;
    if IndexOf(bs, key) < |bs| {
      assert forall j :: 0 <= j < |bs| ==> next[j].key == bs[j].key;
    } else {
      var kept := if Evicts(env, bs, key) then bs[1..] else bs;
      assert forall j :: 0 <= j < |kept| ==> next[j] == kept[j] && kept[j].key != key;
    }
  }

  lemma {:induction false} KeysStayDistinct(env: ThrottleEnv, calls: seq<Call>, n: nat)
    requires n <= |calls|
    ensures DistinctKeys(After(env, calls, n))
  {
    hide Take;
    if n > 0 {
      KeysStayDistinct(env, calls, n - 1);
      TakeKeepsDistinct(env, After(env, calls, n - 1), calls[n - 1].key, calls[n - 1].now);
    }
  }

  // ---- Conservation ----

  function Pending(bs: seq<Bucket>): nat {
    if bs == [] then 0 else Pending(bs[..|bs| - 1]) + bs[|bs| - 1].suppressed
  }

  function Admitted(env: ThrottleEnv, calls: seq<Call>, n: nat): nat
    requires n <= |calls|
  {
    if n == 0 then 0 else Admitted(env, calls, n - 1) + if AdmittedAt(env, calls, n - 1) then 1 else 0
  }

  /** Duplicates reported by admitted calls. */
  function Reported(env: ThrottleEnv, calls: seq<Call>, n: nat): nat
    requires n <= |calls|
  {
    if n == 0 then 0
    else
      Reported(env, calls, n - 1)
      + OrElse(Take(env, After(env, calls, n - 1), calls[n - 1].key, calls[n - 1].now).1, 0)
  }

  /** Duplicates forgotten with evicted entries. */
  function Lost(env: ThrottleEnv, calls: seq<Call>, n: nat): nat
    requires n <= |calls|
  {
    if n == 0 then 0
    else
      var bs := After(env, calls, n - 1);
      Lost(env, calls, n - 1) + if Evicts(env, bs, calls[n - 1].key) then bs[0].suppressed else 0
  }

  lemma {:induction false} PendingUpdate(bs: seq<Bucket>, i: nat, b: Bucket)
    requires i < |bs|
    ensures Pending(bs[i := b]) == Pending(bs) - bs[i].suppressed + b.suppressed
  {
    var n := |bs| - 1;
    if i < n {
      assert bs[i := b][..n] == bs[..n][i := b];
      PendingUpdate(bs[..n], i, b);
    } else {
      assert bs[i := b][..n] == bs[..n];
    }
  }

  lemma PendingAppend(bs: seq<Bucket>, b: Bucket)
    ensures Pending(bs + [b]) == Pending(bs) + b.suppressed
  {
    assert (bs + [b])[..|bs|] == bs;
  }

  lemma {:induction false} PendingDrop(bs: seq<Bucket>)
    requires bs != []
    ensures Pending(bs) == bs[0].suppressed + Pending(bs[1..])
  {
    if |bs| > 1 {
      var n := |bs| - 1;
      PendingDrop(bs[..n]);
      assert bs[..n][1..] == bs[1..][..n - 1];
    } else {
      assert bs[..0] == [] && bs[1..] == [];
    }
  }

  /** What a call for a tracked key does to the pending duplicates. */
  lemma TrackedBalances(env: ThrottleEnv, bs: seq<Bucket>, key: string, now: int)
    requires IndexOf(bs, key) < |bs|
    ensures var (next, result) := Take(env, bs, key, now);
            1 + Pending(bs) == (if result.Some? then 1 + result.value else 0) + Pending(next)
  {
    hide Pending, IndexOf;
    var i := IndexOf(bs, key);
    if Suppresses(env, bs, key, now) {
      PendingUpdate(bs, i, bs[i].(suppressed := bs[i].suppressed + 1));
    } else {
      PendingUpdate(bs, i, Bucket(key, now, 0));
    }
  }

  /** What one call does to the pending duplicates. */
  lemma TakeBalances(env: ThrottleEnv, bs: seq<Bucket>, key: string, now: int)
    ensures var (next, result) := Take(env, bs, key, now);
            1 + Pending(bs)
            == (if result.Some? then 1 + result.value else 0) + Pending(next)
               + (if Evicts(env, bs, key) then bs[0].suppressed else 0)
  {
    hide Pending, IndexOf;
    if IndexOf(bs, key) < |bs| {
      TrackedBalances(env, bs, key, now);
    } else if Evicts(env, bs, key) {
      PendingAppend(bs[1..], Bucket(key, now, 0));
      PendingDrop(bs);
    } else {
      PendingAppend(bs, Bucket(key, now, 0));
    }
  }

  lemma NothingPending()
    ensures Pending([]) == 0
  {
  }

  /** Every call is accounted for: admitted, reported as a duplicate, still pending, or lost by eviction. */
  lemma {:induction false} Conservation(env: ThrottleEnv, calls: seq<Call>, n: nat)
    requires n <= |calls|
    ensures n == Admitted(env, calls, n) + Reported(env, calls, n) + Pending(After(env, calls, n)) + Lost(env, calls, n)
  {
    hide Take, Evicts, Pending, Suppresses, IndexOf;
    if n > 0 {
      Conservation(env, calls, n - 1);
      TakeBalances(env, After(env, calls, n - 1), calls[n - 1].key, calls[n - 1].now);
    } else {
      NothingPending();
    }
  }

  // ---- One report per window ----

  predicate Ordered(calls: seq<Call>) {
    forall i, j :: 0 <= i < j < |calls| ==> calls[i].now <= calls[j].now
  }

  /** Tracked since a report at `since` or later. */
  predicate TrackedSince(bs: seq<Bucket>, key: string, since: int) {
    exists i :: 0 <= i < |bs| && bs[i].key == key && bs[i].lastLoggedAt >= since
  }

  lemma TakeTracks(env: ThrottleEnv, bs: seq<Bucket>, key: string, now: int, other: string, since: int)
    requires DistinctKeys(bs) && since <= now
    ensures Take(env, bs, key, now).1.Some? ==> TrackedSince(Take(env, bs, key, now).0, key, now)
    ensures TrackedSince(bs, other, since) && !(Evicts(env, bs, key) && bs[0].key == other)
            ==> TrackedSince(Take(env, bs, key, now).0, other, since)
  {
    var next := Take(env, bs, key, now).0;
    if Take(env, bs, key, now).1.Some? {
      var at := if IndexOf(bs, key) < |bs| then IndexOf(bs, key) else |next| - 1;
      assert next[at] == Bucket(key, now, 0);
    }
    if TrackedSince(bs, other, since) && !(Evicts(env, bs, key) && bs[0].key == other) {
      var i :| 0 <= i < |bs| && bs[i].key == other && bs[i].lastLoggedAt >= since;
      var at := if Evicts(env, bs, key) then i - 1 else i;
      assert next[at].key == other && next[at].lastLoggedAt >= since;
    }
  }

  lemma {:induction false} StaysTracked(env: ThrottleEnv, calls: seq<Call>, i: nat, n: nat)
    requires Ordered(calls) && i < n <= |calls| && AdmittedAt(env, calls, i)
    requires forall k :: i < k < n ==> !EvictedAt(env, calls, k, calls[i].key)
    ensures TrackedSince(After(env, calls, n), calls[i].key, calls[i].now)
  {
    hide Take, TrackedSince, Evicts;
    KeysStayDistinct(env, calls, n - 1);
    TakeTracks(env, After(env, calls, n - 1), calls[n - 1].key, calls[n - 1].now, calls[i].key, calls[i].now);
    if i < n - 1 {
      StaysTracked(env, calls, i, n - 1);
      assert !EvictedAt(env, calls, n - 1, calls[i].key);
    }
  }

  lemma TrackedIsSuppressed(env: ThrottleEnv, bs: seq<Bucket>, key: string, since: int, now: int)
    requires DistinctKeys(bs) && TrackedSince(bs, key, since) && now - since < env.windowMs
    ensures Take(env, bs, key, now).1.None?
  {
    var i :| 0 <= i < |bs| && bs[i].key == key && bs[i].lastLoggedAt >= since;
    assert IndexOf(bs, key) == i;
  }

  /** A key is reported twice within the window only if it was evicted in between. */
  lemma TwiceMeansEvicted(env: ThrottleEnv, calls: seq<Call>, i: nat, j: nat)
    requires Ordered(calls) && i < j < |calls| && calls[i].key == calls[j].key
    requires AdmittedAt(env, calls, i) && AdmittedAt(env, calls, j) && calls[j].now - calls[i].now < env.windowMs
    ensures exists k :: i < k < j && EvictedAt(env, calls, k, calls[i].key)
  {
    hide Take, TrackedSince;
    if forall k :: i < k < j ==> !EvictedAt(env, calls, k, calls[i].key) {
      StaysTracked(env, calls, i, j);
      KeysStayDistinct(env, calls, j);
      TrackedIsSuppressed(env, After(env, calls, j), calls[j].key, calls[i].now, calls[j].now);
    }
  }

  // ---- What each entry remembers ----

  /** How often the key is called from `from` on, before call `n`. */
  function Repeats(calls: seq<Call>, key: string, from: nat, n: nat): nat
    requires from <= n <= |calls|
  {
    if from == n then 0 else Repeats(calls, key, from, n - 1) + if calls[n - 1].key == key then 1 else 0
  }

  /** Call `j` is the last admitted one of its key before `n`, and its entry has not been evicted since. */
  predicate StandsFor(env: ThrottleEnv, calls: seq<Call>, j: nat, n: nat)
    requires j < n <= |calls|
  {
    && AdmittedAt(env, calls, j)
    && (forall k :: j < k < n && calls[k].key == calls[j].key ==> !AdmittedAt(env, calls, k))
    && (forall k :: j < k < n ==> !EvictedAt(env, calls, k, calls[j].key))
  }

  /** The entry of call `j`: when it was reported, and how many duplicates came since. */
  predicate EntryOf(calls: seq<Call>, b: Bucket, j: nat, n: nat)
    requires j < n <= |calls|
  {
    b.key == calls[j].key && b.lastLoggedAt == calls[j].now && b.suppressed == Repeats(calls, b.key, j + 1, n)
  }

  /** What one call makes of an entry that it leaves: untouched, one duplicate more, or reported anew. */
  lemma TakenEntry(env: ThrottleEnv, bs: seq<Bucket>, key: string, now: int, b: Bucket)
    requires DistinctKeys(bs) && b in Take(env, bs, key, now).0
    ensures var (next, result) := Take(env, bs, key, now);
            if b.key != key then b in bs && !(Evicts(env, bs, key) && bs[0].key == b.key)
            else if result.Some? then b == Bucket(key, now, 0)
            else b.suppressed > 0 && b.(suppressed := b.suppressed - 1) in bs && !Evicts(env, bs, key)
  {
    hide IndexOf;
    var next := Take(env, bs, key, now).0;
    var at :| 0 <= at < |next| && next[at] == b;
    if b.key != key && Evicts(env, bs, key) {
      assert b == bs[at + 1];
    }
  }

  lemma {:induction false} EntryTellsHistory(env: ThrottleEnv, calls: seq<Call>, n: nat, b: Bucket) returns (j: nat)
    requires n <= |calls| && b in After(env, calls, n)
    ensures j < n && StandsFor(env, calls, j, n) && EntryOf(calls, b, j, n)
  {
    hide Take, Evicts;
    var m, last := n - 1, calls[n - 1];
    KeysStayDistinct(env, calls, m);
    TakenEntry(env, After(env, calls, m), last.key, last.now, b);
    if b.key == last.key && AdmittedAt(env, calls, m) {
      j := m;
    } else if b.key != last.key {
      j := EntryTellsHistory(env, calls, m, b);
    } else {
      j := EntryTellsHistory(env, calls, m, b.(suppressed := b.suppressed - 1));
    }
  }

  /**
   A call is held back exactly when an earlier one of its key was reported less
   than a window ago and that entry has not been evicted since; so a key that was
   silent for a window is reported again at once.
   */
  lemma AdmittedExactly(env: ThrottleEnv, calls: seq<Call>, i: nat)
    requires Ordered(calls) && i < |calls|
    ensures AdmittedAt(env, calls, i)
            <==> !exists j :: 0 <= j < i && calls[j].key == calls[i].key && StandsFor(env, calls, j, i)
                              && calls[i].now - calls[j].now < env.windowMs
  {
    if exists j :: 0 <= j < i && calls[j].key == calls[i].key && StandsFor(env, calls, j, i)
                   && calls[i].now - calls[j].now < env.windowMs
    {
      var j :| 0 <= j < i && calls[j].key == calls[i].key && StandsFor(env, calls, j, i)
               && calls[i].now - calls[j].now < env.windowMs;
      if AdmittedAt(env, calls, i) {
        TwiceMeansEvicted(env, calls, j, i);
      }
    }
    if !AdmittedAt(env, calls, i) {
      var b := HeldBackBy(env, After(env, calls, i), calls[i].key, calls[i].now);
      var j := EntryTellsHistory(env, calls, i, b);
    }
  }

  lemma HeldBackBy(env: ThrottleEnv, bs: seq<Bucket>, key: string, now: int) returns (b: Bucket)
    requires Take(env, bs, key, now).1.None?
    ensures b in bs && b.key == key && now - b.lastLoggedAt < env.windowMs
  {
    b := bs[IndexOf(bs, key)];
  }

  /** An admitted call reports the duplicates of its key's entry. */
  lemma AdmittedTells(env: ThrottleEnv, calls: seq<Call>, i: nat, at: nat)
    requires i < |calls| && AdmittedAt(env, calls, i)
    requires at < |After(env, calls, i)| && After(env, calls, i)[at].key == calls[i].key
    ensures Take(env, After(env, calls, i), calls[i].key, calls[i].now).1 == Some(After(env, calls, i)[at].suppressed)
  {
    hide IndexOf;
    KeysStayDistinct(env, calls, i);
    assert IndexOf(After(env, calls, i), calls[i].key) == at;
  }

  /** A report tells how often its key was called since the report before. */
  lemma ReportCountsRepeats(env: ThrottleEnv, calls: seq<Call>, i: nat, j: nat)
    requires j < i < |calls| && calls[j].key == calls[i].key && StandsFor(env, calls, j, i)
    requires AdmittedAt(env, calls, i)
    ensures Take(env, After(env, calls, i), calls[i].key, calls[i].now).1
            == Some(Repeats(calls, calls[i].key, j + 1, i))
  {
    hide AdmittedAt, Take, Repeats;
    KeptEntry(env, calls, j, i);
    var bs := After(env, calls, i);
    var at :| 0 <= at < |bs| && bs[at].key == calls[j].key;
    AdmittedTells(env, calls, i, at);
    var j' := EntryTellsHistory(env, calls, i, bs[at]);
    OneStandsFor(env, calls, j, j', i);
  }

  /** And none for a key without a report that still stands. */
  lemma NewKeyReportsNone(env: ThrottleEnv, calls: seq<Call>, i: nat)
    requires i < |calls| && !exists j :: 0 <= j < i && calls[j].key == calls[i].key && StandsFor(env, calls, j, i)
    ensures Take(env, After(env, calls, i), calls[i].key, calls[i].now).1 == Some(0)
  {
    hide StandsFor, Repeats;
    var bs := After(env, calls, i);
    var at := IndexOf(bs, calls[i].key);
    if at < |bs| {
      var j := EntryTellsHistory(env, calls, i, bs[at]);
    }
  }

  lemma OneStandsFor(env: ThrottleEnv, calls: seq<Call>, j: nat, k: nat, n: nat)
    requires j < n <= |calls| && k < n && calls[j].key == calls[k].key
    requires StandsFor(env, calls, j, n) && StandsFor(env, calls, k, n)
    ensures j == k
  {
    hide AdmittedAt, EvictedAt;
  }

  lemma {:induction false} KeptEntry(env: ThrottleEnv, calls: seq<Call>, j: nat, n: nat)
    requires j < n <= |calls| && AdmittedAt(env, calls, j)
    requires forall k :: j < k < n ==> !EvictedAt(env, calls, k, calls[j].key)
    ensures exists at :: 0 <= at < |After(env, calls, n)| && After(env, calls, n)[at].key == calls[j].key
  {
    hide Take, Evicts;
    var m := n - 1;
    KeysStayDistinct(env, calls, m);
    assert After(env, calls, n) == Take(env, After(env, calls, m), calls[m].key, calls[m].now).0;
    if m == j {
      TakeKeepsKey(env, After(env, calls, m), calls[m].key, calls[m].now, calls[m].key);
    } else {
      KeptEntry(env, calls, j, m);
      assert !EvictedAt(env, calls, m, calls[j].key);
      TakeKeepsKey(env, After(env, calls, m), calls[m].key, calls[m].now, calls[j].key);
    }
  }

  lemma TakeKeepsKey(env: ThrottleEnv, bs: seq<Bucket>, key: string, now: int, other: string)
    requires key == other || exists i :: 0 <= i < |bs| && bs[i].key == other
    requires key == other || !Evicts(env, bs, key) || bs[0].key != other
    ensures var next := Take(env, bs, key, now).0; exists i :: 0 <= i < |next| && next[i].key == other
  {
    hide IndexOf;
    var next := Take(env, bs, key, now).0;
    var at := IndexOf(bs, key);
    if key == other {
      assert next[if at < |bs| then at else |next| - 1].key == key;
    } else {
      var i :| 0 <= i < |bs| && bs[i].key == other;
      assert next[if Evicts(env, bs, key) then i - 1 else i].key == other;
    }
  }

  // ---- The bound ----

  predicate KeysFrom(calls: seq<Call>, emptyAllowed: bool) {
    emptyAllowed || forall i :: 0 <= i < |calls| ==> calls[i].key != ""
  }

  lemma {:induction false} NoEmptyKeys(env: ThrottleEnv, calls: seq<Call>, n: nat)
    requires n <= |calls| && KeysFrom(calls, false)
    ensures forall i :: 0 <= i < |After(env, calls, n)| ==> After(env, calls, n)[i].key != ""
    ensures |After(env, calls, n)| <= Max(1, env.maxTracked)
  {
    if n > 0 {
      NoEmptyKeys(env, calls, n - 1);
    }
  }

  /** A key of `n` letters. */
  function Letters(n: nat): string {
    seq(n, _ => 'a')
  }

  /** The empty key first, then ever longer ones, all at one instant. */
  function Growing(n: nat): seq<Call> {
    seq(n, i requires 0 <= i < n => Call(Letters(i), 0))
  }

  lemma EmptyKeyStays(env: ThrottleEnv, bs: seq<Bucket>, key: string, now: int)
    requires bs != [] && bs[0].key == ""
    ensures var next := Take(env, bs, key, now).0;
            && |next| == |bs| + (if IndexOf(bs, key) == |bs| then 1 else 0)
            && (forall i :: 0 <= i < |bs| ==> next[i].key == bs[i].key)
            && (IndexOf(bs, key) == |bs| ==> next[|bs|].key == key)
            && !Evicts(env, bs, key)
  {
  }

  /** The entries of the shorter list keep their place in the longer one. */
  predicate KeepsPlaces(bs: seq<Bucket>, next: seq<Bucket>) {
    |bs| <= |next| && forall i :: 0 <= i < |bs| ==> next[i].key == bs[i].key
  }

  predicate Blocked(bs: seq<Bucket>) {
    bs != [] && bs[0].key == ""
  }

  lemma BlockedStep(env: ThrottleEnv, calls: seq<Call>, n: nat)
    requires n < |calls| && Blocked(After(env, calls, n))
    ensures var bs, next := After(env, calls, n), After(env, calls, n + 1);
            && Blocked(next) && KeepsPlaces(bs, next)
            && |next| == |bs| + (if IndexOf(bs, calls[n].key) == |bs| then 1 else 0)
            && forall key :: !EvictedAt(env, calls, n, key)
  {
    hide Take, Evicts;
    EmptyKeyStays(env, After(env, calls, n), calls[n].key, calls[n].now);
  }

  /**
   Once the empty key is the oldest entry nothing is ever evicted again: every
   entry keeps its place, and each call with a new key adds one.
   */
  lemma {:induction false} EmptyKeyBlocksEviction(env: ThrottleEnv, calls: seq<Call>, m: nat, n: nat)
    requires m <= n < |calls| && Blocked(After(env, calls, m))
    ensures var bs, next := After(env, calls, n), After(env, calls, n + 1);
            && KeepsPlaces(After(env, calls, m), next) && Blocked(next)
            && |next| == |bs| + (if IndexOf(bs, calls[n].key) == |bs| then 1 else 0)
            && forall key :: !EvictedAt(env, calls, n, key)
  {
    hide After, EvictedAt, Blocked, IndexOf;
    if m < n {
      EmptyKeyBlocksEviction(env, calls, m, n - 1);
    }
    BlockedStep(env, calls, n);
  }

  function Grown(n: nat): seq<Bucket> {
    seq(n, i requires 0 <= i < n => Bucket(Letters(i), 0, 0))
  }

  /** A longer key is new and pushes nothing out, as the oldest key is empty. */
  lemma GrownTakes(env: ThrottleEnv, n: nat)
    ensures Take(env, Grown(n), Letters(n), 0).0 == Grown(n + 1)
  {
    hide IndexOf;
    var bs := Grown(n);
    assert forall i :: 0 <= i < n ==> |bs[i].key| == i;
    assert |Letters(n)| == n;
    assert IndexOf(bs, Letters(n)) == |bs|;
    assert !Evicts(env, bs, Letters(n));
  }

  /** The growing run keeps every entry. */
  lemma {:induction false} GrowingKeepsAll(env: ThrottleEnv, total: nat, n: nat)
    requires n <= total
    ensures After(env, Growing(total), n) == Grown(n)
  {
    hide Take;
    if n > 0 {
      GrowingKeepsAll(env, total, n - 1);
      GrownTakes(env, n - 1);
    }
  }

  /**
   The map stays within its limit, one entry at least, over every run exactly
   when the empty key cannot occur: as the oldest entry it is never evicted and
   the map grows without bound.
   */
  lemma BoundIsExact(env: ThrottleEnv, emptyAllowed: bool)
    ensures !emptyAllowed
            <==> forall calls :: KeysFrom(calls, emptyAllowed) ==>
                   |After(env, calls, |calls|)| <= Max(1, env.maxTracked)
  {
    if emptyAllowed {
      var n := Max(1, env.maxTracked) + 1;
      GrowingKeepsAll(env, n, n);
      assert KeysFrom(Growing(n), emptyAllowed) && |After(env, Growing(n), |Growing(n)|)| == n;
    } else {
      forall calls | KeysFrom(calls, emptyAllowed) ensures |After(env, calls, |calls|)| <= Max(1, env.maxTracked) {
        NoEmptyKeys(env, calls, |calls|);
      }
    }
  }

  /** The process error reporter prefixes every key with its kind, so its map is bounded. */
  function ReportKey(kind: string, reason: string): string {
    kind + ":" + reason
  }

  lemma ReporterIsBounded(env: ThrottleEnv, calls: seq<Call>)
    requires forall i :: 0 <= i < |calls| ==> exists kind, reason :: calls[i].key == ReportKey(kind, reason)
    ensures |After(env, calls, |calls|)| <= Max(1, env.maxTracked)
  {
    NoEmptyKeys(env, calls, |calls|);
  }

  // ---- In place ----

  class Throttle {
    const env: ThrottleEnv
    var buckets: seq<Bucket>

    constructor (env: ThrottleEnv)
      ensures this.env == env && buckets == []
    {
      this.env := env;
      buckets := [];
    }

    method TakeCall(key: string, now: int) returns (suppressed: Option<nat>)
      modifies this`buckets
      ensures (buckets, suppressed) == Take(env, old(buckets), key, now)
    {
      var i := IndexOf(buckets, key);
      if i < |buckets| && now - buckets[i].lastLoggedAt < env.windowMs {
        buckets := buckets[i := buckets[i].(suppressed := buckets[i].suppressed + 1)];
        return None;
      }
      if i < |buckets| {
        suppressed := Some(buckets[i].suppressed);
        buckets := buckets[i := Bucket(key, now, 0)];
        return;
      }
      if |buckets| >= env.maxTracked && buckets != [] && buckets[0].key != "" {
        buckets := buckets[1..];
      }
      buckets := buckets + [Bucket(key, now, 0)];
      return Some(0);
    }
  }
}
