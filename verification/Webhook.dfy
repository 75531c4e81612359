/** Webhook delivery: the inline attempts, the retry gate and the sweep over undelivered events. */
module Webhook {
  import opened Common
  import opened EventStore

  const SWEEP_BACKOFF_BASE_MS := 120_000
  const SWEEP_BACKOFF_MAX_MS := 3_600_000
  const SWEEP_AGE_MS := 120_000
  const SWEEP_LIMIT := 50
  const POST_TIMEOUT_MS := 10_000
  const RETRY_DELAYS_MS := [1000, 5000, 25000, 60000, 120000]

  /** How one POST ends; `error` is the text the source stores. */
  datatype Reply = Status(code: int, error: string) | NetworkError(error: string)

  predicate Accepted(r: Reply) {
    r.Status? && 200 <= r.code <= 299
  }

  predicate Retryable(r: Reply) {
    r.NetworkError? || (!Accepted(r) && (r.code >= 500 || r.code == 429))
  }

  // ---- The retry gate ----

  function RetryDelay(maxAttempts: nat, attempts: nat): int {
    Min(SWEEP_BACKOFF_BASE_MS * Pow2(Max(0, attempts - maxAttempts)), SWEEP_BACKOFF_MAX_MS)
  }

  lemma {:induction false} Pow2Grows(m: nat, n: nat)
    requires m <= n
    ensures Pow2(m) <= Pow2(n)
  {
    if m < n { Pow2Grows(m, n - 1); }
  }

  /** The gate lies between two minutes and an hour ahead and never shrinks as attempts grow. */
  lemma RetryDelayGrows(maxAttempts: nat, attempts: nat, more: nat)
    requires attempts <= more
    ensures SWEEP_BACKOFF_BASE_MS <= RetryDelay(maxAttempts, attempts)
    ensures RetryDelay(maxAttempts, attempts) <= RetryDelay(maxAttempts, more) <= SWEEP_BACKOFF_MAX_MS
  {
    Pow2Grows(Max(0, attempts - maxAttempts), Max(0, more - maxAttempts));
  }

  /** Two minutes while the inline attempts last; each attempt beyond doubles the gate, up to the hour. */
  lemma RetryDelayDoubles(maxAttempts: nat, attempts: nat)
    ensures attempts <= maxAttempts ==> RetryDelay(maxAttempts, attempts) == 120_000
    ensures attempts >= maxAttempts ==>
              RetryDelay(maxAttempts, attempts + 1) == Min(2 * RetryDelay(maxAttempts, attempts), 3_600_000)
  {
    if attempts >= maxAttempts {
      assert Pow2(attempts + 1 - maxAttempts) == 2 * Pow2(attempts - maxAttempts);
    }
  }

  // ---- Inline delivery ----

  /**
   The attempt the inline loop stops after: the first that is accepted or must not be repeated, or
   the last allowed.
   */
  predicate StopsAfter(maxAttempts: nat, replies: nat -> Reply, posts: nat) {
    && 1 <= posts <= maxAttempts
    && (forall i :: 0 <= i < posts - 1 ==> Retryable(replies(i)))
    && (posts == maxAttempts || !Retryable(replies(posts - 1)))
  }

  /** What a finished round writes: attempts made so far, and for a failure the gate of the next one. */
  function MarkRound(maxAttempts: nat, t: Events, key: string, attempts: nat, last: Reply, clock: int,
          now: int): Events {
    if Accepted(last) then Mark(t, key, Delivered, attempts, None, None, now)
    else Mark(t, key, FailedDelivery, attempts, Some(last.error), Some(clock + RetryDelay(maxAttempts, attempts)), now)
  }

  /**
   Only an answer from 200 to 299 delivers an event; every other end of a round keeps it for later,
   with its error.
   */
  lemma RoundOutcome(maxAttempts: nat, t: Events, key: string, attempts: nat, last: Reply, clock: int, now: int)
    requires key in t
    ensures var q := MarkRound(maxAttempts, t, key, attempts, last, clock, now);
            && q.Keys == t.Keys && q[key].attempts == attempts && q[key].receivedAt == t[key].receivedAt
            && if last.Status? && 200 <= last.code <= 299
               then && q[key].status == Delivered && q[key].deliveredAt == Some(now) && q[key].nextAttemptAt.None?
                    && forall at :: !Selectable(q[key], SWEEP_AGE_MS, at)
               else && q[key].status == FailedDelivery && q[key].lastError == Some(last.error)
                    && q[key].deliveredAt == t[key].deliveredAt
                    && q[key].nextAttemptAt == Some(clock + RetryDelay(maxAttempts, attempts))
  {
  }

  // ---- The sweep ----

  /** The rows `undeliveredEvents` returns: selectable, oldest first, none left out for a younger one. */
  predicate Selection(t: Events, keys: seq<string>, now: int) {
    && |keys| <= SWEEP_LIMIT
    && (forall i :: 0 <= i < |keys| ==> keys[i] in t && Selectable(t[keys[i]], SWEEP_AGE_MS, now))
    && (forall i, j :: 0 <= i < j < |keys| ==> keys[i] != keys[j] && t[keys[i]].receivedAt <= t[keys[j]].receivedAt)
    && (forall key :: key in t && Selectable(t[key], SWEEP_AGE_MS, now) && key !in keys ==>
          |keys| == SWEEP_LIMIT && forall i :: 0 <= i < |keys| ==> t[keys[i]].receivedAt <= t[key].receivedAt)
  }

  /** The selectable rows received no later than the given one, itself included. */
  function Ahead(t: Events, key: string, now: int): set<string>
    requires key in t
  {
    set k | k in t && Selectable(t[k], SWEEP_AGE_MS, now) && t[k].receivedAt <= t[key].receivedAt
  }

  function KeySet(keys: seq<string>): set<string> {
    set i | 0 <= i < |keys| :: keys[i]
  }

  lemma {:induction false} KeySetSize(keys: seq<string>)
    requires forall i, j :: 0 <= i < j < |keys| ==> keys[i] != keys[j]
    ensures |KeySet(keys)| == |keys|
  {
    if keys == [] {
      assert KeySet(keys) == {};
    } else {
      var rest, last := keys[..|keys| - 1], keys[|keys| - 1];
      KeySetSize(rest);
      assert forall i :: 0 <= i < |rest| ==> rest[i] == keys[i];
      assert KeySet(keys) == KeySet(rest) + {last};
      assert last !in KeySet(rest);
    }
  }

  lemma SmallerSet(a: set<string>, b: set<string>)
    requires a <= b
    ensures |a| <= |b|
  {
    SubsetSize(a, b);
  }

  /**
   A due row is selected whenever the due rows received no later fit into one sweep, and only when
   the earlier ones do.
   */
  lemma SelectedWhenItsTurn(t: Events, keys: seq<string>, now: int, key: string)
    requires Selection(t, keys, now) && key in t && Selectable(t[key], SWEEP_AGE_MS, now)
    ensures |Ahead(t, key, now)| <= SWEEP_LIMIT ==> key in keys
    ensures key in keys ==>
              |set k | k in t && Selectable(t[k], SWEEP_AGE_MS, now) && t[k].receivedAt < t[key].receivedAt|
              < SWEEP_LIMIT
  {
    KeySetSize(keys);
    if key !in keys {
      assert KeySet(keys) + {key} <= Ahead(t, key, now);
      assert |KeySet(keys) + {key}| == |keys| + 1;
      SmallerSet(KeySet(keys) + {key}, Ahead(t, key, now));
    } else {
      var earlier := set k | k in t && Selectable(t[k], SWEEP_AGE_MS, now) && t[k].receivedAt < t[key].receivedAt;
      forall k | k in earlier ensures k in KeySet(keys) - {key} {
        assert k in keys;
      }
      SmallerSet(earlier, KeySet(keys) - {key});
    }
  }

  /** A reply and the clock readings of one retry. */
  datatype Retry = Retry(reply: Reply, clock: int, markedAt: int)

  /** One attempt for each selected row, counting from the attempts read when it was selected. */
  function Swept(maxAttempts: nat, read: Events, t: Events, keys: seq<string>, retries: nat -> Retry): Events
    requires forall i :: 0 <= i < |keys| ==> keys[i] in read
  {
    if keys == [] then t
    else
      var n := |keys| - 1;
      assert forall i :: 0 <= i < n ==> keys[..n][i] == keys[i];
      var r := retries(n);
      MarkRound(maxAttempts, Swept(maxAttempts, read, t, keys[..n], retries), keys[n], read[keys[n]].attempts + 1,
                r.reply, r.clock, r.markedAt)
  }

  lemma SweptLast(maxAttempts: nat, read: Events, t: Events, keys: seq<string>, retries: nat -> Retry)
    requires keys != [] && forall i :: 0 <= i < |keys| ==> keys[i] in read
    ensures var n := |keys| - 1;
            var r := retries(n);
            && (forall i :: 0 <= i < n ==> keys[..n][i] in read)
            && Swept(maxAttempts, read, t, keys, retries)
               == MarkRound(maxAttempts, Swept(maxAttempts, read, t, keys[..n], retries), keys[n],
                            read[keys[n]].attempts + 1, r.reply, r.clock, r.markedAt)
  {
  }

  /** A round writes the row of its key, from that row alone. */
  lemma RoundIsLocal(maxAttempts: nat, t: Events, t': Events, key: string, attempts: nat, last: Reply, clock: int,
          now: int)
    ensures var q := MarkRound(maxAttempts, t, key, attempts, last, clock, now);
            && q.Keys == t.Keys
            && (forall other :: other in t && other != key ==> q[other] == t[other])
            && (key in t && key in t' && t[key] == t'[key] ==>
                  q[key] == MarkRound(maxAttempts, t', key, attempts, last, clock, now)[key])
  {
    hide RetryDelay;
  }

  lemma {:induction false} SweptElsewhere(maxAttempts: nat, t: Events, keys: seq<string>, retries: nat -> Retry,
          key: string)
    requires forall i :: 0 <= i < |keys| ==> keys[i] in t && keys[i] != key
    ensures var q := Swept(maxAttempts, t, t, keys, retries); q.Keys == t.Keys && (key in t ==> q[key] == t[key])
  {
    hide MarkRound, Swept;
    if keys == [] {
      SweptNothing(maxAttempts, t, retries);
    } else {
      var n := |keys| - 1;
      SweptLast(maxAttempts, t, t, keys, retries);
      SweptElsewhere(maxAttempts, t, keys[..n], retries, key);
      RoundIsLocal(maxAttempts, Swept(maxAttempts, t, t, keys[..n], retries), t, keys[n], t[keys[n]].attempts + 1,
                   retries(n).reply, retries(n).clock, retries(n).markedAt);
    }
  }

  lemma SweptNothing(maxAttempts: nat, t: Events, retries: nat -> Retry)
    ensures Swept(maxAttempts, t, t, [], retries) == t
  {
  }

  /** A sweep leaves every selected row as one round of its own would. */
  lemma {:induction false} SweptRowByRow(maxAttempts: nat, t: Events, keys: seq<string>, retries: nat -> Retry, i: nat)
    requires forall k :: 0 <= k < |keys| ==> keys[k] in t
    requires forall k, l :: 0 <= k < l < |keys| ==> keys[k] != keys[l]
    requires i < |keys|
    ensures var q, r := Swept(maxAttempts, t, t, keys, retries), retries(i);
            && keys[i] in q
            && q[keys[i]] == MarkRound(maxAttempts, t, keys[i], t[keys[i]].attempts + 1, r.reply, r.clock,
                                       r.markedAt)[keys[i]]
  {
    hide MarkRound, Swept;
    var n := |keys| - 1;
    var rest := keys[..n];
    SweptLast(maxAttempts, t, t, keys, retries);
    RoundIsLocal(maxAttempts, Swept(maxAttempts, t, t, rest, retries), t, keys[n], t[keys[n]].attempts + 1,
                 retries(n).reply, retries(n).clock, retries(n).markedAt);
    RoundIsLocal(maxAttempts, t, t, keys[i], t[keys[i]].attempts + 1, retries(i).reply, retries(i).clock,
                 retries(i).markedAt);
    if i < n {
      assert rest[i] == keys[i];
      SweptRowByRow(maxAttempts, t, rest, retries, i);
    } else {
      SweptElsewhere(maxAttempts, t, rest, retries, keys[n]);
    }
  }

  /**
   A full sweep takes its rows out of the way of those it left behind: at the
   same instant exactly fifty fewer are ahead, whatever the replies were.
   */
  lemma SweepClearsTheWay(maxAttempts: nat, t: Events, keys: seq<string>, retries: nat -> Retry, now: int, key: string)
    requires Selection(t, keys, now) && key in t && Selectable(t[key], SWEEP_AGE_MS, now) && key !in keys
    requires forall i :: 0 <= i < |keys| ==> retries(i).clock >= now
    ensures var q := Swept(maxAttempts, t, t, keys, retries);
            && key in q && q[key] == t[key]
            && Ahead(q, key, now) == Ahead(t, key, now) - KeySet(keys)
            && |Ahead(q, key, now)| == |Ahead(t, key, now)| - SWEEP_LIMIT
  {
    hide Swept, RetryDelay, MarkRound;
    var q := Swept(maxAttempts, t, t, keys, retries);
    SweptElsewhere(maxAttempts, t, keys, retries, key);
    assert q.Keys == t.Keys;
    forall k | k in t ensures k in Ahead(q, key, now) <==> k in Ahead(t, key, now) && k !in KeySet(keys) {
      if k in KeySet(keys) {
        var i :| 0 <= i < |keys| && keys[i] == k;
        SweptRowByRow(maxAttempts, t, keys, retries, i);
        MarkedIsGated(maxAttempts, t, k, t[k].attempts + 1, retries(i), now);
      } else {
        SweptElsewhere(maxAttempts, t, keys, retries, k);
      }
    }
    KeySetSize(keys);
    assert KeySet(keys) <= Ahead(t, key, now);
  }

  lemma MarkedIsGated(maxAttempts: nat, t: Events, key: string, attempts: nat, r: Retry, now: int)
    requires key in t && r.clock >= now
    ensures var q := MarkRound(maxAttempts, t, key, attempts, r.reply, r.clock, r.markedAt);
            key in q && !Selectable(q[key], SWEEP_AGE_MS, now)
  {
    RetryDelayGrows(maxAttempts, attempts, attempts);
  }

  // ---- Nothing is abandoned ----

  /** No row waits for a gate later than an hour from now, delivered ones included: they may be marked failed again. */
  predicate Recoverable(t: Events, now: int) {
    forall key :: key in t ==>
      && t[key].receivedAt <= now
      && (t[key].nextAttemptAt.Some? ==> t[key].nextAttemptAt.value <= now + SWEEP_BACKOFF_MAX_MS)
  }

  /** In a recoverable table every undelivered row is due within an hour, whatever its history. */
  lemma DueWithinTheHour(t: Events, now: int, key: string)
    requires Recoverable(t, now) && key in t && !t[key].status.Delivered?
    ensures Selectable(t[key], SWEEP_AGE_MS, now + SWEEP_BACKOFF_MAX_MS)
  {
  }

  datatype Action =
    | Store(key: string, walletId: string, recovered: bool, now: int)
    | Round(key: string, attempts: nat, last: Reply, clock: int, now: int)
    | Prune(days: nat, now: int)

  function At(a: Action): int {
    match a
    case Store(_, _, _, now) => now
    case Round(_, _, _, _, now) => now
    case Prune(_, now) => now
  }

  function Step(maxAttempts: nat, t: Events, a: Action): Events {
    match a
    case Store(key, walletId, recovered, now) => InsertIfNew(t, key, walletId, recovered, now).1
    case Round(key, attempts, last, clock, now) => MarkRound(maxAttempts, t, key, attempts, last, clock, now)
    case Prune(days, now) => PruneOld(t, days, now)
  }

  function Run(maxAttempts: nat, t: Events, trace: seq<Action>): Events {
    if trace == [] then t else Step(maxAttempts, Run(maxAttempts, t, trace[..|trace| - 1]), trace[|trace| - 1])
  }

  /** Time does not run backwards, and a round reads the clock before its mark executes. */
  predicate Timed(trace: seq<Action>) {
    && (forall i, j :: 0 <= i < j < |trace| ==> At(trace[i]) <= At(trace[j]))
    && (forall i :: 0 <= i < |trace| && trace[i].Round? ==> trace[i].clock <= trace[i].now)
  }

  lemma StaysRecoverable(maxAttempts: nat, t: Events, a: Action, before: int)
    requires Recoverable(t, before) && before <= At(a) && (a.Round? ==> a.clock <= a.now)
    ensures Recoverable(Step(maxAttempts, t, a), At(a))
  {
    if a.Round? {
      RetryDelayGrows(maxAttempts, a.attempts, a.attempts);
    }
  }

  /**
   A payment webhook is never given up: in every run of stores, rounds (inline or
   swept, in any interleaving) and prunes, a row that is not delivered is due
   again at most an hour after the last event of the run.
   */
  lemma {:induction false} NeverGivenUp(maxAttempts: nat, trace: seq<Action>, key: string)
    requires trace != [] && Timed(trace)
    ensures Recoverable(Run(maxAttempts, map[], trace), At(trace[|trace| - 1]))
    ensures var t := Run(maxAttempts, map[], trace);
            key in t && !t[key].status.Delivered? ==>
              Selectable(t[key], SWEEP_AGE_MS, At(trace[|trace| - 1]) + SWEEP_BACKOFF_MAX_MS)
  {
    var rest, a := trace[..|trace| - 1], trace[|trace| - 1];
    var t := Run(maxAttempts, map[], rest);
    var before := if rest == [] then At(a) else At(rest[|rest| - 1]);
    if rest != [] {
      NeverGivenUp(maxAttempts, rest, key);
    }
    StaysRecoverable(maxAttempts, t, a, before);
    var after := Run(maxAttempts, map[], trace);
    if key in after && !after[key].status.Delivered? {
      DueWithinTheHour(after, At(a), key);
    }
  }

  /** After a failed round the sweep may pick the row from its gate on, and not before. */
  lemma GateIsExact(maxAttempts: nat, t: Events, key: string, attempts: nat, last: Reply, clock: int, now: int, at: int)
    requires key in t && !Accepted(last) && t[key].receivedAt < clock
    ensures var row := MarkRound(maxAttempts, t, key, attempts, last, clock, now)[key];
            && row.attempts == attempts
            && (Selectable(row, SWEEP_AGE_MS, at) <==> at >= clock + RetryDelay(maxAttempts, attempts))
  {
    RetryDelayGrows(maxAttempts, attempts, attempts);
  }

  // ---- In place ----

  class WebhookDispatcher {
    const maxAttempts: nat
    var events: Events
    var posted: nat
    var delivered: nat
    var failed: nat

    constructor (maxAttempts: nat)
      requires maxAttempts >= 1
      ensures this.maxAttempts == maxAttempts && events == map[] && posted == delivered == failed == 0
    {
      this.maxAttempts := maxAttempts;
      events, posted, delivered, failed := map[], 0, 0, 0;
    }

    /** The inline loop: `prior` attempts were made before; one mark at the end carries prior plus posts. */
    method Dispatch(key: string, prior: nat, replies: nat -> Reply, clock: int, now: int) returns (posts: nat)
      requires maxAttempts >= 1
      modifies this
      ensures StopsAfter(maxAttempts, replies, posts) && posted == old(posted) + posts
      ensures events == MarkRound(maxAttempts, old(events), key, prior + posts, replies(posts - 1), clock, now)
      ensures delivered == old(delivered) + (if Accepted(replies(posts - 1)) then 1 else 0)
      ensures delivered + failed == old(delivered) + old(failed) + 1
      ensures forall i :: 0 <= i < posts - 1 ==>
                replies(i).NetworkError? || replies(i).code >= 500 || replies(i).code == 429
      ensures posts < maxAttempts ==>
                var last := replies(posts - 1); last.Status? && last.code < 500 && last.code != 429
      ensures key in old(events) ==>
                var last := replies(posts - 1);
                (events[key].status == Delivered <==> last.Status? && 200 <= last.code <= 299)
    {
      var attempts := prior;
      posts := 0;
      for i := 0 to maxAttempts
        invariant posts == i && attempts == prior + i && posted == old(posted) + i
        invariant forall k :: 0 <= k < i ==> Retryable(replies(k))
        invariant i < maxAttempts
        invariant events == old(events) && delivered == old(delivered) && failed == old(failed)
      {
        attempts := attempts + 1;
        posts := posts + 1;
        posted := posted + 1;
        var reply := replies(i);
        if Accepted(reply) {
          delivered := delivered + 1;
          events := Mark(events, key, Delivered, attempts, None, None, now);
          return;
        }
        if !Retryable(reply) || i == maxAttempts - 1 {
          failed := failed + 1;
          events := Mark(events, key, FailedDelivery, attempts, Some(reply.error),
                         Some(clock + RetryDelay(maxAttempts, attempts)), now);
          return;
        }
      }
    }

    method RetryOnce(key: string, attemptsRead: nat, r: Retry)
      modifies this
      ensures events == MarkRound(maxAttempts, old(events), key, attemptsRead + 1, r.reply, r.clock, r.markedAt)
      ensures posted == old(posted) + 1 && delivered + failed == old(delivered) + old(failed) + 1
      ensures key in old(events) ==>
                (events[key].status == Delivered <==> r.reply.Status? && 200 <= r.reply.code <= 299)
    {
      posted := posted + 1;
      if Accepted(r.reply) {
        delivered := delivered + 1;
        events := Mark(events, key, Delivered, attemptsRead + 1, None, None, r.markedAt);
      } else {
        failed := failed + 1;
        events := Mark(events, key, FailedDelivery, attemptsRead + 1, Some(r.reply.error),
                       Some(r.clock + RetryDelay(maxAttempts, attemptsRead + 1)), r.markedAt);
      }
    }

    /** One attempt per selected row; the loop body is the only writer while it runs alone. */
    method Sweep(keys: seq<string>, now: int, retries: nat -> Retry)
      requires Selection(events, keys, now)
      modifies this
      ensures events == Swept(maxAttempts, old(events), old(events), keys, retries)
      ensures posted == old(posted) + |keys|
    {
      hide MarkRound, Swept, Selectable;
      ghost var read := events;
      var attempts := map key | key in events :: events[key].attempts;
      assert keys[..0] == [];
      SweptNothing(maxAttempts, read, retries);
      for i := 0 to |keys|
        invariant events == Swept(maxAttempts, read, read, keys[..i], retries)
        invariant posted == old(posted) + i
      {
        assert keys[..i + 1][..i] == keys[..i];
        SweptLast(maxAttempts, read, read, keys[..i + 1], retries);
        RetryOnce(keys[i], attempts[keys[i]], retries(i));
      }
      assert keys[..|keys|] == keys;
    }
  }
}
