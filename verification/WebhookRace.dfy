/**
 One event's first delivery round beside the sweep: when the sweep can pick the row up before the
 round has finished.
 */
module WebhookRace {
  import opened Common
  import opened EventStore
  import opened Webhook

  /** `lagMs` bounds the waits that have no limit of their own: the insert's reply, a late timer, the final mark. */
  datatype RaceEnv = RaceEnv(maxAttempts: nat, lagMs: nat)

  /** The inline loop between two awaits. */
  datatype Phase = Stored | Posting | Sleeping | Marking | Finished

  /**
   `since` is when the phase began, `replies` are those of the posts so far and
   `swept` is the attempt count read by a sweep that has selected the row.
   `overlapped` and `lost` remember whether a sweep ever selected the row before
   its first round had finished, and whether a delivered row was marked failed.
   */
  datatype Race = Race(
    events: Events, key: string, storedAt: int, phase: Phase, since: int, now: int, replies: seq<Reply>,
    swept: Option<nat>, overlapped: bool, lost: bool)

  datatype Action =
    | Begin(at: int)
    | PostEnds(at: int, reply: Reply)
    | SleepEnds(at: int)
    | MarkEnds(at: int)
    | SweepSelects(at: int)
    | SweepPosts(at: int, reply: Reply)

  function Start(key: string, walletId: string, storedAt: int): Race {
    Race(InsertIfNew(map[], key, walletId, false, storedAt).1, key, storedAt, Stored, storedAt, storedAt, [], None,
         false, false)
  }

  /** The pause after the given number of failed posts. */
  function Pause(posts: nat): int
    requires posts >= 1
  {
    RETRY_DELAYS_MS[Min(posts - 1, |RETRY_DELAYS_MS| - 1)]
  }

  /** The latest instant the present phase can end. */
  function Latest(env: RaceEnv, s: Race): int {
    match s.phase
    case Stored => s.since + env.lagMs
    case Posting => s.since + POST_TIMEOUT_MS
    case Sleeping => if s.replies == [] then s.since else s.since + Pause(|s.replies|) + env.lagMs
    case Marking => s.since + env.lagMs
    case Finished => s.now
  }

  predicate Enabled(s: Race, a: Action) {
    match a
    case Begin(_) => s.phase.Stored?
    case PostEnds(_, _) => s.phase.Posting?
    case SleepEnds(at) => s.phase.Sleeping? && s.replies != [] && at >= s.since + Pause(|s.replies|)
    case MarkEnds(_) => s.phase.Marking? && s.replies != [] && s.key in s.events
    case SweepSelects(at) => s.swept.None? && s.key in s.events && Selectable(s.events[s.key], SWEEP_AGE_MS, at)
    case SweepPosts(_, _) => s.swept.Some? && s.key in s.events
  }

  /** Time does not run backwards, and no phase outlasts its limit. */
  predicate Timely(env: RaceEnv, s: Race, a: Action) {
    s.now <= a.at && (!s.phase.Finished? ==> a.at <= Latest(env, s))
  }

  function Marked(env: RaceEnv, s: Race, attempts: nat, last: Reply, clock: int, now: int): Race
    requires s.key in s.events
  {
    var events := MarkRound(env.maxAttempts, s.events, s.key, attempts, last, clock, now);
    s.(events := events, lost := s.lost || (s.events[s.key].status.Delivered? && !Accepted(last)))
  }

  function Step(env: RaceEnv, s: Race, a: Action): Race
    requires Enabled(s, a)
  {
    var t := s.(now := a.at);
    match a
    case Begin(at) => t.(phase := Posting, since := at)
    case PostEnds(at, reply) =>
      t.(phase := if !Retryable(reply) || |s.replies| + 1 == env.maxAttempts then Marking else Sleeping,
         since := at, replies := s.replies + [reply])
    case SleepEnds(at) => t.(phase := Posting, since := at)
    case MarkEnds(at) =>
      Marked(env, t, |s.replies|, s.replies[|s.replies| - 1], s.since, at).(phase := Finished, since := at)
    case SweepSelects(at) =>
      t.(swept := Some(s.events[s.key].attempts), overlapped := s.overlapped || !s.phase.Finished?)
    case SweepPosts(at, reply) => Marked(env, t, s.swept.value + 1, reply, at, at).(swept := None)
  }

  /** The state after a run, None if some step of it is impossible. */
  function After(env: RaceEnv, s: Race, trace: seq<Action>): Option<Race> {
    if trace == [] then Some(s)
    else
      var before := After(env, s, trace[..|trace| - 1]);
      var a := trace[|trace| - 1];
      if before.Some? && Enabled(before.value, a) && Timely(env, before.value, a)
      then Some(Step(env, before.value, a))
      else None
  }

  // ---- How long a round can take ----

  /** The latest start of the post after `posts` failed ones. */
  function LatestStart(env: RaceEnv, posts: nat): int {
    if posts == 0 then env.lagMs
    else LatestStart(env, posts - 1) + POST_TIMEOUT_MS + Pause(posts) + env.lagMs
  }

  /** The longest a round can take from the insert to its mark. */
  function WorstCase(env: RaceEnv): int
    requires env.maxAttempts >= 1
  {
    LatestStart(env, env.maxAttempts - 1) + POST_TIMEOUT_MS + env.lagMs
  }

  lemma {:induction false} StartsGrow(env: RaceEnv, m: nat, n: nat)
    requires m <= n
    ensures env.lagMs <= LatestStart(env, m) <= LatestStart(env, n)
    decreases n
  {
    if m < n {
      StartsGrow(env, m, n - 1);
    } else if n > 0 {
      StartsGrow(env, n - 1, n - 1);
    }
  }

  /** Where a round stands: how late it can be, and that it stops where the loop of `Dispatch` stops. */
  predicate RoundOk(env: RaceEnv, s: Race) {
    var n := |s.replies|;
    match s.phase
    case Stored => n == 0 && s.since == s.storedAt
    case Posting => n < env.maxAttempts && AllRetryable(s.replies) && s.since <= s.storedAt + LatestStart(env, n)
    case Sleeping =>
      1 <= n < env.maxAttempts && AllRetryable(s.replies)
        && s.since <= s.storedAt + LatestStart(env, n - 1) + POST_TIMEOUT_MS
    case Marking => Stopped(env, s.replies) && s.since <= s.storedAt + LatestStart(env, n - 1) + POST_TIMEOUT_MS
    case Finished => Stopped(env, s.replies)
  }

  predicate AllRetryable(replies: seq<Reply>) {
    forall i :: 0 <= i < |replies| ==> Retryable(replies[i])
  }

  predicate Stopped(env: RaceEnv, replies: seq<Reply>) {
    var n := |replies|;
    1 <= n <= env.maxAttempts && AllRetryable(replies[..n - 1]) && (n == env.maxAttempts || !Retryable(replies[n - 1]))
  }

  /** A round that has ended made exactly the posts of the in-place dispatch method. */
  lemma EndedLikeDispatch(env: RaceEnv, s: Race, replies: nat -> Reply)
    requires RoundOk(env, s) && (s.phase.Marking? || s.phase.Finished?)
    requires forall i :: 0 <= i < |s.replies| ==> replies(i) == s.replies[i]
    ensures StopsAfter(env.maxAttempts, replies, |s.replies|)
  {
    var n := |s.replies|;
    forall i | 0 <= i < n - 1 ensures Retryable(replies(i)) {
      assert s.replies[..n - 1][i] == s.replies[i];
    }
  }

  /**
   The row of the event: there since the insert, and with one writer at a time unless a sweep
   overlapped the round.
   */
  predicate RowOk(env: RaceEnv, s: Race) {
    && env.maxAttempts >= 1 && s.key in s.events && s.events[s.key].receivedAt == s.storedAt
    && (s.overlapped || s.lost ==> WorstCase(env) > SWEEP_AGE_MS)
    && (!s.overlapped ==>
          && (!s.phase.Finished? ==> s.events[s.key].status.AwaitingDelivery? && s.swept.None?)
          && (s.events[s.key].status.Delivered? ==> s.swept.None?))
  }

  lemma LatestIsBounded(env: RaceEnv, s: Race)
    requires RoundOk(env, s) && !s.phase.Finished? && env.maxAttempts >= 1
    ensures Latest(env, s) <= s.storedAt + WorstCase(env)
  {
    var n := |s.replies|;
    StartsGrow(env, 0, env.maxAttempts - 1);
    if n < env.maxAttempts { StartsGrow(env, n, env.maxAttempts - 1); }
    if n >= 1 { StartsGrow(env, n - 1, env.maxAttempts - 1); }
  }

  lemma StepKeepsRound(env: RaceEnv, s: Race, a: Action)
    requires RoundOk(env, s) && Enabled(s, a) && Timely(env, s, a) && env.maxAttempts >= 1
    ensures RoundOk(env, Step(env, s, a))
  {
    hide MarkRound, Selectable;
    if a.PostEnds? {
      var replies := s.replies + [a.reply];
      assert replies[..|replies| - 1] == s.replies;
    }
  }

  lemma StepKeepsRow(env: RaceEnv, s: Race, a: Action)
    requires RoundOk(env, s) && RowOk(env, s) && Enabled(s, a) && Timely(env, s, a)
    ensures RowOk(env, Step(env, s, a))
  {
    hide WorstCase, RetryDelay, LatestStart;
    if a.SweepSelects? && !s.phase.Finished? {
      LatestIsBounded(env, s);
    }
  }

  lemma {:induction false} RunKeeps(env: RaceEnv, s: Race, trace: seq<Action>)
    requires RoundOk(env, s) && RowOk(env, s) && After(env, s, trace).Some?
    ensures RoundOk(env, After(env, s, trace).value) && RowOk(env, After(env, s, trace).value)
  {
    hide RoundOk, RowOk, Step, Timely;
    if trace != [] {
      var rest := trace[..|trace| - 1];
      RunKeeps(env, s, rest);
      RowHasAttempts(env, s);
      StepKeepsRound(env, After(env, s, rest).value, trace[|trace| - 1]);
      StepKeepsRow(env, After(env, s, rest).value, trace[|trace| - 1]);
    }
  }

  lemma RowHasAttempts(env: RaceEnv, s: Race)
    requires RowOk(env, s)
    ensures env.maxAttempts >= 1
  {
  }

  // ---- The slowest run ----

  const DOWN: Reply := NetworkError("connection refused")

  lemma AfterOneMore(env: RaceEnv, s: Race, trace: seq<Action>, a: Action)
    ensures var before := After(env, s, trace);
            After(env, s, trace + [a])
            == if before.Some? && Enabled(before.value, a) && Timely(env, before.value, a)
               then Some(Step(env, before.value, a)) else None
  {
    assert (trace + [a])[..|trace|] == trace;
  }

  /** Every wait as long as it can be and every post timed out: post number `posts` begins at its latest start. */
  lemma {:induction false} SlowestPosts(env: RaceEnv, key: string, walletId: string, t: int, posts: nat)
    returns (trace: seq<Action>)
    requires posts < env.maxAttempts
    ensures var s := After(env, Start(key, walletId, t), trace);
            && s.Some?
            && s.value == Start(key, walletId, t).(phase := Posting, since := t + LatestStart(env, posts),
                                                   now := t + LatestStart(env, posts), replies := s.value.replies)
            && |s.value.replies| == posts
  {
    var start := Start(key, walletId, t);
    if posts == 0 {
      trace := [Begin(t + env.lagMs)];
      AfterOneMore(env, start, [], Begin(t + env.lagMs));
      assert [] + [Begin(t + env.lagMs)] == trace;
    } else {
      var rest := SlowestPosts(env, key, walletId, t, posts - 1);
      var end := t + LatestStart(env, posts - 1) + POST_TIMEOUT_MS;
      AfterOneMore(env, start, rest, PostEnds(end, DOWN));
      var slept := t + LatestStart(env, posts);
      AfterOneMore(env, start, rest + [PostEnds(end, DOWN)], SleepEnds(slept));
      trace := rest + [PostEnds(end, DOWN)] + [SleepEnds(slept)];
    }
  }

  /** The last post has timed out and the mark is as late as it can be. */
  lemma SlowestRound(env: RaceEnv, key: string, walletId: string, t: int) returns (trace: seq<Action>, end: int)
    requires env.maxAttempts >= 1
    ensures var s := After(env, Start(key, walletId, t), trace);
            && s.Some? && end == t + WorstCase(env) - env.lagMs
            && s.value == Start(key, walletId, t).(phase := Marking, since := end, now := end,
                                                   replies := s.value.replies)
            && s.value.replies != [] && s.value.replies[|s.value.replies| - 1] == DOWN
  {
    var posts := SlowestPosts(env, key, walletId, t, env.maxAttempts - 1);
    end := t + LatestStart(env, env.maxAttempts - 1) + POST_TIMEOUT_MS;
    AfterOneMore(env, Start(key, walletId, t), posts, PostEnds(end, DOWN));
    trace := posts + [PostEnds(end, DOWN)];
  }

  /** The sweep selects the row, delivers it, and then the round's own mark says it failed. */
  lemma SweepOverlaps(env: RaceEnv, key: string, walletId: string, t: int) returns (trace: seq<Action>)
    requires env.maxAttempts >= 1 && WorstCase(env) > SWEEP_AGE_MS
    ensures var s := After(env, Start(key, walletId, t), trace);
            && s.Some? && s.value.overlapped && s.value.lost
            && s.value.phase.Finished? && key in s.value.events && s.value.events[key].status.FailedDelivery?
  {
    hide WorstCase, RetryDelay, After;
    var start := Start(key, walletId, t);
    var round, end := SlowestRound(env, key, walletId, t);
    var at := end + env.lagMs;
    AfterOneMore(env, start, round, SweepSelects(at));
    var picked := round + [SweepSelects(at)];
    AfterOneMore(env, start, picked, SweepPosts(at, Status(200, "")));
    var posted := picked + [SweepPosts(at, Status(200, ""))];
    AfterOneMore(env, start, posted, MarkEnds(at));
    trace := posted + [MarkEnds(at)];
  }

  // ---- The condition ----

  /** In some run a sweep selects the row while its first round is unfinished. */
  ghost predicate MayOverlap(env: RaceEnv, s: Race) {
    exists trace :: After(env, s, trace).Some? && After(env, s, trace).value.overlapped
  }

  /** In some run the row is marked failed after it was delivered. */
  ghost predicate MayLoseDelivery(env: RaceEnv, s: Race) {
    exists trace :: After(env, s, trace).Some? && After(env, s, trace).value.lost
  }

  lemma StartOk(env: RaceEnv, key: string, walletId: string, t: int)
    requires env.maxAttempts >= 1
    ensures RoundOk(env, Start(key, walletId, t)) && RowOk(env, Start(key, walletId, t))
  {
  }

  /**
   The two-minute age gate keeps the sweep away from an unfinished first round,
   and keeps a delivered row delivered, exactly when the longest round fits into it.
   */
  lemma GateSufficesExactly(env: RaceEnv, key: string, walletId: string, t: int)
    requires env.maxAttempts >= 1
    ensures MayOverlap(env, Start(key, walletId, t)) <==> WorstCase(env) > SWEEP_AGE_MS
    ensures MayLoseDelivery(env, Start(key, walletId, t)) <==> WorstCase(env) > SWEEP_AGE_MS
  {
    hide After, WorstCase, RoundOk;
    var start := Start(key, walletId, t);
    StartOk(env, key, walletId, t);
    if WorstCase(env) > SWEEP_AGE_MS {
      var trace := SweepOverlaps(env, key, walletId, t);
    } else {
      forall trace | After(env, start, trace).Some?
        ensures !After(env, start, trace).value.overlapped && !After(env, start, trace).value.lost
      {
        RunKeeps(env, start, trace);
      }
    }
  }

  /**
   With no delay but the posts and the pauses the gate suffices exactly up to
   four attempts; from five on, the default, it never does. With four, five
   further waits of up to 9.8 seconds each are tolerated.
   */
  lemma FourAttemptsFit(maxAttempts: nat, lagMs: nat)
    requires maxAttempts >= 1
    ensures WorstCase(RaceEnv(maxAttempts, 0)) <= SWEEP_AGE_MS <==> maxAttempts <= 4
    ensures maxAttempts >= 5 ==> WorstCase(RaceEnv(maxAttempts, lagMs)) > SWEEP_AGE_MS
    ensures maxAttempts == 4 ==> (WorstCase(RaceEnv(maxAttempts, lagMs)) <= SWEEP_AGE_MS <==> lagMs <= 9800)
  {
    FirstStarts(RaceEnv(maxAttempts, 0));
    FirstStarts(RaceEnv(maxAttempts, lagMs));
    if maxAttempts >= 5 {
      StartsGrow(RaceEnv(maxAttempts, 0), 4, maxAttempts - 1);
      StartsGrow(RaceEnv(maxAttempts, lagMs), 4, maxAttempts - 1);
    } else {
      StartsGrow(RaceEnv(maxAttempts, 0), maxAttempts - 1, 3);
    }
  }

  lemma FirstStarts(env: RaceEnv)
    ensures LatestStart(env, 3) == 61000 + 4 * env.lagMs && LatestStart(env, 4) == 131000 + 5 * env.lagMs
  {
    assert LatestStart(env, 1) == 11000 + 2 * env.lagMs;
    assert LatestStart(env, 2) == 26000 + 3 * env.lagMs;
  }
}
