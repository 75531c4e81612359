/** Detection of dead wallets: a streak of confirmed probe timeouts over successive sweeps of the pool. */
module DeadProber {
  import opened Common

  /** A pool entry as a sweep finds it; the pool's map holds one per wallet id. */
  datatype Entry = Entry(id: string, ready: bool, hasClient: bool, foreground: bool, relaysUp: bool,
                         lastResponsiveAt: Option<int>)

  datatype ProbeResult = Alive | Timeout | Inconclusive

  /** What the loop sees of one candidate: read just before, during and after its probe. */
  datatype Observation = Observation(
    foreground: bool, result: ProbeResult, holdsClient: bool, relaysConnected: bool, delivered: bool)

  datatype Sweep = Sweep(entries: seq<Entry>, now: int, seen: string -> Observation)

  datatype ProberEnv = ProberEnv(thresholdMs: nat, confirmations: nat)

  datatype Candidate = Candidate(id: string, unresponsiveMs: int)

  /** A wallet without a streak has no entry. */
  datatype Prober = Prober(timeoutStreak: map<string, nat>, reported: set<string>)

  const FRESH := Prober(map[], {})

  predicate Valid(sweep: Sweep) {
    forall i, j :: 0 <= i < j < |sweep.entries| ==> sweep.entries[i].id != sweep.entries[j].id
  }

  // ---- What the pool reports ----

  predicate Subscribed(e: Entry) {
    e.ready && e.hasClient && !e.foreground
  }

  /** Relays up, and silent for at least the threshold. */
  predicate Silent(env: ProberEnv, e: Entry, now: int) {
    Subscribed(e) && e.relaysUp && e.lastResponsiveAt.Some? && now - e.lastResponsiveAt.value >= env.thresholdMs
  }

  function Live(sweep: Sweep): set<string> {
    set e | e in sweep.entries && Subscribed(e) :: e.id
  }

  function CandidatesOf(env: ProberEnv, entries: seq<Entry>, now: int): seq<Candidate> {
    if entries == [] then []
    else
      var e := entries[|entries| - 1];
      CandidatesOf(env, entries[..|entries| - 1], now)
      + if Silent(env, e, now) then [Candidate(e.id, now - e.lastResponsiveAt.value)] else []
  }

  function Candidates(env: ProberEnv, sweep: Sweep): seq<Candidate> {
    CandidatesOf(env, sweep.entries, sweep.now)
  }

  predicate SilentAmong(env: ProberEnv, entries: seq<Entry>, now: int, id: string) {
    exists e :: e in entries && e.id == id && Silent(env, e, now)
  }

  predicate SilentIn(env: ProberEnv, sweep: Sweep, id: string) {
    SilentAmong(env, sweep.entries, sweep.now, id)
  }

  predicate Listed(cs: seq<Candidate>, id: string) {
    exists i :: 0 <= i < |cs| && cs[i].id == id
  }

  /** The candidates are exactly the silent wallets, each listed once. */
  lemma {:induction false} CandidatesAreSilent(env: ProberEnv, entries: seq<Entry>, now: int)
    requires forall i, j :: 0 <= i < j < |entries| ==> entries[i].id != entries[j].id
    ensures var cs := CandidatesOf(env, entries, now);
            && (forall id :: Listed(cs, id) <==> SilentAmong(env, entries, now, id))
            && (forall i, j :: 0 <= i < j < |cs| ==> cs[i].id != cs[j].id)
            && (forall c :: c in cs ==> c.unresponsiveMs >= env.thresholdMs)
  {
    if entries != [] {
      var rest, last := entries[..|entries| - 1], entries[|entries| - 1];
      var before, cs := CandidatesOf(env, rest, now), CandidatesOf(env, entries, now);
      CandidatesAreSilent(env, rest, now);
      assert entries == rest + [last];
      forall i | 0 <= i < |before| ensures before[i].id != last.id {
        assert Listed(before, before[i].id);
        var e :| e in rest && e.id == before[i].id && Silent(env, e, now);
      }
      forall id ensures Listed(cs, id) <==> SilentAmong(env, entries, now, id) {
        assert SilentAmong(env, entries, now, id)
               <==> SilentAmong(env, rest, now, id) || (last.id == id && Silent(env, last, now));
        assert Listed(cs, id) <==> Listed(before, id) || (last.id == id && Silent(env, last, now)) by {
          if Listed(before, id) {
            var i :| 0 <= i < |before| && before[i].id == id;
            assert cs[i].id == id;
          }
          if last.id == id && Silent(env, last, now) {
            assert cs[|before|].id == id;
          }
        }
      }
    }
  }

  // ---- One sweep ----

  /** Forget reports of wallets no longer subscribed and streaks of wallets no longer silent. */
  function Pruned(env: ProberEnv, s: Prober, sweep: Sweep): Prober {
    var ids := set c | c in Candidates(env, sweep) :: c.id;
    Prober(map id | id in s.timeoutStreak && id in ids :: s.timeoutStreak[id], s.reported * Live(sweep))
  }

  predicate ConfirmedTimeout(o: Observation) {
    !o.foreground && o.result.Timeout? && o.holdsClient && o.relaysConnected
  }

  function StreakOf(s: Prober, id: string): nat {
    if id in s.timeoutStreak then s.timeoutStreak[id] else 0
  }

  /** The loop body, and whether it sent a `wallet_dead` report. */
  function Probe(env: ProberEnv, s: Prober, id: string, o: Observation): (Prober, bool) {
    if id in s.reported || o.foreground then (s, false)
    else if !ConfirmedTimeout(o) then (s.(timeoutStreak := s.timeoutStreak - {id}), false)
    else
      var streak := StreakOf(s, id) + 1;
      if streak < env.confirmations then (s.(timeoutStreak := s.timeoutStreak[id := streak]), false)
      else if o.delivered then (Prober(s.timeoutStreak - {id}, s.reported + {id}), true)
      else (s.(timeoutStreak := s.timeoutStreak[id := streak]), true)
  }

  function ProbeAll(env: ProberEnv, s: Prober, cs: seq<Candidate>, seen: string -> Observation): (Prober, seq<string>) {
    if cs == [] then (s, [])
    else
      var c := cs[|cs| - 1];
      var (s1, sent) := ProbeAll(env, s, cs[..|cs| - 1], seen);
      var (s2, report) := Probe(env, s1, c.id, seen(c.id));
      (s2, if report then sent + [c.id] else sent)
  }

  /** `evaluate`: the state after one sweep and the reports it sent. */
  function Evaluate(env: ProberEnv, s: Prober, sweep: Sweep): (Prober, seq<string>) {
    ProbeAll(env, Pruned(env, s, sweep), Candidates(env, sweep), sweep.seen)
  }

  // ---- One wallet on its own ----

  datatype Standing = Standing(streak: nat, reported: bool)

  function StandingOf(s: Prober, id: string): Standing {
    Standing(StreakOf(s, id), id in s.reported)
  }

  /** What one sweep means for one wallet, seen without the others. */
  function Advance(env: ProberEnv, w: Standing, sweep: Sweep, id: string): (Standing, bool) {
    var reported := w.reported && id in Live(sweep);
    var o := sweep.seen(id);
    if !SilentIn(env, sweep, id) then (Standing(0, reported), false)
    else if reported || o.foreground then (Standing(w.streak, reported), false)
    else if !ConfirmedTimeout(o) then (Standing(0, false), false)
    else if w.streak + 1 < env.confirmations then (Standing(w.streak + 1, false), false)
    else if o.delivered then (Standing(0, true), true)
    else (Standing(w.streak + 1, false), true)
  }

  lemma ProbeIsLocal(env: ProberEnv, s: Prober, id: string, o: Observation, other: string)
    requires id != other
    ensures StandingOf(Probe(env, s, id, o).0, other) == StandingOf(s, other)
  {
  }

  lemma ProbeFollowsStanding(env: ProberEnv, s: Prober, s': Prober, id: string, o: Observation)
    requires StandingOf(s, id) == StandingOf(s', id)
    ensures StandingOf(Probe(env, s, id, o).0, id) == StandingOf(Probe(env, s', id, o).0, id)
    ensures Probe(env, s, id, o).1 == Probe(env, s', id, o).1
  {
  }

  lemma {:induction false} ProbeAllElsewhere(env: ProberEnv, s: Prober, cs: seq<Candidate>, seen: string -> Observation,
          id: string)
    requires forall i :: 0 <= i < |cs| ==> cs[i].id != id
    ensures StandingOf(ProbeAll(env, s, cs, seen).0, id) == StandingOf(s, id)
    ensures id !in ProbeAll(env, s, cs, seen).1
  {
    if cs != [] {
      var rest := cs[..|cs| - 1];
      ProbeAllElsewhere(env, s, rest, seen, id);
      ProbeIsLocal(env, ProbeAll(env, s, rest, seen).0, cs[|cs| - 1].id, seen(cs[|cs| - 1].id), id);
    }
  }

  lemma {:induction false} ProbeAllAt(env: ProberEnv, s: Prober, cs: seq<Candidate>, seen: string -> Observation,
          k: nat)
    requires k < |cs| && forall i, j :: 0 <= i < j < |cs| ==> cs[i].id != cs[j].id
    ensures var (q, sent) := ProbeAll(env, s, cs, seen);
            var id := cs[k].id;
            && (forall s1 :: StandingOf(s1, id) == StandingOf(s, id) ==>
                  StandingOf(Probe(env, s1, id, seen(id)).0, id) == StandingOf(q, id)
                    && Probe(env, s1, id, seen(id)).1 == (id in sent))
  {
    hide Probe, StandingOf;
    var rest, last := cs[..|cs| - 1], cs[|cs| - 1];
    var before := ProbeAll(env, s, rest, seen);
    if k < |rest| {
      assert rest[k] == cs[k];
      ProbeAllAt(env, s, rest, seen, k);
      ProbeIsLocal(env, before.0, last.id, seen(last.id), cs[k].id);
    } else {
      ProbeAllElsewhere(env, s, rest, seen, last.id);
      forall s1 | StandingOf(s1, last.id) == StandingOf(s, last.id)
        ensures StandingOf(Probe(env, s1, last.id, seen(last.id)).0, last.id)
                == StandingOf(Probe(env, before.0, last.id, seen(last.id)).0, last.id)
        ensures Probe(env, s1, last.id, seen(last.id)).1 == Probe(env, before.0, last.id, seen(last.id)).1
      {
        ProbeFollowsStanding(env, s1, before.0, last.id, seen(last.id));
      }
    }
  }

  lemma PrunedStanding(env: ProberEnv, s: Prober, sweep: Sweep, id: string)
    requires Valid(sweep)
    ensures StandingOf(Pruned(env, s, sweep), id)
            == Standing(if SilentIn(env, sweep, id) then StreakOf(s, id) else 0, id in s.reported && id in Live(sweep))
  {
    var cs := Candidates(env, sweep);
    CandidatesAreSilent(env, sweep.entries, sweep.now);
    assert Listed(cs, id) <==> id in (set c | c in cs :: c.id) by {
      if Listed(cs, id) {
        var i :| 0 <= i < |cs| && cs[i].id == id;
        assert cs[i] in cs;
      }
    }
  }

  /** Probing one pruned wallet is its advance. */
  lemma ProbeIsAdvance(env: ProberEnv, s: Prober, pruned: Prober, sweep: Sweep, id: string)
    requires SilentIn(env, sweep, id)
    requires StandingOf(pruned, id) == Standing(StreakOf(s, id), id in s.reported && id in Live(sweep))
    ensures var (q, report) := Probe(env, pruned, id, sweep.seen(id));
            Advance(env, StandingOf(s, id), sweep, id) == (StandingOf(q, id), report)
  {
    hide SilentIn, Live;
  }

  /** The shared maps keep every wallet apart: a sweep advances each wallet as if it were alone. */
  lemma SweepAdvancesEach(env: ProberEnv, s: Prober, sweep: Sweep, id: string)
    requires Valid(sweep)
    ensures var (q, sent) := Evaluate(env, s, sweep);
            Advance(env, StandingOf(s, id), sweep, id) == (StandingOf(q, id), id in sent)
  {
    hide CandidatesOf, SilentAmong, Probe, ProbeAll, Pruned, Live;
    var cs := Candidates(env, sweep);
    var pruned := Pruned(env, s, sweep);
    CandidatesAreSilent(env, sweep.entries, sweep.now);
    PrunedStanding(env, s, sweep, id);
    assert Listed(cs, id) <==> SilentIn(env, sweep, id);
    if Listed(cs, id) {
      var k :| 0 <= k < |cs| && cs[k].id == id;
      ProbeAllAt(env, pruned, cs, sweep.seen, k);
      ProbeIsAdvance(env, s, pruned, sweep, id);
    } else {
      ProbeAllElsewhere(env, pruned, cs, sweep.seen, id);
    }
  }

  // ---- All sweeps ----

  predicate AllValid(history: seq<Sweep>) {
    forall i :: 0 <= i < |history| ==> Valid(history[i])
  }

  /** The prober after the first `n` sweeps. */
  function After(env: ProberEnv, history: seq<Sweep>, n: nat): Prober
    requires n <= |history|
  {
    if n == 0 then FRESH else Evaluate(env, After(env, history, n - 1), history[n - 1]).0
  }

  /** Sweep `i` sent a `wallet_dead` report. */
  predicate SentAt(env: ProberEnv, history: seq<Sweep>, id: string, i: nat)
    requires i < |history|
  {
    id in Evaluate(env, After(env, history, i), history[i]).1
  }

  predicate DeliveredAt(env: ProberEnv, history: seq<Sweep>, id: string, i: nat)
    requires i < |history|
  {
    SentAt(env, history, id, i) && history[i].seen(id).delivered
  }

  /**
   The report sweep `k` delivered still stands after `n` sweeps: the wallet has been subscribed at
   every one since.
   */
  predicate StandsSince(env: ProberEnv, history: seq<Sweep>, id: string, k: nat, n: nat)
    requires k < n <= |history|
  {
    DeliveredAt(env, history, id, k) && forall j :: k < j < n ==> id in Live(history[j])
  }

  predicate ReportStands(env: ProberEnv, history: seq<Sweep>, id: string, n: nat)
    requires n <= |history|
  {
    exists k :: 0 <= k < n && StandsSince(env, history, id, k, n)
  }

  /** At sweep `i` an earlier report still stands. */
  predicate Excused(env: ProberEnv, history: seq<Sweep>, id: string, i: nat)
    requires i < |history|
  {
    ReportStands(env, history, id, i) && id in Live(history[i])
  }

  /**
   Sweep `i` confirmed a timeout: silent at its start, probed on the client still held, relays up, no
   report standing.
   */
  predicate ConfirmedAt(env: ProberEnv, history: seq<Sweep>, id: string, i: nat)
    requires i < |history|
  {
    SilentIn(env, history[i], id) && !Excused(env, history, id, i) && ConfirmedTimeout(history[i].seen(id))
  }

  /** Sweep `i` ended the streak: the wallet was not silent, its probe did not confirm, or its death was delivered. */
  predicate ResetAt(env: ProberEnv, history: seq<Sweep>, id: string, i: nat)
    requires i < |history|
  {
    var o := history[i].seen(id);
    || !SilentIn(env, history[i], id)
    || (!Excused(env, history, id, i) && !o.foreground && !ConfirmedTimeout(o))
    || DeliveredAt(env, history, id, i)
  }

  /** Confirmed timeouts in sweeps `from` up to `n`. */
  function Confirmations(env: ProberEnv, history: seq<Sweep>, id: string, from: nat, n: nat): nat
    requires from <= n <= |history|
  {
    if from == n then 0
    else Confirmations(env, history, id, from, n - 1) + if ConfirmedAt(env, history, id, n - 1) then 1 else 0
  }

  /** The streak after `n` sweeps began with sweep `from`: no reset since, and one just before. */
  predicate StreakBegan(env: ProberEnv, history: seq<Sweep>, id: string, from: nat, n: nat)
    requires from <= n <= |history|
  {
    && (from > 0 ==> ResetAt(env, history, id, from - 1))
    && (forall i :: from <= i < n ==> !ResetAt(env, history, id, i))
  }

  lemma AfterOne(env: ProberEnv, history: seq<Sweep>, id: string, n: nat)
    requires AllValid(history) && n < |history|
    ensures Advance(env, StandingOf(After(env, history, n), id), history[n], id)
            == (StandingOf(After(env, history, n + 1), id), SentAt(env, history, id, n))
  {
    hide Evaluate;
    SweepAdvancesEach(env, After(env, history, n), history[n], id);
  }

  /** Membership in `reported` is exactly a standing report. */
  lemma {:induction false} ReportedIsStanding(env: ProberEnv, history: seq<Sweep>, id: string, n: nat)
    requires AllValid(history) && n <= |history|
    ensures id in After(env, history, n).reported <==> ReportStands(env, history, id, n)
  {
    hide Evaluate, Live, SilentIn, SentAt;
    if n > 0 {
      ReportedIsStanding(env, history, id, n - 1);
      AfterOne(env, history, id, n - 1);
      StandingNext(env, history, id, n - 1);
    }
  }

  lemma StandingNext(env: ProberEnv, history: seq<Sweep>, id: string, n: nat)
    requires n < |history|
    ensures ReportStands(env, history, id, n + 1) <==> Excused(env, history, id, n) || DeliveredAt(env, history, id, n)
  {
    hide SentAt, Live;
    if Excused(env, history, id, n) {
      var k :| 0 <= k < n && StandsSince(env, history, id, k, n);
      assert StandsSince(env, history, id, k, n + 1);
    }
    if DeliveredAt(env, history, id, n) {
      assert StandsSince(env, history, id, n, n + 1);
    }
    if ReportStands(env, history, id, n + 1) {
      var k :| 0 <= k < n + 1 && StandsSince(env, history, id, k, n + 1);
      if k < n {
        assert StandsSince(env, history, id, k, n);
      }
    }
  }

  /** One more sweep, in terms of the history alone. */
  lemma StreakNext(env: ProberEnv, history: seq<Sweep>, id: string, n: nat)
    requires AllValid(history) && n < |history|
    ensures var before, after := StreakOf(After(env, history, n), id), StreakOf(After(env, history, n + 1), id);
            && after == (if ResetAt(env, history, id, n) then 0
                         else if ConfirmedAt(env, history, id, n) then before + 1 else before)
            && (SentAt(env, history, id, n) <==> ConfirmedAt(env, history, id, n) && before + 1 >= env.confirmations)
  {
    hide Evaluate, Live, SilentIn, SentAt, ReportStands, After, StreakOf;
    ReportedIsStanding(env, history, id, n);
    AfterOne(env, history, id, n);
  }

  /** `timeoutStreak` is the number of confirmed timeouts since the last reset. */
  lemma {:induction false} StreakCounts(env: ProberEnv, history: seq<Sweep>, id: string, from: nat, n: nat)
    requires AllValid(history) && from <= n <= |history| && StreakBegan(env, history, id, from, n)
    ensures StreakOf(After(env, history, n), id) == Confirmations(env, history, id, from, n)
  {
    hide ResetAt, ConfirmedAt, Evaluate;
    if from < n {
      StreakCounts(env, history, id, from, n - 1);
      StreakNext(env, history, id, n - 1);
    } else if n > 0 {
      StreakNext(env, history, id, n - 1);
    }
  }

  /** Every streak began somewhere. */
  lemma {:induction false} StreakHasBeginning(env: ProberEnv, history: seq<Sweep>, id: string, n: nat)
    returns (from: nat)
    requires n <= |history|
    ensures from <= n && StreakBegan(env, history, id, from, n)
  {
    hide ResetAt;
    if n == 0 || ResetAt(env, history, id, n - 1) {
      from := n;
    } else {
      from := StreakHasBeginning(env, history, id, n - 1);
    }
  }

  /**
   Death needs a full streak: a sweep reports a wallet dead exactly when it
   confirms a timeout and, with it, the confirmations since the last reset reach
   the required number.
   */
  lemma DeathNeedsFullStreak(env: ProberEnv, history: seq<Sweep>, id: string, i: nat, from: nat)
    requires AllValid(history) && from <= i < |history| && StreakBegan(env, history, id, from, i)
    ensures SentAt(env, history, id, i)
            <==> ConfirmedAt(env, history, id, i) && Confirmations(env, history, id, from, i + 1) >= env.confirmations
  {
    hide ResetAt, ConfirmedAt, Evaluate, SentAt;
    StreakCounts(env, history, id, from, i);
    StreakNext(env, history, id, i);
  }

  /** A delivered report is not sent again while the wallet is subscribed at every sweep. */
  lemma NotResentWhileSubscribed(env: ProberEnv, history: seq<Sweep>, id: string, k: nat, i: nat)
    requires AllValid(history) && k < i < |history| && DeliveredAt(env, history, id, k)
    requires forall j :: k < j <= i ==> id in Live(history[j])
    ensures !SentAt(env, history, id, i)
  {
    hide Evaluate, SentAt;
    assert StandsSince(env, history, id, k, i);
    StreakNext(env, history, id, i);
  }

  // ---- Death in terms of what was observed ----

  /**
   The sweep began with the wallet ready, its client held, no card payment, its relays up, and silent
   for too long.
   */
  predicate FoundSilent(env: ProberEnv, sweep: Sweep, id: string) {
    exists e :: e in sweep.entries && e.id == id && e.ready && e.hasClient && !e.foreground && e.relaysUp
                && e.lastResponsiveAt.Some? && sweep.now - e.lastResponsiveAt.value >= env.thresholdMs
  }

  /** Found silent and probed: no answer within the window, on a client the pool still holds, with relays still up. */
  predicate Damning(env: ProberEnv, sweep: Sweep, id: string) {
    var o := sweep.seen(id);
    FoundSilent(env, sweep, id) && !o.foreground && o.result == Timeout && o.holdsClient && o.relaysConnected
  }

  /** Not found silent, or probed with an answer, an unclear failure, a client no longer held, or relays down. */
  predicate Exonerates(env: ProberEnv, sweep: Sweep, id: string) {
    var o := sweep.seen(id);
    || !FoundSilent(env, sweep, id)
    || (!o.foreground && (o.result != Timeout || !o.holdsClient || !o.relaysConnected))
  }

  function DamningSweeps(env: ProberEnv, history: seq<Sweep>, id: string, from: nat, n: nat): nat
    requires from <= n <= |history|
  {
    if from == n then 0
    else DamningSweeps(env, history, id, from, n - 1) + if Damning(env, history[n - 1], id) then 1 else 0
  }

  /** One sweep of a wallet whose death is not yet reported, field by field. */
  lemma ObservedAdvance(env: ProberEnv, w: Standing, sweep: Sweep, id: string)
    requires w.reported ==> w.streak == 0
    ensures var (next, sent) := Advance(env, w, sweep, id);
            && (next.reported ==> next.streak == 0)
            && (Exonerates(env, sweep, id) ==> next.streak == 0 && !sent)
            && (!w.reported && Damning(env, sweep, id) ==>
                  && (sent <==> w.streak + 1 >= env.confirmations)
                  && (next.reported <==> sent && sweep.seen(id).delivered)
                  && (!next.reported ==> next.streak == w.streak + 1))
            && (!w.reported && !Exonerates(env, sweep, id) && !Damning(env, sweep, id) ==> next == w && !sent)
            && (w.reported ==> next.streak == 0 || Damning(env, sweep, id))
            && (sent ==> Damning(env, sweep, id) && w.streak + 1 >= env.confirmations)
            && (next.streak > 0 && !Damning(env, sweep, id) ==> next.streak == w.streak)
            && (next.streak > 0 && Damning(env, sweep, id) ==> next.streak == w.streak + 1)
  {
    assert SilentIn(env, sweep, id) <==> FoundSilent(env, sweep, id);
    if w.reported && FoundSilent(env, sweep, id) {
      assert id in Live(sweep);
    }
  }

  /** The same of a whole sweep: who is reported, and whose streak is over. */
  lemma ObservedSweep(env: ProberEnv, s: Prober, sweep: Sweep)
    requires Valid(sweep)
    ensures var (q, sent) := Evaluate(env, s, sweep);
            forall id :: (id in s.reported ==> StreakOf(s, id) == 0) ==>
              && (id in sent ==> Damning(env, sweep, id) && StreakOf(s, id) + 1 >= env.confirmations)
              && (Exonerates(env, sweep, id) ==> StreakOf(q, id) == 0 && id !in sent)
  {
    hide Evaluate, Advance, Damning, Exonerates;
    var (q, sent) := Evaluate(env, s, sweep);
    forall id | id in s.reported ==> StreakOf(s, id) == 0
      ensures id in sent ==> Damning(env, sweep, id) && StreakOf(s, id) + 1 >= env.confirmations
      ensures Exonerates(env, sweep, id) ==> StreakOf(q, id) == 0 && id !in sent
    {
      SweepAdvancesEach(env, s, sweep, id);
      ObservedAdvance(env, StandingOf(s, id), sweep, id);
    }
  }

  lemma {:induction false} ReportedHasNoStreak(env: ProberEnv, history: seq<Sweep>, id: string, n: nat)
    requires AllValid(history) && n <= |history|
    ensures id in After(env, history, n).reported ==> StreakOf(After(env, history, n), id) == 0
  {
    hide Evaluate, Advance, SentAt, Damning, Exonerates;
    if n > 0 {
      ReportedHasNoStreak(env, history, id, n - 1);
      AfterOne(env, history, id, n - 1);
      ObservedAdvance(env, StandingOf(After(env, history, n - 1), id), history[n - 1], id);
    }
  }

  /** A sweep that exonerates leaves no streak and sends nothing, whatever was before. */
  lemma ExoneratedHasNoStreak(env: ProberEnv, history: seq<Sweep>, id: string, i: nat)
    requires AllValid(history) && i < |history| && Exonerates(env, history[i], id)
    ensures StreakOf(After(env, history, i + 1), id) == 0 && !SentAt(env, history, id, i)
  {
    hide Evaluate, Advance, SentAt, Damning, Exonerates;
    ReportedHasNoStreak(env, history, id, i);
    AfterOne(env, history, id, i);
    ObservedAdvance(env, StandingOf(After(env, history, i), id), history[i], id);
  }

  /** Every streak is made of that many damning sweeps, with nothing exonerating in between. */
  lemma {:induction false} StreakIsObserved(env: ProberEnv, history: seq<Sweep>, id: string, n: nat)
    returns (from: nat)
    requires AllValid(history) && n <= |history|
    ensures from <= n && StreakOf(After(env, history, n), id) == DamningSweeps(env, history, id, from, n)
    ensures forall j :: from <= j < n ==> !Exonerates(env, history[j], id)
  {
    hide Evaluate, Advance, SentAt, Damning, Exonerates;
    from := n;
    if StreakOf(After(env, history, n), id) > 0 && n > 0 {
      ReportedHasNoStreak(env, history, id, n - 1);
      AfterOne(env, history, id, n - 1);
      ObservedAdvance(env, StandingOf(After(env, history, n - 1), id), history[n - 1], id);
      from := StreakIsObserved(env, history, id, n - 1);
    }
  }

  /**
   A report of death is earned: the sweep that sends it found the wallet silent
   and got no answer on a client still held with relays up, and so did enough
   sweeps before it, none of which, nor any in between, gave a sign of life.
   */
  lemma DeathIsEarned(env: ProberEnv, history: seq<Sweep>, id: string, i: nat) returns (from: nat)
    requires AllValid(history) && i < |history| && SentAt(env, history, id, i)
    ensures from <= i && Damning(env, history[i], id)
    ensures DamningSweeps(env, history, id, from, i + 1) >= env.confirmations
    ensures forall j :: from <= j <= i ==> !Exonerates(env, history[j], id)
  {
    hide Evaluate, Advance, SentAt, Damning, Exonerates;
    from := StreakIsObserved(env, history, id, i);
    ReportedHasNoStreak(env, history, id, i);
    AfterOne(env, history, id, i);
    ObservedAdvance(env, StandingOf(After(env, history, i), id), history[i], id);
  }

  /**
   And enough evidence is acted on: as long as no report was delivered, a sweep
   reports the wallet exactly when it is damning and the damning sweeps since
   the last exonerating one are enough.
   */
  lemma EvidenceIsActedOn(env: ProberEnv, history: seq<Sweep>, id: string, from: nat, i: nat)
    requires AllValid(history) && from <= i < |history| && (from > 0 ==> Exonerates(env, history[from - 1], id))
    requires forall j :: from <= j < i ==> !Exonerates(env, history[j], id)
    requires forall j :: 0 <= j < i ==> !(SentAt(env, history, id, j) && history[j].seen(id).delivered)
    ensures SentAt(env, history, id, i)
            <==> Damning(env, history[i], id) && DamningSweeps(env, history, id, from, i + 1) >= env.confirmations
  {
    hide Evaluate, Advance, SentAt, Damning, Exonerates;
    UnreportedStreak(env, history, id, from, i);
    AfterOne(env, history, id, i);
    ObservedAdvance(env, StandingOf(After(env, history, i), id), history[i], id);
  }

  lemma {:induction false} UnreportedStreak(env: ProberEnv, history: seq<Sweep>, id: string, from: nat, n: nat)
    requires AllValid(history) && from <= n <= |history| && (from > 0 ==> Exonerates(env, history[from - 1], id))
    requires forall j :: from <= j < n ==> !Exonerates(env, history[j], id)
    requires forall j :: 0 <= j < n ==> !(SentAt(env, history, id, j) && history[j].seen(id).delivered)
    ensures id !in After(env, history, n).reported
    ensures StreakOf(After(env, history, n), id) == DamningSweeps(env, history, id, from, n)
  {
    hide Evaluate, Live, Advance, SentAt, Damning, Exonerates;
    ReportedIsStanding(env, history, id, n);
    if from < n {
      UnreportedStreak(env, history, id, from, n - 1);
      AfterOne(env, history, id, n - 1);
      ObservedAdvance(env, StandingOf(After(env, history, n - 1), id), history[n - 1], id);
    } else if n > 0 {
      ExoneratedHasNoStreak(env, history, id, n - 1);
    }
  }

  /** Bookkeeping ends with the subscription: what counts as subscribed, field by field. */
  lemma LiveMeansSubscribed(sweep: Sweep, id: string)
    ensures id in Live(sweep)
            <==> exists e :: e in sweep.entries && e.id == id && e.ready && e.hasClient && !e.foreground
  {
  }

  /** The silence a report tells is the one found. */
  lemma {:induction false} SilenceIsTold(env: ProberEnv, entries: seq<Entry>, now: int, c: Candidate)
    requires c in CandidatesOf(env, entries, now)
    ensures exists e :: e in entries && e.id == c.id && e.lastResponsiveAt == Some(now - c.unresponsiveMs)
  {
    var rest, last := entries[..|entries| - 1], entries[|entries| - 1];
    if c in CandidatesOf(env, rest, now) {
      SilenceIsTold(env, rest, now, c);
      var e :| e in rest && e.id == c.id && e.lastResponsiveAt == Some(now - c.unresponsiveMs);
      assert e in entries;
    } else {
      assert last in entries && last.lastResponsiveAt == Some(now - c.unresponsiveMs);
    }
  }

  // ---- In place ----

  class DeadWalletProber {
    const env: ProberEnv
    var timeoutStreak: map<string, nat>
    var reported: set<string>
    var running: bool

    ghost function State(): Prober
      reads this
    {
      Prober(timeoutStreak, reported)
    }

    constructor (env: ProberEnv)
      ensures this.env == env && State() == FRESH && !running
    {
      this.env := env;
      timeoutStreak, reported, running := map[], {}, false;
    }

    /** The pool's candidate filter. */
    method DeadCandidates(sweep: Sweep) returns (cs: seq<Candidate>)
      ensures cs == Candidates(env, sweep)
    {
      cs := [];
      for i := 0 to |sweep.entries|
        invariant cs == CandidatesOf(env, sweep.entries[..i], sweep.now)
      {
        var e := sweep.entries[i];
        assert sweep.entries[..i + 1][..i] == sweep.entries[..i];
        if Silent(env, e, sweep.now) {
          cs := cs + [Candidate(e.id, sweep.now - e.lastResponsiveAt.value)];
        }
      }
      assert sweep.entries[..|sweep.entries|] == sweep.entries;
    }

    method SubscribedIds(sweep: Sweep) returns (live: set<string>)
      ensures live == Live(sweep)
    {
      live := {};
      for i := 0 to |sweep.entries|
        invariant live == set e | e in sweep.entries[..i] && Subscribed(e) :: e.id
      {
        assert sweep.entries[..i + 1] == sweep.entries[..i] + [sweep.entries[i]];
        if Subscribed(sweep.entries[i]) {
          live := live + {sweep.entries[i].id};
        }
      }
      assert sweep.entries[..|sweep.entries|] == sweep.entries;
    }

    /** Keeps the reports of subscribed wallets and the streaks of candidates. */
    method DropBookkeeping(live: set<string>, candidateIds: set<string>)
      modifies this`reported, this`timeoutStreak
      ensures reported == old(reported) * live
      ensures timeoutStreak == map id | id in old(timeoutStreak) && id in candidateIds :: old(timeoutStreak)[id]
    {
      var left := reported;
      while left != {}
        invariant left <= old(reported) && reported == old(reported) - ((old(reported) - left) - live)
        invariant timeoutStreak == old(timeoutStreak)
      {
        var id :| id in left;
        left := left - {id};
        if id !in live {
          reported := reported - {id};
        }
      }
      left := timeoutStreak.Keys;
      while left != {}
        invariant left <= old(timeoutStreak).Keys && reported == old(reported) * live
        invariant timeoutStreak == old(timeoutStreak) - ((old(timeoutStreak).Keys - left) - candidateIds)
      {
        var id :| id in left;
        left := left - {id};
        if id !in candidateIds {
          timeoutStreak := timeoutStreak - {id};
        }
      }
    }

    /** One sweep; nothing happens while another one runs. */
    method EvaluateSweep(sweep: Sweep) returns (sent: seq<string>)
      modifies this
      ensures running == old(running)
      ensures if old(running) then State() == old(State()) && sent == []
              else (State(), sent) == Evaluate(env, old(State()), sweep)
      ensures !old(running) && Valid(sweep) ==>
                forall id :: (id in old(reported) ==> StreakOf(old(State()), id) == 0) ==>
                  && (id in sent ==> Damning(env, sweep, id) && StreakOf(old(State()), id) + 1 >= env.confirmations)
                  && (Exonerates(env, sweep, id) ==> StreakOf(State(), id) == 0 && id !in sent)
    {
      hide Live, Probe, Damning, Exonerates, Silent, Subscribed;
      sent := [];
      if running {
        return;
      }
      running := true;
      var candidates := DeadCandidates(sweep);
      var live := SubscribedIds(sweep);
      DropBookkeeping(live, set c | c in candidates :: c.id);
      ghost var pruned := State();
      assert pruned == Pruned(env, old(State()), sweep);
      for i := 0 to |candidates|
        invariant running && (State(), sent) == ProbeAll(env, pruned, candidates[..i], sweep.seen)
      {
        assert candidates[..i + 1][..i] == candidates[..i];
        var id := candidates[i].id;
        var reply := ProbeOne(id, sweep.seen(id));
        if reply {
          sent := sent + [id];
        }
      }
      assert candidates[..|candidates|] == candidates;
      running := false;
      if Valid(sweep) {
        ObservedSweep(env, old(State()), sweep);
      }
    }

    method ProbeOne(id: string, o: Observation) returns (report: bool)
      modifies this`timeoutStreak, this`reported
      ensures (State(), report) == Probe(env, old(State()), id, o)
      ensures report ==> id !in old(reported) && !o.foreground && o.result == Timeout
                         && o.holdsClient && o.relaysConnected
      ensures id !in old(reported) && !o.foreground && (o.result != Timeout || !o.holdsClient || !o.relaysConnected) ==>
                id !in timeoutStreak
    {
      report := false;
      if id in reported || o.foreground {
        return;
      }
      if !o.result.Timeout? || !o.holdsClient || !o.relaysConnected {
        timeoutStreak := timeoutStreak - {id};
        return;
      }
      var streak := (if id in timeoutStreak then timeoutStreak[id] else 0) + 1;
      if streak < env.confirmations {
        timeoutStreak := timeoutStreak[id := streak];
        return;
      }
      report := true;
      if o.delivered {
        reported := reported + {id};
        timeoutStreak := timeoutStreak - {id};
      } else {
        timeoutStreak := timeoutStreak[id := streak];
      }
    }
  }
}
