/** The notification pipeline: dedup against the event table while old events are pruned. */
module Notifications {
  import opened Common
  import opened Encodings
  import opened EventStore
  import opened Hex
  import opened Journal
  import opened Payments
  import Protocol = PaymentProtocol

  /** A NIP-47 notification; a missing hash is empty, a missing timestamp is 0. Timestamps are seconds. */
  datatype Notification = Notification(
    kind: string, paymentHash: string, preimage: Json, feesPaid: Json, settledAt: int, createdAt: int)

  datatype PipelineEnv = PipelineEnv(payments: Env, retentionDays: nat)

  datatype Pipeline = Pipeline(
    journal: Table, events: Events, cursors: Cursors, received: nat, duplicates: nat, dispatched: seq<string>)

  /**
   One run of the handler: the clock readings at its awaits (the journal update,
   the age check by the local clock, the insert by the database), how the two
   statements end, and whether the cursor update of a live event gets through.
   */
  datatype Arrival = Arrival(
    walletId: string, notification: Notification, recovered: bool,
    resolvedAt: int, checkedAt: int, storedAt: int,
    journalFault: Fault, insertFault: Fault, cursorSaved: bool)

  /** The handler resolves to whether the event was new, or rejects. */
  datatype Handled = Returned(isNew: bool) | Threw

  /** `settled_at || created_at || 0`. */
  function Timestamp(n: Notification): int {
    if n.settledAt != 0 then n.settledAt else n.createdAt
  }

  function EventKey(env: PipelineEnv, walletId: string, n: Notification): string {
    ToHex(env.payments.textSha256(EventText(walletId, n.kind, n.paymentHash)))
  }

  /** Older than the retention window minus a day. */
  predicate TooOld(env: PipelineEnv, n: Notification, now: int) {
    Timestamp(n) * 1000 > 0 && now - Timestamp(n) * 1000 > (env.retentionDays - 1) * DAY
  }

  predicate ProvesPayment(env: PipelineEnv, n: Notification) {
    n.kind == "payment_sent" && n.preimage.JText? && VerifyPreimage(env.payments, n.preimage.text, n.paymentHash)
  }

  function SeenAt(a: Arrival): int {
    if Timestamp(a.notification) != 0 then Timestamp(a.notification) * 1000 else a.storedAt
  }

  function ResolvedJournal(env: PipelineEnv, t: Table, a: Arrival): Table {
    var n := a.notification;
    if !ProvesPayment(env, n) then t
    else Resolve(t, a.walletId, n.paymentHash, n.preimage.text,
                 if n.feesPaid.JInteger? && SafeAmount(n.feesPaid.value) then Some(n.feesPaid.value) else None,
                 a.resolvedAt)
  }

  /** The journal is to be updated and the statement fails. */
  predicate JournalFails(env: PipelineEnv, a: Arrival) {
    ProvesPayment(env, a.notification) && !a.journalFault.NoFault?
  }

  /** A statement of the handler fails, with or without effect. */
  predicate Throws(env: PipelineEnv, a: Arrival) {
    && a.notification.paymentHash != ""
    && (JournalFails(env, a) || (!TooOld(env, a.notification, a.checkedAt) && !a.insertFault.NoFault?))
  }

  /** Without a hash or too old: nothing is stored. */
  predicate TurnedAway(env: PipelineEnv, a: Arrival) {
    a.notification.paymentHash == "" || (!JournalFails(env, a) && TooOld(env, a.notification, a.checkedAt))
  }

  function Stored(env: PipelineEnv, s: Pipeline, a: Arrival): (Handled, Pipeline) {
    var key := EventKey(env, a.walletId, a.notification);
    var (isNew, events) := InsertIfNew(s.events, key, a.walletId, a.recovered, a.storedAt);
    if !a.insertFault.NoFault? then (Threw, if TookEffect(a.insertFault) then s.(events := events) else s)
    else
      (Returned(isNew),
       s.(events := events,
          cursors := if !a.recovered && a.cursorSaved
                    then AdvanceCursor(s.cursors, a.walletId, SeenAt(a))
                    else s.cursors,
          duplicates := if isNew then s.duplicates else s.duplicates + 1,
          dispatched := if isNew then s.dispatched + [key] else s.dispatched))
  }

  /** `handleNotification`: how it ends, and the state after it. */
  function Handle(env: PipelineEnv, s: Pipeline, a: Arrival): (Handled, Pipeline) {
    var counted := s.(received := s.received + 1);
    if a.notification.paymentHash == "" then (Returned(false), counted)
    else
      var resolved := if TookEffect(a.journalFault)
                      then counted.(journal := ResolvedJournal(env, s.journal, a))
                      else counted;
      if JournalFails(env, a) then (Threw, resolved)
      else if TooOld(env, a.notification, a.checkedAt) then (Returned(false), resolved)
      else Stored(env, resolved, a)
  }

  /** The handler rejects exactly when one of its statements fails. */
  lemma RejectsOnFaults(env: PipelineEnv, s: Pipeline, a: Arrival)
    ensures Handle(env, s, a).0.Threw? <==> Throws(env, a)
  {
  }

  /** The catch-up anchor follows live events that were stored, duplicates included, and nothing else moves it. */
  lemma OnlyLiveEventsMoveCursor(env: PipelineEnv, s: Pipeline, a: Arrival)
    ensures var q := Handle(env, s, a).1;
            && CursorsAdvance(s.cursors, q.cursors)
            && (forall id :: id in q.cursors && id != a.walletId ==> id in s.cursors && q.cursors[id] == s.cursors[id])
            && (!Throws(env, a) && !TurnedAway(env, a) && !a.recovered && a.cursorSaved ==>
                  a.walletId in q.cursors && q.cursors[a.walletId] >= SeenAt(a))
            && (Throws(env, a) || TurnedAway(env, a) || a.recovered ==> q.cursors == s.cursors)
  {
    hide ToHex, ResolvedJournal, VerifyPreimage, EventKey;
  }

  /**
   The journal half of the handler is the notification step of the payment protocol, whenever its
   statement takes effect.
   */
  lemma HandlerIsProtocolStep(env: PipelineEnv, s: Pipeline, a: Arrival, w: Protocol.World)
    requires w.table == s.journal && a.notification.kind == "payment_sent" && a.notification.preimage.JText?
    ensures Handle(env, s, a).1.journal
            == if TookEffect(a.journalFault)
               then Protocol.Notify(env.payments, w, a.walletId, a.notification.paymentHash,
                                    a.notification.preimage.text, a.notification.feesPaid, a.resolvedAt).table
               else s.journal
  {
    assert !VerifyPreimage(env.payments, a.notification.preimage.text, "");
  }

  // ---- Runs ----

  datatype Event =
    | Arrive(arrival: Arrival)
    | Prune(now: int)
    | Marked(key: string, status: DeliveryStatus, attempts: nat, error: Option<string>, nextAttemptAt: Option<int>,
             now: int)

  function Time(e: Event): int {
    match e
    case Arrive(a) => a.storedAt
    case Prune(now) => now
    case Marked(_, _, _, _, _, now) => now
  }

  function Step(env: PipelineEnv, s: Pipeline, e: Event): Pipeline {
    match e
    case Arrive(a) => Handle(env, s, a).1
    case Prune(now) => s.(events := PruneOld(s.events, env.retentionDays, now))
    case Marked(key, status, attempts, error, next, now) =>
      s.(events := Mark(s.events, key, status, attempts, error, next, now))
  }

  function Run(env: PipelineEnv, s: Pipeline, trace: seq<Event>): Pipeline {
    if trace == [] then s else Step(env, Run(env, s, trace[..|trace| - 1]), trace[|trace| - 1])
  }

  /** The step puts the event into the table, whether or not the handler learns of it. */
  predicate InsertsNew(env: PipelineEnv, s: Pipeline, e: Event, key: string) {
    key !in s.events && key in Step(env, s, e).events
  }

  /** When, over a run, the event `key` was stored as new. */
  function NewTimes(env: PipelineEnv, s: Pipeline, trace: seq<Event>, key: string): seq<int> {
    if trace == [] then []
    else
      var rest := trace[..|trace| - 1];
      var e := trace[|trace| - 1];
      NewTimes(env, s, rest, key) + if InsertsNew(env, Run(env, s, rest), e, key) then [Time(e)] else []
  }

  /** How often the event was handed to the dispatcher by its handler. */
  function Dispatches(s: Pipeline, key: string): nat {
    multiset(s.dispatched)[key]
  }

  lemma {:induction false} DispatchesAreNew(env: PipelineEnv, s: Pipeline, trace: seq<Event>, key: string)
    ensures Dispatches(Run(env, s, trace), key) <= Dispatches(s, key) + |NewTimes(env, s, trace, key)|
  {
    if trace != [] {
      var rest, e := trace[..|trace| - 1], trace[|trace| - 1];
      DispatchesAreNew(env, s, rest, key);
      StepDispatches(env, Run(env, s, rest), e, key);
    }
  }

  /** The handler hands its event to the dispatcher only when it has just stored it. */
  lemma ArrivalDispatches(env: PipelineEnv, s: Pipeline, a: Arrival)
    ensures var q, key := Handle(env, s, a).1, EventKey(env, a.walletId, a.notification);
            q.dispatched == s.dispatched
              || (q.dispatched == s.dispatched + [key] && key !in s.events && key in q.events)
  {
    hide ToHex, ResolvedJournal, VerifyPreimage, EventKey, TooOld;
  }

  lemma StepDispatches(env: PipelineEnv, s: Pipeline, e: Event, key: string)
    ensures Dispatches(Step(env, s, e), key) <= Dispatches(s, key) + if InsertsNew(env, s, e, key) then 1 else 0
  {
    hide Handle, EventKey;
    match e
    case Arrive(a) => ArrivalDispatches(env, s, a);
    case _ =>
  }

  /**
   An event that was stored is due for the webhook sweep once it is old enough, even if its handler
   never learnt of it.
   */
  lemma StoredIsDue(env: PipelineEnv, s: Pipeline, a: Arrival, key: string, olderThanMs: int, at: int)
    requires InsertsNew(env, s, Arrive(a), key)
    ensures Selectable(Handle(env, s, a).1.events[key], olderThanMs, at) <==> at > a.storedAt + olderThanMs
  {
    hide ToHex, ResolvedJournal, VerifyPreimage, EventKey;
  }

  /** Database time does not run backwards, and an age check precedes its insert by at most `delay`. */
  predicate WellTimed(trace: seq<Event>, delay: nat) {
    && (forall i, j :: 0 <= i < j < |trace| ==> Time(trace[i]) <= Time(trace[j]))
    && (forall i :: 0 <= i < |trace| && trace[i].Arrive? ==>
          trace[i].arrival.checkedAt <= trace[i].arrival.storedAt <= trace[i].arrival.checkedAt + delay)
  }

  /** Every copy of the event carries the timestamp `seconds`. */
  predicate CopiesCarry(env: PipelineEnv, trace: seq<Event>, key: string, seconds: int) {
    forall i :: 0 <= i < |trace| && trace[i].Arrive?
                && EventKey(env, trace[i].arrival.walletId, trace[i].arrival.notification) == key
                ==> Timestamp(trace[i].arrival.notification) == seconds
  }

  /**
   A timestamp that keeps every late copy out: positive, and at most a day, less the handler's delay,
   after first receipt.
   */
  predicate Fenced(seconds: int, firstReceipt: int, delay: nat) {
    seconds > 0 && seconds * 1000 + delay <= firstReceipt + DAY
  }

  /** Where the event stands after a run that stored it at most once. */
  predicate Tracked(env: PipelineEnv, s: Pipeline, key: string, times: seq<int>, now: int) {
    && |times| <= 1
    && (times == [] ==> key !in s.events)
    && (|times| == 1 ==> if key in s.events then s.events[key].receivedAt == times[0]
                         else now > times[0] + env.retentionDays * DAY)
  }

  lemma TrackStep(env: PipelineEnv, s: Pipeline, key: string, times: seq<int>, now: int, e: Event, seconds: int,
          delay: nat)
    requires Tracked(env, s, key, times, now) && now <= Time(e)
    requires e.Arrive? ==> e.arrival.storedAt <= e.arrival.checkedAt + delay
    requires e.Arrive? && EventKey(env, e.arrival.walletId, e.arrival.notification) == key ==>
             Timestamp(e.arrival.notification) == seconds
    requires times != [] ==> Fenced(seconds, times[0], delay)
    ensures Tracked(env, Step(env, s, e), key, times + (if InsertsNew(env, s, e, key) then [Time(e)] else []), Time(e))
  {
    hide ToHex, ResolvedJournal, VerifyPreimage, EventKey;
    if e.Arrive? && |times| == 1 && key !in s.events {
      assert EventKey(env, e.arrival.walletId, e.arrival.notification) == key ==>
             TooOld(env, e.arrival.notification, e.arrival.checkedAt);
    }
  }

  function LastTime(trace: seq<Event>): int
    requires trace != []
  {
    Time(trace[|trace| - 1])
  }

  lemma {:induction false} RunTracks(env: PipelineEnv, s: Pipeline, trace: seq<Event>, key: string, seconds: int,
          delay: nat)
    requires trace != [] && key !in s.events && WellTimed(trace, delay) && CopiesCarry(env, trace, key, seconds)
    requires var times := NewTimes(env, s, trace, key); times != [] ==> Fenced(seconds, times[0], delay)
    ensures Tracked(env, Run(env, s, trace), key, NewTimes(env, s, trace, key), LastTime(trace))
  {
    var rest, e := trace[..|trace| - 1], trace[|trace| - 1];
    var before := NewTimes(env, s, rest, key);
    assert before != [] ==> NewTimes(env, s, trace, key)[0] == before[0];
    if rest == [] {
      TrackStep(env, s, key, [], Time(e), e, seconds, delay);
    } else {
      RunTracks(env, s, rest, key, seconds, delay);
      TrackStep(env, Run(env, s, rest), key, before, LastTime(rest), e, seconds, delay);
    }
  }

  /**
   Pruning never reopens dedup: over a run mixing arrivals, failing statements,
   prunes and delivery marks, a fenced event is stored and dispatched as new at most once.
   */
  lemma NewAtMostOnce(env: PipelineEnv, s: Pipeline, trace: seq<Event>, key: string, seconds: int, delay: nat)
    requires key !in s.events && WellTimed(trace, delay) && CopiesCarry(env, trace, key, seconds)
    requires var times := NewTimes(env, s, trace, key); times != [] ==> Fenced(seconds, times[0], delay)
    ensures |NewTimes(env, s, trace, key)| <= 1
    ensures Dispatches(Run(env, s, trace), key) <= Dispatches(s, key) + 1
  {
    DispatchesAreNew(env, s, trace, key);
    if trace != [] {
      RunTracks(env, s, trace, key, seconds, delay);
    }
  }

  // ---- The fence is exact ----

  function ArrivalAt(walletId: string, n: Notification, storedAt: int, delay: nat): Event {
    Arrive(Arrival(walletId, n, false, storedAt - delay, storedAt - delay, storedAt, NoFault, NoFault, true))
  }

  /** The first copy, the prune that forgets it, and the next copy in the same millisecond. */
  function Reopening(env: PipelineEnv, walletId: string, n: Notification, r: int, delay: nat): seq<Event> {
    var pruned := r + env.retentionDays * DAY + 1;
    [ArrivalAt(walletId, n, r, delay), Prune(pruned), ArrivalAt(walletId, n, pruned, delay)]
  }

  lemma RunAppends(env: PipelineEnv, s: Pipeline, trace: seq<Event>, e: Event, key: string)
    ensures Run(env, s, trace + [e]) == Step(env, Run(env, s, trace), e)
    ensures NewTimes(env, s, trace + [e], key)
            == NewTimes(env, s, trace, key) + if InsertsNew(env, Run(env, s, trace), e, key) then [Time(e)] else []
  {
    assert (trace + [e])[..|trace|] == trace;
  }

  lemma ReopeningIsNewTwice(env: PipelineEnv, s: Pipeline, walletId: string, n: Notification, r: int, delay: nat)
    requires n.paymentHash != "" && !Fenced(Timestamp(n), r, delay)
    requires EventKey(env, walletId, n) !in s.events
    ensures var trace, key := Reopening(env, walletId, n, r, delay), EventKey(env, walletId, n);
            && WellTimed(trace, delay) && CopiesCarry(env, trace, key, Timestamp(n))
            && NewTimes(env, s, trace, key) == [r, r + env.retentionDays * DAY + 1]
  {
    hide NewTimes;
    var key := EventKey(env, walletId, n);
    var trace := Reopening(env, walletId, n, r, delay);
    var s1 := Step(env, s, trace[0]);
    var s2 := Step(env, s1, trace[1]);
    NewTimesOfNothing(env, s, key);
    RunAppends(env, s, [], trace[0], key);
    RunAppends(env, s, [trace[0]], trace[1], key);
    RunAppends(env, s, [trace[0], trace[1]], trace[2], key);
    assert trace == [trace[0], trace[1]] + [trace[2]] && [trace[0], trace[1]] == [trace[0]] + [trace[1]]
           && [trace[0]] == [] + [trace[0]];
    assert InsertsNew(env, s, trace[0], key) && s1.events[key].receivedAt == r;
    assert !InsertsNew(env, s1, trace[1], key) && key !in s2.events;
    assert InsertsNew(env, s2, trace[2], key);
  }

  lemma NewTimesOfNothing(env: PipelineEnv, s: Pipeline, key: string)
    ensures NewTimes(env, s, [], key) == [] && Run(env, s, []) == s
  {
  }

  /** Copies of one timestamp, new for the first time at `r`. */
  predicate FirstReceivedAt(env: PipelineEnv, s: Pipeline, trace: seq<Event>, key: string, seconds: int, r: int,
          delay: nat) {
    && WellTimed(trace, delay)
    && CopiesCarry(env, trace, key, seconds)
    && (NewTimes(env, s, trace, key) != [] ==> NewTimes(env, s, trace, key)[0] == r)
  }

  /**
   Copies with one timestamp, first received at `r`, are new at most once in
   every run exactly when the timestamp is fenced. The guard of the handler
   alone does not promise it: an unstamped copy, or one dated more than a day
   ahead, comes back after its row is pruned.
   */
  lemma DedupFenceIsExact(env: PipelineEnv, s: Pipeline, walletId: string, n: Notification, r: int, delay: nat)
    requires n.paymentHash != "" && EventKey(env, walletId, n) !in s.events
    ensures Fenced(Timestamp(n), r, delay)
            <==> forall trace :: FirstReceivedAt(env, s, trace, EventKey(env, walletId, n), Timestamp(n), r, delay)
                                 ==> |NewTimes(env, s, trace, EventKey(env, walletId, n))| <= 1
  {
    var key := EventKey(env, walletId, n);
    if Fenced(Timestamp(n), r, delay) {
      forall trace | FirstReceivedAt(env, s, trace, key, Timestamp(n), r, delay)
        ensures |NewTimes(env, s, trace, key)| <= 1
      {
        NewAtMostOnce(env, s, trace, key, Timestamp(n), delay);
      }
    } else {
      ReopeningIsNewTwice(env, s, walletId, n, r, delay);
      assert FirstReceivedAt(env, s, Reopening(env, walletId, n, r, delay), key, Timestamp(n), r, delay);
    }
  }

  // ---- Accounting ----

  function CountTurnedAway(env: PipelineEnv, trace: seq<Event>): nat {
    if trace == [] then 0
    else
      var e := trace[|trace| - 1];
      CountTurnedAway(env, trace[..|trace| - 1]) + if e.Arrive? && TurnedAway(env, e.arrival) then 1 else 0
  }

  function CountThrown(env: PipelineEnv, trace: seq<Event>): nat {
    if trace == [] then 0
    else
      var e := trace[|trace| - 1];
      CountThrown(env, trace[..|trace| - 1]) + if e.Arrive? && Throws(env, e.arrival) then 1 else 0
  }

  /**
   Every notification ends in exactly one way: turned away, failed, a duplicate, or dispatched. The
   cursors only advance.
   */
  lemma {:induction false} EveryNotificationCounts(env: PipelineEnv, s: Pipeline, trace: seq<Event>)
    ensures var q := Run(env, s, trace);
            && q.received - s.received
               == CountTurnedAway(env, trace) + CountThrown(env, trace) + (q.duplicates - s.duplicates)
                  + (|q.dispatched| - |s.dispatched|)
            && CursorsAdvance(s.cursors, q.cursors)
  {
    if trace != [] {
      hide Handle;
      EveryNotificationCounts(env, s, trace[..|trace| - 1]);
      HandlerCounts(env, Run(env, s, trace[..|trace| - 1]), trace[|trace| - 1]);
    }
  }

  lemma HandlerCounts(env: PipelineEnv, s: Pipeline, e: Event)
    ensures var q := Step(env, s, e);
            && (e.Arrive? ==>
                  && q.received == s.received + 1
                  && 1 == (if TurnedAway(env, e.arrival) then 1 else 0) + (if Throws(env, e.arrival) then 1 else 0)
                          + (q.duplicates - s.duplicates) + (|q.dispatched| - |s.dispatched|))
            && (!e.Arrive? ==> q.received == s.received && q.duplicates == s.duplicates && q.dispatched == s.dispatched)
            && CursorsAdvance(s.cursors, q.cursors)
  {
    hide ToHex, ResolvedJournal, VerifyPreimage, EventKey;
    if e.Arrive? {
      OnlyLiveEventsMoveCursor(env, s, e.arrival);
    }
  }

  // ---- Which events are told apart ----

  predicate SameEvent(a: Arrival, b: Arrival) {
    && a.walletId == b.walletId
    && a.notification.kind == b.notification.kind && a.notification.paymentHash == b.notification.paymentHash
  }

  /** With a payment hash, stamped no further back than the retention window less a day, and no statement fails. */
  predicate GetsThrough(env: PipelineEnv, a: Arrival) {
    var n := a.notification;
    var seconds := if n.settledAt != 0 then n.settledAt else n.createdAt;
    && n.paymentHash != "" && a.journalFault == NoFault && a.insertFault == NoFault
    && (seconds <= 0 || a.checkedAt - seconds * 1000 <= (env.retentionDays - 1) * 86_400_000)
  }

  /** The types hold no separator of the key's text, and wallet ids or payment hashes hold none either. */
  predicate Separable(a: Arrival, b: Arrival) {
    && Lacks(a.notification.kind, '|') && Lacks(b.notification.kind, '|')
    && ((Lacks(a.walletId, '|') && Lacks(b.walletId, '|'))
        || (Lacks(a.notification.paymentHash, '|') && Lacks(b.notification.paymentHash, '|')))
  }

  function TextOf(a: Arrival): string {
    EventText(a.walletId, a.notification.kind, a.notification.paymentHash)
  }

  /** The hash function does not confuse the texts of these two. */
  predicate HashedApart(env: PipelineEnv, a: Arrival, b: Arrival) {
    env.payments.textSha256(TextOf(a)) == env.payments.textSha256(TextOf(b)) ==> TextOf(a) == TextOf(b)
  }

  lemma KeysTellEventsApart(env: PipelineEnv, a: Arrival, b: Arrival)
    requires Separable(a, b) && HashedApart(env, a, b)
    ensures EventKey(env, a.walletId, a.notification) == EventKey(env, b.walletId, b.notification) <==> SameEvent(a, b)
  {
    FromHexToHex(env.payments.textSha256(TextOf(a)));
    FromHexToHex(env.payments.textSha256(TextOf(b)));
    EventTextUnique(a.walletId, a.notification.kind, a.notification.paymentHash,
                    b.walletId, b.notification.kind, b.notification.paymentHash);
  }

  lemma ThroughMeansStored(env: PipelineEnv, s: Pipeline, a: Arrival)
    requires GetsThrough(env, a)
    ensures var key := EventKey(env, a.walletId, a.notification);
            var (h, q) := Handle(env, s, a);
            && h == Returned(key !in s.events) && q.events.Keys == s.events.Keys + {key}
            && q.dispatched == (if key in s.events then s.dispatched else s.dispatched + [key])
            && q.duplicates == s.duplicates + (if key in s.events then 1 else 0)
            && (key !in s.events ==> q.events[key].walletId == a.walletId && q.events[key].recovered == a.recovered
                                     && q.events[key].receivedAt == a.storedAt && !q.events[key].status.Delivered?)
  {
    hide ToHex, ResolvedJournal, VerifyPreimage, EventKey;
  }

  /**
   Two notifications that get through, whichever comes first: the second is new,
   stored and dispatched exactly when it differs in wallet, type or payment hash,
   and is counted as a duplicate otherwise.
   */
  lemma EventsToldApart(env: PipelineEnv, s: Pipeline, a: Arrival, b: Arrival)
    requires s.events == map[] && GetsThrough(env, a) && GetsThrough(env, b)
    requires Separable(a, b) && HashedApart(env, a, b)
    ensures var (first, s1) := Handle(env, s, a);
            var (second, s2) := Handle(env, s1, b);
            && first == Returned(true) && second == Returned(!SameEvent(a, b))
            && |s2.dispatched| == |s.dispatched| + (if SameEvent(a, b) then 1 else 2)
            && |s2.events| == (if SameEvent(a, b) then 1 else 2)
            && s2.duplicates == s.duplicates + (if SameEvent(a, b) then 1 else 0)
  {
    hide Handle, GetsThrough, EventKey, TextOf;
    KeysTellEventsApart(env, a, b);
    ThroughMeansStored(env, s, a);
    ThroughMeansStored(env, Handle(env, s, a).1, b);
    var s2 := Handle(env, Handle(env, s, a).1, b).1;
    assert s2.events.Keys
           == {EventKey(env, a.walletId, a.notification), EventKey(env, b.walletId, b.notification)};
    assert |s2.events| == |s2.events.Keys|;
  }

  /** With a hash, not stale, no failing journal update, and an insert that takes effect, its reply lost or not. */
  predicate ReachesTable(env: PipelineEnv, a: Arrival) {
    var n := a.notification;
    var seconds := if n.settledAt != 0 then n.settledAt else n.createdAt;
    && n.paymentHash != ""
    && (a.journalFault == NoFault
        || !(n.kind == "payment_sent" && n.preimage.JText?
             && VerifyPreimage(env.payments, n.preimage.text, n.paymentHash)))
    && (seconds <= 0 || a.checkedAt - seconds * 1000 <= (env.retentionDays - 1) * 86_400_000)
    && a.insertFault != LostBefore
  }

  lemma TableGrowsExactly(env: PipelineEnv, s: Pipeline, a: Arrival)
    ensures Handle(env, s, a).1.events.Keys
            == s.events.Keys
               + if ReachesTable(env, a) then {EventKey(env, a.walletId, a.notification)} else {}
  {
    hide ToHex, ResolvedJournal, VerifyPreimage, EventKey;
  }

  /** A notification neither stores nor forgets an event with another wallet, type or hash. */
  lemma OthersStay(env: PipelineEnv, s: Pipeline, a: Arrival)
    ensures forall b: Arrival :: Separable(a, b) && HashedApart(env, a, b) && !SameEvent(a, b) ==>
              var key := EventKey(env, b.walletId, b.notification);
              key in Handle(env, s, a).1.events <==> key in s.events
  {
    hide Handle, EventKey, ReachesTable, Separable, HashedApart, SameEvent;
    forall b: Arrival | Separable(a, b) && HashedApart(env, a, b) && !SameEvent(a, b)
      ensures var key := EventKey(env, b.walletId, b.notification);
              key in Handle(env, s, a).1.events <==> key in s.events
    {
      KeysTellEventsApart(env, a, b);
      TableGrowsExactly(env, s, a);
    }
  }

  /** Some notification of the run with this wallet, type and hash reached the table. */
  predicate Reached(env: PipelineEnv, trace: seq<Event>, a: Arrival) {
    exists i :: 0 <= i < |trace| && trace[i].Arrive? && SameEvent(trace[i].arrival, a)
                && ReachesTable(env, trace[i].arrival)
  }

  /** Until something is pruned the table holds exactly the events that reached it, whatever failed in between. */
  lemma {:induction false} TableHoldsWhatReachedIt(env: PipelineEnv, s: Pipeline, trace: seq<Event>, a: Arrival)
    requires s.events == map[]
    requires forall i :: 0 <= i < |trace| ==>
               && !trace[i].Prune?
               && (trace[i].Arrive? ==> Separable(trace[i].arrival, a) && HashedApart(env, trace[i].arrival, a))
    ensures EventKey(env, a.walletId, a.notification) in Run(env, s, trace).events <==> Reached(env, trace, a)
  {
    hide Handle, ReachesTable, EventKey, HashedApart, Separable, SameEvent;
    if trace != [] {
      var rest, last := trace[..|trace| - 1], trace[|trace| - 1];
      assert trace == rest + [last];
      TableHoldsWhatReachedIt(env, s, rest, a);
      if last.Arrive? {
        KeysTellEventsApart(env, last.arrival, a);
        TableGrowsExactly(env, Run(env, s, rest), last.arrival);
      }
      ReachedLast(env, rest, last, a);
    }
  }

  lemma ReachedLast(env: PipelineEnv, rest: seq<Event>, last: Event, a: Arrival)
    ensures Reached(env, rest + [last], a)
            <==> Reached(env, rest, a)
                 || (last.Arrive? && SameEvent(last.arrival, a) && ReachesTable(env, last.arrival))
  {
    hide ReachesTable, SameEvent;
    var trace := rest + [last];
    if Reached(env, rest, a) {
      var i :| 0 <= i < |rest| && rest[i].Arrive? && SameEvent(rest[i].arrival, a)
               && ReachesTable(env, rest[i].arrival);
      assert trace[i] == rest[i];
    }
    assert trace[|rest|] == last;
  }

  lemma NoHashNoEvent(env: PipelineEnv, s: Pipeline, a: Arrival)
    requires a.notification.paymentHash == ""
    ensures Handle(env, s, a) == (Returned(false), s.(received := s.received + 1))
  {
  }

  /** A stale notification is turned away after its payment proof has been used. */
  lemma StaleIsTurnedAway(env: PipelineEnv, s: Pipeline, a: Arrival)
    requires a.notification.paymentHash != "" && a.journalFault == NoFault && a.insertFault == NoFault
    requires !GetsThrough(env, a)
    ensures var (h, q) := Handle(env, s, a);
            h == Returned(false) && q.events == s.events && q.dispatched == s.dispatched && q.duplicates == s.duplicates
  {
    hide ToHex, ResolvedJournal, VerifyPreimage, EventKey;
  }

  /** Where a live event leaves the cursor of its wallet. */
  lemma LiveEventSetsCursor(env: PipelineEnv, s: Pipeline, a: Arrival)
    requires GetsThrough(env, a) && !a.recovered && a.cursorSaved
    ensures var n := a.notification;
            var at := if n.settledAt != 0 then n.settledAt * 1000
                      else if n.createdAt != 0 then n.createdAt * 1000 else a.storedAt;
            Handle(env, s, a).1.cursors
            == s.cursors[a.walletId := if a.walletId in s.cursors then Max(s.cursors[a.walletId], at) else at]
  {
    hide ToHex, ResolvedJournal, VerifyPreimage, EventKey;
  }

  /**
   A proof of payment in a notification settles every open request of that wallet and hash, and
   touches no other row.
   */
  lemma ProofSettlesRequests(env: PipelineEnv, s: Pipeline, a: Arrival, id: string)
    requires id in s.journal && !a.journalFault.LostBefore? && a.notification.paymentHash != ""
    ensures var n, row, q := a.notification, s.journal[id], Handle(env, s, a).1;
            && q.journal.Keys == s.journal.Keys
            && if n.kind == "payment_sent" && n.preimage.JText?
                  && VerifyPreimage(env.payments, n.preimage.text, n.paymentHash)
                  && row.request.walletId == a.walletId && row.request.paymentHash == ToLower(n.paymentHash)
                  && (row.state.Pending? || row.state.Unknown?)
               then && q.journal[id].state.Succeeded? && q.journal[id].request == row.request
                    && q.journal[id].preimage == Some(ToLower(n.preimage.text))
                    && q.journal[id].feesPaidMsats
                       == Some(if n.feesPaid.JInteger? && 0 <= n.feesPaid.value <= MAX_SAFE_INTEGER
                               then n.feesPaid.value else 0)
                    && q.journal[id].completedAt == Some(a.resolvedAt)
               else q.journal[id] == row
  {
    hide ToHex, EventKey, VerifyPreimage, TooOld, InsertIfNew, AdvanceCursor, SeenAt, ToLower;
  }

  // ---- In place ----

  class NotificationHandler {
    const env: PipelineEnv
    var journal: Table
    var events: Events
    var cursors: Cursors
    var eventsReceived: nat
    var eventsDuplicate: nat
    var dispatched: seq<string>

    ghost function State(): Pipeline
      reads this
    {
      Pipeline(journal, events, cursors, eventsReceived, eventsDuplicate, dispatched)
    }

    constructor (env: PipelineEnv)
      ensures this.env == env && State() == Pipeline(map[], map[], map[], 0, 0, [])
    {
      this.env := env;
      journal, events, cursors, eventsReceived, eventsDuplicate, dispatched := map[], map[], map[], 0, 0, [];
    }

    method HandleNotification(a: Arrival) returns (h: Handled)
      modifies this
      ensures (h, State()) == Handle(env, old(State()), a)
      ensures eventsReceived == old(eventsReceived) + 1
      ensures GetsThrough(env, a) ==>
                && h == Returned(EventKey(env, a.walletId, a.notification) !in old(events))
                && events.Keys == old(events).Keys + {EventKey(env, a.walletId, a.notification)}
      ensures forall b: Arrival :: Separable(a, b) && HashedApart(env, a, b) && !SameEvent(a, b) ==>
                var key := EventKey(env, b.walletId, b.notification); key in events <==> key in old(events)
    {
      hide Separable, HashedApart, SameEvent;
      if GetsThrough(env, a) {
        ThroughMeansStored(env, State(), a);
      }
      OthersStay(env, State(), a);
      eventsReceived := eventsReceived + 1;
      var n := a.notification;
      if n.paymentHash == "" {
        return Returned(false);
      }
      if ProvesPayment(env, n) {
        if TookEffect(a.journalFault) {
          var fees := if n.feesPaid.JInteger? && SafeAmount(n.feesPaid.value) then Some(n.feesPaid.value) else None;
          journal := Resolve(journal, a.walletId, n.paymentHash, n.preimage.text, fees, a.resolvedAt);
        }
        if !a.journalFault.NoFault? {
          return Threw;
        }
      }
      if TooOld(env, n, a.checkedAt) {
        return Returned(false);
      }
      var key := EventKey(env, a.walletId, n);
      var (inserted, stored) := InsertIfNew(events, key, a.walletId, a.recovered, a.storedAt);
      if TookEffect(a.insertFault) {
        events := stored;
      }
      if !a.insertFault.NoFault? {
        return Threw;
      }
      if !a.recovered && a.cursorSaved {
        cursors := AdvanceCursor(cursors, a.walletId, SeenAt(a));
      }
      if !inserted {
        eventsDuplicate := eventsDuplicate + 1;
        return Returned(false);
      }
      dispatched := dispatched + [key];
      return Returned(true);
    }

    method PruneEvents(now: int)
      modifies this`events
      ensures State() == Step(env, old(State()), Prune(now))
    {
      events := PruneOld(events, env.retentionDays, now);
    }
  }
}
