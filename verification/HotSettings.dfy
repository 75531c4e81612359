/**
 The hot settings cache: one shared read at a time, a one-second snapshot, and invalidation fenced by
 a generation.
 */
module HotSettings {
  import opened Common

  const HOT_SETTINGS_TTL_MS := 1000

  type Values = map<string, string>

  // ---- The cache ----

  /** `completedAt` is the clock reading when the read's values were stored; it expires a second later. */
  datatype Snapshot = Snapshot(completedAt: int, read: nat, values: Values)

  /** Where a read stands: querying, its `then` done, rejected, or settled after its `finally`. */
  datatype Phase = Querying | Loaded(values: Values) | Failed | Settled(result: Option<Values>)

  datatype Read = Read(generation: nat, phase: Phase)

  /** The module variables and the promises created so far. */
  datatype Cache = Cache(snapshot: Option<Snapshot>, read: Option<nat>, generation: nat, flights: map<nat, Read>,
                         nextRead: nat)

  const EMPTY_CACHE := Cache(None, None, 0, map[], 0)

  /** What a call gets: values at once, or the promise it joins. */
  datatype Answer = Served(snapshot: Snapshot) | Joined(read: nat)

  /** `getHotSettings`. */
  function Get(c: Cache, now: int): (Cache, Answer) {
    if c.snapshot.Some? && c.snapshot.value.completedAt + HOT_SETTINGS_TTL_MS > now then (c, Served(c.snapshot.value))
    else if c.read.Some? then (c, Joined(c.read.value))
    else (c.(read := Some(c.nextRead), flights := c.flights[c.nextRead := Read(c.generation, Querying)],
             nextRead := c.nextRead + 1),
          Joined(c.nextRead))
  }

  function WithPhase(c: Cache, r: nat, phase: Phase): Cache
    requires r in c.flights
  {
    c.(flights := c.flights[r := c.flights[r].(phase := phase)])
  }

  /** The `then` of a read: its values become the snapshot unless the cache was invalidated meanwhile. */
  function Complete(c: Cache, r: nat, values: Values, now: int): Cache {
    if r !in c.flights || !c.flights[r].phase.Querying? then c
    else
      var loaded := WithPhase(c, r, Loaded(values));
      if c.flights[r].generation == c.generation then loaded.(snapshot := Some(Snapshot(now, r, values))) else loaded
  }

  function Reject(c: Cache, r: nat): Cache {
    if r !in c.flights || !c.flights[r].phase.Querying? then c else WithPhase(c, r, Failed)
  }

  /** The `finally` of a read; only then do its callers hear from it. */
  function Finish(c: Cache, r: nat): Cache {
    if r !in c.flights || c.flights[r].phase.Querying? || c.flights[r].phase.Settled? then c
    else
      WithPhase(c, r, Settled(if c.flights[r].phase.Loaded? then Some(c.flights[r].phase.values) else None))
        .(read := if c.read == Some(r) then None else c.read)
  }

  function Invalidate(c: Cache): Cache {
    c.(generation := c.generation + 1, snapshot := None, read := None)
  }

  // ---- Calls, flights, writes and invalidations in any order ----

  /** A call, with the last invalidation before it: the version then current, and the step. */
  datatype Call = Call(answer: Answer, now: int, floor: nat, invalidatedAt: nat)

  /**
   `versions` are the table's contents over time; `queried` says which version a
   read's query saw and `startedAt` at which step the read began. `floor` is the
   version current at the last invalidation.
   */
  datatype World = World(
    cache: Cache, versions: seq<Values>, queried: map<nat, nat>, startedAt: map<nat, nat>,
    floor: nat, invalidatedAt: nat, steps: nat, calls: seq<Call>)

  function Start(initial: Values): World {
    World(EMPTY_CACHE, [initial], map[], map[], 0, 0, 1, [])
  }

  datatype Action =
    | DoCall(now: int)
    | DoQuery(read: nat)
    | DoComplete(read: nat, now: int)
    | DoReject(read: nat)
    | DoFinish(read: nat)
    | DoWrite(values: Values)
    | DoInvalidate

  function StepBody(w: World, a: Action): World
    requires |w.versions| > 0
  {
    match a
    case DoCall(now) =>
      var (c, answer) := Get(w.cache, now);
      w.(cache := c, calls := w.calls + [Call(answer, now, w.floor, w.invalidatedAt)],
         startedAt := if c.nextRead > w.cache.nextRead then w.startedAt[w.cache.nextRead := w.steps] else w.startedAt)
    case DoQuery(r) =>
      if r in w.cache.flights && w.cache.flights[r].phase.Querying? && r !in w.queried
      then w.(queried := w.queried[r := |w.versions| - 1])
      else w
    case DoComplete(r, now) =>
      if r in w.queried && w.queried[r] < |w.versions|
      then w.(cache := Complete(w.cache, r, w.versions[w.queried[r]], now))
      else w
    case DoReject(r) => w.(cache := Reject(w.cache, r))
    case DoFinish(r) => w.(cache := Finish(w.cache, r))
    case DoWrite(values) => w.(versions := w.versions + [values])
    case DoInvalidate => w.(cache := Invalidate(w.cache), floor := |w.versions| - 1, invalidatedAt := w.steps)
  }

  function Step(w: World, a: Action): (w': World)
    requires |w.versions| > 0
    ensures |w.versions| <= |w'.versions|
  {
    StepBody(w, a).(steps := w.steps + 1)
  }

  function Run(w: World, trace: seq<Action>): (w': World)
    requires |w.versions| > 0
    ensures |w.versions| <= |w'.versions|
    decreases |trace|
  {
    if trace == [] then w else Run(Step(w, trace[0]), trace[1..])
  }

  // ---- The invariant ----

  predicate ReadOk(w: World, r: nat)
    requires r in w.cache.flights
  {
    var read := w.cache.flights[r];
    && r < w.cache.nextRead && r in w.startedAt && w.startedAt[r] < w.steps
    && read.generation <= w.cache.generation
    && (read.generation == w.cache.generation ==> w.startedAt[r] > w.invalidatedAt)
    && (read.generation == w.cache.generation && !read.phase.Settled? ==> w.cache.read == Some(r))
    && (read.generation == w.cache.generation && r in w.queried ==> w.queried[r] >= w.floor)
    && (r in w.queried ==> w.queried[r] < |w.versions|)
    && (read.phase.Loaded? ==> r in w.queried && read.phase.values == w.versions[w.queried[r]])
    && (read.phase.Settled? && read.phase.result.Some? ==>
        r in w.queried && read.phase.result.value == w.versions[w.queried[r]])
  }

  /** The read behind a snapshot was answered, after the last invalidation. */
  predicate SnapshotOk(w: World, s: Snapshot) {
    && s.read in w.cache.flights && s.read in w.queried && s.read in w.startedAt
    && w.queried[s.read] < |w.versions| && s.values == w.versions[w.queried[s.read]]
    && (w.cache.flights[s.read].phase == Loaded(s.values) || w.cache.flights[s.read].phase == Settled(Some(s.values)))
  }

  /** Freshness of one call, whenever its values arrive. */
  predicate CallOk(w: World, call: Call) {
    match call.answer
    case Served(s) =>
      && SnapshotOk(w, s)
      && call.now < s.completedAt + HOT_SETTINGS_TTL_MS
      && w.startedAt[s.read] > call.invalidatedAt && w.queried[s.read] >= call.floor
    case Joined(r) =>
      && r in w.cache.flights && r in w.startedAt && w.startedAt[r] > call.invalidatedAt
      && (r in w.queried ==> w.queried[r] >= call.floor)
      && (r !in w.queried ==> call.floor < |w.versions|)
  }

  ghost predicate Inv(w: World) {
    && |w.versions| > 0 && w.floor < |w.versions| && w.invalidatedAt < w.steps
    && (forall r :: r in w.cache.flights ==> ReadOk(w, r))
    && w.queried.Keys <= w.cache.flights.Keys && w.startedAt.Keys <= w.cache.flights.Keys
    && (w.cache.read.Some? ==>
        w.cache.read.value in w.cache.flights && w.cache.flights[w.cache.read.value].generation == w.cache.generation)
    && (w.cache.snapshot.Some? ==> SnapshotOk(w, w.cache.snapshot.value)
                                   && w.cache.flights[w.cache.snapshot.value.read].generation == w.cache.generation)
    && (forall i :: 0 <= i < |w.calls| ==> CallOk(w, w.calls[i]))
  }

  /** Loaded values stay the result of their read. */
  predicate Onward(p: Phase, p': Phase) {
    && (p.Loaded? ==> p' == p || p' == Settled(Some(p.values)))
    && (p.Settled? ==> p' == p)
  }

  /** What later steps leave alone, as far as earlier calls are concerned. */
  predicate Extends(w: World, w': World) {
    && |w.versions| <= |w'.versions|
    && (forall i :: 0 <= i < |w.versions| ==> w'.versions[i] == w.versions[i])
    && (forall r :: r in w.queried ==> r in w'.queried && w'.queried[r] == w.queried[r])
    && (forall r :: r in w.startedAt ==> r in w'.startedAt && w'.startedAt[r] == w.startedAt[r])
    && (forall r :: r in w.cache.flights ==> r in w'.cache.flights)
    && (forall r :: r in w.cache.flights && r !in w.queried && r in w'.queried ==> w'.queried[r] == |w.versions| - 1)
    && (forall r :: r in w.cache.flights ==> Onward(w.cache.flights[r].phase, w'.cache.flights[r].phase))
  }

  lemma CallStays(w: World, w': World, call: Call)
    requires CallOk(w, call) && Extends(w, w')
    ensures CallOk(w', call)
  {
  }

  lemma NextIsNew(w: World)
    requires Inv(w)
    ensures w.cache.nextRead !in w.cache.flights && w.cache.nextRead !in w.queried && w.cache.nextRead !in w.startedAt
  {
    forall r | r in w.cache.flights ensures r < w.cache.nextRead {
      assert ReadOk(w, r);
    }
  }

  lemma StepExtends(w: World, a: Action)
    requires Inv(w)
    ensures Extends(w, Step(w, a))
  {
    hide ReadOk, SnapshotOk, CallOk;
    NextIsNew(w);
  }

  lemma ReadStaysOk(w: World, a: Action, r: nat)
    requires |w.versions| > 0 && w.floor < |w.versions| && w.invalidatedAt < w.steps
    requires r in w.cache.flights && ReadOk(w, r)
    ensures r in Step(w, a).cache.flights && ReadOk(Step(w, a), r)
  {
  }

  lemma StepKeepsReads(w: World, a: Action)
    requires Inv(w)
    ensures var w' := Step(w, a);
            && (forall r :: r in w'.cache.flights ==> ReadOk(w', r))
            && w'.queried.Keys <= w'.cache.flights.Keys && w'.startedAt.Keys <= w'.cache.flights.Keys
            && (w'.cache.read.Some? ==> w'.cache.read.value in w'.cache.flights
                                        && w'.cache.flights[w'.cache.read.value].generation == w'.cache.generation)
  {
    hide SnapshotOk, CallOk;
    var w' := Step(w, a);
    NextIsNew(w);
    forall r | r in w'.cache.flights ensures ReadOk(w', r) {
      if r in w.cache.flights { ReadStaysOk(w, a, r); }
    }
  }

  lemma CompletionKeepsSnapshot(w: World, r: nat, now: int)
    requires Inv(w)
    ensures var w' := Step(w, DoComplete(r, now));
            var c := w'.cache;
            c.snapshot.Some? ==>
              SnapshotOk(w', c.snapshot.value) && c.flights[c.snapshot.value.read].generation == c.generation
  {
    hide CallOk;
    if r in w.cache.flights {
      assert ReadOk(w, r);
    }
  }

  lemma StepKeepsSnapshot(w: World, a: Action)
    requires Inv(w)
    ensures var c := Step(w, a).cache;
            c.snapshot.Some? ==>
              SnapshotOk(Step(w, a), c.snapshot.value) && c.flights[c.snapshot.value.read].generation == c.generation
  {
    hide ReadOk, CallOk, Complete;
    match a
    case DoComplete(r, now) => CompletionKeepsSnapshot(w, r, now);
    case _ => StepExtends(w, a);
  }

  lemma CallIsFresh(w: World, now: int)
    requires Inv(w)
    ensures var w' := Step(w, DoCall(now)); CallOk(w', w'.calls[|w'.calls| - 1])
  {
    StepExtends(w, DoCall(now));
    if w.cache.snapshot.Some? { assert ReadOk(w, w.cache.snapshot.value.read); }
    if w.cache.read.Some? { assert ReadOk(w, w.cache.read.value); }
    NextIsNew(w);
  }

  lemma StepKeeps(w: World, a: Action)
    requires Inv(w)
    ensures Inv(Step(w, a))
  {
    hide ReadOk, SnapshotOk, CallOk, Extends;
    var w' := Step(w, a);
    StepExtends(w, a);
    StepKeepsReads(w, a);
    StepKeepsSnapshot(w, a);
    forall i | 0 <= i < |w'.calls| ensures CallOk(w', w'.calls[i]) {
      if i < |w.calls| {
        CallStays(w, w', w.calls[i]);
      } else {
        assert a.DoCall?;
        CallIsFresh(w, a.now);
      }
    }
  }

  lemma {:induction false} RunKeeps(w: World, trace: seq<Action>)
    requires Inv(w)
    ensures Inv(Run(w, trace))
    decreases |trace|
  {
    if trace != [] {
      StepKeeps(w, trace[0]);
      RunKeeps(Step(w, trace[0]), trace[1..]);
    }
  }

  // ---- The promises of the cache ----

  /**
   In every interleaving of calls, reads, failures, writes and invalidations, a
   call gets values of a read that started after the last invalidation before
   the call, and so the contents of the table at that invalidation or later.
   */
  lemma NeverStale(initial: Values, trace: seq<Action>, i: nat)
    requires i < |Run(Start(initial), trace).calls|
    ensures var w := Run(Start(initial), trace);
            var call := w.calls[i];
            match call.answer
            case Served(s) =>
              && s.read in w.startedAt && w.startedAt[s.read] > call.invalidatedAt
              && exists v :: call.floor <= v < |w.versions| && w.versions[v] == s.values
            case Joined(r) =>
              && r in w.startedAt && w.startedAt[r] > call.invalidatedAt && r in w.cache.flights
              && (w.cache.flights[r].phase.Settled? && w.cache.flights[r].phase.result.Some? ==>
                    exists v :: call.floor <= v < |w.versions|
                      && w.versions[v] == w.cache.flights[r].phase.result.value)
  {
    RunKeeps(Start(initial), trace);
    var w := Run(Start(initial), trace);
    assert CallOk(w, w.calls[i]);
    match w.calls[i].answer
    case Served(s) =>
      assert w.versions[w.queried[s.read]] == s.values;
    case Joined(r) =>
      assert ReadOk(w, r);
      if w.cache.flights[r].phase.Settled? && w.cache.flights[r].phase.result.Some? {
        assert w.versions[w.queried[r]] == w.cache.flights[r].phase.result.value;
      }
  }

  /** A call that is served at once gets a successful read that completed less than a second ago. */
  lemma ServedWithinTheSecond(initial: Values, trace: seq<Action>, i: nat)
    requires i < |Run(Start(initial), trace).calls| && Run(Start(initial), trace).calls[i].answer.Served?
    ensures var w := Run(Start(initial), trace);
            var call := w.calls[i];
            var s := call.answer.snapshot;
            && call.now - s.completedAt < HOT_SETTINGS_TTL_MS
            && s.read in w.cache.flights && !w.cache.flights[s.read].phase.Failed?
               && w.cache.flights[s.read].phase != Settled(None)
  {
    RunKeeps(Start(initial), trace);
    var w := Run(Start(initial), trace);
    assert CallOk(w, w.calls[i]);
  }

  predicate InFlight(c: Cache, r: nat) {
    r in c.flights && c.flights[r].generation == c.generation && !c.flights[r].phase.Settled?
  }

  /**
   At most one read of the current generation is in flight, and a call starts one exactly when there
   is none and no live snapshot.
   */
  lemma SingleFlight(initial: Values, trace: seq<Action>, now: int, r: nat, q: nat)
    ensures var c := Run(Start(initial), trace).cache;
            && (InFlight(c, r) && InFlight(c, q) ==> r == q)
            && (Get(c, now).0 != c <==> !(c.snapshot.Some? && now < c.snapshot.value.completedAt + HOT_SETTINGS_TTL_MS)
                                        && !exists x :: InFlight(c, x))
  {
    RunKeeps(Start(initial), trace);
    var w := Run(Start(initial), trace);
    var c := w.cache;
    forall x: nat | InFlight(c, x) ensures c.read == Some(x) {
      assert ReadOk(w, x);
    }
    if c.read.Some? {
      CurrentReadInFlight(initial, trace);
    }
  }

  /** The shared promise is one that has not settled. */
  predicate ReadUnsettled(c: Cache) {
    c.read.Some? ==> c.read.value in c.flights && !c.flights[c.read.value].phase.Settled?
  }

  lemma UnsettledStep(w: World, a: Action)
    requires |w.versions| > 0 && ReadUnsettled(w.cache)
    ensures ReadUnsettled(Step(w, a).cache)
  {
  }

  lemma {:induction false} UnsettledStays(w: World, trace: seq<Action>)
    requires |w.versions| > 0 && ReadUnsettled(w.cache)
    ensures ReadUnsettled(Run(w, trace).cache)
    decreases |trace|
  {
    if trace != [] {
      UnsettledStep(w, trace[0]);
      UnsettledStays(Step(w, trace[0]), trace[1..]);
    }
  }

  lemma CurrentReadInFlight(initial: Values, trace: seq<Action>)
    ensures var c := Run(Start(initial), trace).cache; c.read.Some? ==> InFlight(c, c.read.value)
  {
    RunKeeps(Start(initial), trace);
    UnsettledStays(Start(initial), trace);
  }

  // ---- What the cache is for ----

  /** A read of the current generation that completes is what every call within the next second gets. */
  lemma CompletedReadIsServed(initial: Values, trace: seq<Action>, r: nat, done: int, now: int)
    requires var w := Run(Start(initial), trace);
             && r in w.cache.flights && w.cache.flights[r] == Read(w.cache.generation, Querying) && r in w.queried
    ensures var w := Run(Start(initial), trace);
            var q := Step(Step(w, DoComplete(r, done)), DoCall(now));
            && w.queried[r] < |w.versions| && |q.calls| == |w.calls| + 1
            && (q.calls[|w.calls|].answer == Served(Snapshot(done, r, w.versions[w.queried[r]])) <==> now < done + 1000)
  {
    RunKeeps(Start(initial), trace);
    var w := Run(Start(initial), trace);
    assert ReadOk(w, r);
  }

  /** A read overtaken by an invalidation never becomes the snapshot. */
  lemma OvertakenReadIsNotServed(initial: Values, trace: seq<Action>, r: nat, done: int)
    requires var w := Run(Start(initial), trace);
             r in w.cache.flights && w.cache.flights[r].generation != w.cache.generation
    ensures var w := Run(Start(initial), trace); Step(w, DoComplete(r, done)).cache.snapshot == w.cache.snapshot
  {
    RunKeeps(Start(initial), trace);
  }

  /** Everybody who joined a read hears its values, overtaken or not, and nobody an old value after a failure. */
  lemma JoinedCallersHear(initial: Values, trace: seq<Action>, r: nat, done: int)
    requires var w := Run(Start(initial), trace);
             r in w.cache.flights && w.cache.flights[r].phase == Querying && r in w.queried
    ensures var w := Run(Start(initial), trace);
            && w.queried[r] < |w.versions|
            && r in Step(Step(w, DoComplete(r, done)), DoFinish(r)).cache.flights
            && Step(Step(w, DoComplete(r, done)), DoFinish(r)).cache.flights[r].phase
               == Settled(Some(w.versions[w.queried[r]]))
            && r in Step(Step(w, DoReject(r)), DoFinish(r)).cache.flights
            && Step(Step(w, DoReject(r)), DoFinish(r)).cache.flights[r].phase == Settled(None)
  {
    RunKeeps(Start(initial), trace);
    assert ReadOk(Run(Start(initial), trace), r);
  }

  /** After a failed read, once settled, and after an invalidation the next call reads again. */
  lemma NextCallReadsAgain(initial: Values, trace: seq<Action>, r: nat, now: int)
    ensures var w := Run(Start(initial), trace);
            var q := Step(Step(w, DoInvalidate), DoCall(now));
            |q.calls| == |w.calls| + 1 && q.calls[|w.calls|].answer == Joined(w.cache.nextRead)
            && w.cache.nextRead in q.cache.flights && q.cache.flights[w.cache.nextRead].phase == Querying
    ensures var w := Run(Start(initial), trace);
            w.cache.read == Some(r) && w.cache.snapshot.None?
            && r in w.cache.flights && w.cache.flights[r].phase == Querying ==>
              var q := Step(Step(Step(w, DoReject(r)), DoFinish(r)), DoCall(now));
              |q.calls| == |w.calls| + 1 && q.calls[|w.calls|].answer == Joined(w.cache.nextRead)
  {
    RunKeeps(Start(initial), trace);
  }

  // ---- Reading some keys ----

  const HOT_SETTING_KEYS: set<string> := {
    "maintenance_enabled", "root", "domain", "endpoint", "listener_enabled", "listener_url", "listener_auth_secret"
  }

  /** `loadSettings` with a list of keys. */
  function Load(table: Values, keys: set<string>): Values {
    map k | k in table && k in keys :: table[k]
  }

  /** `getSettings` on the hot path. */
  function Pick(hot: Values, keys: set<string>): Values {
    map k | k in keys && k in hot :: hot[k]
  }

  /** The hot path answers like the database exactly when every requested setting that exists is a hot one. */
  lemma HotPathAgrees(table: Values, keys: set<string>)
    ensures Pick(Load(table, HOT_SETTING_KEYS), keys) == Load(table, keys)
            <==> forall k :: k in keys && k in table ==> k in HOT_SETTING_KEYS
  {
    var hot, direct := Pick(Load(table, HOT_SETTING_KEYS), keys), Load(table, keys);
    if hot == direct {
      forall k | k in keys && k in table ensures k in HOT_SETTING_KEYS {
        assert k in direct;
      }
    }
  }

  /** The passkey code asks for this setting on the hot path and never gets it. */
  lemma CommunityNameIsMissed(table: Values)
    requires "community_name" in table
    ensures Load(table, {"community_name"}) == map["community_name" := table["community_name"]]
    ensures Pick(Load(table, HOT_SETTING_KEYS), {"community_name"}) == map[]
  {
  }

  // ---- In place ----

  class HotSettingsCache {
    var hotSettingsSnapshot: Option<Snapshot>
    var hotSettingsRead: Option<nat>
    var hotSettingsGeneration: nat
    var flights: map<nat, Read>
    var nextRead: nat

    ghost function State(): Cache
      reads this
    {
      Cache(hotSettingsSnapshot, hotSettingsRead, hotSettingsGeneration, flights, nextRead)
    }

    constructor ()
      ensures State() == EMPTY_CACHE
    {
      hotSettingsSnapshot, hotSettingsRead, hotSettingsGeneration, flights, nextRead := None, None, 0, map[], 0;
    }

    method GetHotSettings(now: int) returns (answer: Answer)
      modifies this
      ensures (State(), answer) == Get(old(State()), now)
    {
      if hotSettingsSnapshot.Some? && hotSettingsSnapshot.value.completedAt + HOT_SETTINGS_TTL_MS > now {
        return Served(hotSettingsSnapshot.value);
      }
      if hotSettingsRead.Some? {
        return Joined(hotSettingsRead.value);
      }
      var promise := nextRead;
      flights := flights[promise := Read(hotSettingsGeneration, Querying)];
      nextRead := nextRead + 1;
      hotSettingsRead := Some(promise);
      return Joined(promise);
    }

    method OnLoaded(r: nat, values: Values, now: int)
      modifies this
      ensures State() == Complete(old(State()), r, values, now)
    {
      if r in flights && flights[r].phase.Querying? {
        if flights[r].generation == hotSettingsGeneration {
          hotSettingsSnapshot := Some(Snapshot(now, r, values));
        }
        flights := flights[r := flights[r].(phase := Loaded(values))];
      }
    }

    method OnFinally(r: nat)
      modifies this
      ensures State() == Finish(old(State()), r)
    {
      if r in flights && (flights[r].phase.Loaded? || flights[r].phase.Failed?) {
        var result := if flights[r].phase.Loaded? then Some(flights[r].phase.values) else None;
        flights := flights[r := flights[r].(phase := Settled(result))];
        if hotSettingsRead == Some(r) {
          hotSettingsRead := None;
        }
      }
    }

    method InvalidateHotSettingsCache()
      modifies this
      ensures State() == Invalidate(old(State()))
    {
      hotSettingsGeneration := hotSettingsGeneration + 1;
      hotSettingsSnapshot := None;
      hotSettingsRead := None;
    }
  }
}
