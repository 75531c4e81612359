/**
 The connection pool as values: one function per uninterrupted stretch of code.
 A `WalletConnection` object is a handle into `conns`, which only grows, so
 handle equality is object identity.
 */
module PoolModel {
  import opened Common
  import opened Reconcile

  datatype ConnState = Connecting | Negotiating | Ready | Disconnected | Errored | Closed

  /** `retryTimer` holds the delay of an armed timer. */
  datatype Conn = Conn(
    wallet: Wallet, client: Option<nat>, state: ConnState, retryTimer: Option<int>,
    retryAttempt: nat, errorNotified: bool, wasConnected: bool, generation: nat)

  /** A `connect` call holding one of the connect slots. */
  datatype Stage = Subscribing(client: nat) | Warming(client: nat) | Releasing

  datatype ConnectRun = ConnectRun(handle: nat, generation: nat, stage: Stage)

  /** An SDK client: the string it was built from, and whether a get_info round trip ever finished on it. */
  datatype Client = Client(connectionString: string, warmed: bool)

  /** `subscribed` logs the `onSubscribed` callbacks. */
  datatype Pool = Pool(
    conns: seq<Conn>, connections: map<string, nat>, byConnectionString: map<string, string>,
    queue: seq<nat>, activeConnects: nat, runs: map<nat, ConnectRun>, nextRun: nat,
    clients: seq<Client>, closed: bool, draws: nat, subscribed: seq<(string, nat)>)

  type Fraction = r: real | 0.0 <= r < 1.0

  /** Which connection strings the SDK can parse, and the stream of random numbers. */
  datatype PoolEnv = PoolEnv(parses: string -> bool, random: nat -> Fraction)

  const MAX_CONCURRENT_NEGOTIATIONS := 8

  const EMPTY_POOL := Pool([], map[], map[], [], 0, map[], 0, [], false, 0, [])

  // ---- Retry delay ----

  function RoundHalfUp(x: real): int {
    (x + 0.5).Floor
  }

  lemma ProductNonNegative(a: real, b: real)
    requires a >= 0.0 && b >= 0.0
    ensures a * b >= 0.0
  {
  }

  lemma ScaledRange(base: real, factor: real)
    requires base >= 0.0 && -1.0 <= factor <= 1.0
    ensures -base <= base * factor <= base
  {
    ProductNonNegative(base, 1.0 - factor);
    ProductNonNegative(base, 1.0 + factor);
    assert base * (1.0 - factor) == base - base * factor;
    assert base * (1.0 + factor) == base + base * factor;
  }

  lemma JitteredRange(base: real, quarter: real, jitter: real)
    requires 1000.0 <= base <= 60000.0 && quarter == base * 0.25 && -1.0 <= jitter <= 1.0
    ensures 750.0 <= base + quarter * jitter <= 75000.0
  {
    ScaledRange(quarter, jitter);
  }

  lemma JitterRange(base: real, random: Fraction)
    requires 1000.0 <= base <= 60000.0
    ensures 750.0 <= base + base * 0.25 * (random * 2.0 - 1.0) <= 75000.0
  {
    JitteredRange(base, base * 0.25, random * 2.0 - 1.0);
  }

  /** The delay of the next retry: doubling from one second to a minute, a quarter of it up or down. */
  function RetryDelay(attempt: nat, random: Fraction): (d: int)
    ensures 750 <= d <= 75000
  {
    var base := Min(1000 * Pow2(attempt), 60000) as real;
    JitterRange(base, random);
    RoundHalfUp(base + base * 0.25 * (random * 2.0 - 1.0))
  }

  // ---- Connections held ----

  predicate Held(p: Pool, h: nat) {
    h < |p.conns| && p.conns[h].wallet.id in p.connections && p.connections[p.conns[h].wallet.id] == h
  }

  function Put(p: Pool, h: nat, c: Conn): Pool
    requires h < |p.conns|
  {
    p.(conns := p.conns[h := c])
  }

  // ---- Connect slots ----

  /** The catch block of `connect`, for a connection that was not removed meanwhile. */
  function FailConnect(env: PoolEnv, p: Pool, h: nat): Pool
    requires h < |p.conns|
  {
    var c := p.conns[h].(state := Errored, client := None, errorNotified := true);
    if p.closed then Put(p, h, c)
    else Put(p, h, c.(retryTimer := Some(RetryDelay(c.retryAttempt, env.random(p.draws))),
                      retryAttempt := c.retryAttempt + 1)).(draws := p.draws + 1)
  }

  /** `connect` up to its first await, taking a slot. An unparsable connection string fails on the spot. */
  function StartConnect(env: PoolEnv, p: Pool, h: nat): Pool
    requires h < |p.conns|
  {
    var c := p.conns[h];
    var begun := Put(p, h, c.(state := Connecting));
    var p' := if env.parses(c.wallet.connectionString)
              then begun.(clients := p.clients + [Client(c.wallet.connectionString, false)])
              else FailConnect(env, begun, h);
    p'.(activeConnects := p.activeConnects + 1,
        nextRun := p.nextRun + 1,
        runs := p.runs[p.nextRun := ConnectRun(h, c.generation,
                  if env.parses(c.wallet.connectionString) then Subscribing(|p.clients|) else Releasing)])
  }

  /** `drainConnectQueue`: entries of removed connections are skipped. */
  function Drain(env: PoolEnv, p: Pool): Pool
    decreases |p.queue|
  {
    if p.closed || p.activeConnects >= MAX_CONCURRENT_NEGOTIATIONS || p.queue == [] then p
    else
      var h := p.queue[0];
      var rest := p.(queue := p.queue[1..]);
      if Held(rest, h) then Drain(env, StartConnect(env, rest, h)) else Drain(env, rest)
  }

  function EnqueueConnect(env: PoolEnv, p: Pool, h: nat, priority: bool): Pool {
    if p.closed || !Held(p, h) then p
    else Drain(env, p.(queue := if priority then [h] + p.queue else p.queue + [h]))
  }

  // ---- Adding and removing ----

  function AddWallet(env: PoolEnv, p: Pool, w: Wallet, priority: bool): Pool {
    var h := |p.conns|;
    EnqueueConnect(env,
      p.(conns := p.conns + [Conn(w, None, Connecting, None, 0, false, false, 0)],
         connections := p.connections[w.id := h],
         byConnectionString := p.byConnectionString[w.connectionString := w.id]),
      h, priority)
  }

  function ClosedConn(c: Conn): Conn {
    c.(generation := c.generation + 1, state := Closed, retryTimer := None, client := None)
  }

  function RemoveWallet(p: Pool, id: string): Pool {
    if id !in p.connections || p.connections[id] >= |p.conns| then p
    else
      var h := p.connections[id];
      Put(p, h, ClosedConn(p.conns[h])).(
        byConnectionString := p.byConnectionString - {p.conns[h].wallet.connectionString},
        connections := p.connections - {id})
  }

  function RemoveAll(p: Pool, ids: seq<string>): Pool {
    if ids == [] then p else RemoveWallet(RemoveAll(p, ids[..|ids| - 1]), ids[|ids| - 1])
  }

  function RotateAll(env: PoolEnv, p: Pool, ws: seq<Wallet>): Pool {
    if ws == [] then p
    else
      var w := ws[|ws| - 1];
      AddWallet(env, RemoveWallet(RotateAll(env, p, ws[..|ws| - 1]), w.id), w, false)
  }

  function AddAll(env: PoolEnv, p: Pool, ws: seq<Wallet>): Pool {
    if ws == [] then p else AddWallet(env, AddAll(env, p, ws[..|ws| - 1]), ws[|ws| - 1], false)
  }

  function RefreshWallet(p: Pool, w: Wallet): Pool {
    if w.id !in p.connections || p.connections[w.id] >= |p.conns| then p
    else Put(p, p.connections[w.id], p.conns[p.connections[w.id]].(wallet := w))
  }

  function RefreshAll(p: Pool, ws: seq<Wallet>): Pool {
    if ws == [] then p else RefreshWallet(RefreshAll(p, ws[..|ws| - 1]), ws[|ws| - 1])
  }

  // ---- Reconciling ----

  /** `listing` names every held wallet once: the iteration order of the connection map. */
  predicate Lists(p: Pool, listing: seq<string>) {
    && (forall i, j :: 0 <= i < j < |listing| ==> listing[i] != listing[j])
    && (forall id :: id in listing ==> id in p.connections)
    && (forall id :: id in p.connections ==> id in listing)
    && (forall id :: id in p.connections ==> p.connections[id] < |p.conns|)
  }

  function CurrentOf(p: Pool, listing: seq<string>): seq<Current>
    requires Lists(p, listing)
  {
    seq(|listing|, i requires 0 <= i < |listing| =>
      Current(p.conns[p.connections[listing[i]]].wallet.id, p.conns[p.connections[listing[i]]].wallet.connectionString))
  }

  function ApplyFull(env: PoolEnv, p: Pool, listing: seq<string>, desired: seq<Wallet>): Pool
    requires Lists(p, listing)
  {
    if p.closed then p
    else
      var diff := DiffOf(CurrentOf(p, listing), desired);
      RefreshAll(AddAll(env, RotateAll(env, RemoveAll(p, diff.remove), diff.update), diff.add), desired)
  }

  function ApplyOne(env: PoolEnv, p: Pool, id: string, row: Option<Wallet>): Pool {
    if p.closed then p
    else if row.None? then RemoveWallet(p, id)
    else if id !in p.connections || p.connections[id] >= |p.conns| then AddWallet(env, p, row.value, true)
    else if p.conns[p.connections[id]].wallet.connectionString != row.value.connectionString then
      AddWallet(env, RemoveWallet(p, id), row.value, true)
    else Put(p, p.connections[id], p.conns[p.connections[id]].(wallet := row.value))
  }

  function CloseAll(p: Pool): Pool {
    p.(closed := true,
       conns := seq(|p.conns|, h requires 0 <= h < |p.conns| =>
                      if Held(p, h) then ClosedConn(p.conns[h]) else p.conns[h]),
       connections := map[], byConnectionString := map[], queue := [])
  }

  // ---- Continuations of connect ----

  function Rest(p: Pool, r: nat): Pool
    requires r in p.runs
  {
    p.(runs := p.runs[r := p.runs[r].(stage := Releasing)])
  }

  /** The run's connection was removed, rotated or closed while it waited. */
  predicate Overtaken(p: Pool, r: nat)
    requires r in p.runs
  {
    p.runs[r].handle >= |p.conns| || p.conns[p.runs[r].handle].generation != p.runs[r].generation
  }

  /** `subscribeNotifications` resolved or rejected. */
  function Subscribed(env: PoolEnv, p: Pool, r: nat, ok: bool): Pool {
    if r !in p.runs || !p.runs[r].stage.Subscribing? then p
    else if Overtaken(p, r) then Rest(p, r)
    else
      var run := p.runs[r];
      if !ok then FailConnect(env, Rest(p, r), run.handle)
      else
        Put(p, run.handle, p.conns[run.handle].(client := Some(run.stage.client), state := Negotiating))
          .(runs := p.runs[r := run.(stage := Warming(run.stage.client))])
  }

  datatype WarmUp = Answered | RejectedByWallet | FailedWarmUp

  /** The get_info warm-up ended; an answer of any kind proves the client works. */
  function WarmedUp(env: PoolEnv, p: Pool, r: nat, outcome: WarmUp): Pool {
    if r !in p.runs || !p.runs[r].stage.Warming? then p
    else
      var run := p.runs[r];
      var client := run.stage.client;
      if outcome.FailedWarmUp? then
        if Overtaken(p, r) then Rest(p, r) else FailConnect(env, Rest(p, r), run.handle)
      else
        var proved := if client < |p.clients|
                      then p.(clients := p.clients[client := p.clients[client].(warmed := true)])
                      else p;
        if Overtaken(p, r) then
          if run.handle < |p.conns|
          then Put(Rest(proved, r), run.handle, p.conns[run.handle].(client := None))
          else Rest(proved, r)
        else
          var c := p.conns[run.handle];
          Put(Rest(proved, r), run.handle,
              c.(state := Ready, retryAttempt := 0, errorNotified := false, wasConnected := true))
            .(subscribed := p.subscribed + [(c.wallet.id, client)])
  }

  /** The `finally` of a connect: the slot is released and the queue drained. */
  function Release(env: PoolEnv, p: Pool, r: nat): Pool {
    if r !in p.runs || !p.runs[r].stage.Releasing? || p.activeConnects == 0 then p
    else Drain(env, p.(runs := p.runs - {r}, activeConnects := p.activeConnects - 1))
  }

  function TimerFires(env: PoolEnv, p: Pool, h: nat): Pool {
    if h >= |p.conns| || p.conns[h].retryTimer.None? then p
    else EnqueueConnect(env, Put(p, h, p.conns[h].(retryTimer := None)), h, true)
  }

  // ---- Readiness ----

  function Without(queue: seq<nat>, h: nat): seq<nat> {
    if queue == [] then []
    else if queue[0] == h then queue[1..]
    else [queue[0]] + Without(queue[1..], h)
  }

  function Prioritize(env: PoolEnv, p: Pool, id: string): Pool {
    if id !in p.connections || p.connections[id] >= |p.conns| then p
    else
      var h := p.connections[id];
      var c := p.conns[h];
      if c.state.Ready? || c.state.Closed? then p
      else if h in p.queue then Drain(env, p.(queue := [h] + Without(p.queue, h)))
      else if c.state.Errored? && c.retryTimer.Some? then
        EnqueueConnect(env, Put(p, h, c.(retryTimer := None)), h, true)
      else p
  }

  /** `isReady` and its side effects; `connected` is the relay state of the client at this moment. */
  function IsReady(p: Pool, id: string, connected: bool): (bool, Pool) {
    if id !in p.connections || p.connections[id] >= |p.conns| then (false, p)
    else
      var h := p.connections[id];
      var c := p.conns[h];
      if c.client.None? then (false, p)
      else if !connected then
        (false, Put(p, h, c.(state := if c.state.Ready? then Disconnected else c.state, wasConnected := false)))
      else if c.state.Disconnected? then (true, Put(p, h, c.(state := Ready, wasConnected := true)))
      else (c.state.Ready?, p)
  }

  /** `requireReady`: the gate in front of SDK calls, true only when it opens. */
  function RequireReady(p: Pool, id: string, connected: bool): (bool, Pool) {
    if id !in p.connections || p.connections[id] >= |p.conns| then (false, p)
    else
      var h := p.connections[id];
      var c := p.conns[h];
      if c.state.Ready? && c.client.Some? && connected then (true, p)
      else if c.client.Some? && c.state.Ready? then (false, Put(p, h, c.(state := Disconnected, wasConnected := false)))
      else (false, p)
  }

  function Watched(c: Conn, connected: bool): Conn {
    if !(c.state.Ready? || c.state.Disconnected?) || c.client.None? then c
    else if !connected then c.(state := Disconnected, wasConnected := false)
    else c.(state := Ready, wasConnected := true)
  }

  /** The 30-second watcher over every held connection. */
  function CheckReconnects(p: Pool, connected: nat -> bool): Pool {
    p.(conns := seq(|p.conns|, h requires 0 <= h < |p.conns| =>
         if Held(p, h) && p.conns[h].client.Some?
         then Watched(p.conns[h], connected(p.conns[h].client.value))
         else p.conns[h]))
  }

  // ---- Runs ----

  datatype PoolAction =
    | ReconcileFull(listing: seq<string>, desired: seq<Wallet>)
    | ReconcileOne(id: string, row: Option<Wallet>)
    | SubscribeEnds(run: nat, ok: bool)
    | WarmUpEnds(run: nat, outcome: WarmUp)
    | SlotReleased(run: nat)
    | RetryTimer(handle: nat)
    | PrioritizeWallet(id: string)
    | ReadinessRead(id: string, connected: bool)
    | ReadinessRequired(id: string, connected: bool)
    | Watcher(relays: nat -> bool)
    | Shutdown

  /** Lists come from the database: one row per id, and a targeted reconcile loads the row of its id. */
  predicate Admissible(p: Pool, a: PoolAction) {
    match a
    case ReconcileFull(listing, desired) => Lists(p, listing) && DistinctIds(desired)
    case ReconcileOne(id, row) => row.Some? ==> row.value.id == id
    case _ => true
  }

  function PoolStep(env: PoolEnv, p: Pool, a: PoolAction): Pool {
    if !Admissible(p, a) then p
    else
      match a
      case ReconcileFull(listing, desired) => ApplyFull(env, p, listing, desired)
      case ReconcileOne(id, row) => ApplyOne(env, p, id, row)
      case SubscribeEnds(r, ok) => Subscribed(env, p, r, ok)
      case WarmUpEnds(r, outcome) => WarmedUp(env, p, r, outcome)
      case SlotReleased(r) => Release(env, p, r)
      case RetryTimer(h) => TimerFires(env, p, h)
      case PrioritizeWallet(id) => Prioritize(env, p, id)
      case ReadinessRead(id, connected) => IsReady(p, id, connected).1
      case ReadinessRequired(id, connected) => RequireReady(p, id, connected).1
      case Watcher(relays) => CheckReconnects(p, relays)
      case Shutdown => CloseAll(p)
  }

  function PoolRun(env: PoolEnv, p: Pool, trace: seq<PoolAction>): Pool
    decreases |trace|
  {
    if trace == [] then p else PoolRun(env, PoolStep(env, p, trace[0]), trace[1..])
  }
}
