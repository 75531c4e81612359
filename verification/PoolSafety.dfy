/**
 What every run of the connection pool keeps: where each held wallet waits, the
 connect slots, and the fence that stops an overtaken connect.
 */
module PoolSafety {
  import opened Common
  import opened Reconcile
  import opened PoolModel

  // ---- The invariant ----

  predicate Live(run: ConnectRun) {
    !run.stage.Releasing?
  }

  predicate Parked(c: Conn) {
    c.state.Ready? || c.state.Disconnected?
  }

  predicate Queued(p: Pool, h: nat) {
    h in p.queue
  }

  predicate Running(p: Pool, h: nat) {
    exists r :: r in p.runs && p.runs[r].handle == h && Live(p.runs[r])
  }

  /** In exactly one of: the connect queue, a running connect, an armed retry timer. Ready wallets are in none. */
  predicate Placed(p: Pool, h: nat)
    requires h < |p.conns|
  {
    var c := p.conns[h];
    if Parked(c) then !Queued(p, h) && !Running(p, h) && c.retryTimer.None?
    else
      && (Queued(p, h) || Running(p, h) || c.retryTimer.Some?)
      && !(Queued(p, h) && Running(p, h))
      && !(Queued(p, h) && c.retryTimer.Some?)
      && !(Running(p, h) && c.retryTimer.Some?)
      && (Queued(p, h) ==> c.state.Connecting? || c.state.Errored?)
      && (c.retryTimer.Some? ==> c.state.Errored?)
  }

  /** Held but in none of the three places, on its way into one. */
  predicate Loose(p: Pool, h: nat) {
    Held(p, h) && !Queued(p, h) && !Running(p, h) && p.conns[h].retryTimer.None?
  }

  /** In a state a connect starts from. */
  predicate Startable(c: Conn) {
    c.state.Connecting? || c.state.Errored?
  }

  predicate ClientOk(p: Pool, k: nat, connectionString: string) {
    k < |p.clients| && p.clients[k].connectionString == connectionString
  }

  predicate ConnOk(p: Pool, h: nat)
    requires h < |p.conns|
  {
    var c := p.conns[h];
    && (Held(p, h) <==> c.generation == 0)
    && (Held(p, h) <==> !c.state.Closed?)
    && (!Held(p, h) ==> c.retryTimer.None? && c.client.None?)
    && (c.client.Some? ==>
          ClientOk(p, c.client.value, c.wallet.connectionString) && (c.state.Negotiating? || Parked(c)))
    && (Parked(c) ==> c.client.Some? && p.clients[c.client.value].warmed)
    && (c.retryTimer.Some? ==> 750 <= c.retryTimer.value <= 75000)
  }

  predicate RunOk(p: Pool, r: nat)
    requires r in p.runs
  {
    var run := p.runs[r];
    && r < p.nextRun
    && run.handle < |p.conns|
    && run.generation == 0
    && match run.stage
       case Subscribing(k) =>
         ClientOk(p, k, p.conns[run.handle].wallet.connectionString)
         && (Held(p, run.handle) ==> p.conns[run.handle].state.Connecting?)
       case Warming(k) =>
         ClientOk(p, k, p.conns[run.handle].wallet.connectionString)
         && (Held(p, run.handle) ==> p.conns[run.handle].state.Negotiating? && p.conns[run.handle].client == Some(k))
       case Releasing => true
  }

  /** No held wallet is being connected twice at once. */
  predicate OneRunEach(p: Pool) {
    forall r, q :: (r in p.runs && q in p.runs && Live(p.runs[r]) && Live(p.runs[q])
                    && p.runs[r].handle == p.runs[q].handle && Held(p, p.runs[r].handle)) ==> r == q
  }

  predicate QueueOk(p: Pool) {
    && (forall i :: 0 <= i < |p.queue| ==> p.queue[i] < |p.conns|)
    && (forall i, j :: 0 <= i < j < |p.queue| ==> p.queue[i] != p.queue[j])
  }

  /** The index from connection strings never names a wrong or removed wallet. */
  predicate IndexSound(p: Pool) {
    forall s :: s in p.byConnectionString ==>
      var id := p.byConnectionString[s];
      id in p.connections && p.connections[id] < |p.conns| && p.conns[p.connections[id]].wallet.connectionString == s
  }

  predicate Core(p: Pool) {
    && (forall id :: id in p.connections ==>
        p.connections[id] < |p.conns| && p.conns[p.connections[id]].wallet.id == id)
    && (forall h :: 0 <= h < |p.conns| ==> ConnOk(p, h))
    && (forall r :: r in p.runs ==> RunOk(p, r))
    && OneRunEach(p)
    && QueueOk(p)
    && p.activeConnects == |p.runs| <= MAX_CONCURRENT_NEGOTIATIONS
    && IndexSound(p)
    && (p.closed ==> p.connections == map[] && p.queue == [])
  }

  /** The invariant, with at most one wallet `x` between places. */
  predicate PoolInvBut(p: Pool, x: Option<nat>) {
    && Core(p)
    && (forall h :: 0 <= h < |p.conns| && Held(p, h) && Some(h) != x ==> Placed(p, h))
    && (x.Some? ==> Loose(p, x.value))
  }

  predicate PoolInv(p: Pool) {
    PoolInvBut(p, None)
  }

  // ---- Steps on one connection ----

  /** Connections, index and openness are those of before; connections keep their wallet and their generation. */
  predicate Holds(p: Pool, p': Pool) {
    && p'.connections == p.connections
    && p'.byConnectionString == p.byConnectionString
    && p'.closed == p.closed
    && |p'.conns| == |p.conns|
    && (forall h :: 0 <= h < |p.conns| ==>
        p'.conns[h].wallet == p.conns[h].wallet && p'.conns[h].generation == p.conns[h].generation)
  }

  /** Clients are only added, keep their string and stay warmed. */
  predicate ClientsGrow(p: Pool, p': Pool) {
    && |p.clients| <= |p'.clients|
    && (forall k :: 0 <= k < |p.clients| ==>
          p'.clients[k].connectionString == p.clients[k].connectionString
            && (p.clients[k].warmed ==> p'.clients[k].warmed))
  }

  /** Everything about connections other than `h` is untouched. */
  ghost predicate OnlyTouches(p: Pool, p': Pool, h: nat) {
    && Holds(p, p')
    && ClientsGrow(p, p')
    && p.nextRun <= p'.nextRun
    && (forall i :: 0 <= i < |p.conns| && i != h ==> p'.conns[i] == p.conns[i])
    && (forall r :: r in p.runs && p.runs[r].handle != h ==> r in p'.runs && p'.runs[r] == p.runs[r])
    && (forall r :: r in p'.runs && p'.runs[r].handle != h ==> r in p.runs && p'.runs[r] == p.runs[r])
    && (forall i :: i != h ==> (i in p'.queue <==> i in p.queue))
  }

  /** What must be checked about the touched connection itself. */
  predicate TouchedOk(p: Pool, h: nat) {
    && h < |p.conns|
    && ConnOk(p, h)
    && (forall r :: r in p.runs && p.runs[r].handle == h ==> RunOk(p, r))
    && (Held(p, h) ==> forall r, q :: (r in p.runs && q in p.runs && Live(p.runs[r]) && Live(p.runs[q])
                                       && p.runs[r].handle == h && p.runs[q].handle == h) ==> r == q)
    && QueueOk(p)
    && p.activeConnects == |p.runs| <= MAX_CONCURRENT_NEGOTIATIONS
    && (p.closed ==> p.queue == [])
  }

  lemma OthersStayOk(p: Pool, p': Pool, h: nat)
    requires Core(p) && OnlyTouches(p, p', h)
    ensures forall i :: 0 <= i < |p.conns| ==> (Held(p', i) <==> Held(p, i))
    ensures forall i :: 0 <= i < |p.conns| && i != h ==> ConnOk(p', i)
    ensures forall r :: r in p'.runs && p'.runs[r].handle != h ==> RunOk(p', r)
  {
    forall i | 0 <= i < |p.conns| && i != h ensures ConnOk(p', i) {
      assert ConnOk(p, i);
    }
    forall r | r in p'.runs && p'.runs[r].handle != h ensures RunOk(p', r) {
      assert RunOk(p, r);
    }
  }

  lemma OthersStayPlaced(p: Pool, p': Pool, h: nat, i: nat)
    requires OnlyTouches(p, p', h) && i < |p.conns| && i != h && Placed(p, i)
    ensures Placed(p', i)
  {
    assert Running(p', i) <==> Running(p, i) by {
      if Running(p, i) {
        var r :| r in p.runs && p.runs[r].handle == i && Live(p.runs[r]);
        assert p'.runs[r] == p.runs[r];
      }
    }
  }

  lemma TouchKeeps(p: Pool, p': Pool, h: nat, x: Option<nat>)
    requires PoolInvBut(p, None) || PoolInvBut(p, Some(h))
    requires OnlyTouches(p, p', h) && TouchedOk(p', h)
    requires if x.Some? then x.value == h && Loose(p', h) else Held(p', h) ==> Placed(p', h)
    ensures PoolInvBut(p', x)
  {
    hide ConnOk, RunOk, Placed;
    OthersStayOk(p, p', h);
    forall i | 0 <= i < |p'.conns| && Held(p', i) && Some(i) != x ensures Placed(p', i) {
      if i != h {
        OthersStayPlaced(p, p', h, i);
      }
    }
  }

  // ---- Connect slots ----

  lemma FailConnectKeeps(env: PoolEnv, p: Pool, h: nat)
    requires PoolInvBut(p, Some(h))
    ensures PoolInv(FailConnect(env, p, h))
    ensures OnlyTouches(p, FailConnect(env, p, h), h)
  {
    hide IndexSound, OneRunEach;
    var p' := FailConnect(env, p, h);
    assert ConnOk(p, h);
    assert Running(p', h) <==> Running(p, h);
    forall r | r in p'.runs && p'.runs[r].handle == h ensures RunOk(p', r) {
      assert RunOk(p, r);
      assert !Live(p.runs[r]);
    }
    TouchKeeps(p, p', h, None);
  }

  lemma FreshRun(p: Pool)
    requires Core(p)
    ensures p.nextRun !in p.runs
  {
    forall r | r in p.runs ensures r < p.nextRun {
      assert RunOk(p, r);
    }
  }

  lemma BegunKeeps(p: Pool, h: nat)
    requires PoolInvBut(p, Some(h)) && Startable(p.conns[h])
    ensures var p' := Put(p, h, p.conns[h].(state := Connecting)); PoolInvBut(p', Some(h)) && OnlyTouches(p, p', h)
  {
    hide IndexSound, OneRunEach;
    var p' := Put(p, h, p.conns[h].(state := Connecting));
    assert ConnOk(p, h);
    assert Running(p', h) <==> Running(p, h);
    forall r | r in p'.runs && p'.runs[r].handle == h ensures RunOk(p', r) {
      assert RunOk(p, r);
      assert !Live(p.runs[r]);
    }
    TouchKeeps(p, p', h, Some(h));
  }

  function TakeSlot(p: Pool, h: nat, stage: Stage): Pool {
    p.(activeConnects := p.activeConnects + 1, nextRun := p.nextRun + 1,
       runs := p.runs[p.nextRun := ConnectRun(h, 0, stage)])
  }

  lemma TakeSlotTouches(p: Pool, h: nat, stage: Stage)
    requires Core(p) && h < |p.conns|
    ensures var p' := TakeSlot(p, h, stage);
            && OnlyTouches(p, p', h)
            && |p'.runs| == |p.runs| + 1
            && p.nextRun !in p.runs
            && p'.runs[p.nextRun] == ConnectRun(h, 0, stage)
            && (forall r :: r in p.runs ==> r in p'.runs && p'.runs[r] == p.runs[r])
            && (forall r :: r in p'.runs ==> r in p.runs || r == p.nextRun)
  {
    hide ConnOk, RunOk, OneRunEach, QueueOk, IndexSound, TakeSlot, OnlyTouches;
    FreshRun(p);
    NewRunTouches(p, h, stage);
  }

  lemma NewRunTouches(p: Pool, h: nat, stage: Stage)
    requires p.nextRun !in p.runs && h < |p.conns|
    ensures var p' := TakeSlot(p, h, stage);
            && OnlyTouches(p, p', h)
            && |p'.runs| == |p.runs| + 1
            && p'.runs[p.nextRun] == ConnectRun(h, 0, stage)
            && (forall r :: r in p.runs ==> r in p'.runs && p'.runs[r] == p.runs[r])
            && (forall r :: r in p'.runs ==> r in p.runs || r == p.nextRun)
  {
    assert TakeSlot(p, h, stage).runs.Keys == p.runs.Keys + {p.nextRun};
  }

  /** A slot taken by a connect that has already failed. */
  lemma TakeSlotKeeps(p: Pool, h: nat)
    requires PoolInv(p) && Held(p, h) && p.activeConnects < MAX_CONCURRENT_NEGOTIATIONS
    ensures PoolInv(TakeSlot(p, h, Releasing)) && OnlyTouches(p, TakeSlot(p, h, Releasing), h)
  {
    hide IndexSound, ConnOk, Placed;
    var p' := TakeSlot(p, h, Releasing);
    TakeSlotTouches(p, h, Releasing);
    TakeSlotPlaces(p, h);
    forall r | r in p'.runs && p'.runs[r].handle == h ensures RunOk(p', r) {
      if r in p.runs { assert RunOk(p, r); }
    }
    TouchKeeps(p, p', h, None);
  }

  lemma TakeSlotPlaces(p: Pool, h: nat)
    requires Core(p) && h < |p.conns| && Placed(p, h)
    ensures ConnOk(TakeSlot(p, h, Releasing), h) && Placed(TakeSlot(p, h, Releasing), h)
  {
    hide IndexSound, OneRunEach, QueueOk;
    var p' := TakeSlot(p, h, Releasing);
    TakeSlotTouches(p, h, Releasing);
    assert ConnOk(p, h);
    assert Running(p', h) <==> Running(p, h) by {
      if Running(p, h) {
        var r :| r in p.runs && p.runs[r].handle == h && Live(p.runs[r]);
        assert p'.runs[r] == p.runs[r];
      }
    }
  }

  /** A new client, not yet in use. */
  lemma NewClientKeeps(p: Pool, h: nat, s: string)
    requires PoolInvBut(p, Some(h))
    ensures var p' := p.(clients := p.clients + [Client(s, false)]); PoolInvBut(p', Some(h)) && OnlyTouches(p, p', h)
  {
    var p' := p.(clients := p.clients + [Client(s, false)]);
    assert ConnOk(p, h);
    assert Running(p', h) <==> Running(p, h);
    forall r | r in p'.runs && p'.runs[r].handle == h ensures RunOk(p', r) {
      assert RunOk(p, r);
    }
    TouchKeeps(p, p', h, Some(h));
  }

  /** A slot taken by a connect that awaits its subscription on its own client. */
  lemma SubscribingKeeps(p: Pool, h: nat, k: nat)
    requires PoolInvBut(p, Some(h)) && p.conns[h].state.Connecting? && p.activeConnects < MAX_CONCURRENT_NEGOTIATIONS
    requires ClientOk(p, k, p.conns[h].wallet.connectionString)
    ensures PoolInv(TakeSlot(p, h, Subscribing(k))) && OnlyTouches(p, TakeSlot(p, h, Subscribing(k)), h)
  {
    var p' := TakeSlot(p, h, Subscribing(k));
    TakeSlotTouches(p, h, Subscribing(k));
    assert ConnOk(p, h);
    assert ConnOk(p', h);
    assert p'.runs[p.nextRun].handle == h && Live(p'.runs[p.nextRun]);
    forall r | r in p.runs && p.runs[r].handle == h ensures !Live(p.runs[r]) {
      assert Live(p.runs[r]) ==> Running(p, h);
    }
    forall r | r in p'.runs && p'.runs[r].handle == h ensures RunOk(p', r) {
      if r in p.runs { assert RunOk(p, r); }
    }
    TouchKeeps(p, p', h, None);
  }

  function Begun(p: Pool, h: nat): Pool
    requires h < |p.conns|
  {
    Put(p, h, p.conns[h].(state := Connecting))
  }

  function WithClient(p: Pool, h: nat): Pool
    requires h < |p.conns|
  {
    p.(clients := p.clients + [Client(p.conns[h].wallet.connectionString, false)])
  }

  /** The steps inside `connect` before its first await. */
  lemma StartConnectUnfolds(env: PoolEnv, p: Pool, h: nat)
    requires h < |p.conns| && p.conns[h].generation == 0
    ensures StartConnect(env, p, h)
            == if env.parses(p.conns[h].wallet.connectionString)
               then TakeSlot(WithClient(Begun(p, h), h), h, Subscribing(|p.clients|))
               else TakeSlot(FailConnect(env, Begun(p, h), h), h, Releasing)
  {
  }

  lemma StartConnectKeeps(env: PoolEnv, p: Pool, h: nat)
    requires PoolInvBut(p, Some(h)) && Startable(p.conns[h]) && p.activeConnects < MAX_CONCURRENT_NEGOTIATIONS
    ensures PoolInv(StartConnect(env, p, h))
    ensures OnlyTouches(p, StartConnect(env, p, h), h)
  {
    hide RunOk, OneRunEach, QueueOk, IndexSound, Placed, OnlyTouches;
    assert ConnOk(p, h);
    StartConnectUnfolds(env, p, h);
    BegunKeeps(p, h);
    var begun := Begun(p, h);
    var middle: Pool, stage: Stage;
    if env.parses(p.conns[h].wallet.connectionString) {
      middle, stage := WithClient(begun, h), Subscribing(|p.clients|);
      NewClientKeeps(begun, h, p.conns[h].wallet.connectionString);
      SubscribingKeeps(middle, h, |p.clients|);
    } else {
      middle, stage := FailConnect(env, begun, h), Releasing;
      FailConnectKeeps(env, begun, h);
      TakeSlotKeeps(middle, h);
    }
    TouchesCompose(p, begun, middle, h);
    TouchesCompose(p, middle, TakeSlot(middle, h, stage), h);
  }

  lemma TouchesCompose(p: Pool, q: Pool, s: Pool, h: nat)
    requires OnlyTouches(p, q, h) && OnlyTouches(q, s, h)
    ensures OnlyTouches(p, s, h)
  {
  }

  // ---- The connect queue ----

  lemma PopKeeps(p: Pool)
    requires PoolInv(p) && p.queue != []
    ensures var h := p.queue[0];
            var rest := p.(queue := p.queue[1..]);
            && h < |p.conns|
            && OnlyTouches(p, rest, h)
            && PoolInvBut(rest, if Held(p, h) then Some(h) else None)
            && (Held(p, h) ==> Startable(p.conns[h]))
  {
    var h := p.queue[0];
    var rest := p.(queue := p.queue[1..]);
    assert p.queue == [h] + rest.queue;
    assert ConnOk(p, h) && Queued(p, h);
    assert h !in rest.queue;
    assert ConnOk(rest, h);
    assert Running(rest, h) <==> Running(p, h);
    forall r | r in rest.runs && rest.runs[r].handle == h ensures RunOk(rest, r) {
      assert RunOk(p, r);
    }
    if Held(p, h) { assert Placed(p, h); }
    TouchKeeps(p, rest, h, if Held(p, h) then Some(h) else None);
  }

  lemma {:induction false} DrainKeeps(env: PoolEnv, p: Pool)
    requires PoolInv(p)
    ensures PoolInv(Drain(env, p)) && Holds(p, Drain(env, p))
    decreases |p.queue|
  {
    if !(p.closed || p.activeConnects >= MAX_CONCURRENT_NEGOTIATIONS || p.queue == []) {
      var h := p.queue[0];
      var rest := p.(queue := p.queue[1..]);
      PopKeeps(p);
      if Held(rest, h) {
        var started := StartConnect(env, rest, h);
        StartConnectKeeps(env, rest, h);
        StartConnectQueue(env, rest, h);
        DrainKeeps(env, started);
        HoldsCompose(p, rest, started);
        HoldsCompose(p, started, Drain(env, started));
      } else {
        DrainKeeps(env, rest);
        HoldsCompose(p, rest, Drain(env, rest));
      }
    }
  }

  lemma HoldsCompose(p: Pool, q: Pool, s: Pool)
    requires Holds(p, q) && Holds(q, s)
    ensures Holds(p, s)
  {
  }

  lemma StartConnectQueue(env: PoolEnv, p: Pool, h: nat)
    requires h < |p.conns|
    ensures StartConnect(env, p, h).queue == p.queue
  {
  }

  /** After draining an open pool, either the queue is empty or all slots are taken: nobody waits for nothing. */
  lemma {:induction false} DrainIsComplete(env: PoolEnv, p: Pool)
    requires !p.closed
    ensures Drain(env, p).queue == [] || Drain(env, p).activeConnects >= MAX_CONCURRENT_NEGOTIATIONS
    decreases |p.queue|
  {
    if !(p.activeConnects >= MAX_CONCURRENT_NEGOTIATIONS || p.queue == []) {
      var h := p.queue[0];
      var rest := p.(queue := p.queue[1..]);
      if Held(rest, h) {
        StartConnectQueue(env, rest, h);
        DrainIsComplete(env, StartConnect(env, rest, h));
      } else {
        DrainIsComplete(env, rest);
      }
    }
  }

  function WithQueued(p: Pool, h: nat, priority: bool): Pool {
    p.(queue := if priority then [h] + p.queue else p.queue + [h])
  }

  lemma QueueingKeeps(p: Pool, h: nat, priority: bool)
    requires PoolInvBut(p, Some(h)) && Startable(p.conns[h])
    ensures PoolInv(WithQueued(p, h, priority)) && !p.closed
  {
    hide IndexSound, OneRunEach;
    var q := WithQueued(p, h, priority);
    assert ConnOk(p, h);
    assert !p.closed;
    assert Queued(q, h) by { assert q.queue[if priority then 0 else |p.queue|] == h; }
    QueueInsert(p.queue, h);
    assert ConnOk(q, h);
    assert Running(q, h) <==> Running(p, h);
    forall r | r in q.runs && q.runs[r].handle == h ensures RunOk(q, r) {
      assert RunOk(p, r);
    }
    TouchKeeps(p, q, h, None);
  }

  lemma EnqueueKeeps(env: PoolEnv, p: Pool, h: nat, priority: bool)
    requires PoolInvBut(p, Some(h)) && Startable(p.conns[h])
    ensures PoolInv(EnqueueConnect(env, p, h, priority)) && Holds(p, EnqueueConnect(env, p, h, priority))
  {
    hide Core, Placed;
    QueueingKeeps(p, h, priority);
    DrainKeeps(env, WithQueued(p, h, priority));
  }

  lemma QueueInsert(queue: seq<nat>, h: nat)
    ensures forall i :: i in [h] + queue <==> i == h || i in queue
    ensures forall i :: i in queue + [h] <==> i == h || i in queue
  {
  }

  // ---- Adding and removing ----

  lemma AddWalletKeeps(env: PoolEnv, p: Pool, w: Wallet, priority: bool)
    requires PoolInv(p) && !p.closed && w.id !in p.connections
    ensures PoolInv(AddWallet(env, p, w, priority))
    ensures AddsHandle(p, AddWallet(env, p, w, priority), w)
  {
    var h := |p.conns|;
    var q := p.(conns := p.conns + [Conn(w, None, Connecting, None, 0, false, false, 0)],
                connections := p.connections[w.id := h],
                byConnectionString := p.byConnectionString[w.connectionString := w.id]);
    NewConnKeeps(p, w);
    EnqueueKeeps(env, q, h, priority);
  }

  /** `w` is held on a new handle, everyone else on the handle of before. */
  predicate AddsHandle(p: Pool, p': Pool, w: Wallet) {
    && p'.connections == p.connections[w.id := |p.conns|]
    && p'.byConnectionString == p.byConnectionString[w.connectionString := w.id]
    && p'.closed == p.closed
    && |p'.conns| == |p.conns| + 1
    && p'.conns[|p.conns|].wallet == w
    && (forall h :: 0 <= h < |p.conns| ==>
        p'.conns[h].wallet == p.conns[h].wallet && p'.conns[h].generation == p.conns[h].generation)
  }

  function WithConn(p: Pool, w: Wallet): Pool {
    p.(conns := p.conns + [Conn(w, None, Connecting, None, 0, false, false, 0)],
       connections := p.connections[w.id := |p.conns|],
       byConnectionString := p.byConnectionString[w.connectionString := w.id])
  }

  lemma NewConnIndex(p: Pool, w: Wallet)
    requires Core(p) && w.id !in p.connections
    ensures IndexSound(WithConn(p, w))
  {
    hide ConnOk, RunOk, QueueOk, OneRunEach;
  }

  lemma NewConnConns(p: Pool, w: Wallet)
    requires PoolInv(p) && !p.closed && w.id !in p.connections
    ensures var q := WithConn(p, w);
            && Held(q, |p.conns|)
            && forall i :: 0 <= i < |q.conns| ==> ConnOk(q, i) && (i != |p.conns| ==> (Held(q, i) <==> Held(p, i)))
  {
    hide RunOk, Placed, IndexSound, QueueOk, OneRunEach;
    var q := WithConn(p, w);
    forall i | 0 <= i < |q.conns| ensures ConnOk(q, i) && (i != |p.conns| ==> (Held(q, i) <==> Held(p, i))) {
      if i < |p.conns| { assert ConnOk(p, i); }
    }
  }

  lemma NewConnRuns(p: Pool, w: Wallet)
    requires PoolInv(p) && !p.closed && w.id !in p.connections
    ensures var q := WithConn(p, w);
            && (forall r :: r in q.runs ==> RunOk(q, r) && q.runs[r].handle < |p.conns|)
            && OneRunEach(q)
  {
    hide ConnOk, Placed, IndexSound, QueueOk;
    NewConnConns(p, w);
    var q := WithConn(p, w);
    forall r | r in q.runs ensures RunOk(q, r) && q.runs[r].handle < |p.conns| {
      assert RunOk(p, r);
    }
  }

  lemma NewConnKeeps(p: Pool, w: Wallet)
    requires PoolInv(p) && !p.closed && w.id !in p.connections
    ensures PoolInvBut(WithConn(p, w), Some(|p.conns|))
  {
    hide ConnOk, RunOk, IndexSound, OneRunEach;
    var h := |p.conns|;
    var q := WithConn(p, w);
    NewConnIndex(p, w);
    NewConnConns(p, w);
    NewConnRuns(p, w);
    forall i | 0 <= i < |q.conns| && Held(q, i) && i != h ensures Placed(q, i) {
      assert Placed(p, i);
      assert Running(q, i) <==> Running(p, i);
    }
  }

  /** `id` is no longer held, everyone else is on the handle of before. */
  predicate DropsHandle(p: Pool, p': Pool, id: string) {
    && p'.connections == p.connections - {id}
    && p'.closed == p.closed
    && p'.byConnectionString == (if id in p.connections && p.connections[id] < |p.conns|
                                 then p.byConnectionString - {p.conns[p.connections[id]].wallet.connectionString}
                                 else p.byConnectionString)
    && |p'.conns| == |p.conns|
    && (forall h :: 0 <= h < |p.conns| ==> p'.conns[h].wallet == p.conns[h].wallet)
  }

  /** The removal written out, for an id that is held. */
  predicate Removed(p: Pool, q: Pool, id: string)
    requires id in p.connections && p.connections[id] < |p.conns|
  {
    var h := p.connections[id];
    && q == p.(conns := p.conns[h := ClosedConn(p.conns[h])],
               byConnectionString := p.byConnectionString - {p.conns[h].wallet.connectionString},
               connections := p.connections - {id})
  }

  lemma RemovalHeld(p: Pool, q: Pool, id: string)
    requires forall i :: i in p.connections ==> p.connections[i] < |p.conns| && p.conns[p.connections[i]].wallet.id == i
    requires id in p.connections && Removed(p, q, id)
    ensures forall i :: 0 <= i < |q.conns| ==> (Held(q, i) <==> Held(p, i) && i != p.connections[id])
  {
  }

  lemma RemovalConns(p: Pool, q: Pool, id: string)
    requires PoolInv(p) && id in p.connections && Removed(p, q, id)
    ensures forall i :: 0 <= i < |q.conns| ==> ConnOk(q, i)
  {
    RemovalHeld(p, q, id);
    forall i | 0 <= i < |q.conns| ensures ConnOk(q, i) {
      assert ConnOk(p, i);
    }
  }

  lemma RemovalRun(p: Pool, q: Pool, id: string, r: nat)
    requires id in p.connections && p.connections[id] < |p.conns| && Removed(p, q, id)
    requires r in p.runs && RunOk(p, r)
    requires Held(q, p.runs[r].handle) <==> Held(p, p.runs[r].handle) && p.runs[r].handle != p.connections[id]
    ensures RunOk(q, r)
  {
    hide Held;
  }

  lemma RemovalOneRun(p: Pool, q: Pool, id: string)
    requires PoolInv(p) && id in p.connections && Removed(p, q, id)
    ensures OneRunEach(q)
  {
    hide ConnOk, Placed, IndexSound, QueueOk, RunOk;
    RemovalHeld(p, q, id);
    forall r, s | r in q.runs && s in q.runs && Live(q.runs[r]) && Live(q.runs[s])
                  && q.runs[r].handle == q.runs[s].handle && Held(q, q.runs[r].handle)
      ensures r == s
    {
      assert Held(p, p.runs[r].handle) by { RunHandle(p, r); }
    }
  }

  lemma RemovalRuns(p: Pool, q: Pool, id: string)
    requires PoolInv(p) && id in p.connections && Removed(p, q, id)
    ensures forall r :: r in q.runs ==> RunOk(q, r)
  {
    hide ConnOk, Placed, IndexSound, QueueOk, RunOk, OneRunEach;
    RemovalHeld(p, q, id);
    forall r | r in q.runs ensures RunOk(q, r) {
      RunHandle(p, r);
      RemovalRun(p, q, id, r);
    }
  }

  lemma RunHandle(p: Pool, r: nat)
    requires Core(p) && r in p.runs
    ensures p.runs[r].handle < |p.conns|
  {
    assert RunOk(p, r);
  }

  lemma RemovalIndex(p: Pool, q: Pool, id: string)
    requires PoolInv(p) && id in p.connections && Removed(p, q, id)
    ensures IndexSound(q)
  {
    forall s | s in q.byConnectionString
      ensures var i := q.byConnectionString[s];
              i in q.connections && q.connections[i] < |q.conns|
                && q.conns[q.connections[i]].wallet.connectionString == s
    {
      var i := p.byConnectionString[s];
      assert i != id;
    }
  }

  lemma RemovalPlaced(p: Pool, q: Pool, id: string)
    requires PoolInv(p) && id in p.connections && Removed(p, q, id)
    ensures forall i :: 0 <= i < |q.conns| && Held(q, i) ==> Placed(q, i)
  {
    RemovalHeld(p, q, id);
    forall i | 0 <= i < |q.conns| && Held(q, i) ensures Placed(q, i) {
      assert Placed(p, i);
      assert Running(q, i) <==> Running(p, i);
    }
  }

  lemma RemovalCore(p: Pool, q: Pool, id: string)
    requires PoolInv(p) && id in p.connections && Removed(p, q, id)
    ensures Core(q)
  {
    RemovalConns(p, q, id);
    RemovalRuns(p, q, id);
    RemovalOneRun(p, q, id);
    RemovalIndex(p, q, id);
    assert QueueOk(q);
  }

  lemma RemoveWalletDrops(p: Pool, id: string)
    requires forall i :: i in p.connections ==> p.connections[i] < |p.conns|
    ensures DropsHandle(p, RemoveWallet(p, id), id)
    ensures if id in p.connections then Removed(p, RemoveWallet(p, id), id) else RemoveWallet(p, id) == p
  {
    assert id !in p.connections ==> p.connections - {id} == p.connections;
  }

  lemma RemoveWalletKeeps(p: Pool, id: string)
    requires PoolInv(p)
    ensures PoolInv(RemoveWallet(p, id))
    ensures DropsHandle(p, RemoveWallet(p, id), id)
  {
    hide Removed, RemoveWallet, DropsHandle, ConnOk, RunOk, Placed, OneRunEach, QueueOk, IndexSound;
    RemoveWalletDrops(p, id);
    if id in p.connections {
      RemovalCore(p, RemoveWallet(p, id), id);
      RemovalPlaced(p, RemoveWallet(p, id), id);
    }
  }

  // ---- The fence ----

  /**
   The generation test of a connect is exact: it passes just when the pool still holds the connection
   it was started for.
   */
  lemma FenceIsExact(p: Pool, r: nat)
    requires PoolInv(p) && r in p.runs
    ensures Overtaken(p, r) <==> !Held(p, p.runs[r].handle)
  {
    assert RunOk(p, r);
    assert ConnOk(p, p.runs[r].handle);
  }

  /** A closed pool holds no connection. */
  lemma HeldIsOpen(p: Pool, h: nat)
    requires PoolInv(p) && Held(p, h)
    ensures !p.closed
  {
  }

  // ---- Continuations of connect ----

  lemma RestTouches(p: Pool, r: nat)
    requires r in p.runs
    ensures OnlyTouches(p, Rest(p, r), p.runs[r].handle)
    ensures Rest(p, r).runs.Keys == p.runs.Keys
  {
  }

  lemma InvCore(p: Pool)
    requires PoolInv(p)
    ensures Core(p)
  {
  }

  lemma CoreTouched(p: Pool, h: nat)
    requires Core(p) && h < |p.conns|
    ensures TouchedOk(p, h)
  {
  }

  /** A live run of a held connection stops being live: the connection is loose. */
  lemma RestLoosens(p: Pool, r: nat)
    requires PoolInv(p) && r in p.runs && Live(p.runs[r]) && Held(p, p.runs[r].handle)
    ensures !Running(Rest(p, r), p.runs[r].handle)
    ensures !Queued(p, p.runs[r].handle) && p.conns[p.runs[r].handle].retryTimer.None?
    ensures !Parked(p.conns[p.runs[r].handle])
  {
    var h := p.runs[r].handle;
    assert RunOk(p, r) && Placed(p, h);
    assert Running(p, h);
    forall q | q in Rest(p, r).runs && Rest(p, r).runs[q].handle == h ensures !Live(Rest(p, r).runs[q]) {
      assert q != r && Live(p.runs[q]) ==> q == r;
    }
  }

  lemma RestOvertakenKeeps(p: Pool, r: nat)
    requires PoolInv(p) && r in p.runs && !Held(p, p.runs[r].handle)
    ensures PoolInv(Rest(p, r))
  {
    var h := p.runs[r].handle;
    var q := Rest(p, r);
    RestTouches(p, r);
    assert RunOk(p, r);
    assert ConnOk(p, h);
    assert ConnOk(q, h);
    forall s | s in q.runs && q.runs[s].handle == h ensures RunOk(q, s) {
      assert RunOk(p, s);
    }
    TouchKeeps(p, q, h, None);
  }

  lemma RestIsLoose(p: Pool, r: nat)
    requires PoolInv(p) && r in p.runs && Live(p.runs[r]) && Held(p, p.runs[r].handle)
    ensures PoolInvBut(Rest(p, r), Some(p.runs[r].handle))
  {
    hide Placed, IndexSound;
    var h := p.runs[r].handle;
    var q := Rest(p, r);
    RestTouches(p, r);
    RestLoosens(p, r);
    CoreTouched(p, h);
    assert ConnOk(q, h);
    forall s | s in q.runs && q.runs[s].handle == h ensures RunOk(q, s) {
      assert RunOk(p, s);
    }
    TouchKeeps(p, q, h, Some(h));
  }

  /** A run gives up: its connection is marked failed and armed for a retry. */
  lemma GiveUpKeeps(env: PoolEnv, p: Pool, r: nat)
    requires PoolInv(p) && r in p.runs && Live(p.runs[r]) && Held(p, p.runs[r].handle)
    ensures var h, q := p.runs[r].handle, FailConnect(env, Rest(p, r), p.runs[r].handle);
            && PoolInv(q) && h < |q.conns|
            && q.conns[h].state.Errored? && q.conns[h].client.None?
            && q.conns[h].retryTimer.Some? && 750 <= q.conns[h].retryTimer.value <= 75000
            && q.conns[h].retryAttempt == p.conns[h].retryAttempt + 1
  {
    hide ConnOk, RunOk, Placed, OneRunEach, QueueOk, IndexSound;
    RestIsLoose(p, r);
    FailConnectKeeps(env, Rest(p, r), p.runs[r].handle);
  }

  function Negotiate(p: Pool, r: nat): Pool
    requires r in p.runs && p.runs[r].stage.Subscribing? && p.runs[r].handle < |p.conns|
  {
    var run := p.runs[r];
    Put(p, run.handle, p.conns[run.handle].(client := Some(run.stage.client), state := Negotiating))
      .(runs := p.runs[r := run.(stage := Warming(run.stage.client))])
  }

  lemma NegotiateTouches(p: Pool, r: nat)
    requires r in p.runs && p.runs[r].stage.Subscribing? && p.runs[r].handle < |p.conns|
    ensures OnlyTouches(p, Negotiate(p, r), p.runs[r].handle) && Negotiate(p, r).runs.Keys == p.runs.Keys
  {
  }

  lemma NegotiateTouched(p: Pool, r: nat)
    requires r in p.runs && p.runs[r].stage.Subscribing? && TouchedOk(p, p.runs[r].handle)
    requires Held(p, p.runs[r].handle) && p.conns[p.runs[r].handle].retryTimer.None?
    ensures TouchedOk(Negotiate(p, r), p.runs[r].handle)
  {
    var h := p.runs[r].handle;
    var q := Negotiate(p, r);
    NegotiateTouches(p, r);
    assert RunOk(p, r) && ConnOk(p, h);
    assert ConnOk(q, h);
    forall s | s in q.runs && q.runs[s].handle == h ensures RunOk(q, s) && (Live(q.runs[s]) ==> s == r) {
      assert RunOk(p, s);
    }
  }

  lemma NegotiatingKeeps(p: Pool, r: nat)
    requires PoolInv(p) && r in p.runs && p.runs[r].stage.Subscribing? && Held(p, p.runs[r].handle)
    ensures PoolInv(Negotiate(p, r))
  {
    hide OnlyTouches, TouchedOk, ConnOk, RunOk, IndexSound, QueueOk, OneRunEach;
    var h := p.runs[r].handle;
    var q := Negotiate(p, r);
    NegotiateTouches(p, r);
    RestLoosens(p, r);
    CoreTouched(p, h);
    NegotiateTouched(p, r);
    assert q.runs[r].handle == h && Live(q.runs[r]);
    TouchKeeps(p, q, h, None);
  }

  lemma SubscribedKeeps(env: PoolEnv, p: Pool, r: nat, ok: bool)
    requires PoolInv(p)
    ensures PoolInv(Subscribed(env, p, r, ok))
  {
    if r in p.runs && p.runs[r].stage.Subscribing? {
      FenceIsExact(p, r);
      if Overtaken(p, r) {
        RestOvertakenKeeps(p, r);
      } else if !ok {
        GiveUpKeeps(env, p, r);
      } else {
        NegotiatingKeeps(p, r);
      }
    }
  }

  /** A finished get_info round trip marks the client and nothing else. */
  lemma WarmClientKeeps(p: Pool, k: nat)
    requires PoolInv(p) && k < |p.clients|
    ensures PoolInv(p.(clients := p.clients[k := p.clients[k].(warmed := true)]))
  {
    var q := p.(clients := p.clients[k := p.clients[k].(warmed := true)]);
    forall i | 0 <= i < |q.conns| ensures ConnOk(q, i) { assert ConnOk(p, i); }
    forall r | r in q.runs ensures RunOk(q, r) { assert RunOk(p, r); }
    forall i | 0 <= i < |q.conns| && Held(q, i) ensures Placed(q, i) {
      assert Placed(p, i);
      assert Running(q, i) <==> Running(p, i);
    }
  }

  lemma LogKeeps(p: Pool, log: seq<(string, nat)>)
    requires PoolInv(p)
    ensures PoolInv(p.(subscribed := log))
  {
    var q := p.(subscribed := log);
    forall i | 0 <= i < |q.conns| ensures ConnOk(q, i) { assert ConnOk(p, i); }
    forall r | r in q.runs ensures RunOk(q, r) { assert RunOk(p, r); }
    forall i | 0 <= i < |q.conns| && Held(q, i) ensures Placed(q, i) {
      assert Placed(p, i);
      assert Running(q, i) <==> Running(p, i);
    }
  }

  function ReadyConn(c: Conn): Conn {
    c.(state := Ready, retryAttempt := 0, errorNotified := false, wasConnected := true)
  }

  function MakeReady(p: Pool, r: nat): Pool
    requires r in p.runs && p.runs[r].handle < |p.conns|
  {
    Put(Rest(p, r), p.runs[r].handle, ReadyConn(p.conns[p.runs[r].handle]))
  }

  lemma ReadyTouched(p: Pool, h: nat)
    requires TouchedOk(p, h) && Held(p, h) && !Running(p, h) && p.conns[h].retryTimer.None?
    requires p.conns[h].client.Some? && p.clients[p.conns[h].client.value].warmed
    ensures var q := Put(p, h, ReadyConn(p.conns[h])); OnlyTouches(p, q, h) && TouchedOk(q, h)
  {
    var q := Put(p, h, ReadyConn(p.conns[h]));
    assert ConnOk(p, h);
    forall s | s in q.runs && q.runs[s].handle == h ensures RunOk(q, s) {
      assert RunOk(p, s) && !Live(p.runs[s]);
    }
  }

  lemma ReadyKeeps(p: Pool, r: nat)
    requires PoolInv(p) && r in p.runs && p.runs[r].stage.Warming? && Held(p, p.runs[r].handle)
    requires p.runs[r].stage.client < |p.clients| && p.clients[p.runs[r].stage.client].warmed
    ensures PoolInv(MakeReady(p, r))
  {
    hide OnlyTouches, TouchedOk, ConnOk, IndexSound, QueueOk, OneRunEach;
    var h := p.runs[r].handle;
    assert RunOk(p, r);
    RestIsLoose(p, r);
    var rest := Rest(p, r);
    CoreTouched(rest, h);
    ReadyTouched(rest, h);
    var q := MakeReady(p, r);
    assert !Running(q, h) && !Queued(q, h);
    TouchKeeps(rest, q, h, None);
  }

  /** The warm-up of a connect that was overtaken: nothing but its own slot changes. */
  lemma OvertakenWarmUp(env: PoolEnv, p: Pool, r: nat)
    requires PoolInv(p) && r in p.runs && p.runs[r].stage.Warming? && Overtaken(p, r)
    ensures p.runs[r].stage.client < |p.clients|
    ensures WarmedUp(env, p, r, FailedWarmUp) == Rest(p, r)
    ensures forall o: WarmUp :: !o.FailedWarmUp? ==>
            WarmedUp(env, p, r, o) == Rest(Proved(p, p.runs[r].stage.client), r)
  {
    var h := p.runs[r].handle;
    assert RunOk(p, r) && ConnOk(p, h);
    FenceIsExact(p, r);
    assert p.conns[h].(client := None) == p.conns[h];
    assert p.conns[h := p.conns[h]] == p.conns;
  }

  function Proved(p: Pool, k: nat): Pool
    requires k < |p.clients|
  {
    p.(clients := p.clients[k := p.clients[k].(warmed := true)])
  }

  lemma WarmedUpKeeps(env: PoolEnv, p: Pool, r: nat, outcome: WarmUp)
    requires PoolInv(p)
    ensures PoolInv(WarmedUp(env, p, r, outcome))
  {
    if r in p.runs && p.runs[r].stage.Warming? {
      assert RunOk(p, r);
      FenceIsExact(p, r);
      var k := p.runs[r].stage.client;
      WarmClientKeeps(p, k);
      if Overtaken(p, r) {
        OvertakenWarmUp(env, p, r);
        RestOvertakenKeeps(if outcome.FailedWarmUp? then p else Proved(p, k), r);
      } else if outcome.FailedWarmUp? {
        GiveUpKeeps(env, p, r);
      } else {
        ReadyKeeps(Proved(p, k), r);
        LogKeeps(MakeReady(Proved(p, k), r), p.subscribed + [(p.conns[p.runs[r].handle].wallet.id, k)]);
      }
    }
  }

  function FreeSlot(p: Pool, r: nat): Pool
    requires p.activeConnects != 0
  {
    p.(runs := p.runs - {r}, activeConnects := p.activeConnects - 1)
  }

  lemma FreeSlotTouches(p: Pool, r: nat)
    requires r in p.runs && p.activeConnects != 0
    ensures OnlyTouches(p, FreeSlot(p, r), p.runs[r].handle)
  {
    assert FreeSlot(p, r).runs.Keys == p.runs.Keys - {r};
  }

  lemma FreeSlotTouched(p: Pool, r: nat)
    requires PoolInv(p) && r in p.runs && p.runs[r].stage.Releasing? && p.activeConnects != 0
    ensures OnlyTouches(p, FreeSlot(p, r), p.runs[r].handle) && TouchedOk(FreeSlot(p, r), p.runs[r].handle)
  {
    hide Placed, IndexSound, OnlyTouches;
    FreeSlotTouches(p, r);
    var q := FreeSlot(p, r);
    var h := p.runs[r].handle;
    assert RunOk(p, r) && ConnOk(p, h);
    assert q.runs.Keys == p.runs.Keys - {r};
    assert ConnOk(q, h);
    forall s | s in q.runs && q.runs[s].handle == h ensures RunOk(q, s) {
      assert RunOk(p, s);
    }
  }

  lemma FreeSlotKeeps(p: Pool, r: nat)
    requires PoolInv(p) && r in p.runs && p.runs[r].stage.Releasing? && p.activeConnects != 0
    ensures PoolInv(FreeSlot(p, r))
  {
    var q := FreeSlot(p, r);
    var h := p.runs[r].handle;
    FreeSlotTouched(p, r);
    assert Running(q, h) <==> Running(p, h) by {
      if Running(p, h) {
        var s :| s in p.runs && p.runs[s].handle == h && Live(p.runs[s]);
        assert q.runs[s] == p.runs[s];
      }
    }
    if Held(p, h) { assert Placed(p, h); }
    hide Core, TouchedOk, OnlyTouches;
    TouchKeeps(p, q, h, None);
  }

  lemma ReleaseKeeps(env: PoolEnv, p: Pool, r: nat)
    requires PoolInv(p)
    ensures PoolInv(Release(env, p, r)) && Holds(p, Release(env, p, r))
  {
    if r in p.runs && p.runs[r].stage.Releasing? && p.activeConnects != 0 {
      hide PoolInvBut, Drain;
      FreeSlotKeeps(p, r);
      DrainKeeps(env, FreeSlot(p, r));
    }
  }

  lemma DisarmLoosens(p: Pool, h: nat)
    requires PoolInv(p) && h < |p.conns| && p.conns[h].retryTimer.Some?
    ensures PoolInvBut(Put(p, h, p.conns[h].(retryTimer := None)), Some(h)) && Startable(p.conns[h])
    ensures Holds(p, Put(p, h, p.conns[h].(retryTimer := None)))
  {
    var q := Put(p, h, p.conns[h].(retryTimer := None));
    assert ConnOk(p, h) && Placed(p, h);
    assert ConnOk(q, h);
    assert Running(q, h) <==> Running(p, h);
    forall s | s in q.runs && q.runs[s].handle == h ensures RunOk(q, s) {
      assert RunOk(p, s);
    }
    TouchKeeps(p, q, h, Some(h));
  }

  lemma TimerKeeps(env: PoolEnv, p: Pool, h: nat)
    requires PoolInv(p)
    ensures PoolInv(TimerFires(env, p, h)) && Holds(p, TimerFires(env, p, h))
  {
    if h < |p.conns| && p.conns[h].retryTimer.Some? {
      DisarmLoosens(p, h);
      EnqueueKeeps(env, Put(p, h, p.conns[h].(retryTimer := None)), h, true);
    }
  }

  lemma {:induction false} WithoutExact(queue: seq<nat>, h: nat)
    requires h in queue
    requires forall i, j :: 0 <= i < j < |queue| ==> queue[i] != queue[j]
    ensures forall i :: i in Without(queue, h) <==> i in queue && i != h
    ensures forall i, j :: 0 <= i < j < |Without(queue, h)| ==> Without(queue, h)[i] != Without(queue, h)[j]
  {
    if queue[0] != h {
      WithoutExact(queue[1..], h);
      assert queue == [queue[0]] + queue[1..];
      var rest := Without(queue[1..], h);
      assert forall i :: 0 <= i < |rest| ==> rest[i] in queue[1..];
    }
  }

  lemma MoveToFrontKeeps(p: Pool, h: nat)
    requires PoolInv(p) && h in p.queue
    ensures PoolInv(p.(queue := [h] + Without(p.queue, h)))
  {
    hide IndexSound, OneRunEach;
    var q := p.(queue := [h] + Without(p.queue, h));
    WithoutExact(p.queue, h);
    QueueInsert(Without(p.queue, h), h);
    assert ConnOk(p, h) && ConnOk(q, h);
    assert Running(q, h) <==> Running(p, h);
    assert Queued(q, h) <==> Queued(p, h);
    forall s | s in q.runs && q.runs[s].handle == h ensures RunOk(q, s) {
      assert RunOk(p, s);
    }
    forall i | 0 <= i < |q.queue| ensures q.queue[i] < |q.conns| {
      assert q.queue[i] in p.queue;
    }
    if Held(p, h) { assert Placed(p, h); }
    TouchKeeps(p, q, h, None);
  }

  lemma PrioritizeKeeps(env: PoolEnv, p: Pool, id: string)
    requires PoolInv(p)
    ensures PoolInv(Prioritize(env, p, id)) && Holds(p, Prioritize(env, p, id))
  {
    if id in p.connections {
      var h := p.connections[id];
      var c := p.conns[h];
      if !(c.state.Ready? || c.state.Closed?) {
        if h in p.queue {
          MoveToFrontKeeps(p, h);
          DrainKeeps(env, p.(queue := [h] + Without(p.queue, h)));
        } else if c.state.Errored? && c.retryTimer.Some? {
          TimerKeeps(env, p, h);
        }
      }
    }
  }

  // ---- Readiness ----

  /** Demoting a ready wallet or promoting a disconnected one changes only which of the two it is. */
  lemma FlipTouched(p: Pool, h: nat, c: Conn)
    requires TouchedOk(p, h) && Held(p, h)
    requires c == p.conns[h].(state := c.state, wasConnected := c.wasConnected)
    requires c.state == p.conns[h].state || (Parked(p.conns[h]) && Parked(c))
    ensures OnlyTouches(p, Put(p, h, c), h) && TouchedOk(Put(p, h, c), h)
  {
    var q := Put(p, h, c);
    assert ConnOk(p, h) && ConnOk(q, h);
    forall s | s in q.runs && q.runs[s].handle == h ensures RunOk(q, s) {
      assert RunOk(p, s);
    }
  }

  lemma FlipKeeps(p: Pool, h: nat, c: Conn)
    requires PoolInv(p) && Held(p, h)
    requires c == p.conns[h].(state := c.state, wasConnected := c.wasConnected)
    requires c.state == p.conns[h].state || (Parked(p.conns[h]) && Parked(c))
    ensures PoolInv(Put(p, h, c)) && Holds(p, Put(p, h, c))
  {
    hide Core, TouchedOk;
    var q := Put(p, h, c);
    InvCore(p);
    CoreTouched(p, h);
    FlipTouched(p, h, c);
    assert Placed(p, h);
    assert Running(q, h) <==> Running(p, h);
    TouchKeeps(p, q, h, None);
  }

  lemma ReadinessKeeps(p: Pool, id: string, connected: bool)
    requires PoolInv(p)
    ensures PoolInv(IsReady(p, id, connected).1) && Holds(p, IsReady(p, id, connected).1)
    ensures PoolInv(RequireReady(p, id, connected).1) && Holds(p, RequireReady(p, id, connected).1)
  {
    if id in p.connections {
      var h := p.connections[id];
      var c := p.conns[h];
      hide PoolInvBut;
      FlipKeeps(p, h, c);
      FlipKeeps(p, h, c.(state := if c.state.Ready? then Disconnected else c.state, wasConnected := false));
      if c.state.Disconnected? {
        FlipKeeps(p, h, c.(state := Ready, wasConnected := true));
      }
    }
  }

  // ---- The watcher and shutdown ----

  lemma WatchedParts(p: Pool, relays: nat -> bool)
    requires PoolInv(p)
    ensures var q := CheckReconnects(p, relays);
            && Holds(p, q)
            && (forall i :: 0 <= i < |q.conns| ==>
                  && (Held(q, i) <==> Held(p, i))
                  && q.conns[i].client == p.conns[i].client
                  && q.conns[i].retryTimer == p.conns[i].retryTimer
                  && (q.conns[i].state == p.conns[i].state || (Parked(p.conns[i]) && Parked(q.conns[i]))))
  {
  }

  lemma WatcherKeeps(p: Pool, relays: nat -> bool)
    requires PoolInv(p)
    ensures PoolInv(CheckReconnects(p, relays)) && Holds(p, CheckReconnects(p, relays))
    ensures var q := CheckReconnects(p, relays);
            forall h :: 0 <= h < |p.conns| && Held(p, h) ==>
              if Parked(p.conns[h])
              then p.conns[h].client.Some?
                   && q.conns[h].state == if relays(p.conns[h].client.value) then Ready else Disconnected
              else q.conns[h] == p.conns[h]
  {
    var q := CheckReconnects(p, relays);
    WatchedParts(p, relays);
    SimilarKeeps(p, q);
    WatchedStates(p, relays);
  }

  lemma WatchedStates(p: Pool, relays: nat -> bool)
    requires PoolInv(p)
    ensures var q := CheckReconnects(p, relays);
            forall h :: 0 <= h < |p.conns| && Held(p, h) ==>
              if Parked(p.conns[h])
              then p.conns[h].client.Some?
                   && q.conns[h].state == if relays(p.conns[h].client.value) then Ready else Disconnected
              else q.conns[h] == p.conns[h]
  {
    hide RunOk, Placed, OneRunEach, QueueOk, IndexSound;
    forall h | 0 <= h < |p.conns| && Held(p, h) ensures Parked(p.conns[h]) ==> p.conns[h].client.Some? {
      assert ConnOk(p, h);
    }
  }

  /** Promotions and demotions between ready and disconnected, of any number of wallets at once. */
  lemma SimilarKeeps(p: Pool, q: Pool)
    requires PoolInv(p) && Holds(p, q)
    requires q == p.(conns := q.conns)
    requires forall i :: 0 <= i < |q.conns| ==>
               && q.conns[i].client == p.conns[i].client
               && q.conns[i].retryTimer == p.conns[i].retryTimer
               && (q.conns[i].state == p.conns[i].state || (Parked(p.conns[i]) && Parked(q.conns[i])))
    ensures PoolInv(q)
  {
    forall i | 0 <= i < |q.conns| ensures ConnOk(q, i) && (Held(q, i) <==> Held(p, i)) {
      assert ConnOk(p, i);
    }
    forall r | r in q.runs ensures RunOk(q, r) { assert RunOk(p, r); }
    forall i | 0 <= i < |q.conns| && Held(q, i) ensures Placed(q, i) {
      assert Placed(p, i);
      assert Running(q, i) <==> Running(p, i);
    }
  }

  lemma CloseKeeps(p: Pool)
    requires PoolInv(p)
    ensures PoolInv(CloseAll(p))
  {
    var q := CloseAll(p);
    forall i | 0 <= i < |q.conns| ensures ConnOk(q, i) { assert ConnOk(p, i); }
    forall r | r in q.runs ensures RunOk(q, r) { assert RunOk(p, r); }
  }
}
