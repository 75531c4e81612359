/** What the pool gets done: connects that succeed or fail, slots that are used again, and who comes first. */
module PoolEffects {
  import opened Common
  import opened Reconcile
  import opened PoolModel
  import opened PoolSafety
  import opened PoolConvergence
  import opened PoolTheorems

  lemma RunOfTwo(env: PoolEnv, p: Pool, a: PoolAction, b: PoolAction)
    ensures PoolRun(env, p, [a]) == PoolStep(env, p, a)
    ensures PoolRun(env, p, [a, b]) == PoolStep(env, PoolStep(env, p, a), b)
  {
    var q := PoolStep(env, p, a);
    assert PoolRun(env, q, []) == q;
    assert [a, b][1..] == [b] && PoolRun(env, p, [a, b]) == PoolRun(env, q, [b]);
    assert [b][1..] == [] && PoolRun(env, q, [b]) == PoolRun(env, PoolStep(env, q, b), []);
  }

  // ---- The end of a connect ----

  /** Wallet of the run's connection ready on the run's client; nothing else has changed. */
  predicate Connected(p: Pool, q: Pool, r: nat, k: nat)
    requires r in p.runs && p.runs[r].handle < |p.conns|
  {
    var h := p.runs[r].handle;
    && |q.conns| == |p.conns| && q.connections == p.connections && q.queue == p.queue
    && (forall i :: 0 <= i < |p.conns| && i != h ==> q.conns[i] == p.conns[i])
    && q.conns[h].wallet == p.conns[h].wallet && q.conns[h].state == Ready && q.conns[h].client == Some(k)
    && q.conns[h].retryTimer.None? && q.conns[h].retryAttempt == 0
    && q.conns[h].wasConnected && !q.conns[h].errorNotified
    && k < |q.clients| && q.clients[k].connectionString == p.conns[h].wallet.connectionString && q.clients[k].warmed
    && q.subscribed == p.subscribed + [(p.conns[h].wallet.id, k)]
    && q.runs == p.runs[r := p.runs[r].(stage := Releasing)]
  }

  /** The run's connection waits for a retry without a client; nothing else has changed. */
  predicate GaveUp(env: PoolEnv, p: Pool, q: Pool, r: nat)
    requires r in p.runs && p.runs[r].handle < |p.conns|
  {
    var h := p.runs[r].handle;
    && |q.conns| == |p.conns| && q.connections == p.connections && q.queue == p.queue
    && (forall i :: 0 <= i < |p.conns| && i != h ==> q.conns[i] == p.conns[i])
    && q.conns[h].wallet == p.conns[h].wallet && q.conns[h].state == Errored && q.conns[h].client.None?
    && q.conns[h].retryTimer == Some(RetryDelay(p.conns[h].retryAttempt, env.random(p.draws)))
    && q.conns[h].retryAttempt == p.conns[h].retryAttempt + 1 && q.conns[h].errorNotified
    && q.subscribed == p.subscribed && q.runs == p.runs[r := p.runs[r].(stage := Releasing)]
  }

  /**
   A connect goes through: the subscription resolves, the wallet answers its
   `get_info` with a result or an error of its own, and the wallet is ready on
   that very client, with the payment gate open as long as its relays are up.
   */
  lemma ConnectSucceeds(env: PoolEnv, p: Pool, r: nat, answer: WarmUp)
    requires PoolReachable(env, p) && r in p.runs && p.runs[r].stage.Subscribing? && Held(p, p.runs[r].handle)
    requires answer == Answered || answer == RejectedByWallet
    ensures var q := PoolRun(env, p, [SubscribeEnds(r, true), WarmUpEnds(r, answer)]);
            && Connected(p, q, r, p.runs[r].stage.client)
            && RequireReady(q, p.conns[p.runs[r].handle].wallet.id, true).0
  {
    hide Placed, OneRunEach, QueueOk, IndexSound;
    PoolReachableInv(env, p);
    FenceIsExact(p, r);
    assert RunOk(p, r) && ConnOk(p, p.runs[r].handle);
    RunOfTwo(env, p, SubscribeEnds(r, true), WarmUpEnds(r, answer));
    assert p.runs[r := p.runs[r].(stage := Warming(p.runs[r].stage.client))][r := p.runs[r].(stage := Releasing)]
           == p.runs[r := p.runs[r].(stage := Releasing)];
    NoTimerWhileRunning(env, p, r);
  }

  lemma NoTimerWhileRunning(env: PoolEnv, p: Pool, r: nat)
    requires PoolInv(p) && r in p.runs && Live(p.runs[r]) && Held(p, p.runs[r].handle)
    ensures p.conns[p.runs[r].handle].retryTimer.None? && !p.closed
  {
    hide ConnOk, RunOk, OneRunEach, QueueOk, IndexSound;
    assert Placed(p, p.runs[r].handle);
    assert Running(p, p.runs[r].handle);
  }

  /** A rejected subscription, and a warm-up without an answer, leave the wallet waiting for a retry. */
  lemma ConnectFails(env: PoolEnv, p: Pool, r: nat)
    requires PoolReachable(env, p) && r in p.runs && !p.runs[r].stage.Releasing? && Held(p, p.runs[r].handle)
    ensures p.runs[r].handle < |p.conns|
    ensures p.runs[r].stage.Subscribing? ==> GaveUp(env, p, PoolRun(env, p, [SubscribeEnds(r, false)]), r)
    ensures p.runs[r].stage.Warming? ==> GaveUp(env, p, PoolRun(env, p, [WarmUpEnds(r, FailedWarmUp)]), r)
  {
    hide Placed, OneRunEach, QueueOk, IndexSound;
    PoolReachableInv(env, p);
    FenceIsExact(p, r);
    assert RunOk(p, r);
    NoTimerWhileRunning(env, p, r);
    RunOfTwo(env, p, SubscribeEnds(r, false), Shutdown);
    RunOfTwo(env, p, WarmUpEnds(r, FailedWarmUp), Shutdown);
  }

  /** Every connect comes to its end: only one whose subscription resolved for a held connection goes on. */
  lemma SubscriptionEnds(env: PoolEnv, p: Pool, r: nat, ok: bool)
    requires PoolReachable(env, p) && r in p.runs
    ensures var q := PoolRun(env, p, [SubscribeEnds(r, ok)]);
            && q.runs.Keys == p.runs.Keys && q.activeConnects == p.activeConnects && q.queue == p.queue
            && (p.runs[r].stage.Subscribing? ==>
                  q.runs[r] == p.runs[r].(stage := if ok && Held(p, p.runs[r].handle)
                                                   then Warming(p.runs[r].stage.client) else Releasing))
  {
    hide Placed, OneRunEach, QueueOk, IndexSound, RetryDelay, ConnOk;
    PoolReachableInv(env, p);
    FenceIsExact(p, r);
    RunOfTwo(env, p, SubscribeEnds(r, ok), Shutdown);
  }

  /** And that one ends with its warm-up, however that ends. */
  lemma ConnectEnds(env: PoolEnv, p: Pool, r: nat, outcome: WarmUp)
    requires PoolReachable(env, p) && r in p.runs
    ensures var q := PoolRun(env, p, [WarmUpEnds(r, outcome)]);
            && q.runs.Keys == p.runs.Keys && q.activeConnects == p.activeConnects && q.queue == p.queue
            && (p.runs[r].stage.Warming? ==> q.runs[r] == p.runs[r].(stage := Releasing))
  {
    hide Placed, OneRunEach, QueueOk, IndexSound, RetryDelay, ConnOk;
    PoolReachableInv(env, p);
    FenceIsExact(p, r);
    RunOfTwo(env, p, WarmUpEnds(r, outcome), Shutdown);
  }

  /** The delay before a retry: a second, doubled with each failure up to a minute, three to five quarters of it. */
  lemma RetryDelayDoubles(attempt: nat, random: Fraction)
    ensures var base := Min(1000 * Pow2(attempt), 60_000) as real;
            var d := RetryDelay(attempt, random) as real;
            base * 0.75 + base * 0.5 * random - 0.5 <= d <= base * 0.75 + base * 0.5 * random + 0.5
    ensures RetryDelay(attempt, 0.5) == Min(1000 * Pow2(attempt), 60_000)
  {
    var base := Min(1000 * Pow2(attempt), 60_000) as real;
    assert base + base * 0.25 * (random * 2.0 - 1.0) == base * 0.75 + base * 0.5 * random by {
      Spread(base, random);
    }
    assert base + base * 0.25 * (0.5 * 2.0 - 1.0) == base;
  }

  lemma Spread(base: real, random: real)
    ensures base + base * 0.25 * (random * 2.0 - 1.0) == base * 0.75 + base * 0.5 * random
  {
    var product := base * random;
    assert base * 0.25 * (random * 2.0 - 1.0) == 0.5 * product - base * 0.25;
  }

  // ---- Parked and back ----

  /** The pool with the wallet of `h` parked, or back; nothing else differs. */
  function WithRelays(p: Pool, h: nat, state: ConnState, up: bool): Pool
    requires h < |p.conns|
  {
    p.(conns := p.conns[h := p.conns[h].(state := state, wasConnected := up)])
  }

  /** A ready wallet is parked by whoever finds its relays down, and changes nothing else. */
  lemma RelaysDownPark(env: PoolEnv, p: Pool, id: string)
    requires PoolReachable(env, p) && id in p.connections
    ensures var h := p.connections[id];
            && h < |p.conns|
            && (p.conns[h].state.Ready? ==>
                  && PoolRun(env, p, [ReadinessRequired(id, false)]) == WithRelays(p, h, Disconnected, false)
                  && PoolRun(env, p, [ReadinessRead(id, false)]) == WithRelays(p, h, Disconnected, false))
            && (!p.conns[h].state.Ready? ==> PoolRun(env, p, [ReadinessRequired(id, false)]) == p)
  {
    hide Placed, RunOk, OneRunEach, QueueOk, IndexSound;
    PoolReachableInv(env, p);
    assert ConnOk(p, p.connections[id]);
    RunOfTwo(env, p, ReadinessRequired(id, false), Shutdown);
    RunOfTwo(env, p, ReadinessRead(id, false), Shutdown);
  }

  /** A parked wallet with relays up comes back by a readiness read, whose answer is then yes, and not by the gate. */
  lemma RelaysUpBringBack(env: PoolEnv, p: Pool, id: string)
    requires PoolReachable(env, p) && id in p.connections
    ensures var h := p.connections[id];
            && h < |p.conns|
            && PoolRun(env, p, [ReadinessRequired(id, true)]) == p
            && (p.conns[h].state.Disconnected? ==>
                  && PoolRun(env, p, [ReadinessRead(id, true)]) == WithRelays(p, h, Ready, true)
                  && IsReady(p, id, true).0 && !RequireReady(p, id, true).0)
            && (!p.conns[h].state.Disconnected? ==>
                  && PoolRun(env, p, [ReadinessRead(id, true)]) == p
                  && (IsReady(p, id, true).0 <==> p.conns[h].state.Ready?))
  {
    hide Placed, RunOk, OneRunEach, QueueOk, IndexSound;
    PoolReachableInv(env, p);
    assert ConnOk(p, p.connections[id]);
    RunOfTwo(env, p, ReadinessRequired(id, true), Shutdown);
    RunOfTwo(env, p, ReadinessRead(id, true), Shutdown);
  }

  // ---- The beginning of a connect ----

  /**
   The connection has been taken from the queue: a connect runs on a new client of its string, or it
   waits for a retry.
   */
  predicate Attempted(env: PoolEnv, q: Pool, h: nat)
    requires h < |q.conns|
  {
    var c := q.conns[h];
    if env.parses(c.wallet.connectionString)
    then c.state == Connecting && c.retryTimer.None? && AwaitsSubscription(q, h)
    else c.state == Errored && c.client.None? && c.retryTimer.Some?
  }

  predicate AwaitsSubscription(q: Pool, h: nat)
    requires h < |q.conns|
  {
    exists r :: r in q.runs && q.runs[r].handle == h && q.runs[r].stage.Subscribing?
                && q.runs[r].stage.client < |q.clients|
                && q.clients[q.runs[r].stage.client].connectionString == q.conns[h].wallet.connectionString
  }

  lemma StartAttempts(env: PoolEnv, p: Pool, h: nat)
    requires h < |p.conns| && Held(p, h) && !p.closed && p.conns[h].retryTimer.None?
    ensures Attempted(env, StartConnect(env, p, h), h)
  {
    var q := StartConnect(env, p, h);
    assert p.nextRun in q.runs && q.runs[p.nextRun].handle == h;
  }

  /** Draining on leaves alone whoever is not in the queue. */
  lemma {:induction false} DrainLeaves(env: PoolEnv, p: Pool, h: nat)
    requires PoolInv(p) && h < |p.conns| && h !in p.queue && Attempted(env, p, h)
    ensures h < |Drain(env, p).conns| && Attempted(env, Drain(env, p), h)
    decreases |p.queue|
  {
    hide PoolInvBut, Placed, ConnOk, RunOk, Attempted, StartConnect;
    if !(p.closed || p.activeConnects >= MAX_CONCURRENT_NEGOTIATIONS || p.queue == []) {
      var x := p.queue[0];
      var rest := p.(queue := p.queue[1..]);
      PopKeeps(p);
      RestAttempted(env, p, rest, h);
      if Held(rest, x) {
        StartConnectKeeps(env, rest, x);
        StartConnectQueue(env, rest, x);
        TouchLeaves(env, rest, StartConnect(env, rest, x), x, h);
        DrainLeaves(env, StartConnect(env, rest, x), h);
      } else {
        PopInv(p);
        DrainLeaves(env, rest, h);
      }
    }
  }

  lemma PopInv(p: Pool)
    requires PoolInv(p) && p.queue != [] && !Held(p, p.queue[0])
    ensures PoolInv(p.(queue := p.queue[1..]))
  {
    hide PoolInvBut;
    PopKeeps(p);
  }

  lemma RestAttempted(env: PoolEnv, p: Pool, q: Pool, h: nat)
    requires h < |p.conns| && Attempted(env, p, h)
    requires q.conns == p.conns && q.runs == p.runs && q.clients == p.clients
    ensures Attempted(env, q, h)
  {
  }

  lemma TouchLeaves(env: PoolEnv, p: Pool, q: Pool, x: nat, h: nat)
    requires h < |p.conns| && h != x && OnlyTouches(p, q, x) && Attempted(env, p, h)
    ensures h < |q.conns| && Attempted(env, q, h)
  {
    if AwaitsSubscription(p, h) {
      var r :| r in p.runs && p.runs[r].handle == h && p.runs[r].stage.Subscribing?
               && p.runs[r].stage.client < |p.clients|
               && p.clients[p.runs[r].stage.client].connectionString == p.conns[h].wallet.connectionString;
      assert q.runs[r] == p.runs[r];
    }
  }

  /** The head of the queue is attempted as soon as there is a free slot. */
  lemma HeadIsAttempted(env: PoolEnv, p: Pool)
    requires PoolInv(p) && !p.closed && p.activeConnects < MAX_CONCURRENT_NEGOTIATIONS
    requires p.queue != [] && Held(p, p.queue[0])
    ensures p.queue[0] < |Drain(env, p).conns| && Attempted(env, Drain(env, p), p.queue[0])
  {
    hide ConnOk, RunOk, Attempted, StartConnect;
    var h := p.queue[0];
    var rest := p.(queue := p.queue[1..]);
    PopKeeps(p);
    HeadHasNoTimer(p);
    StartConnectKeeps(env, rest, h);
    StartConnectQueue(env, rest, h);
    StartAttempts(env, rest, h);
    DrainLeaves(env, StartConnect(env, rest, h), h);
  }

  lemma HeadHasNoTimer(p: Pool)
    requires PoolInv(p) && p.queue != [] && Held(p, p.queue[0])
    ensures p.conns[p.queue[0]].retryTimer.None? && p.queue[0] !in p.queue[1..]
  {
    assert Queued(p, p.queue[0]) && Placed(p, p.queue[0]);
  }

  /** A connection that is put in front is attempted at once if a slot is free. */
  lemma FrontIsAttempted(env: PoolEnv, p: Pool, h: nat)
    requires PoolInvBut(p, Some(h)) && Startable(p.conns[h]) && p.activeConnects < MAX_CONCURRENT_NEGOTIATIONS
    ensures h < |EnqueueConnect(env, p, h, true).conns| && Attempted(env, EnqueueConnect(env, p, h, true), h)
  {
    hide Core, Placed, Attempted;
    QueueingKeeps(p, h, true);
    HeadIsAttempted(env, WithQueued(p, h, true));
  }

  /** A wallet that a targeted reconcile adds or rotates is attempted at once if a slot is free. */
  lemma NewWalletIsAttempted(env: PoolEnv, p: Pool, w: Wallet)
    requires PoolReachable(env, p) && !p.closed && p.activeConnects < MAX_CONCURRENT_NEGOTIATIONS
    requires w.id in WalletsOf(p) ==> WalletsOf(p)[w.id].connectionString != w.connectionString
    ensures var q, h := PoolRun(env, p, [ReconcileOne(w.id, Some(w))]), |p.conns|;
            && w.id in q.connections && q.connections[w.id] == h && h < |q.conns| && q.conns[h].wallet == w
            && Attempted(env, q, h)
  {
    hide Placed, ConnOk, RunOk, OneRunEach, QueueOk, IndexSound, Attempted, EnqueueConnect, RemoveWallet;
    PoolReachableInv(env, p);
    RunOfTwo(env, p, ReconcileOne(w.id, Some(w)), Shutdown);
    RemoveWalletKeeps(p, w.id);
    RemovalLeavesSlots(p, w.id);
    var base := if w.id in p.connections then RemoveWallet(p, w.id) else p;
    NewConnKeeps(base, w);
    FrontIsAttempted(env, WithConn(base, w), |p.conns|);
    AddWalletKeeps(env, base, w, true);
  }

  lemma RemovalLeavesSlots(p: Pool, id: string)
    ensures RemoveWallet(p, id).activeConnects == p.activeConnects && |RemoveWallet(p, id).conns| == |p.conns|
    ensures RemoveWallet(p, id).queue == p.queue
  {
  }

  /** A retry timer that fires starts its connect at once if a slot is free. */
  lemma RetryIsAttempted(env: PoolEnv, p: Pool, h: nat)
    requires PoolReachable(env, p) && p.activeConnects < MAX_CONCURRENT_NEGOTIATIONS
    requires h < |p.conns| && p.conns[h].retryTimer.Some?
    ensures var q := PoolRun(env, p, [RetryTimer(h)]); h < |q.conns| && Attempted(env, q, h)
  {
    hide Placed, ConnOk, RunOk, OneRunEach, QueueOk, IndexSound, Attempted, EnqueueConnect;
    PoolReachableInv(env, p);
    RunOfTwo(env, p, RetryTimer(h), Shutdown);
    DisarmLoosens(p, h);
    FrontIsAttempted(env, Put(p, h, p.conns[h].(retryTimer := None)), h);
  }

  // ---- Slots are used again ----

  lemma {:induction false} DrainAddsLaterRuns(env: PoolEnv, p: Pool, r: nat)
    requires r < p.nextRun
    ensures r in Drain(env, p).runs <==> r in p.runs
    decreases |p.queue|
  {
    if !(p.closed || p.activeConnects >= MAX_CONCURRENT_NEGOTIATIONS || p.queue == []) {
      var h := p.queue[0];
      var rest := p.(queue := p.queue[1..]);
      if Held(rest, h) {
        StartConnectQueue(env, rest, h);
        DrainAddsLaterRuns(env, StartConnect(env, rest, h), r);
      } else {
        DrainAddsLaterRuns(env, rest, r);
      }
    }
  }

  /** A connect that has ended gives its slot to the connection at the head of the queue. */
  lemma SlotIsReused(env: PoolEnv, p: Pool, r: nat)
    requires PoolReachable(env, p) && r in p.runs && p.runs[r].stage.Releasing?
    ensures var q := PoolRun(env, p, [SlotReleased(r)]);
            && r !in q.runs
            && (p.queue == [] ==> q == p.(runs := p.runs - {r}, activeConnects := |p.runs - {r}|))
            && (!p.closed && p.queue != [] && Held(p, p.queue[0]) ==>
                  p.queue[0] < |q.conns| && Attempted(env, q, p.queue[0]))
            && (!p.closed ==> q.queue == [] || |q.runs| == 8)
  {
    hide Placed, ConnOk, OneRunEach, QueueOk, IndexSound, Attempted;
    PoolReachableInv(env, p);
    assert RunOk(p, r);
    RunOfTwo(env, p, SlotReleased(r), Shutdown);
    assert p.activeConnects > 0 by { assert |p.runs| > 0; }
    FreeSlotKeeps(p, r);
    DrainAddsLaterRuns(env, FreeSlot(p, r), r);
    DrainKeeps(env, FreeSlot(p, r));
    if !p.closed {
      DrainIsComplete(env, FreeSlot(p, r));
      if p.queue != [] && Held(p, p.queue[0]) {
        HeadIsAttempted(env, FreeSlot(p, r));
      }
    }
  }

  // ---- Who comes first ----

  /** The queue without the given handle, in its order. */
  function Others(queue: seq<nat>, h: nat): seq<nat> {
    if queue == [] then []
    else Others(queue[..|queue| - 1], h) + if queue[|queue| - 1] == h then [] else [queue[|queue| - 1]]
  }

  lemma {:induction false} OthersOfAbsent(queue: seq<nat>, h: nat)
    requires h !in queue
    ensures Others(queue, h) == queue
  {
    if queue != [] {
      OthersOfAbsent(queue[..|queue| - 1], h);
    }
  }

  lemma {:induction false} WithoutIsOthers(queue: seq<nat>, h: nat)
    requires forall i, j :: 0 <= i < j < |queue| ==> queue[i] != queue[j]
    ensures Without(queue, h) == Others(queue, h)
  {
    if queue != [] {
      OthersSplit([queue[0]], queue[1..], h);
      assert [queue[0]] + queue[1..] == queue;
      assert Others([queue[0]], h) == if queue[0] == h then [] else [queue[0]];
      if queue[0] == h {
        OthersOfAbsent(queue[1..], h);
      } else {
        WithoutIsOthers(queue[1..], h);
      }
    }
  }

  lemma {:induction false} OthersSplit(a: seq<nat>, b: seq<nat>, h: nat)
    ensures Others(a + b, h) == Others(a, h) + Others(b, h)
  {
    if b == [] {
      assert a + b == a;
    } else {
      assert (a + b)[..|a + b| - 1] == a + b[..|b| - 1];
      OthersSplit(a, b[..|b| - 1], h);
    }
  }

  /** While all slots are taken a fired timer puts its wallet in front of the queue. */
  lemma TimerGoesFirst(env: PoolEnv, p: Pool, h: nat)
    requires PoolReachable(env, p) && p.activeConnects == 8 && h < |p.conns| && p.conns[h].retryTimer.Some?
    ensures PoolRun(env, p, [RetryTimer(h)])
            == p.(queue := [h] + p.queue, conns := p.conns[h := p.conns[h].(retryTimer := None)])
  {
    hide Placed, RunOk, OneRunEach, IndexSound;
    PoolReachableInv(env, p);
    RunOfTwo(env, p, RetryTimer(h), Shutdown);
    assert ConnOk(p, h);
  }

  /** So does a targeted reconcile that adds or rotates one. */
  lemma ReconciledGoesFirst(env: PoolEnv, p: Pool, w: Wallet)
    requires PoolReachable(env, p) && !p.closed && p.activeConnects == 8
    requires w.id in WalletsOf(p) ==> WalletsOf(p)[w.id].connectionString != w.connectionString
    ensures PoolRun(env, p, [ReconcileOne(w.id, Some(w))]).queue == [|p.conns|] + p.queue
  {
    hide PoolInvBut, RemoveWallet;
    RunOfTwo(env, p, ReconcileOne(w.id, Some(w)), Shutdown);
    RemovalLeavesSlots(p, w.id);
    RemovalLeavesOpen(p, w.id);
  }

  lemma RemovalLeavesOpen(p: Pool, id: string)
    ensures RemoveWallet(p, id).closed == p.closed
  {
  }

  /** A card payment moves its wallet to the front, or ends its wait for a retry; the others keep their order. */
  lemma CardPaymentGoesFirst(env: PoolEnv, p: Pool, id: string)
    requires PoolReachable(env, p) && p.activeConnects == 8 && id in p.connections
    ensures var h, q := p.connections[id], PoolRun(env, p, [PrioritizeWallet(id)]);
            && h < |p.conns|
            && (h in p.queue ==> q == p.(queue := [h] + Others(p.queue, h)))
            && (p.conns[h].retryTimer.Some? ==> q == PoolRun(env, p, [RetryTimer(h)]))
            && (h !in p.queue && p.conns[h].retryTimer.None? ==> q == p)
  {
    hide Placed, ConnOk, RunOk, OneRunEach, IndexSound, Others, Without;
    PoolReachableInv(env, p);
    RunOfTwo(env, p, PrioritizeWallet(id), Shutdown);
    RunOfTwo(env, p, RetryTimer(p.connections[id]), Shutdown);
    WhereHeldWaits(p, p.connections[id]);
    WithoutIsOthers(p.queue, p.connections[id]);
  }

  lemma WhereHeldWaits(p: Pool, h: nat)
    requires PoolInv(p) && h < |p.conns| && Held(p, h)
    ensures h in p.queue ==> p.conns[h].retryTimer.None? && !p.conns[h].state.Ready? && !p.conns[h].state.Closed?
    ensures p.conns[h].retryTimer.Some? ==> p.conns[h].state.Errored? && h !in p.queue
  {
    assert Placed(p, h) && ConnOk(p, h);
  }

  lemma {:induction false} AddAllQueues(env: PoolEnv, p: Pool, ws: seq<Wallet>)
    requires !p.closed && p.activeConnects == 8
    ensures var q := AddAll(env, p, ws);
            && !q.closed && q.activeConnects == 8 && |q.conns| == |p.conns| + |ws|
            && q.queue == p.queue + seq(|ws|, i => |p.conns| + i)
  {
    hide AddWallet;
    if ws != [] {
      AddAllQueues(env, p, ws[..|ws| - 1]);
      AddQueues(env, AddAll(env, p, ws[..|ws| - 1]), ws[|ws| - 1]);
    }
  }

  lemma {:induction false} RotateAllQueues(env: PoolEnv, p: Pool, ws: seq<Wallet>)
    requires !p.closed && p.activeConnects == 8
    ensures var q := RotateAll(env, p, ws);
            && !q.closed && q.activeConnects == 8 && |q.conns| == |p.conns| + |ws|
            && q.queue == p.queue + seq(|ws|, i => |p.conns| + i)
  {
    hide RemoveWallet, AddWallet;
    if ws != [] {
      var w := ws[|ws| - 1];
      RotateAllQueues(env, p, ws[..|ws| - 1]);
      var q := RotateAll(env, p, ws[..|ws| - 1]);
      RemovalLeavesSlots(q, w.id);
      RemovalLeavesOpen(q, w.id);
      AddQueues(env, RemoveWallet(q, w.id), w);
    }
  }

  lemma AddQueues(env: PoolEnv, p: Pool, w: Wallet)
    requires !p.closed && p.activeConnects == 8
    ensures var q := AddWallet(env, p, w, false);
            !q.closed && q.activeConnects == 8 && |q.conns| == |p.conns| + 1 && q.queue == p.queue + [|p.conns|]
  {
  }

  lemma {:induction false} OthersQueueNothing(p: Pool, ids: seq<string>, ws: seq<Wallet>)
    ensures var q := RemoveAll(p, ids);
            q.closed == p.closed && q.activeConnects == p.activeConnects && |q.conns| == |p.conns| && q.queue == p.queue
    ensures var q := RefreshAll(p, ws); |q.conns| == |p.conns| && q.queue == p.queue
    decreases |ids| + |ws|
  {
    if ids != [] {
      OthersQueueNothing(p, ids[..|ids| - 1], []);
    }
    if ws != [] {
      OthersQueueNothing(p, [], ws[..|ws| - 1]);
    }
  }

  /** While all slots are taken a full reconcile queues its new connections behind the others, rotations first. */
  lemma ReconcileQueuesBehind(env: PoolEnv, p: Pool, listing: seq<string>, desired: seq<Wallet>)
    requires PoolReachable(env, p) && !p.closed && p.activeConnects == 8 && Lists(p, listing) && DistinctIds(desired)
    ensures var q := PoolRun(env, p, [ReconcileFull(listing, desired)]);
            var d := DiffOf(CurrentOf(p, listing), desired);
            && |q.conns| == |p.conns| + |d.update| + |d.add|
            && q.queue == p.queue + seq(|d.update| + |d.add|, i => |p.conns| + i)
  {
    hide RemoveAll, RotateAll, AddAll, RefreshAll, DiffOf, CurrentOf, Lists;
    RunOfTwo(env, p, ReconcileFull(listing, desired), Shutdown);
    var d := DiffOf(CurrentOf(p, listing), desired);
    OthersQueueNothing(p, d.remove, []);
    var removed := RemoveAll(p, d.remove);
    RotateAllQueues(env, removed, d.update);
    var rotated := RotateAll(env, removed, d.update);
    AddAllQueues(env, rotated, d.add);
    OthersQueueNothing(AddAll(env, rotated, d.add), [], desired);
  }
}
