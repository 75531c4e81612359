/** The connection pool changed in place: the class behind the functions of `PoolModel`. */
module PoolService {
  import opened Common
  import opened Reconcile
  import opened PoolModel
  import opened PoolSafety
  import opened PoolConvergence
  import opened PoolTheorems

  class NwcPool {
    const env: PoolEnv
    var conns: seq<Conn>
    var connections: map<string, nat>
    var byConnectionString: map<string, string>
    var connectQueue: seq<nat>
    var activeConnects: nat
    var runs: map<nat, ConnectRun>
    var nextRun: nat
    var clients: seq<Client>
    var closed: bool
    var draws: nat
    var subscribed: seq<(string, nat)>

    ghost function State(): Pool
      reads this
    {
      Pool(conns, connections, byConnectionString, connectQueue, activeConnects, runs, nextRun, clients, closed, draws,
           subscribed)
    }

    ghost predicate Valid()
      reads this
    {
      PoolInv(State())
    }

    constructor (env: PoolEnv)
      ensures State() == EMPTY_POOL && Valid()
    {
      this.env := env;
      conns, connections, byConnectionString, connectQueue := [], map[], map[], [];
      activeConnects, runs, nextRun, clients, closed, draws, subscribed := 0, map[], 0, [], false, 0, [];
      new;
      EmptyPoolInv();
    }

    predicate Holding(h: nat)
      reads this
      ensures Holding(h) <==> Held(State(), h)
    {
      h < |conns| && conns[h].wallet.id in connections && connections[conns[h].wallet.id] == h
    }

    method MarkFailed(h: nat)
      requires h < |conns|
      modifies this
      ensures State() == FailConnect(env, old(State()), h)
    {
      var c := conns[h].(state := Errored, client := None, errorNotified := true);
      if !closed {
        c := c.(retryTimer := Some(RetryDelay(c.retryAttempt, env.random(draws))), retryAttempt := c.retryAttempt + 1);
        draws := draws + 1;
      }
      conns := conns[h := c];
    }

    method Connect(h: nat)
      requires h < |conns|
      modifies this
      ensures State() == StartConnect(env, old(State()), h)
    {
      var connectionString, generation := conns[h].wallet.connectionString, conns[h].generation;
      activeConnects := activeConnects + 1;
      conns := conns[h := conns[h].(state := Connecting)];
      var stage := Releasing;
      if env.parses(connectionString) {
        stage := Subscribing(|clients|);
        clients := clients + [Client(connectionString, false)];
      } else {
        MarkFailed(h);
      }
      runs := runs[nextRun := ConnectRun(h, generation, stage)];
      nextRun := nextRun + 1;
    }

    method DrainConnectQueue()
      modifies this
      ensures State() == Drain(env, old(State()))
    {
      while !closed && activeConnects < MAX_CONCURRENT_NEGOTIATIONS && connectQueue != []
        invariant Drain(env, State()) == Drain(env, old(State()))
        decreases |connectQueue|
      {
        var h := connectQueue[0];
        connectQueue := connectQueue[1..];
        if Holding(h) {
          StartConnectQueue(env, State(), h);
          Connect(h);
        }
      }
    }

    method Enqueue(h: nat, priority: bool)
      modifies this
      ensures State() == EnqueueConnect(env, old(State()), h, priority)
    {
      if closed || !Holding(h) {
        return;
      }
      if priority {
        connectQueue := [h] + connectQueue;
      } else {
        connectQueue := connectQueue + [h];
      }
      DrainConnectQueue();
    }

    method Add(w: Wallet, priority: bool)
      modifies this
      ensures State() == AddWallet(env, old(State()), w, priority)
    {
      var h := |conns|;
      conns := conns + [Conn(w, None, Connecting, None, 0, false, false, 0)];
      connections := connections[w.id := h];
      byConnectionString := byConnectionString[w.connectionString := w.id];
      Enqueue(h, priority);
    }

    method Remove(id: string)
      modifies this
      ensures State() == RemoveWallet(old(State()), id)
    {
      if id !in connections || connections[id] >= |conns| {
        return;
      }
      var h := connections[id];
      byConnectionString := byConnectionString - {conns[h].wallet.connectionString};
      conns := conns[h := ClosedConn(conns[h])];
      connections := connections - {id};
    }

    method RemoveEach(ids: seq<string>)
      modifies this
      ensures State() == RemoveAll(old(State()), ids)
    {
      for i := 0 to |ids|
        invariant State() == RemoveAll(old(State()), ids[..i])
      {
        assert ids[..i + 1][..i] == ids[..i];
        Remove(ids[i]);
      }
      assert ids[..|ids|] == ids;
    }

    method RotateEach(ws: seq<Wallet>)
      modifies this
      ensures State() == RotateAll(env, old(State()), ws)
    {
      for i := 0 to |ws|
        invariant State() == RotateAll(env, old(State()), ws[..i])
      {
        assert ws[..i + 1][..i] == ws[..i];
        Remove(ws[i].id);
        Add(ws[i], false);
      }
      assert ws[..|ws|] == ws;
    }

    method AddEach(ws: seq<Wallet>)
      modifies this
      ensures State() == AddAll(env, old(State()), ws)
    {
      for i := 0 to |ws|
        invariant State() == AddAll(env, old(State()), ws[..i])
      {
        assert ws[..i + 1][..i] == ws[..i];
        Add(ws[i], false);
      }
      assert ws[..|ws|] == ws;
    }

    method RefreshEach(ws: seq<Wallet>)
      modifies this
      ensures State() == RefreshAll(old(State()), ws)
    {
      for i := 0 to |ws|
        invariant State() == RefreshAll(old(State()), ws[..i])
      {
        assert ws[..i + 1][..i] == ws[..i];
        Refresh(ws[i]);
      }
      assert ws[..|ws|] == ws;
    }

    /** Applies a full desired list; `listing` is the order in which the connection map was walked. */
    method ReconcileAll(desired: seq<Wallet>) returns (ghost listing: seq<string>)
      requires Valid() && DistinctIds(desired)
      modifies this
      ensures Lists(old(State()), listing)
      ensures State() == ApplyFull(env, old(State()), listing, desired)
      ensures Valid()
      ensures !old(closed) ==> WalletsOf(State()) == ByIdMap(desired)
    {
      var walked := WalkIds();
      listing := walked;
      if closed {
        return;
      }
      FullReconcileView(env, State(), listing, desired);
      var diff := DiffWithPool(walked, desired);
      RemoveEach(diff.remove);
      RotateEach(diff.update);
      AddEach(diff.add);
      RefreshEach(desired);
    }

    method WalkIds() returns (listing: seq<string>)
      requires Valid()
      ensures Lists(State(), listing)
    {
      hide ConnOk, RunOk, Placed, OneRunEach, QueueOk, IndexSound;
      listing := [];
      var todo := connections.Keys;
      while todo != {}
        invariant todo <= connections.Keys
        invariant forall id :: id in listing <==> id in connections.Keys - todo
        invariant forall i, j :: 0 <= i < j < |listing| ==> listing[i] != listing[j]
        decreases |todo|
      {
        var id :| id in todo;
        assert id !in listing;
        todo := todo - {id};
        listing := listing + [id];
      }
    }

    method DiffWithPool(listing: seq<string>, desired: seq<Wallet>) returns (diff: Diff)
      requires Lists(State(), listing)
      ensures diff == DiffOf(CurrentOf(State(), listing), desired)
    {
      var current := seq(|listing|, i requires 0 <= i < |listing| && Lists(State(), listing) reads this =>
        Current(conns[connections[listing[i]]].wallet.id, conns[connections[listing[i]]].wallet.connectionString));
      assert current == CurrentOf(State(), listing);
      diff := DiffWallets(current, desired);
    }

    method Refresh(w: Wallet)
      modifies this
      ensures State() == RefreshWallet(old(State()), w)
    {
      if w.id in connections && connections[w.id] < |conns| {
        conns := conns[connections[w.id] := conns[connections[w.id]].(wallet := w)];
      }
    }

    method ReconcileWallet(id: string, row: Option<Wallet>)
      requires Valid() && (row.Some? ==> row.value.id == id)
      modifies this
      ensures State() == ApplyOne(env, old(State()), id, row)
      ensures Valid()
      ensures !old(closed) ==>
                WalletsOf(State())
                == if row.None? then WalletsOf(old(State())) - {id} else WalletsOf(old(State()))[id := row.value]
    {
      OneReconcileKeeps(env, State(), id, row);
      if !closed {
        OneReconcileStep(env, State(), id, row);
      }
      if closed {
        return;
      }
      if row.None? {
        Remove(id);
      } else if id !in connections {
        Add(row.value, true);
      } else if conns[connections[id]].wallet.connectionString != row.value.connectionString {
        Remove(id);
        Add(row.value, true);
      } else {
        Refresh(row.value);
      }
    }

    method OnSubscribeSettled(r: nat, ok: bool)
      requires Valid()
      modifies this
      ensures State() == Subscribed(env, old(State()), r, ok) && Valid()
      ensures r in old(runs) && old(runs)[r].stage.Subscribing? && Held(old(State()), old(runs)[r].handle) ==>
                var h, k := old(runs)[r].handle, old(runs)[r].stage.client;
                && h < |conns| == |old(conns)|
                && (ok ==> conns == old(conns)[h := old(conns)[h].(client := Some(k), state := Negotiating)]
                           && runs == old(runs)[r := old(runs)[r].(stage := Warming(k))])
                && (!ok ==> conns[h].state == Errored && conns[h].client.None? && conns[h].retryTimer.Some?
                            && runs == old(runs)[r := old(runs)[r].(stage := Releasing)])
    {
      SubscribedKeeps(env, State(), r, ok);
      if r in runs && Held(State(), runs[r].handle) {
        FenceIsExact(State(), r);
      }
      if r !in runs || !runs[r].stage.Subscribing? {
        return;
      }
      var run := runs[r];
      if run.handle >= |conns| || conns[run.handle].generation != run.generation {
        runs := runs[r := run.(stage := Releasing)];
        return;
      }
      if !ok {
        runs := runs[r := run.(stage := Releasing)];
        MarkFailed(run.handle);
        return;
      }
      conns := conns[run.handle := conns[run.handle].(client := Some(run.stage.client), state := Negotiating)];
      runs := runs[r := run.(stage := Warming(run.stage.client))];
    }

    method OnWarmUpSettled(r: nat, outcome: WarmUp)
      requires Valid()
      modifies this
      ensures State() == WarmedUp(env, old(State()), r, outcome) && Valid()
      ensures r in old(runs) && old(runs)[r].stage.Warming? && Held(old(State()), old(runs)[r].handle) ==>
                var h, k := old(runs)[r].handle, old(runs)[r].stage.client;
                && h < |conns| == |old(conns)| && runs == old(runs)[r := old(runs)[r].(stage := Releasing)]
                && (outcome != FailedWarmUp ==>
                      && conns[h].state == Ready && conns[h].client == old(conns)[h].client
                      && subscribed == old(subscribed) + [(old(conns)[h].wallet.id, k)])
                && (outcome == FailedWarmUp ==>
                      && conns[h].state == Errored && conns[h].client.None? && conns[h].retryTimer.Some?
                      && subscribed == old(subscribed))
    {
      hide PoolInvBut;
      if r in runs && Held(State(), runs[r].handle) {
        FenceIsExact(State(), r);
        HeldIsOpen(State(), runs[r].handle);
      }
      WarmedUpKeeps(env, State(), r, outcome);
      if r !in runs || !runs[r].stage.Warming? {
        return;
      }
      var run := runs[r];
      var stale := run.handle >= |conns| || conns[run.handle].generation != run.generation;
      runs := runs[r := run.(stage := Releasing)];
      if outcome.FailedWarmUp? {
        if !stale {
          MarkFailed(run.handle);
        }
        return;
      }
      if run.stage.client < |clients| {
        clients := clients[run.stage.client := clients[run.stage.client].(warmed := true)];
      }
      if stale {
        if run.handle < |conns| {
          conns := conns[run.handle := conns[run.handle].(client := None)];
        }
        return;
      }
      var c := conns[run.handle];
      conns := conns[run.handle := c.(state := Ready, retryAttempt := 0, errorNotified := false, wasConnected := true)];
      subscribed := subscribed + [(c.wallet.id, run.stage.client)];
    }

    method OnConnectFinished(r: nat)
      requires Valid()
      modifies this
      ensures State() == Release(env, old(State()), r) && Valid()
      ensures !closed && old(State()) != State() ==> connectQueue == [] || activeConnects >= MAX_CONCURRENT_NEGOTIATIONS
    {
      hide PoolInvBut, Drain;
      ReleaseKeeps(env, State(), r);
      if r in runs && runs[r].stage.Releasing? && activeConnects != 0 {
        runs := runs - {r};
        activeConnects := activeConnects - 1;
        if !closed {
          DrainIsComplete(env, State());
        }
        DrainConnectQueue();
      }
    }

    method OnRetryTimer(h: nat)
      requires Valid()
      modifies this
      ensures State() == TimerFires(env, old(State()), h) && Valid()
    {
      TimerKeeps(env, State(), h);
      if h < |conns| && conns[h].retryTimer.Some? {
        conns := conns[h := conns[h].(retryTimer := None)];
        Enqueue(h, true);
      }
    }

    method CheckReady(id: string, connected: bool) returns (ready: bool)
      requires Valid()
      modifies this
      ensures (ready, State()) == IsReady(old(State()), id, connected) && Valid()
    {
      ReadinessKeeps(State(), id, connected);
      if id !in connections {
        return false;
      }
      var h := connections[id];
      var c := conns[h];
      if c.client.None? {
        return false;
      }
      if !connected {
        if c.state.Ready? {
          c := c.(state := Disconnected);
        }
        conns := conns[h := c.(wasConnected := false)];
        return false;
      }
      if c.state.Disconnected? {
        conns := conns[h := c.(state := Ready, wasConnected := true)];
        return true;
      }
      return c.state.Ready?;
    }

    method CloseEverything()
      requires Valid()
      modifies this
      ensures State() == CloseAll(old(State())) && Valid()
    {
      hide PoolInvBut;
      CloseKeeps(State());
      ghost var before := State();
      closed := true;
      var i := 0;
      while i < |conns|
        invariant 0 <= i <= |conns| == |before.conns|
        invariant connections == before.connections && State() == before.(closed := true, conns := conns)
        invariant forall h :: 0 <= h < i ==>
                  conns[h] == if Held(before, h) then ClosedConn(before.conns[h]) else before.conns[h]
        invariant forall h :: i <= h < |conns| ==> conns[h] == before.conns[h]
      {
        if conns[i].wallet.id in connections && connections[conns[i].wallet.id] == i {
          conns := conns[i := ClosedConn(conns[i])];
        }
        i := i + 1;
      }
      connections := map[];
      byConnectionString := map[];
      connectQueue := [];
      assert conns == CloseAll(before).conns;
    }
  }
}
