/** The connection pool over all runs of reconciles, connects, timers, readiness reads and shutdown. */
module PoolTheorems {
  import opened Common
  import opened Reconcile
  import opened PoolModel
  import opened PoolSafety
  import opened PoolConvergence

  // ---- One full reconcile ----

  /** What the diff says about one id. */
  lemma CurrentAt(p: Pool, listing: seq<string>, i: nat)
    requires ViewOk(ViewOf(p)) && Lists(p, listing) && i < |listing|
    ensures listing[i] in WalletsOf(p)
    ensures CurrentOf(p, listing)[i] == Current(listing[i], WalletsOf(p)[listing[i]].connectionString)
  {
    assert listing[i] in p.connections;
    assert WalletsOf(p)[listing[i]].id == listing[i];
  }

  lemma HeldIsListed(p: Pool, listing: seq<string>, id: string)
    requires Lists(p, listing) && id in WalletsOf(p)
    ensures exists i :: 0 <= i < |listing| && listing[i] == id
  {
  }

  lemma CurrentMapIsHeld(p: Pool, listing: seq<string>)
    requires ViewOk(ViewOf(p)) && Lists(p, listing)
    ensures CurrentMap(CurrentOf(p, listing)).Keys == WalletsOf(p).Keys
    ensures forall id :: id in WalletsOf(p) ==>
              CurrentMap(CurrentOf(p, listing))[id] == WalletsOf(p)[id].connectionString
  {
    hide CurrentMap, Lists, WalletsOf, ViewOk, ViewOf;
    var current := CurrentOf(p, listing);
    forall i | 0 <= i < |listing|
      ensures listing[i] in WalletsOf(p) && current[i] == Current(listing[i], WalletsOf(p)[listing[i]].connectionString)
    {
      CurrentAt(p, listing, i);
    }
    forall id | id in WalletsOf(p) ensures exists i :: 0 <= i < |current| && current[i].id == id {
      HeldIsListed(p, listing, id);
      var i :| 0 <= i < |listing| && listing[i] == id;
      assert current[i].id == id;
    }
    CurrentMapOf(current, map id | id in WalletsOf(p) :: WalletsOf(p)[id].connectionString);
  }

  /** A listing that agrees with a map everywhere and covers it is that map. */
  lemma CurrentMapOf(current: seq<Current>, m: map<string, string>)
    requires forall i :: 0 <= i < |current| ==> current[i].id in m && m[current[i].id] == current[i].connectionString
    requires forall id :: id in m ==> exists i :: 0 <= i < |current| && current[i].id == id
    ensures CurrentMap(current) == m
  {
    CurrentMapWithin(current, m);
  }

  lemma {:induction false} CurrentMapWithin(current: seq<Current>, m: map<string, string>)
    requires forall i :: 0 <= i < |current| ==> current[i].id in m && m[current[i].id] == current[i].connectionString
    ensures forall id :: id in CurrentMap(current) ==> id in m && m[id] == CurrentMap(current)[id]
  {
    if current != [] {
      CurrentMapWithin(current[..|current| - 1], m);
    }
  }

  /** The wallets held after the removals, rotations and additions: the wanted ids, each under its wanted string. */
  lemma PartsCoverDesired(held: map<string, Wallet>, listed: map<string, string>, current: seq<Current>,
          desired: seq<Wallet>)
    requires DistinctIds(desired) && listed == CurrentMap(current)
    requires listed.Keys == held.Keys
    requires forall id :: id in held ==> listed[id] == held[id].connectionString && held[id].id == id
    ensures var m := held - IdSet(Removals(current, WantedIds(desired)))
                     + ByIdMap(Rotations(listed, desired)) + ByIdMap(Additions(listed, desired));
            HeldAs(m, desired) && m.Keys == WantedIds(desired)
  {
    var removed := IdSet(Removals(current, WantedIds(desired)));
    var rotated := Rotations(listed, desired);
    var added := Additions(listed, desired);
    var m := held - removed + ByIdMap(rotated) + ByIdMap(added);
    PartsKeepDistinctIds(listed, desired);
    forall w | w in desired ensures w.id in m && m[w.id].connectionString == w.connectionString {
      RemovalsExact(current, WantedIds(desired), w.id);
      AdditionsAndRotations(listed, desired, w);
      ByIdMapExact(added, w);
      ByIdMapExact(rotated, w);
      if w.id in ByIdMap(added) { OnlyOneWanted(desired, added, listed, w); }
      if w.id in ByIdMap(rotated) { OnlyOneWanted(desired, rotated, listed, w); }
    }
    forall id | id in m ensures id in WantedIds(desired) {
      if id in ByIdMap(added) {
        AdditionsAndRotations(listed, desired, ByIdMap(added)[id]);
      } else if id in ByIdMap(rotated) {
        AdditionsAndRotations(listed, desired, ByIdMap(rotated)[id]);
      } else {
        RemovalsExact(current, WantedIds(desired), id);
      }
    }
  }

  /** In a part of the desired list, an id stands for the one desired wallet of that id. */
  lemma OnlyOneWanted(desired: seq<Wallet>, part: seq<Wallet>, listed: map<string, string>, w: Wallet)
    requires DistinctIds(desired) && w in desired && w.id in ByIdMap(part)
    requires part == Additions(listed, desired) || part == Rotations(listed, desired)
    ensures ByIdMap(part)[w.id] == w
  {
    var x := ByIdMap(part)[w.id];
    AdditionsAndRotations(listed, desired, x);
    var i :| 0 <= i < |desired| && desired[i] == w;
    var j :| 0 <= j < |desired| && desired[j] == x;
    assert desired[i].id == desired[j].id;
  }

  /** The pool after the removals, rotations and additions of a full reconcile. */
  function AfterDiff(env: PoolEnv, p: Pool, d: Diff): Pool {
    AddAll(env, RotateAll(env, RemoveAll(p, d.remove), d.update), d.add)
  }

  function DiffView(v: View, d: Diff, n: nat): View {
    AddAllView(RotateAllView(DropAll(v, d.remove), d.update, n), d.add, n + |d.update|)
  }

  lemma AfterDiffView(env: PoolEnv, p: Pool, d: Diff)
    requires ViewOk(ViewOf(p))
    ensures var q := AfterDiff(env, p, d);
            ViewOf(q) == DiffView(ViewOf(p), d, |p.conns|) && q.closed == p.closed && ViewOk(ViewOf(q))
  {
    hide RemoveAll, RotateAll, AddAll, DropAll, RotateAllView, AddAllView, ViewOk, ViewOf;
    RemoveAllView(p, d.remove);
    RotateAllViewStep(env, RemoveAll(p, d.remove), d.update);
    AddAllViewStep(env, RotateAll(env, RemoveAll(p, d.remove), d.update), d.add);
  }

  lemma DiffViewWallets(v: View, d: Diff, n: nat)
    ensures DiffView(v, d, n).wallets == v.wallets - IdSet(d.remove) + ByIdMap(d.update) + ByIdMap(d.add)
  {
    hide DropAll, AddAllView, RotateAllView, ByIdMap, DropView, AddView;
    DropAllWallets(v, d.remove);
    RotatedAndAddedWallets(DropAll(v, d.remove), d.update, d.add, n);
  }

  lemma RotatedAndAddedWallets(v: View, updated: seq<Wallet>, added: seq<Wallet>, n: nat)
    ensures AddAllView(RotateAllView(v, updated, n), added, n + |updated|).wallets
            == v.wallets + ByIdMap(updated) + ByIdMap(added)
  {
    hide AddAllView, RotateAllView, ByIdMap;
    var v2 := RotateAllView(v, updated, n);
    assert v2.wallets == v.wallets + ByIdMap(updated) by { RotateAllWallets(v, updated, n); }
    AddAllWallets(v2, added, n + |updated|);
  }

  lemma DiffViewKeeps(v: View, d: Diff, n: nat)
    ensures Keeps(v, DiffView(v, d, n), IdSet(d.remove) + WantedIds(d.update) + WantedIds(d.add))
  {
    var v1 := DropAll(v, d.remove);
    var v2 := RotateAllView(v1, d.update, n);
    DropAllKeeps(v, d.remove);
    RotateAllKeepsHandles(v1, d.update, n);
    AddAllKeepsHandles(v2, d.add, n + |d.update|);
    KeepsCompose(v, v1, v2, IdSet(d.remove), WantedIds(d.update));
    KeepsCompose(v, v2, DiffView(v, d, n), IdSet(d.remove) + WantedIds(d.update), WantedIds(d.add));
  }

  lemma DiffViewIndex(v: View, d: Diff, n: nat, own: map<string, string>)
    requires AllFollow(own, d.update) && AllFollow(own, d.add)
    ensures IndexKept(v, DiffView(v, d, n), own)
  {
    var v1 := DropAll(v, d.remove);
    var v2 := RotateAllView(v1, d.update, n);
    DropAllKeepsIndex(v, d.remove, own);
    AddingKeepsIndex(v1, d.update, n, own);
    AddingKeepsIndex(v2, d.add, n + |d.update|, own);
  }

  lemma AfterDiffKeeps(env: PoolEnv, p: Pool, d: Diff)
    requires PoolInv(p) && !p.closed && DistinctIds(d.add)
    requires forall w :: w in d.add ==> w.id !in WalletsOf(p) && w.id !in ByIdMap(d.update)
    ensures PoolInv(AfterDiff(env, p, d))
  {
    var p1 := RemoveAll(p, d.remove);
    InvariantViewOk(p);
    RemoveAllKeeps(p, d.remove);
    RemoveAllView(p, d.remove);
    DropAllWallets(ViewOf(p), d.remove);
    RotateAllKeeps(env, p1, d.update);
    RotateAllViewStep(env, p1, d.update);
    RotateAllWallets(ViewOf(p1), d.update, |p1.conns|);
    AddAllKeeps(env, RotateAll(env, p1, d.update), d.add);
  }

  /** The diff of the pool against a list, with what its parts are. */
  lemma DiffParts(p: Pool, listing: seq<string>, desired: seq<Wallet>)
    requires ViewOk(ViewOf(p)) && Lists(p, listing) && DistinctIds(desired)
    ensures var d := DiffOf(CurrentOf(p, listing), desired);
            && DistinctIds(d.add)
            && (forall w :: w in d.add ==> w in desired && w.id !in WalletsOf(p) && w.id !in ByIdMap(d.update))
            && (forall w :: w in d.update ==> w in desired)
            && (forall id :: id in WalletsOf(p) && id in ByIdMap(desired)
                  && WalletsOf(p)[id].connectionString == ByIdMap(desired)[id].connectionString
                  ==> id !in IdSet(d.remove) && id !in WantedIds(d.update) && id !in WantedIds(d.add))
  {
    var current := CurrentOf(p, listing);
    var listed := CurrentMap(current);
    var d := DiffOf(current, desired);
    CurrentMapIsHeld(p, listing);
    PartsKeepDistinctIds(listed, desired);
    forall w | w in d.add ensures w in desired && w.id !in WalletsOf(p) && w.id !in ByIdMap(d.update) {
      AdditionsAndRotations(listed, desired, w);
      if w.id in ByIdMap(d.update) {
        AdditionsAndRotations(listed, desired, ByIdMap(d.update)[w.id]);
      }
    }
    forall w | w in d.update ensures w in desired {
      AdditionsAndRotations(listed, desired, w);
    }
    forall id | id in WalletsOf(p) && id in ByIdMap(desired)
                && WalletsOf(p)[id].connectionString == ByIdMap(desired)[id].connectionString
      ensures id !in IdSet(d.remove) && id !in WantedIds(d.update) && id !in WantedIds(d.add)
    {
      RemovalsExact(current, WantedIds(desired), id);
      forall w | (w in d.update || w in d.add) && w.id == id ensures false {
        AdditionsAndRotations(listed, desired, w);
        ByIdMapExact(desired, w);
      }
    }
  }

  /** After the removals, rotations and additions every desired wallet is held under its string, and no other. */
  lemma AfterDiffHolds(env: PoolEnv, p: Pool, listing: seq<string>, desired: seq<Wallet>)
    requires PoolInv(p) && !p.closed && Lists(p, listing) && DistinctIds(desired)
    ensures var q := AfterDiff(env, p, DiffOf(CurrentOf(p, listing), desired));
            && PoolInv(q) && !q.closed
            && HeldAs(WalletsOf(q), desired)
            && WalletsOf(q).Keys == WantedIds(desired)
  {
    InvariantViewOk(p);
    var current := CurrentOf(p, listing);
    var d := DiffOf(current, desired);
    DiffParts(p, listing, desired);
    AfterDiffKeeps(env, p, d);
    AfterDiffView(env, p, d);
    DiffViewWallets(ViewOf(p), d, |p.conns|);
    CurrentMapIsHeld(p, listing);
    PartsCoverDesired(WalletsOf(p), CurrentMap(current), current, desired);
  }

  lemma WantedAreKeys(ws: seq<Wallet>)
    ensures ByIdMap(ws).Keys == WantedIds(ws)
  {
    forall id | id in WantedIds(ws) ensures id in ByIdMap(ws) {
      var w :| w in ws && w.id == id;
    }
  }

  lemma OverwriteAll(m: map<string, Wallet>, n: map<string, Wallet>)
    requires m.Keys == n.Keys
    ensures m + n == n
  {
  }

  lemma FullReconcileView(env: PoolEnv, p: Pool, listing: seq<string>, desired: seq<Wallet>)
    requires PoolInv(p) && !p.closed && Lists(p, listing) && DistinctIds(desired)
    ensures var q := ApplyFull(env, p, listing, desired);
            && PoolInv(q) && !q.closed
            && ViewOf(q) == DiffView(ViewOf(p), DiffOf(CurrentOf(p, listing), desired),
                                     |p.conns|).(wallets := ByIdMap(desired))
  {
    var d := DiffOf(CurrentOf(p, listing), desired);
    var q := AfterDiff(env, p, d);
    InvariantViewOk(p);
    AfterDiffHolds(env, p, listing, desired);
    AfterDiffView(env, p, d);
    RefreshAllStep(q, desired);
    WantedAreKeys(desired);
    OverwriteAll(WalletsOf(q), ByIdMap(desired));
  }

  /**
   A full reconcile makes the pool's wallets the desired ones, metadata included; wallets whose
   string did not change keep their connection object.
   */
  lemma FullReconcileStep(env: PoolEnv, p: Pool, listing: seq<string>, desired: seq<Wallet>)
    requires PoolInv(p) && !p.closed && Lists(p, listing) && DistinctIds(desired)
    ensures var q := ApplyFull(env, p, listing, desired);
            && WalletsOf(q) == ByIdMap(desired)
            && (forall id :: id in WalletsOf(p) && id in ByIdMap(desired)
                  && WalletsOf(p)[id].connectionString == ByIdMap(desired)[id].connectionString
                  ==> id in q.connections && q.connections[id] == p.connections[id])
  {
    var d := DiffOf(CurrentOf(p, listing), desired);
    InvariantViewOk(p);
    FullReconcileView(env, p, listing, desired);
    DiffParts(p, listing, desired);
    DiffViewKeeps(ViewOf(p), d, |p.conns|);
  }

  /** If connection strings are never shared or handed between ids, the index stays complete. */
  lemma FullReconcileIndexes(env: PoolEnv, p: Pool, listing: seq<string>, desired: seq<Wallet>,
          own: map<string, string>)
    requires PoolInv(p) && !p.closed && Lists(p, listing) && DistinctIds(desired)
    requires Indexed(ViewOf(p), own) && AllFollow(own, desired)
    ensures Indexed(ViewOf(ApplyFull(env, p, listing, desired)), own)
  {
    var d := DiffOf(CurrentOf(p, listing), desired);
    InvariantViewOk(p);
    DiffParts(p, listing, desired);
    DiffViewIndex(ViewOf(p), d, |p.conns|, own);
    FullReconcileView(env, p, listing, desired);
    AfterDiffHolds(env, p, listing, desired);
    AfterDiffView(env, p, d);
    WantedAreKeys(desired);
    RelabelKeepsIndex(DiffView(ViewOf(p), d, |p.conns|), desired, own);
  }

  /** Replacing wallet records by desired ones under the same string leaves the index complete. */
  lemma RelabelKeepsIndex(v: View, desired: seq<Wallet>, own: map<string, string>)
    requires Indexed(v, own) && HeldAs(v.wallets, desired) && AllFollow(own, desired)
    ensures Indexed(v.(wallets := ByIdMap(desired)), own)
  {
    forall id | id in ByIdMap(desired)
      ensures var s := ByIdMap(desired)[id].connectionString;
              s in v.index && v.index[s] == id && Follows(own, ByIdMap(desired)[id])
    {
      var w := ByIdMap(desired)[id];
      assert w in desired && w.id in v.wallets && v.wallets[w.id].connectionString == w.connectionString;
    }
  }

  // ---- One targeted reconcile ----

  lemma OneReconcileKeeps(env: PoolEnv, p: Pool, id: string, row: Option<Wallet>)
    requires PoolInv(p) && (row.Some? ==> row.value.id == id)
    ensures PoolInv(ApplyOne(env, p, id, row))
  {
    if p.closed {
    } else if row.None? {
      RemoveWalletKeeps(p, id);
    } else if id !in p.connections {
      AddWalletKeeps(env, p, row.value, true);
    } else if p.conns[p.connections[id]].wallet.connectionString != row.value.connectionString {
      ReplaceKeeps(env, p, row.value, true);
    } else {
      RefreshKeeps(p, row.value);
    }
  }

  /** A targeted reconcile changes one wallet to its row; the same string keeps the connection object. */
  lemma OneReconcileStep(env: PoolEnv, p: Pool, id: string, row: Option<Wallet>)
    requires PoolInv(p) && !p.closed && (row.Some? ==> row.value.id == id)
    ensures var q := ApplyOne(env, p, id, row);
            && !q.closed
            && WalletsOf(q) == (if row.None? then WalletsOf(p) - {id} else WalletsOf(p)[id := row.value])
            && (forall i :: i in p.connections
                            && (i != id || (row.Some?
                                            && WalletsOf(p)[id].connectionString == row.value.connectionString))
                            ==> i in q.connections && q.connections[i] == p.connections[i])
  {
    InvariantViewOk(p);
    if row.None? {
      RemoveView(p, id);
    } else if id !in p.connections {
      AddViewStep(env, p, row.value, true);
    } else if p.conns[p.connections[id]].wallet.connectionString != row.value.connectionString {
      RemoveView(p, id);
      AddViewStep(env, RemoveWallet(p, id), row.value, true);
      ReplaceView(ViewOf(p), row.value, |p.conns|);
    } else {
      RefreshView(p, row.value);
    }
  }

  lemma OneReconcileIndexes(env: PoolEnv, p: Pool, id: string, row: Option<Wallet>, own: map<string, string>)
    requires PoolInv(p) && (row.Some? ==> row.value.id == id && Follows(own, row.value))
    requires Indexed(ViewOf(p), own)
    ensures Indexed(ViewOf(ApplyOne(env, p, id, row)), own)
  {
    InvariantViewOk(p);
    var v := ViewOf(p);
    if p.closed {
    } else if row.None? {
      RemoveView(p, id);
      DropKeepsIndex(v, id, own);
    } else if id !in p.connections {
      AddViewStep(env, p, row.value, true);
      AddKeepsIndex(v, row.value, |p.conns|, own);
    } else if p.conns[p.connections[id]].wallet.connectionString != row.value.connectionString {
      RemoveView(p, id);
      DropKeepsIndex(v, id, own);
      AddViewStep(env, RemoveWallet(p, id), row.value, true);
      AddKeepsIndex(DropView(v, id), row.value, |p.conns|, own);
    } else {
      RefreshView(p, row.value);
      assert v.wallets[id].connectionString == row.value.connectionString;
    }
  }

  // ---- All runs ----

  lemma PoolStepKeeps(env: PoolEnv, p: Pool, a: PoolAction)
    requires PoolInv(p)
    ensures PoolInv(PoolStep(env, p, a))
  {
    hide PoolInvBut, Holds, Lists, ApplyOne, CloseAll, Subscribed, WarmedUp, Release, TimerFires, Prioritize,
      IsReady, RequireReady, CheckReconnects;
    if Admissible(p, a) {
      match a
      case ReconcileFull(listing, desired) => if !p.closed { FullReconcileView(env, p, listing, desired); }
      case ReconcileOne(id, row) => OneReconcileKeeps(env, p, id, row);
      case SubscribeEnds(r, ok) => SubscribedKeeps(env, p, r, ok);
      case WarmUpEnds(r, outcome) => WarmedUpKeeps(env, p, r, outcome);
      case SlotReleased(r) => ReleaseKeeps(env, p, r);
      case RetryTimer(h) => TimerKeeps(env, p, h);
      case PrioritizeWallet(id) => PrioritizeKeeps(env, p, id);
      case ReadinessRead(id, connected) => ReadinessKeeps(p, id, connected);
      case ReadinessRequired(id, connected) => ReadinessKeeps(p, id, connected);
      case Watcher(relays) => WatcherKeeps(p, relays);
      case Shutdown => CloseKeeps(p);
    }
  }

  lemma EmptyPoolInv()
    ensures PoolInv(EMPTY_POOL)
  {
  }

  lemma {:induction false} PoolRunKeeps(env: PoolEnv, p: Pool, trace: seq<PoolAction>)
    requires PoolInv(p)
    ensures PoolInv(PoolRun(env, p, trace))
    decreases |trace|
  {
    if trace != [] {
      PoolStepKeeps(env, p, trace[0]);
      PoolRunKeeps(env, PoolStep(env, p, trace[0]), trace[1..]);
    }
  }

  ghost predicate PoolReachable(env: PoolEnv, p: Pool) {
    exists trace :: PoolRun(env, EMPTY_POOL, trace) == p
  }

  lemma PoolReachableInv(env: PoolEnv, p: Pool)
    requires PoolReachable(env, p)
    ensures PoolInv(p)
  {
    var trace :| PoolRun(env, EMPTY_POOL, trace) == p;
    EmptyPoolInv();
    PoolRunKeeps(env, EMPTY_POOL, trace);
  }

  /**
   The connect scheduler: slots are counted exactly and never exceed eight, and
   every held wallet that is not ready or disconnected waits in exactly one of
   the queue, a running connect and an armed timer.
   */
  lemma SchedulerIsExact(env: PoolEnv, p: Pool, id: string)
    requires PoolReachable(env, p) && id in p.connections
    ensures p.activeConnects == |p.runs| <= MAX_CONCURRENT_NEGOTIATIONS
    ensures var h := p.connections[id];
            && h < |p.conns|
            && Placed(p, h)
            && (p.conns[h].retryTimer.Some? ==> 750 <= p.conns[h].retryTimer.value <= 75000)
            && (forall r, q :: (r in p.runs && q in p.runs && Live(p.runs[r]) && Live(p.runs[q])
                                && p.runs[r].handle == h && p.runs[q].handle == h) ==> r == q)
  {
    PoolReachableInv(env, p);
    var h := p.connections[id];
    assert Held(p, h) && ConnOk(p, h);
  }

  /**
   Fencing: a held client was built from its wallet's current string, and a
   wallet is ready or disconnected only on a client that finished its warm-up.
   */
  lemma ReadyMeansWarmed(env: PoolEnv, p: Pool, id: string)
    requires PoolReachable(env, p) && id in p.connections
    ensures var h := p.connections[id];
            && h < |p.conns|
            && (p.conns[h].client.Some? ==>
                  && p.conns[h].client.value < |p.clients|
                  && p.clients[p.conns[h].client.value].connectionString == p.conns[h].wallet.connectionString)
            && (Parked(p.conns[h]) ==> p.conns[h].client.Some? && p.clients[p.conns[h].client.value].warmed)
  {
    PoolReachableInv(env, p);
    var h := p.connections[id];
    assert Held(p, h) && ConnOk(p, h);
  }

  /**
   A connect overtaken by removal, rotation or shutdown ends without touching any connection and
   without a callback.
   */
  lemma OvertakenConnectIsInert(env: PoolEnv, p: Pool, r: nat, ok: bool, outcome: WarmUp)
    requires PoolReachable(env, p) && r in p.runs && !Held(p, p.runs[r].handle)
    ensures var s, w := Subscribed(env, p, r, ok), WarmedUp(env, p, r, outcome);
            && s.conns == p.conns && s.connections == p.connections && s.subscribed == p.subscribed
            && w.conns == p.conns && w.connections == p.connections && w.subscribed == p.subscribed
  {
    PoolReachableInv(env, p);
    FenceIsExact(p, r);
    if p.runs[r].stage.Warming? {
      OvertakenWarmUp(env, p, r);
    }
  }

  /**
   `onSubscribed` fires exactly when a warm-up is answered for a connection still held, which is then
   ready on that very client.
   */
  lemma CallbackIsExact(env: PoolEnv, p: Pool, r: nat, outcome: WarmUp)
    requires PoolReachable(env, p) && r in p.runs && p.runs[r].stage.Warming?
    ensures var h, k := p.runs[r].handle, p.runs[r].stage.client;
            var q := WarmedUp(env, p, r, outcome);
            if !outcome.FailedWarmUp? && Held(p, h) then
              && h < |q.conns|
              && q.subscribed == p.subscribed + [(p.conns[h].wallet.id, k)]
              && q.conns[h].state.Ready? && q.conns[h].client == Some(k)
              && k < |q.clients| && q.clients[k].warmed
                 && q.clients[k].connectionString == p.conns[h].wallet.connectionString
            else q.subscribed == p.subscribed
  {
    hide Placed, OneRunEach, QueueOk, IndexSound;
    PoolReachableInv(env, p);
    FenceIsExact(p, r);
    assert RunOk(p, r);
  }

  /**
   The gate in front of every payment opens exactly for a held, ready wallet with
   its relays up, and then the payment goes out on a warmed client of the
   wallet's current string. The readiness read agrees, and also heals a
   disconnected wallet.
   */
  lemma GateIsExact(env: PoolEnv, p: Pool, id: string, connected: bool)
    requires PoolReachable(env, p)
    ensures id in p.connections ==> p.connections[id] < |p.conns|
    ensures RequireReady(p, id, connected).0
            <==> id in p.connections && p.conns[p.connections[id]].state.Ready? && connected
    ensures IsReady(p, id, connected).0 <==> id in p.connections && Parked(p.conns[p.connections[id]]) && connected
    ensures RequireReady(p, id, connected).0 ==>
              var c := p.conns[p.connections[id]];
              && c.client.Some? && c.client.value < |p.clients|
              && p.clients[c.client.value].warmed
                 && p.clients[c.client.value].connectionString == c.wallet.connectionString
    ensures IsReady(p, id, connected).0 ==> RequireReady(IsReady(p, id, connected).1, id, connected).0
  {
    hide Placed, OneRunEach, QueueOk, IndexSound, RunOk;
    PoolReachableInv(env, p);
    if id in p.connections {
      assert Held(p, p.connections[id]) && ConnOk(p, p.connections[id]);
    }
  }

  /**
   A closed pool, however long after shutdown: no connection is open or held, no timer armed, nobody
   queued or indexed.
   */
  lemma ClosedPoolIsQuiet(env: PoolEnv, p: Pool)
    requires PoolReachable(env, p) && p.closed
    ensures p.connections == map[] && p.byConnectionString == map[] && p.queue == []
    ensures forall h :: 0 <= h < |p.conns| ==>
              p.conns[h].state.Closed? && p.conns[h].retryTimer.None? && p.conns[h].client.None?
  {
    hide RunOk, Placed, OneRunEach, QueueOk;
    PoolReachableInv(env, p);
    forall h | 0 <= h < |p.conns|
      ensures p.conns[h].state.Closed? && p.conns[h].retryTimer.None? && p.conns[h].client.None?
    {
      assert ConnOk(p, h);
    }
  }

  /** Shutdown closes every connection there is. */
  lemma ShutdownClosesAll(env: PoolEnv, p: Pool, h: nat)
    requires PoolReachable(env, p) && h < |p.conns|
    ensures var c := CloseAll(p).conns[h]; c.state.Closed? && c.retryTimer.None? && c.client.None?
    ensures CloseAll(p).queue == [] && CloseAll(p).connections == map[]
  {
    PoolReachableInv(env, p);
    assert ConnOk(p, h);
  }

  /** The wallets the reconciles of a run ask for. */
  function Target(p: Pool, m: map<string, Wallet>, a: PoolAction): map<string, Wallet> {
    if p.closed || !Admissible(p, a) then m
    else
      match a
      case ReconcileFull(_, desired) => ByIdMap(desired)
      case ReconcileOne(id, row) => if row.None? then m - {id} else m[id := row.value]
      case Shutdown => map[]
      case _ => m
  }

  function RunTarget(env: PoolEnv, p: Pool, m: map<string, Wallet>, trace: seq<PoolAction>): map<string, Wallet>
    decreases |trace|
  {
    if trace == [] then m else RunTarget(env, PoolStep(env, p, trace[0]), Target(p, m, trace[0]), trace[1..])
  }

  predicate Reconciles(a: PoolAction) {
    a.ReconcileFull? || a.ReconcileOne? || a.Shutdown?
  }

  /** Connects, timers and readiness reads never change which wallets are held, nor the index. */
  lemma SubscribedHolds(env: PoolEnv, p: Pool, r: nat, ok: bool)
    ensures Holds(p, Subscribed(env, p, r, ok))
  {
  }

  lemma FailedWarmUpHolds(env: PoolEnv, p: Pool, r: nat)
    ensures Holds(p, WarmedUp(env, p, r, FailedWarmUp))
  {
    hide FailConnect;
    if r in p.runs && p.runs[r].handle < |p.conns| {
      FailHolds(env, Rest(p, r), p.runs[r].handle);
    }
  }

  lemma StaleWarmUpHolds(env: PoolEnv, p: Pool, r: nat, outcome: WarmUp)
    requires !outcome.FailedWarmUp? && r in p.runs && Overtaken(p, r)
    ensures Holds(p, WarmedUp(env, p, r, outcome))
  {
    hide FailConnect;
  }

  lemma WarmedUpHolds(env: PoolEnv, p: Pool, r: nat, outcome: WarmUp)
    ensures Holds(p, WarmedUp(env, p, r, outcome))
  {
    hide FailConnect;
    if outcome.FailedWarmUp? {
      FailedWarmUpHolds(env, p, r);
    } else if r in p.runs && Overtaken(p, r) {
      StaleWarmUpHolds(env, p, r, outcome);
    }
  }

  lemma FailHolds(env: PoolEnv, p: Pool, h: nat)
    requires h < |p.conns|
    ensures Holds(p, FailConnect(env, p, h))
  {
  }

  lemma OtherStepsHold(env: PoolEnv, p: Pool, a: PoolAction)
    requires PoolInv(p) && !Reconciles(a)
    ensures Holds(p, PoolStep(env, p, a))
  {
    hide PoolInvBut, Holds, Subscribed, WarmedUp, Release, TimerFires, Prioritize, IsReady, RequireReady,
      CheckReconnects;
    match a
    case SubscribeEnds(r, ok) => SubscribedHolds(env, p, r, ok);
    case WarmUpEnds(r, outcome) => WarmedUpHolds(env, p, r, outcome);
    case SlotReleased(r) => ReleaseKeeps(env, p, r);
    case RetryTimer(h) => TimerKeeps(env, p, h);
    case PrioritizeWallet(id) => PrioritizeKeeps(env, p, id);
    case ReadinessRead(id, connected) => ReadinessKeeps(p, id, connected);
    case ReadinessRequired(id, connected) => ReadinessKeeps(p, id, connected);
    case Watcher(relays) => WatcherKeeps(p, relays);
  }

  lemma StepTarget(env: PoolEnv, p: Pool, a: PoolAction)
    requires PoolInv(p)
    ensures WalletsOf(PoolStep(env, p, a)) == Target(p, WalletsOf(p), a)
  {
    if !Reconciles(a) {
      OtherStepsHold(env, p, a);
      HoldsView(p, PoolStep(env, p, a));
    } else if Admissible(p, a) && !p.closed {
      match a
      case ReconcileFull(listing, desired) => FullReconcileStep(env, p, listing, desired);
      case ReconcileOne(id, row) => OneReconcileStep(env, p, id, row);
      case Shutdown =>
    }
  }

  lemma {:induction false} RunConverges(env: PoolEnv, p: Pool, trace: seq<PoolAction>)
    requires PoolInv(p)
    ensures WalletsOf(PoolRun(env, p, trace)) == RunTarget(env, p, WalletsOf(p), trace)
    decreases |trace|
  {
    if trace != [] {
      StepTarget(env, p, trace[0]);
      PoolStepKeeps(env, p, trace[0]);
      RunConverges(env, PoolStep(env, p, trace[0]), trace[1..]);
    }
  }

  /** No connection string moves between wallet ids in the run. */
  predicate ActionFollows(own: map<string, string>, a: PoolAction) {
    match a
    case ReconcileFull(_, desired) => AllFollow(own, desired)
    case ReconcileOne(_, row) => row.Some? ==> Follows(own, row.value)
    case _ => true
  }

  predicate TraceFollows(own: map<string, string>, trace: seq<PoolAction>) {
    forall i :: 0 <= i < |trace| ==> ActionFollows(own, trace[i])
  }

  lemma StepIndexes(env: PoolEnv, p: Pool, a: PoolAction, own: map<string, string>)
    requires PoolInv(p) && Indexed(ViewOf(p), own) && ActionFollows(own, a)
    ensures Indexed(ViewOf(PoolStep(env, p, a)), own)
  {
    if !Reconciles(a) {
      OtherStepsHold(env, p, a);
      HoldsView(p, PoolStep(env, p, a));
    } else if Admissible(p, a) && !p.closed {
      match a
      case ReconcileFull(listing, desired) => FullReconcileIndexes(env, p, listing, desired, own);
      case ReconcileOne(id, row) => OneReconcileIndexes(env, p, id, row, own);
      case Shutdown =>
    }
  }

  lemma {:induction false} RunIndexes(env: PoolEnv, p: Pool, trace: seq<PoolAction>, own: map<string, string>)
    requires PoolInv(p) && Indexed(ViewOf(p), own) && TraceFollows(own, trace)
    ensures var q := PoolRun(env, p, trace); IndexSound(q) && Indexed(ViewOf(q), own)
    decreases |trace|
  {
    if trace != [] {
      StepIndexes(env, p, trace[0], own);
      PoolStepKeeps(env, p, trace[0]);
      RunIndexes(env, PoolStep(env, p, trace[0]), trace[1..], own);
    }
  }

  // ---- Convergence ----

  /** A full reconcile of a reachable pool makes its wallets the desired ones, metadata included. */
  lemma FullReconcileConverges(env: PoolEnv, p: Pool, listing: seq<string>, desired: seq<Wallet>)
    requires PoolReachable(env, p) && !p.closed && Lists(p, listing) && DistinctIds(desired)
    ensures WalletsOf(ApplyFull(env, p, listing, desired)) == ByIdMap(desired)
  {
    PoolReachableInv(env, p);
    FullReconcileStep(env, p, listing, desired);
  }

  /** A full reconcile leaves the connection object of a wallet alone when its connection string is unchanged. */
  lemma UnchangedWalletsStayConnected(env: PoolEnv, p: Pool, listing: seq<string>, desired: seq<Wallet>, id: string)
    requires PoolReachable(env, p) && !p.closed && Lists(p, listing) && DistinctIds(desired)
    requires id in WalletsOf(p) && id in ByIdMap(desired)
    requires WalletsOf(p)[id].connectionString == ByIdMap(desired)[id].connectionString
    ensures var q := ApplyFull(env, p, listing, desired); id in q.connections && q.connections[id] == p.connections[id]
  {
    PoolReachableInv(env, p);
    FullReconcileStep(env, p, listing, desired);
  }

  /**
   A targeted reconcile changes exactly one wallet to its row; wallets of an unchanged string keep
   their connection object.
   */
  lemma OneReconcileConverges(env: PoolEnv, p: Pool, id: string, row: Option<Wallet>)
    requires PoolReachable(env, p) && !p.closed && (row.Some? ==> row.value.id == id)
    ensures var q := ApplyOne(env, p, id, row);
            && !q.closed
            && WalletsOf(q) == (if row.None? then WalletsOf(p) - {id} else WalletsOf(p)[id := row.value])
            && (forall i :: i in p.connections
                            && (i != id || (row.Some? && id in WalletsOf(p)
                                            && WalletsOf(p)[id].connectionString == row.value.connectionString))
                            ==> i in q.connections && q.connections[i] == p.connections[i])
  {
    PoolReachableInv(env, p);
    InvariantViewOk(p);
    OneReconcileStep(env, p, id, row);
  }

  /** After any run the pool holds exactly the wallets its reconciles asked for, in their latest version. */
  lemma PoolConverges(env: PoolEnv, trace: seq<PoolAction>)
    ensures WalletsOf(PoolRun(env, EMPTY_POOL, trace)) == RunTarget(env, EMPTY_POOL, map[], trace)
  {
    EmptyPoolInv();
    RunConverges(env, EMPTY_POOL, trace);
    assert WalletsOf(EMPTY_POOL) == map[];
  }

  /**
   The index is sound after every run, and complete after every run in which no string is shared or
   handed between ids.
   */
  lemma IndexIsComplete(env: PoolEnv, trace: seq<PoolAction>, own: map<string, string>)
    ensures IndexSound(PoolRun(env, EMPTY_POOL, trace))
    ensures TraceFollows(own, trace) ==> Indexed(ViewOf(PoolRun(env, EMPTY_POOL, trace)), own)
  {
    EmptyPoolInv();
    PoolRunKeeps(env, EMPTY_POOL, trace);
    if TraceFollows(own, trace) {
      RunIndexes(env, EMPTY_POOL, trace, own);
    }
  }

  // ---- Overtaken for ever ----

  /** Every handle in use is one of before, for the same id, or a new one. */
  predicate FreshHandles(v: View, v': View, n: nat) {
    forall id :: id in v'.handles && v'.handles[id] < n ==> id in v.handles && v.handles[id] == v'.handles[id]
  }

  lemma {:induction false} DropsAreFresh(v: View, ids: seq<string>, n: nat)
    ensures FreshHandles(v, DropAll(v, ids), n)
  {
    if ids != [] {
      DropsAreFresh(v, ids[..|ids| - 1], n);
    }
  }

  lemma {:induction false} RotationsAreFresh(v: View, ws: seq<Wallet>, n: nat, h: nat)
    requires n <= h
    ensures FreshHandles(v, RotateAllView(v, ws, h), n)
  {
    if ws != [] {
      RotationsAreFresh(v, ws[..|ws| - 1], n, h);
    }
  }

  lemma {:induction false} AdditionsAreFresh(v: View, ws: seq<Wallet>, n: nat, h: nat)
    requires n <= h
    ensures FreshHandles(v, AddAllView(v, ws, h), n)
  {
    if ws != [] {
      AdditionsAreFresh(v, ws[..|ws| - 1], n, h);
    }
  }

  lemma DiffIsFresh(v: View, d: Diff, n: nat)
    ensures FreshHandles(v, DiffView(v, d, n), n)
  {
    hide DropAll, RotateAllView, AddAllView;
    var v1 := DropAll(v, d.remove);
    var v2 := RotateAllView(v1, d.update, n);
    DropsAreFresh(v, d.remove, n);
    RotationsAreFresh(v1, d.update, n, n);
    AdditionsAreFresh(v2, d.add, n, n + |d.update|);
  }

  lemma {:induction false} RefreshKeepsLength(p: Pool, ws: seq<Wallet>)
    ensures |RefreshAll(p, ws).conns| == |p.conns|
  {
    if ws != [] {
      RefreshKeepsLength(p, ws[..|ws| - 1]);
    }
  }

  /** A connection that is not held never will be: only new handles are taken. */
  predicate KeepsUnheld(p: Pool, q: Pool) {
    |p.conns| <= |q.conns| && forall h :: 0 <= h < |p.conns| && !Held(p, h) ==> !Held(q, h)
  }

  lemma FreshKeepsUnheld(p: Pool, q: Pool)
    requires PoolInv(p) && |p.conns| <= |q.conns| && FreshHandles(ViewOf(p), ViewOf(q), |p.conns|)
    ensures KeepsUnheld(p, q)
  {
    hide ConnOk, RunOk, Placed, OneRunEach, QueueOk, IndexSound, WalletsOf;
  }

  lemma FullKeepsUnheld(env: PoolEnv, p: Pool, listing: seq<string>, desired: seq<Wallet>)
    requires PoolInv(p) && !p.closed && Lists(p, listing) && DistinctIds(desired)
    ensures KeepsUnheld(p, ApplyFull(env, p, listing, desired))
  {
    hide PoolInvBut, DiffView, ViewOk, DiffOf, CurrentOf, Lists, RemoveAll, RotateAll, AddAll, RefreshAll, KeepsUnheld,
      FreshHandles;
    var d := DiffOf(CurrentOf(p, listing), desired);
    InvariantViewOk(p);
    FullReconcileView(env, p, listing, desired);
    DiffIsFresh(ViewOf(p), d, |p.conns|);
    var p1 := RemoveAll(p, d.remove);
    RemoveAllView(p, d.remove);
    ViewsOk(env, p, d);
    RotateAllViewStep(env, p1, d.update);
    AddAllViewStep(env, RotateAll(env, p1, d.update), d.add);
    RefreshKeepsLength(AfterDiff(env, p, d), desired);
    SameHandlesFresh(ViewOf(p), DiffView(ViewOf(p), d, |p.conns|), ViewOf(ApplyFull(env, p, listing, desired)),
                     |p.conns|);
    FreshKeepsUnheld(p, ApplyFull(env, p, listing, desired));
  }

  lemma SameHandlesFresh(v: View, v1: View, v2: View, n: nat)
    requires FreshHandles(v, v1, n) && v2.handles == v1.handles
    ensures FreshHandles(v, v2, n)
  {
  }

  lemma ViewsOk(env: PoolEnv, p: Pool, d: Diff)
    requires ViewOk(ViewOf(p))
    ensures ViewOk(ViewOf(RemoveAll(p, d.remove))) && ViewOk(ViewOf(RotateAll(env, RemoveAll(p, d.remove), d.update)))
  {
    hide RemoveAll, RotateAll, ViewOk, ViewOf;
    RemoveAllView(p, d.remove);
    RotateAllViewStep(env, RemoveAll(p, d.remove), d.update);
  }

  lemma OneKeepsUnheld(env: PoolEnv, p: Pool, id: string, row: Option<Wallet>)
    requires PoolInv(p) && (row.Some? ==> row.value.id == id)
    ensures KeepsUnheld(p, ApplyOne(env, p, id, row))
  {
    hide PoolInvBut, KeepsUnheld, Lists, IndexSound, EnqueueConnect;
    InvariantViewOk(p);
    if p.closed {
    } else if row.None? {
      RemoveView(p, id);
    } else if id !in p.connections {
      AddViewStep(env, p, row.value, true);
    } else if p.conns[p.connections[id]].wallet.connectionString != row.value.connectionString {
      RemoveView(p, id);
      AddViewStep(env, RemoveWallet(p, id), row.value, true);
    } else {
      RefreshView(p, row.value);
    }
    FreshKeepsUnheld(p, ApplyOne(env, p, id, row));
  }

  lemma StepKeepsUnheld(env: PoolEnv, p: Pool, a: PoolAction)
    requires PoolInv(p)
    ensures KeepsUnheld(p, PoolStep(env, p, a))
  {
    if !Reconciles(a) {
      OtherStepsHold(env, p, a);
    } else if Admissible(p, a) && !p.closed {
      match a
      case ReconcileFull(listing, desired) => FullKeepsUnheld(env, p, listing, desired);
      case ReconcileOne(id, row) => OneKeepsUnheld(env, p, id, row);
      case Shutdown =>
    }
  }

  lemma {:induction false} RunKeepsUnheld(env: PoolEnv, p: Pool, trace: seq<PoolAction>, h: nat)
    requires PoolInv(p) && h < |p.conns| && !Held(p, h)
    ensures h < |PoolRun(env, p, trace).conns| && !Held(PoolRun(env, p, trace), h)
    decreases |trace|
  {
    hide PoolInvBut, PoolStep, Held;
    if trace != [] {
      StepKeepsUnheld(env, p, trace[0]);
      PoolStepKeeps(env, p, trace[0]);
      RunKeepsUnheld(env, PoolStep(env, p, trace[0]), trace[1..], h);
    }
  }

  /**
   An overtaken connect stays overtaken: whatever happens later, its continuations never touch a
   connection or fire a callback.
   */
  lemma OvertakenForEver(env: PoolEnv, p: Pool, r: nat, trace: seq<PoolAction>, ok: bool, outcome: WarmUp)
    requires PoolReachable(env, p) && r in p.runs && !Held(p, p.runs[r].handle)
    requires r in PoolRun(env, p, trace).runs && PoolRun(env, p, trace).runs[r].handle == p.runs[r].handle
    ensures var q := PoolRun(env, p, trace);
            var s, w := Subscribed(env, q, r, ok), WarmedUp(env, q, r, outcome);
            && !Held(q, p.runs[r].handle)
            && s.conns == q.conns && s.subscribed == q.subscribed && w.conns == q.conns && w.subscribed == q.subscribed
  {
    hide Subscribed, WarmedUp, Held, PoolReachable, Placed, ConnOk, OneRunEach, QueueOk, IndexSound;
    PoolReachableInv(env, p);
    assert RunOk(p, r);
    RunKeepsUnheld(env, p, trace, p.runs[r].handle);
    RunIsReachable(env, p, trace);
    OvertakenConnectIsInert(env, PoolRun(env, p, trace), r, ok, outcome);
  }

  lemma {:induction false} RunsCompose(env: PoolEnv, p: Pool, first: seq<PoolAction>, second: seq<PoolAction>)
    ensures PoolRun(env, p, first + second) == PoolRun(env, PoolRun(env, p, first), second)
    decreases |first|
  {
    hide PoolStep;
    if first == [] {
      assert first + second == second;
    } else {
      assert (first + second)[1..] == first[1..] + second;
      RunsCompose(env, PoolStep(env, p, first[0]), first[1..], second);
    }
  }

  lemma RunIsReachable(env: PoolEnv, p: Pool, trace: seq<PoolAction>)
    requires PoolReachable(env, p)
    ensures PoolReachable(env, PoolRun(env, p, trace))
  {
    hide PoolRun;
    var first :| PoolRun(env, EMPTY_POOL, first) == p;
    RunsCompose(env, EMPTY_POOL, first, trace);
  }
}
