/** Reconciling brings the pool to the desired wallets, whatever else is going on in it. */
module PoolConvergence {
  import opened Common
  import opened Reconcile
  import opened PoolModel
  import opened PoolSafety

  /** What reconciling is about: the wallets held, the connection object of each, and the index. */
  datatype View = View(wallets: map<string, Wallet>, handles: map<string, nat>, index: map<string, string>)

  function WalletsOf(p: Pool): map<string, Wallet> {
    map id | id in p.connections && p.connections[id] < |p.conns| :: p.conns[p.connections[id]].wallet
  }

  function ViewOf(p: Pool): View {
    View(WalletsOf(p), p.connections, p.byConnectionString)
  }

  // ---- Single steps, seen from outside ----

  function DropView(v: View, id: string): View {
    View(v.wallets - {id}, v.handles - {id},
         if id in v.wallets then v.index - {v.wallets[id].connectionString} else v.index)
  }

  function AddView(v: View, w: Wallet, h: nat): View {
    View(v.wallets[w.id := w], v.handles[w.id := h], v.index[w.connectionString := w.id])
  }

  /** Every held id has a connection object for that id. */
  predicate ViewOk(v: View) {
    v.wallets.Keys == v.handles.Keys && forall id :: id in v.wallets ==> v.wallets[id].id == id
  }

  lemma InvariantViewOk(p: Pool)
    requires PoolInv(p)
    ensures ViewOk(ViewOf(p))
  {
  }

  /** Starting connects never changes who is held. */
  lemma {:induction false} DrainHolds(env: PoolEnv, p: Pool)
    ensures Holds(p, Drain(env, p))
    decreases |p.queue|
  {
    if !(p.closed || p.activeConnects >= MAX_CONCURRENT_NEGOTIATIONS || p.queue == []) {
      var h := p.queue[0];
      var rest := p.(queue := p.queue[1..]);
      if Held(rest, h) {
        StartConnectQueue(env, rest, h);
        DrainHolds(env, StartConnect(env, rest, h));
      } else {
        DrainHolds(env, rest);
      }
    }
  }

  lemma EnqueueHolds(env: PoolEnv, p: Pool, h: nat, priority: bool)
    ensures Holds(p, EnqueueConnect(env, p, h, priority))
  {
    DrainHolds(env, p.(queue := if priority then [h] + p.queue else p.queue + [h]));
  }

  /** A step that keeps connections, index and wallets is invisible. */
  lemma HoldsView(p: Pool, q: Pool)
    requires Holds(p, q)
    ensures ViewOf(q) == ViewOf(p)
  {
  }

  lemma RemoveView(p: Pool, id: string)
    requires ViewOk(ViewOf(p))
    ensures ViewOf(RemoveWallet(p, id)) == DropView(ViewOf(p), id)
    ensures RemoveWallet(p, id).closed == p.closed && |RemoveWallet(p, id).conns| == |p.conns|
  {
    assert id in p.connections <==> id in WalletsOf(p);
    assert WalletsOf(RemoveWallet(p, id)) == WalletsOf(p) - {id};
    assert id !in p.connections ==> p.connections - {id} == p.connections;
  }

  lemma AddViewStep(env: PoolEnv, p: Pool, w: Wallet, priority: bool)
    requires ViewOk(ViewOf(p))
    ensures ViewOf(AddWallet(env, p, w, priority)) == AddView(ViewOf(p), w, |p.conns|)
    ensures AddWallet(env, p, w, priority).closed == p.closed && |AddWallet(env, p, w, priority).conns| == |p.conns| + 1
  {
    hide EnqueueConnect;
    var q := WithConn(p, w);
    EnqueueHolds(env, q, |p.conns|, priority);
    HoldsView(q, AddWallet(env, p, w, priority));
    assert forall id :: id in p.connections ==> id in WalletsOf(p);
    assert WalletsOf(q) == WalletsOf(p)[w.id := w];
  }

  // ---- Sequences of steps ----

  /** `own` assigns every connection string in play to one wallet id. */
  predicate Follows(own: map<string, string>, w: Wallet) {
    w.connectionString in own && own[w.connectionString] == w.id
  }

  predicate AllFollow(own: map<string, string>, ws: seq<Wallet>) {
    forall w :: w in ws ==> Follows(own, w)
  }

  /** The index finds every held wallet, and all held wallets follow `own`. */
  predicate Indexed(v: View, own: map<string, string>) {
    forall id :: id in v.wallets ==>
      var s := v.wallets[id].connectionString;
      s in v.index && v.index[s] == id && Follows(own, v.wallets[id])
  }

  /** Ids outside `changed` keep their connection object. */
  predicate Keeps(v: View, v': View, changed: set<string>) {
    forall id :: id in v.handles && id !in changed ==> id in v'.handles && v'.handles[id] == v.handles[id]
  }

  /** A complete index stays complete. */
  predicate IndexKept(v: View, v': View, own: map<string, string>) {
    Indexed(v, own) && ViewOk(v) ==> Indexed(v', own) && ViewOk(v')
  }

  lemma DropKeepsIndex(v: View, id: string, own: map<string, string>)
    ensures IndexKept(v, DropView(v, id), own)
  {
  }

  lemma AddKeepsIndex(v: View, w: Wallet, h: nat, own: map<string, string>)
    requires Follows(own, w)
    ensures IndexKept(v, AddView(v, w, h), own)
  {
  }

  function IdSet(ids: seq<string>): set<string> {
    set id | id in ids
  }

  function DropAll(v: View, ids: seq<string>): View {
    if ids == [] then v else DropView(DropAll(v, ids[..|ids| - 1]), ids[|ids| - 1])
  }

  /** `h` is the handle the first added wallet gets. */
  function AddAllView(v: View, ws: seq<Wallet>, h: nat): View {
    if ws == [] then v else AddView(AddAllView(v, ws[..|ws| - 1], h), ws[|ws| - 1], h + |ws| - 1)
  }

  function RotateAllView(v: View, ws: seq<Wallet>, h: nat): View {
    if ws == [] then v
    else AddView(DropView(RotateAllView(v, ws[..|ws| - 1], h), ws[|ws| - 1].id), ws[|ws| - 1], h + |ws| - 1)
  }

  lemma {:induction false} RemoveAllView(p: Pool, ids: seq<string>)
    requires ViewOk(ViewOf(p))
    ensures ViewOf(RemoveAll(p, ids)) == DropAll(ViewOf(p), ids) && ViewOk(DropAll(ViewOf(p), ids))
    ensures RemoveAll(p, ids).closed == p.closed && |RemoveAll(p, ids).conns| == |p.conns|
  {
    if ids != [] {
      RemoveAllView(p, ids[..|ids| - 1]);
      RemoveView(RemoveAll(p, ids[..|ids| - 1]), ids[|ids| - 1]);
    }
  }

  lemma ReplaceViewOk(v: View, w: Wallet, h: nat)
    requires ViewOk(v)
    ensures ViewOk(DropView(v, w.id)) && ViewOk(AddView(DropView(v, w.id), w, h))
  {
  }

  lemma RotateOneView(env: PoolEnv, p: Pool, w: Wallet)
    requires ViewOk(ViewOf(p))
    ensures var q := AddWallet(env, RemoveWallet(p, w.id), w, false);
            && ViewOf(q) == AddView(DropView(ViewOf(p), w.id), w, |p.conns|) && ViewOk(ViewOf(q))
            && q.closed == p.closed && |q.conns| == |p.conns| + 1
  {
    hide ViewOf, ViewOk, AddWallet, RemoveWallet, AddView, DropView;
    RemoveView(p, w.id);
    ReplaceViewOk(ViewOf(p), w, |p.conns|);
    AddViewStep(env, RemoveWallet(p, w.id), w, false);
  }

  lemma {:induction false} RotateAllViewStep(env: PoolEnv, p: Pool, ws: seq<Wallet>)
    requires ViewOk(ViewOf(p))
    ensures ViewOf(RotateAll(env, p, ws)) == RotateAllView(ViewOf(p), ws, |p.conns|)
    ensures ViewOk(RotateAllView(ViewOf(p), ws, |p.conns|))
    ensures RotateAll(env, p, ws).closed == p.closed && |RotateAll(env, p, ws).conns| == |p.conns| + |ws|
  {
    hide ViewOf, ViewOk, AddWallet, RemoveWallet, AddView, DropView;
    if ws != [] {
      var rest := ws[..|ws| - 1];
      RotateAllViewStep(env, p, rest);
      RotateOneView(env, RotateAll(env, p, rest), ws[|ws| - 1]);
    }
  }

  lemma {:induction false} AddAllViewStep(env: PoolEnv, p: Pool, ws: seq<Wallet>)
    requires ViewOk(ViewOf(p))
    ensures ViewOf(AddAll(env, p, ws)) == AddAllView(ViewOf(p), ws, |p.conns|)
    ensures ViewOk(AddAllView(ViewOf(p), ws, |p.conns|))
    ensures AddAll(env, p, ws).closed == p.closed && |AddAll(env, p, ws).conns| == |p.conns| + |ws|
  {
    hide AddWallet, ViewOf;
    if ws != [] {
      AddAllViewStep(env, p, ws[..|ws| - 1]);
      AddViewStep(env, AddAll(env, p, ws[..|ws| - 1]), ws[|ws| - 1], false);
    }
  }

  // ---- Where the sequences lead ----

  lemma IdSetSplit(ids: seq<string>)
    requires ids != []
    ensures IdSet(ids) == IdSet(ids[..|ids| - 1]) + {ids[|ids| - 1]}
  {
    assert ids == ids[..|ids| - 1] + [ids[|ids| - 1]];
  }

  lemma WantedSplit(ws: seq<Wallet>, own: map<string, string>)
    requires ws != []
    ensures var rest, w := ws[..|ws| - 1], ws[|ws| - 1];
            && WantedIds(ws) == WantedIds(rest) + {w.id}
            && (AllFollow(own, ws) <==> AllFollow(own, rest) && Follows(own, w))
  {
    assert ws == ws[..|ws| - 1] + [ws[|ws| - 1]];
  }

  lemma {:induction false} DropAllWallets(v: View, ids: seq<string>)
    ensures DropAll(v, ids).wallets == v.wallets - IdSet(ids)
  {
    if ids == [] {
      assert v.wallets - {} == v.wallets;
    } else {
      DropAllWallets(v, ids[..|ids| - 1]);
      IdSetSplit(ids);
    }
  }

  lemma {:induction false} DropAllKeeps(v: View, ids: seq<string>)
    ensures Keeps(v, DropAll(v, ids), IdSet(ids))
  {
    if ids != [] {
      DropAllKeeps(v, ids[..|ids| - 1]);
      IdSetSplit(ids);
    }
  }

  lemma {:induction false} DropAllKeepsIndex(v: View, ids: seq<string>, own: map<string, string>)
    ensures IndexKept(v, DropAll(v, ids), own)
  {
    if ids != [] {
      DropAllKeepsIndex(v, ids[..|ids| - 1], own);
      DropKeepsIndex(DropAll(v, ids[..|ids| - 1]), ids[|ids| - 1], own);
    }
  }

  lemma ByIdMapExtends(m: map<string, Wallet>, ws: seq<Wallet>)
    requires ws != []
    ensures m + ByIdMap(ws) == (m + ByIdMap(ws[..|ws| - 1]))[ws[|ws| - 1].id := ws[|ws| - 1]]
  {
  }

  lemma ReplaceView(v: View, w: Wallet, h: nat)
    ensures AddView(DropView(v, w.id), w, h).wallets == v.wallets[w.id := w]
    ensures Keeps(v, AddView(DropView(v, w.id), w, h), {w.id})
  {
  }

  lemma KeepsCompose(v1: View, v2: View, v3: View, c1: set<string>, c2: set<string>)
    requires Keeps(v1, v2, c1) && Keeps(v2, v3, c2)
    ensures Keeps(v1, v3, c1 + c2)
  {
  }

  lemma {:induction false} RotateAllWallets(v: View, ws: seq<Wallet>, h: nat)
    ensures RotateAllView(v, ws, h).wallets == v.wallets + ByIdMap(ws)
  {
    if ws == [] {
      assert v.wallets + map[] == v.wallets;
    } else {
      var rest := ws[..|ws| - 1];
      RotateAllWallets(v, rest, h);
      ReplaceView(RotateAllView(v, rest, h), ws[|ws| - 1], h + |ws| - 1);
      ByIdMapExtends(v.wallets, ws);
    }
  }

  lemma {:induction false} RotateAllKeepsHandles(v: View, ws: seq<Wallet>, h: nat)
    ensures Keeps(v, RotateAllView(v, ws, h), WantedIds(ws))
  {
    if ws != [] {
      var rest := ws[..|ws| - 1];
      var v1 := RotateAllView(v, rest, h);
      RotateAllKeepsHandles(v, rest, h);
      ReplaceView(v1, ws[|ws| - 1], h + |ws| - 1);
      KeepsCompose(v, v1, RotateAllView(v, ws, h), WantedIds(rest), {ws[|ws| - 1].id});
      WantedSplit(ws, map[]);
    }
  }

  lemma {:induction false} AddAllWallets(v: View, ws: seq<Wallet>, h: nat)
    ensures AddAllView(v, ws, h).wallets == v.wallets + ByIdMap(ws)
  {
    if ws == [] {
      assert v.wallets + map[] == v.wallets;
    } else {
      AddAllWallets(v, ws[..|ws| - 1], h);
      ByIdMapExtends(v.wallets, ws);
    }
  }

  lemma {:induction false} AddAllKeepsHandles(v: View, ws: seq<Wallet>, h: nat)
    ensures Keeps(v, AddAllView(v, ws, h), WantedIds(ws))
  {
    if ws != [] {
      AddAllKeepsHandles(v, ws[..|ws| - 1], h);
      WantedSplit(ws, map[]);
    }
  }

  lemma {:induction false} AddingKeepsIndex(v: View, ws: seq<Wallet>, h: nat, own: map<string, string>)
    requires AllFollow(own, ws)
    ensures IndexKept(v, RotateAllView(v, ws, h), own)
    ensures IndexKept(v, AddAllView(v, ws, h), own)
  {
    if ws != [] {
      var rest, w := ws[..|ws| - 1], ws[|ws| - 1];
      WantedSplit(ws, own);
      AddingKeepsIndex(v, rest, h, own);
      DropKeepsIndex(RotateAllView(v, rest, h), w.id, own);
      AddKeepsIndex(DropView(RotateAllView(v, rest, h), w.id), w, h + |ws| - 1, own);
      AddKeepsIndex(AddAllView(v, rest, h), w, h + |ws| - 1, own);
    }
  }

  // ---- The pool invariant along the way ----

  lemma {:induction false} RemoveAllKeeps(p: Pool, ids: seq<string>)
    requires PoolInv(p)
    ensures PoolInv(RemoveAll(p, ids))
  {
    if ids != [] {
      RemoveAllKeeps(p, ids[..|ids| - 1]);
      RemoveWalletKeeps(RemoveAll(p, ids[..|ids| - 1]), ids[|ids| - 1]);
    }
  }

  lemma ReplaceKeeps(env: PoolEnv, p: Pool, w: Wallet, priority: bool)
    requires PoolInv(p) && !p.closed
    ensures PoolInv(AddWallet(env, RemoveWallet(p, w.id), w, priority))
  {
    RemoveWalletKeeps(p, w.id);
    AddWalletKeeps(env, RemoveWallet(p, w.id), w, priority);
  }

  lemma {:induction false} RotateAllKeeps(env: PoolEnv, p: Pool, ws: seq<Wallet>)
    requires PoolInv(p) && !p.closed
    ensures PoolInv(RotateAll(env, p, ws))
  {
    if ws != [] {
      InvariantViewOk(p);
      RotateAllViewStep(env, p, ws[..|ws| - 1]);
      RotateAllKeeps(env, p, ws[..|ws| - 1]);
      ReplaceKeeps(env, RotateAll(env, p, ws[..|ws| - 1]), ws[|ws| - 1], false);
    }
  }

  lemma NotAmong(ws: seq<Wallet>)
    requires ws != [] && DistinctIds(ws)
    ensures ws[|ws| - 1].id !in ByIdMap(ws[..|ws| - 1])
  {
    var rest := ws[..|ws| - 1];
    forall w | w in rest ensures w.id != ws[|ws| - 1].id {
    }
  }

  lemma {:induction false} AddAllKeeps(env: PoolEnv, p: Pool, ws: seq<Wallet>)
    requires PoolInv(p) && !p.closed && DistinctIds(ws)
    requires forall w :: w in ws ==> w.id !in WalletsOf(p)
    ensures PoolInv(AddAll(env, p, ws))
  {
    if ws != [] {
      var rest := ws[..|ws| - 1];
      InvariantViewOk(p);
      AddAllViewStep(env, p, rest);
      AddAllWallets(ViewOf(p), rest, |p.conns|);
      AddAllKeeps(env, p, rest);
      NotAmong(ws);
      var q := AddAll(env, p, rest);
      assert ViewOk(ViewOf(q)) && ws[|ws| - 1].id !in WalletsOf(q);
      AddWalletKeeps(env, q, ws[|ws| - 1], false);
    }
  }

  // ---- Metadata ----

  /** The refresh touches one wallet record and leaves its id and connection string. */
  predicate Refreshes(p: Pool, w: Wallet) {
    && w.id in p.connections && p.connections[w.id] < |p.conns|
    && p.conns[p.connections[w.id]].wallet.id == w.id
    && p.conns[p.connections[w.id]].wallet.connectionString == w.connectionString
  }

  lemma RefreshConns(p: Pool, w: Wallet)
    requires Core(p) && Refreshes(p, w)
    ensures var q := RefreshWallet(p, w); forall i :: 0 <= i < |q.conns| ==>
            ConnOk(q, i) && (Held(q, i) <==> Held(p, i))
  {
    hide RunOk, IndexSound, QueueOk, OneRunEach;
    var q := RefreshWallet(p, w);
    forall i | 0 <= i < |q.conns| ensures ConnOk(q, i) && (Held(q, i) <==> Held(p, i)) {
      assert ConnOk(p, i);
    }
  }

  lemma RefreshRuns(p: Pool, w: Wallet)
    requires Core(p) && Refreshes(p, w)
    ensures var q := RefreshWallet(p, w); (forall r :: r in q.runs ==> RunOk(q, r)) && OneRunEach(q)
  {
    hide ConnOk, IndexSound, QueueOk;
    RefreshConns(p, w);
    var q := RefreshWallet(p, w);
    forall r | r in q.runs ensures RunOk(q, r) { assert RunOk(p, r); }
  }

  lemma RefreshIndex(p: Pool, w: Wallet)
    requires Core(p) && Refreshes(p, w)
    ensures IndexSound(RefreshWallet(p, w)) && QueueOk(RefreshWallet(p, w))
  {
    hide ConnOk, RunOk, OneRunEach;
  }

  /** Refreshing name and owner of a held wallet, its connection string unchanged. */
  lemma RefreshKeeps(p: Pool, w: Wallet)
    requires PoolInv(p) && w.id in p.connections
    requires p.conns[p.connections[w.id]].wallet.connectionString == w.connectionString
    ensures PoolInv(RefreshWallet(p, w))
  {
    hide ConnOk, RunOk, OneRunEach, IndexSound, QueueOk;
    RefreshConns(p, w);
    RefreshRuns(p, w);
    RefreshIndex(p, w);
    var q := RefreshWallet(p, w);
    forall i | 0 <= i < |q.conns| && Held(q, i) ensures Placed(q, i) {
      assert Placed(p, i);
      assert Running(q, i) <==> Running(p, i);
    }
  }

  lemma RefreshView(p: Pool, w: Wallet)
    requires ViewOk(ViewOf(p)) && w.id in p.connections
    ensures ViewOf(RefreshWallet(p, w)) == ViewOf(p).(wallets := WalletsOf(p)[w.id := w])
    ensures RefreshWallet(p, w).closed == p.closed
  {
    assert w.id in WalletsOf(p);
    assert forall id :: id in p.connections ==> id in WalletsOf(p);
    assert forall id :: id in p.connections && id != w.id ==> WalletsOf(p)[id].id == id;
    assert WalletsOf(RefreshWallet(p, w)) == WalletsOf(p)[w.id := w];
  }

  /** Every wallet of `ws` is held under its connection string. */
  predicate HeldAs(m: map<string, Wallet>, ws: seq<Wallet>) {
    forall w :: w in ws ==> w.id in m && m[w.id].connectionString == w.connectionString
  }

  lemma {:induction false} RefreshAllStep(p: Pool, ws: seq<Wallet>)
    requires PoolInv(p) && DistinctIds(ws) && HeldAs(WalletsOf(p), ws)
    ensures var q := RefreshAll(p, ws);
            PoolInv(q) && q.closed == p.closed && ViewOf(q) == ViewOf(p).(wallets := WalletsOf(p) + ByIdMap(ws))
  {
    if ws == [] {
      assert WalletsOf(p) + map[] == WalletsOf(p);
    } else {
      var rest, w := ws[..|ws| - 1], ws[|ws| - 1];
      var q := RefreshAll(p, rest);
      RefreshAllStep(p, rest);
      NotAmong(ws);
      InvariantViewOk(q);
      assert w in ws;
      assert w.id in WalletsOf(q) && WalletsOf(q)[w.id] == WalletsOf(p)[w.id];
      RefreshKeeps(q, w);
      RefreshView(q, w);
      ByIdMapExtends(WalletsOf(p), ws);
    }
  }
}
