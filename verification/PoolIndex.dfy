/** Where the index from connection strings loses a held wallet. */
module PoolIndex {
  import opened Common
  import opened Reconcile
  import opened PoolModel
  import opened PoolSafety
  import opened PoolConvergence
  import opened PoolTheorems

  /** The index finds this held wallet by its connection string. */
  predicate Found(v: View, id: string) {
    id in v.wallets && var s := v.wallets[id].connectionString; s in v.index && v.index[s] == id
  }

  /** A targeted reconcile opens or drops the connection of `id`, rather than only refreshing its metadata. */
  predicate Reopens(v: View, id: string, row: Option<Wallet>) {
    row.None? || id !in v.wallets || v.wallets[id].connectionString != row.value.connectionString
  }

  /**
   A wallet the index finds is still found after a targeted reconcile of another
   wallet, exactly when that reconcile neither drops nor opens a connection
   under the same string.
   */
  lemma LossIsExact(env: PoolEnv, p: Pool, id: string, row: Option<Wallet>, other: string)
    requires PoolReachable(env, p) && !p.closed && (row.Some? ==> row.value.id == id)
    requires other != id && Found(ViewOf(p), other)
    ensures var v := ViewOf(p);
            var s := v.wallets[other].connectionString;
            Found(ViewOf(ApplyOne(env, p, id, row)), other)
            <==> !(Reopens(v, id, row) && ((id in v.wallets && v.wallets[id].connectionString == s)
                                           || (row.Some? && row.value.connectionString == s)))
  {
    hide PoolInvBut, PoolReachable;
    PoolReachableInv(env, p);
    InvariantViewOk(p);
    if row.None? {
      RemoveView(p, id);
    } else if id !in p.connections {
      AddViewStep(env, p, row.value, true);
    } else if p.conns[p.connections[id]].wallet.connectionString != row.value.connectionString {
      RemoveView(p, id);
      AddViewStep(env, RemoveWallet(p, id), row.value, true);
    } else {
      RefreshView(p, row.value);
    }
  }

  // ---- A full reconcile ----

  predicate DropTouches(v: View, ids: seq<string>, s: string) {
    exists id :: id in ids && id in v.wallets && v.wallets[id].connectionString == s
  }

  /** A rotation deletes the entry of the string held before and makes one for the new string. */
  predicate RotationTouches(v: View, ws: seq<Wallet>, s: string) {
    exists w :: w in ws && (w.connectionString == s || (w.id in v.wallets && v.wallets[w.id].connectionString == s))
  }

  predicate AdditionTouches(ws: seq<Wallet>, s: string) {
    exists w :: w in ws && w.connectionString == s
  }

  /** The wallets of the list after `w`. */
  function LaterThan(ws: seq<Wallet>, w: Wallet): seq<Wallet> {
    if ws == [] || ws[|ws| - 1] == w then [] else LaterThan(ws[..|ws| - 1], w) + [ws[|ws| - 1]]
  }

  lemma DropOneFound(v: View, dropped: string, id: string)
    requires id != dropped && id in v.wallets
    ensures Found(DropView(v, dropped), id)
            <==> Found(v, id)
                 && !(dropped in v.wallets && v.wallets[dropped].connectionString == v.wallets[id].connectionString)
  {
  }

  lemma AddOneFound(v: View, w: Wallet, h: nat, id: string)
    requires id != w.id && id in v.wallets
    ensures Found(AddView(v, w, h), id) <==> Found(v, id) && w.connectionString != v.wallets[id].connectionString
  {
  }

  lemma {:induction false} DroppedFound(v: View, ids: seq<string>, id: string)
    requires id in v.wallets && id !in ids
    ensures id in DropAll(v, ids).wallets && DropAll(v, ids).wallets[id] == v.wallets[id]
    ensures Found(DropAll(v, ids), id) <==> Found(v, id) && !DropTouches(v, ids, v.wallets[id].connectionString)
  {
    hide Found, DropView;
    DropAllWallets(v, ids);
    if ids != [] {
      var rest, last := ids[..|ids| - 1], ids[|ids| - 1];
      DroppedFound(v, rest, id);
      DropAllWallets(v, rest);
      DropOneFound(DropAll(v, rest), last, id);
      assert ids == rest + [last];
    }
  }

  lemma TouchesSplit(v: View, ws: seq<Wallet>, s: string)
    requires ws != []
    ensures var rest, w := ws[..|ws| - 1], ws[|ws| - 1];
            && (RotationTouches(v, ws, s) <==> RotationTouches(v, rest, s) || w.connectionString == s
                                               || (w.id in v.wallets && v.wallets[w.id].connectionString == s))
            && (AdditionTouches(ws, s) <==> AdditionTouches(rest, s) || w.connectionString == s)
  {
    var rest, w := ws[..|ws| - 1], ws[|ws| - 1];
    assert ws == rest + [w];
    assert w in ws;
  }

  lemma NotWantedBefore(ws: seq<Wallet>, id: string)
    requires ws != []
    ensures id !in WantedIds(ws) ==> id !in WantedIds(ws[..|ws| - 1]) && id != ws[|ws| - 1].id
    ensures DistinctIds(ws) ==> DistinctIds(ws[..|ws| - 1]) && ws[|ws| - 1].id !in WantedIds(ws[..|ws| - 1])
  {
    assert ws[|ws| - 1] in ws;
  }

  lemma RotateLast(v: View, ws: seq<Wallet>, h: nat)
    requires ws != [] && DistinctIds(ws)
    ensures var before, last := RotateAllView(v, ws[..|ws| - 1], h), ws[|ws| - 1];
            && RotateAllView(v, ws, h) == AddView(DropView(before, last.id), last, h + |ws| - 1)
            && (last.id in before.wallets <==> last.id in v.wallets)
            && (last.id in v.wallets ==> before.wallets[last.id] == v.wallets[last.id])
  {
    var rest, last := ws[..|ws| - 1], ws[|ws| - 1];
    NotWantedBefore(ws, last.id);
    RotateAllWallets(v, rest, h);
    WantedAreKeys(rest);
  }

  /** What one more rotation does to another wallet. */
  lemma RotateOneFound(v: View, ws: seq<Wallet>, h: nat, id: string)
    requires ws != [] && DistinctIds(ws) && id != ws[|ws| - 1].id
    requires var before := RotateAllView(v, ws[..|ws| - 1], h); id in before.wallets
    ensures var before, last := RotateAllView(v, ws[..|ws| - 1], h), ws[|ws| - 1];
            var s := before.wallets[id].connectionString;
            && id in RotateAllView(v, ws, h).wallets && RotateAllView(v, ws, h).wallets[id] == before.wallets[id]
            && (Found(RotateAllView(v, ws, h), id)
                <==> Found(before, id) && last.connectionString != s
                     && !(last.id in v.wallets && v.wallets[last.id].connectionString == s))
  {
    hide Found, RotateAllView, DistinctIds;
    var before, last := RotateAllView(v, ws[..|ws| - 1], h), ws[|ws| - 1];
    RotateLast(v, ws, h);
    DropOneFound(before, last.id, id);
    AddOneFound(DropView(before, last.id), last, h + |ws| - 1, id);
  }

  /** Rotations leave an untouched wallet findable. */
  lemma {:induction false} RotatedPast(v: View, ws: seq<Wallet>, h: nat, id: string)
    requires DistinctIds(ws) && id in v.wallets && id !in WantedIds(ws)
    ensures id in RotateAllView(v, ws, h).wallets && RotateAllView(v, ws, h).wallets[id] == v.wallets[id]
    ensures Found(RotateAllView(v, ws, h), id)
            <==> Found(v, id) && !RotationTouches(v, ws, v.wallets[id].connectionString)
  {
    if ws != [] {
      hide Found, RotationTouches;
      NotWantedBefore(ws, id);
      RotatedPast(v, ws[..|ws| - 1], h, id);
      RotateOneFound(v, ws, h, id);
      TouchesSplit(v, ws, v.wallets[id].connectionString);
    }
  }

  /** A rotated wallet is findable unless a later rotation touches its new string. */
  lemma {:induction false} RotatedFound(v: View, ws: seq<Wallet>, h: nat, w: Wallet)
    requires DistinctIds(ws) && w in ws
    ensures w.id in RotateAllView(v, ws, h).wallets && RotateAllView(v, ws, h).wallets[w.id] == w
    ensures Found(RotateAllView(v, ws, h), w.id) <==> !RotationTouches(v, LaterThan(ws, w), w.connectionString)
  {
    var rest, last := ws[..|ws| - 1], ws[|ws| - 1];
    assert ws == rest + [last];
    if last != w {
      NotWantedBefore(ws, w.id);
      assert w in rest && w.id in WantedIds(rest);
      RotatedFound(v, rest, h, w);
      RotateOneFound(v, ws, h, w.id);
      var later := LaterThan(ws, w);
      assert later[..|later| - 1] == LaterThan(rest, w);
      TouchesSplit(v, later, w.connectionString);
    }
  }

  lemma {:induction false} AddedPast(v: View, ws: seq<Wallet>, h: nat, id: string)
    requires id in v.wallets && id !in WantedIds(ws)
    ensures id in AddAllView(v, ws, h).wallets && AddAllView(v, ws, h).wallets[id] == v.wallets[id]
    ensures Found(AddAllView(v, ws, h), id) <==> Found(v, id) && !AdditionTouches(ws, v.wallets[id].connectionString)
  {
    if ws != [] {
      hide Found, AdditionTouches;
      NotWantedBefore(ws, id);
      AddedPast(v, ws[..|ws| - 1], h, id);
      AddOneFound(AddAllView(v, ws[..|ws| - 1], h), ws[|ws| - 1], h + |ws| - 1, id);
      TouchesSplit(v, ws, v.wallets[id].connectionString);
    }
  }

  /** An added wallet is findable unless a later addition uses its string. */
  lemma {:induction false} AddedFound(v: View, ws: seq<Wallet>, h: nat, w: Wallet)
    requires DistinctIds(ws) && w in ws
    ensures w.id in AddAllView(v, ws, h).wallets && AddAllView(v, ws, h).wallets[w.id] == w
    ensures Found(AddAllView(v, ws, h), w.id) <==> !AdditionTouches(LaterThan(ws, w), w.connectionString)
  {
    var rest, last := ws[..|ws| - 1], ws[|ws| - 1];
    assert ws == rest + [last];
    if last != w {
      NotWantedBefore(ws, w.id);
      assert w in rest && w.id in WantedIds(rest);
      AddedFound(v, rest, h, w);
      AddOneFound(AddAllView(v, rest, h), last, h + |ws| - 1, w.id);
      var later := LaterThan(ws, w);
      assert later[..|later| - 1] == LaterThan(rest, w);
      TouchesSplit(v, later, w.connectionString);
    }
  }

  /** Nothing after the wallet's own turn touches its string; an unchanged wallet's turn is before everything. */
  predicate Untouched(v: View, d: Diff, w: Wallet) {
    var s := w.connectionString;
    if w in d.add then !AdditionTouches(LaterThan(d.add, w), s)
    else if w in d.update then !RotationTouches(v, LaterThan(d.update, w), s) && !AdditionTouches(d.add, s)
    else
      Found(v, w.id) && !DropTouches(v, d.remove, s) && !RotationTouches(v, d.update, s) && !AdditionTouches(d.add, s)
  }

  /** The parts of the difference: rotations and additions are desired, rotated ids are held and not removed. */
  lemma PartsOf(p: Pool, listing: seq<string>, desired: seq<Wallet>, w: Wallet)
    requires ViewOk(ViewOf(p)) && Lists(p, listing) && DistinctIds(desired) && w in desired
    ensures var d := DiffOf(CurrentOf(p, listing), desired);
            && DistinctIds(d.add) && DistinctIds(d.update)
            && (w in d.add <==> w.id !in WalletsOf(p))
            && (w in d.update <==> w.id in WalletsOf(p) && WalletsOf(p)[w.id].connectionString != w.connectionString)
            && w.id !in d.remove
            && (w !in d.add ==> w.id !in WantedIds(d.add))
            && (w !in d.update ==> w.id !in WantedIds(d.update))
  {
    var current := CurrentOf(p, listing);
    var listed := CurrentMap(current);
    CurrentMapIsHeld(p, listing);
    PartsKeepDistinctIds(listed, desired);
    AdditionsAndRotations(listed, desired, w);
    RemovalsExact(current, WantedIds(desired), w.id);
    forall x | (x in Additions(listed, desired) || x in Rotations(listed, desired)) && x.id == w.id ensures x == w {
      AdditionsAndRotations(listed, desired, x);
      SameIdSameWallet(desired, x, w);
    }
  }

  lemma SameIdSameWallet(ws: seq<Wallet>, x: Wallet, w: Wallet)
    requires DistinctIds(ws) && x in ws && w in ws && x.id == w.id
    ensures x == w
  {
    var i :| 0 <= i < |ws| && ws[i] == x;
    var j :| 0 <= j < |ws| && ws[j] == w;
  }

  /** Removals leave the wallets a rotation replaces. */
  lemma RotationsSeeTheSame(v: View, removed: seq<string>, ws: seq<Wallet>, s: string)
    requires forall w :: w in ws ==> w.id !in removed
    ensures RotationTouches(DropAll(v, removed), ws, s) <==> RotationTouches(v, ws, s)
  {
    DropAllWallets(v, removed);
    var after := DropAll(v, removed).wallets;
    assert forall w :: w in ws ==>
           (w.id in after <==> w.id in v.wallets) && (w.id in after ==> after[w.id] == v.wallets[w.id]);
  }

  lemma {:induction false} LaterIsWithin(ws: seq<Wallet>, w: Wallet, x: Wallet)
    ensures x in LaterThan(ws, w) ==> x in ws
  {
    if ws != [] && ws[|ws| - 1] != w {
      LaterIsWithin(ws[..|ws| - 1], w, x);
      assert ws == ws[..|ws| - 1] + [ws[|ws| - 1]];
    }
  }

  lemma RotatedNotRemoved(p: Pool, listing: seq<string>, desired: seq<Wallet>)
    requires ViewOk(ViewOf(p)) && Lists(p, listing) && DistinctIds(desired)
    ensures var d := DiffOf(CurrentOf(p, listing), desired); forall w :: w in d.update ==> w.id !in d.remove
  {
    var d := DiffOf(CurrentOf(p, listing), desired);
    forall w | w in d.update ensures w.id !in d.remove {
      AdditionsAndRotations(CurrentMap(CurrentOf(p, listing)), desired, w);
      PartsOf(p, listing, desired, w);
    }
  }

  /** The view after removals, rotations and additions, for one desired wallet. */
  lemma DiffFinds(v: View, d: Diff, h: nat, w: Wallet)
    requires DistinctIds(d.add) && DistinctIds(d.update) && (forall u :: u in d.update ==> u.id !in d.remove)
    requires w in d.add || (w.id in v.wallets && w.id !in d.remove && w.id !in WantedIds(d.add))
    requires w !in d.add && w !in d.update ==>
             w.id !in WantedIds(d.update) && v.wallets[w.id].connectionString == w.connectionString
    ensures Found(DiffView(v, d, h), w.id) <==> Untouched(v, d, w)
  {
    hide Found, RotationTouches, AdditionTouches, DropTouches, DistinctIds, DropAll, RotateAllView, AddAllView;
    var v1 := DropAll(v, d.remove);
    var v2 := RotateAllView(v1, d.update, h);
    if w in d.add {
      AddedFound(v2, d.add, h + |d.update|, w);
    } else if w in d.update {
      RotatedFound(v1, d.update, h, w);
      AddedPast(v2, d.add, h + |d.update|, w.id);
      forall x | x in LaterThan(d.update, w) ensures x.id !in d.remove {
        LaterIsWithin(d.update, w, x);
      }
      RotationsSeeTheSame(v, d.remove, LaterThan(d.update, w), w.connectionString);
    } else {
      DroppedFound(v, d.remove, w.id);
      RotatedPast(v1, d.update, h, w.id);
      AddedPast(v2, d.add, h + |d.update|, w.id);
      RotationsSeeTheSame(v, d.remove, d.update, w.connectionString);
    }
  }

  /**
   After a full reconcile the index finds a desired wallet exactly when nothing
   touched its string after its own turn: for an added wallet no later addition
   under the string; for a rotated one no later rotation from or to it and no
   addition under it; for an unchanged one that was found before, no removal,
   rotation or addition at all.
   */
  lemma FullReconcileFinds(env: PoolEnv, p: Pool, listing: seq<string>, desired: seq<Wallet>, w: Wallet)
    requires PoolReachable(env, p) && !p.closed && Lists(p, listing) && DistinctIds(desired) && w in desired
    ensures Found(ViewOf(ApplyFull(env, p, listing, desired)), w.id)
            <==> Untouched(ViewOf(p), DiffOf(CurrentOf(p, listing), desired), w)
  {
    hide PoolInvBut, PoolReachable, Untouched, DiffView, Lists, ViewOk, ViewOf, CurrentOf, DiffOf, ApplyFull, AfterDiff;
    PoolReachableInv(env, p);
    InvariantViewOk(p);
    var d := DiffOf(CurrentOf(p, listing), desired);
    var v3 := DiffView(ViewOf(p), d, |p.conns|);
    PartsOf(p, listing, desired, w);
    RotatedNotRemoved(p, listing, desired);
    ViewHasWallets(p);
    DiffFinds(ViewOf(p), d, |p.conns|, w);
    FullReconcileView(env, p, listing, desired);
    AfterDiffHolds(env, p, listing, desired);
    AfterDiffView(env, p, d);
    ViewHasWallets(AfterDiff(env, p, d));
    ByIdMapExact(desired, w);
    assert HeldAs(v3.wallets, desired);
  }

  lemma ViewHasWallets(p: Pool)
    ensures ViewOf(p).wallets == WalletsOf(p)
  {
  }

  // ---- Two wallets that swap their strings ----

  lemma RotationsLast(held: map<string, string>, desired: seq<Wallet>)
    requires desired != []
    ensures var rest, last := desired[..|desired| - 1], desired[|desired| - 1];
            Rotations(held, desired) == if last.id in held && held[last.id] != last.connectionString
                                        then Rotations(held, rest) + [last] else Rotations(held, rest)
  {
  }

  lemma LaterThanLast(ws: seq<Wallet>, last: Wallet, w: Wallet)
    ensures LaterThan(ws + [last], w) == if last == w then [] else LaterThan(ws, w) + [last]
  {
    assert (ws + [last])[..|ws|] == ws;
  }

  /** Rotations keep the order of the desired list. */
  lemma {:induction false} RotationsKeepOrder(held: map<string, string>, desired: seq<Wallet>, x: Wallet, y: Wallet)
    requires x in Rotations(held, desired) && y in Rotations(held, desired) && y in LaterThan(desired, x)
    ensures y in LaterThan(Rotations(held, desired), x)
  {
    hide Rotations;
    var rest, last := desired[..|desired| - 1], desired[|desired| - 1];
    assert desired == rest + [last];
    RotationsLast(held, desired);
    LaterThanLast(rest, last, x);
    LaterThanLast(Rotations(held, rest), last, x);
    AdditionsAndRotations(held, desired, x);
    AdditionsAndRotations(held, desired, y);
    if last != y {
      AdditionsAndRotations(held, rest, x);
      AdditionsAndRotations(held, rest, y);
      RotationsKeepOrder(held, rest, x, y);
    }
  }

  /**
   Two held wallets that swap their connection strings in one full reconcile,
   among any others: the later rotation deletes the index entry the earlier one
   has made, and unless a third wallet takes the string the index forgets it.
   */
  lemma SwapLosesOne(env: PoolEnv, p: Pool, listing: seq<string>, desired: seq<Wallet>, x: Wallet, y: Wallet)
    requires PoolReachable(env, p) && !p.closed && Lists(p, listing) && DistinctIds(desired)
    requires x in desired && y in LaterThan(desired, x) && x.connectionString != y.connectionString
    requires x.id in WalletsOf(p) && WalletsOf(p)[x.id].connectionString == y.connectionString
    requires y.id in WalletsOf(p) && WalletsOf(p)[y.id].connectionString == x.connectionString
    ensures var q := PoolStep(env, p, ReconcileFull(listing, desired));
            && x.id in WalletsOf(q) && WalletsOf(q)[x.id] == x && !Found(ViewOf(q), x.id)
            && ((forall z :: z in desired && z.connectionString == x.connectionString ==> z == x) ==>
                  x.connectionString !in q.byConnectionString)
  {
    hide PoolReachable, ApplyFull, PoolStep, DiffOf, CurrentOf, PoolInvBut, Untouched, Lists, LaterThan;
    PoolReachableInv(env, p);
    InvariantViewOk(p);
    LaterIsWithin(desired, x, y);
    SwapTouches(p, listing, desired, x, y);
    FullReconcileFinds(env, p, listing, desired, x);
    FullReconcileConverges(env, p, listing, desired);
    FullReconcileView(env, p, listing, desired);
    ByIdMapExact(desired, x);
    FullStep(env, p, listing, desired);
    if forall z :: z in desired && z.connectionString == x.connectionString ==> z == x {
      IndexedIsHeld(ApplyFull(env, p, listing, desired), desired, x);
    }
  }

  lemma FullStep(env: PoolEnv, p: Pool, listing: seq<string>, desired: seq<Wallet>)
    requires Lists(p, listing) && DistinctIds(desired)
    ensures PoolStep(env, p, ReconcileFull(listing, desired)) == ApplyFull(env, p, listing, desired)
  {
  }

  lemma SwapTouches(p: Pool, listing: seq<string>, desired: seq<Wallet>, x: Wallet, y: Wallet)
    requires ViewOk(ViewOf(p)) && Lists(p, listing) && DistinctIds(desired)
    requires x in desired && y in LaterThan(desired, x) && x.connectionString != y.connectionString
    requires x.id in WalletsOf(p) && WalletsOf(p)[x.id].connectionString == y.connectionString
    requires y.id in WalletsOf(p) && WalletsOf(p)[y.id].connectionString == x.connectionString
    ensures !Untouched(ViewOf(p), DiffOf(CurrentOf(p, listing), desired), x)
  {
    hide LaterThan, Lists, CurrentOf, AdditionTouches, DropTouches, ViewOk;
    LaterIsWithin(desired, x, y);
    PartsOf(p, listing, desired, x);
    PartsOf(p, listing, desired, y);
    RotationsKeepOrder(CurrentMap(CurrentOf(p, listing)), desired, x, y);
  }

  lemma IndexedIsHeld(q: Pool, desired: seq<Wallet>, x: Wallet)
    requires PoolInv(q) && WalletsOf(q) == ByIdMap(desired) && x.id in WalletsOf(q) && WalletsOf(q)[x.id] == x
    requires forall z :: z in desired && z.connectionString == x.connectionString ==> z == x
    ensures x.connectionString in q.byConnectionString ==> Found(ViewOf(q), x.id)
  {
    if x.connectionString in q.byConnectionString {
      var id := q.byConnectionString[x.connectionString];
      assert id in WalletsOf(q) && WalletsOf(q)[id] in desired;
    }
  }

  function Named(id: string, connectionString: string): Wallet {
    Wallet(id, None, None, connectionString)
  }

  lemma ReconcileIsReachable(env: PoolEnv, p: Pool, w: Wallet) returns (q: Pool)
    requires PoolReachable(env, p) && !p.closed
    ensures PoolReachable(env, q) && !q.closed && WalletsOf(q) == WalletsOf(p)[w.id := w]
  {
    hide PoolStep, PoolReachable, PoolRun;
    var a := ReconcileOne(w.id, Some(w));
    q := PoolStep(env, p, a);
    OneReconcileConverges(env, p, w.id, Some(w));
    TargetedStep(env, p, w);
    RunOfOne(env, p, a);
    RunIsReachable(env, p, [a]);
  }

  lemma TargetedStep(env: PoolEnv, p: Pool, w: Wallet)
    ensures PoolStep(env, p, ReconcileOne(w.id, Some(w))) == ApplyOne(env, p, w.id, Some(w))
  {
  }

  lemma RunOfOne(env: PoolEnv, p: Pool, a: PoolAction)
    ensures PoolRun(env, p, [a]) == PoolStep(env, p, a)
  {
    assert PoolRun(env, PoolStep(env, p, a), []) == PoolStep(env, p, a);
  }

  /** Such a pool exists: two wallets that swap their strings, of which the second is found and the first is not. */
  lemma SwapHappens(env: PoolEnv) returns (p: Pool)
    ensures var x, y := Named("a", "t"), Named("b", "s");
            && PoolReachable(env, p) && Lists(p, ["a", "b"])
            && Found(ViewOf(PoolStep(env, p, ReconcileFull(["a", "b"], [x, y]))), "b")
            && !Found(ViewOf(PoolStep(env, p, ReconcileFull(["a", "b"], [x, y]))), "a")
  {
    hide PoolStep, PoolRun;
    var x, y := Named("a", "t"), Named("b", "s");
    assert PoolReachable(env, EMPTY_POOL) by { EmptyRun(env); }
    var p1 := ReconcileIsReachable(env, EMPTY_POOL, Named("a", "s"));
    p := ReconcileIsReachable(env, p1, Named("b", "t"));
    assert WalletsOf(p) == map["a" := Named("a", "s"), "b" := Named("b", "t")];
    SwapPrepared(env, p, x, y);
    SwapLosesOne(env, p, ["a", "b"], [x, y], x, y);
    SwapKeepsOther(env, p, ["a", "b"], x, y);
  }

  lemma EmptyRun(env: PoolEnv)
    ensures PoolRun(env, EMPTY_POOL, []) == EMPTY_POOL
  {
  }

  lemma SwapPrepared(env: PoolEnv, p: Pool, x: Wallet, y: Wallet)
    requires PoolReachable(env, p) && WalletsOf(p).Keys == {"a", "b"} && x.id == "a" && y.id == "b"
    ensures Lists(p, ["a", "b"]) && DistinctIds([x, y]) && y in LaterThan([x, y], x)
  {
    PoolReachableInv(env, p);
    InvariantViewOk(p);
    assert forall id :: id in p.connections <==> id in WalletsOf(p);
    assert [x, y][..1] == [x];
    assert LaterThan([x, y], x) == LaterThan([x], x) + [y];
  }

  lemma LastHasNoLater(ws: seq<Wallet>, w: Wallet)
    ensures LaterThan(ws + [w], w) == []
  {
  }

  lemma RotatedLast(held: map<string, string>, x: Wallet, y: Wallet)
    requires y.id in held && held[y.id] != y.connectionString
    ensures Rotations(held, [x, y]) == Rotations(held, [x]) + [y]
  {
    assert [x, y][..1] == [x];
  }

  lemma SecondUntouched(p: Pool, listing: seq<string>, x: Wallet, y: Wallet)
    requires ViewOk(ViewOf(p)) && Lists(p, listing) && DistinctIds([x, y])
    requires x.id in WalletsOf(p) && y.id in WalletsOf(p) && WalletsOf(p)[y.id].connectionString != y.connectionString
    ensures Untouched(ViewOf(p), DiffOf(CurrentOf(p, listing), [x, y]), y)
  {
    hide LaterThan, Lists, CurrentOf, DropTouches, ViewOk, Rotations, Additions;
    var held := CurrentMap(CurrentOf(p, listing));
    assert x in [x, y] && y in [x, y];
    CurrentMapIsHeld(p, listing);
    PartsOf(p, listing, [x, y], y);
    RotatedLast(held, x, y);
    LastHasNoLater(Rotations(held, [x]), y);
    forall w ensures w !in Additions(held, [x, y]) {
      AdditionsAndRotations(held, [x, y], w);
    }
  }

  lemma SwapKeepsOther(env: PoolEnv, p: Pool, listing: seq<string>, x: Wallet, y: Wallet)
    requires PoolReachable(env, p) && !p.closed && Lists(p, listing) && DistinctIds([x, y])
    requires x.id in WalletsOf(p) && y.id in WalletsOf(p) && WalletsOf(p)[y.id].connectionString != y.connectionString
    ensures Found(ViewOf(PoolStep(env, p, ReconcileFull(listing, [x, y]))), y.id)
  {
    hide PoolReachable, ApplyFull, PoolStep, DiffOf, CurrentOf, PoolInvBut, Untouched, Lists, Found;
    PoolReachableInv(env, p);
    InvariantViewOk(p);
    SecondUntouched(p, listing, x, y);
    assert y in [x, y];
    FullReconcileFinds(env, p, listing, [x, y], y);
    FullStep(env, p, listing, [x, y]);
  }
}
