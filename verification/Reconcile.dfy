/** The difference between the wallets a pool holds and the wallets it should hold. */
module Reconcile {
  import opened Common

  datatype Wallet = Wallet(id: string, name: Option<string>, userId: Option<string>, connectionString: string)

  datatype Current = Current(id: string, connectionString: string)

  datatype Diff = Diff(add: seq<Wallet>, remove: seq<string>, update: seq<Wallet>)

  predicate DistinctIds(ws: seq<Wallet>) {
    forall i, j :: 0 <= i < j < |ws| ==> ws[i].id != ws[j].id
  }

  /** The list as a map from id to wallet. */
  function ByIdMap(ws: seq<Wallet>): (m: map<string, Wallet>)
    ensures forall w :: w in ws ==> w.id in m
    ensures forall id :: id in m ==> m[id] in ws && m[id].id == id
  {
    if ws == [] then map[] else ByIdMap(ws[..|ws| - 1])[ws[|ws| - 1].id := ws[|ws| - 1]]
  }

  lemma LastIsNew(ws: seq<Wallet>)
    requires DistinctIds(ws) && ws != []
    ensures DistinctIds(ws[..|ws| - 1]) && forall x :: x in ws[..|ws| - 1] ==> x.id != ws[|ws| - 1].id
  {
  }

  /** With distinct ids the map holds exactly the list. */
  lemma {:induction false} ByIdMapExact(ws: seq<Wallet>, w: Wallet)
    requires DistinctIds(ws)
    ensures w in ws <==> w.id in ByIdMap(ws) && ByIdMap(ws)[w.id] == w
  {
    if ws != [] {
      hide DistinctIds;
      var rest, last := ws[..|ws| - 1], ws[|ws| - 1];
      LastIsNew(ws);
      ByIdMapExact(rest, w);
      assert ByIdMap(ws) == ByIdMap(rest)[last.id := last];
      hide ByIdMap;
      assert ws == rest + [last];
      AppendExact(ByIdMap(rest), rest, last, w);
    }
  }

  lemma AppendExact(m: map<string, Wallet>, rest: seq<Wallet>, last: Wallet, w: Wallet)
    requires w in rest <==> w.id in m && m[w.id] == w
    requires forall x :: x in rest ==> x.id != last.id
    ensures w in rest + [last] <==> w.id in m[last.id := last] && m[last.id := last][w.id] == w
  {
  }

  function CurrentMap(current: seq<Current>): (m: map<string, string>)
    ensures forall id :: id in m <==> exists i :: 0 <= i < |current| && current[i].id == id
  {
    if current == [] then map[]
    else
      var n := |current| - 1;
      var m := CurrentMap(current[..n]);
      assert forall i :: 0 <= i < n ==> current[..n][i] == current[i];
      m[current[n].id := current[n].connectionString]
  }

  /** Wanted but not held, in list order. */
  function Additions(held: map<string, string>, desired: seq<Wallet>): seq<Wallet> {
    if desired == [] then []
    else
      var w := desired[|desired| - 1];
      Additions(held, desired[..|desired| - 1]) + if w.id !in held then [w] else []
  }

  /** Held under another connection string, in list order. */
  function Rotations(held: map<string, string>, desired: seq<Wallet>): seq<Wallet> {
    if desired == [] then []
    else
      var w := desired[|desired| - 1];
      Rotations(held, desired[..|desired| - 1]) + if w.id in held && held[w.id] != w.connectionString then [w] else []
  }

  /** Held but no longer wanted, in holding order. */
  function Removals(current: seq<Current>, wanted: set<string>): seq<string> {
    if current == [] then []
    else
      var c := current[|current| - 1];
      Removals(current[..|current| - 1], wanted) + if c.id !in wanted then [c.id] else []
  }

  function WantedIds(desired: seq<Wallet>): set<string> {
    set w | w in desired :: w.id
  }

  function DiffOf(current: seq<Current>, desired: seq<Wallet>): Diff {
    var held := CurrentMap(current);
    Diff(Additions(held, desired), Removals(current, WantedIds(desired)), Rotations(held, desired))
  }

  /** The additions and rotations are exactly the wanted wallets whose connection must be (re)opened. */
  lemma {:induction false} AdditionsAndRotations(held: map<string, string>, desired: seq<Wallet>, w: Wallet)
    ensures w in Additions(held, desired) <==> w in desired && w.id !in held
    ensures w in Rotations(held, desired) <==> w in desired && w.id in held && held[w.id] != w.connectionString
  {
    if desired != [] {
      AdditionsAndRotations(held, desired[..|desired| - 1], w);
      assert desired == desired[..|desired| - 1] + [desired[|desired| - 1]];
    }
  }

  lemma {:induction false} PartsKeepDistinctIds(held: map<string, string>, desired: seq<Wallet>)
    requires DistinctIds(desired)
    ensures DistinctIds(Additions(held, desired)) && DistinctIds(Rotations(held, desired))
  {
    if desired != [] {
      var rest := desired[..|desired| - 1];
      PartsKeepDistinctIds(held, rest);
      forall w | w in Additions(held, rest) || w in Rotations(held, rest) ensures w.id != desired[|desired| - 1].id {
        AdditionsAndRotations(held, rest, w);
      }
    }
  }

  lemma {:induction false} RemovalsExact(current: seq<Current>, wanted: set<string>, id: string)
    ensures id in Removals(current, wanted) <==> id in CurrentMap(current) && id !in wanted
  {
    if current != [] {
      var n := |current| - 1;
      RemovalsExact(current[..n], wanted, id);
      assert CurrentMap(current).Keys == CurrentMap(current[..n]).Keys + {current[n].id};
    }
  }

  /** The loops of the source; nothing outside the three result lists changes. */
  method DiffWallets(current: seq<Current>, desired: seq<Wallet>) returns (d: Diff)
    ensures d == DiffOf(current, desired)
  {
    var currentById: map<string, string> := map[];
    for i := 0 to |current|
      invariant currentById == CurrentMap(current[..i])
    {
      assert current[..i + 1][..i] == current[..i];
      currentById := currentById[current[i].id := current[i].connectionString];
    }
    assert current[..|current|] == current;
    var add: seq<Wallet>, update: seq<Wallet> := [], [];
    for i := 0 to |desired|
      invariant add == Additions(currentById, desired[..i])
      invariant update == Rotations(currentById, desired[..i])
    {
      assert desired[..i + 1][..i] == desired[..i];
      var wallet := desired[i];
      if wallet.id !in currentById {
        add := add + [wallet];
      } else if currentById[wallet.id] != wallet.connectionString {
        update := update + [wallet];
      }
    }
    assert desired[..|desired|] == desired;
    var desiredIds := WantedIds(desired);
    var remove: seq<string> := [];
    for i := 0 to |current|
      invariant remove == Removals(current[..i], desiredIds)
    {
      assert current[..i + 1][..i] == current[..i];
      if current[i].id !in desiredIds {
        remove := remove + [current[i].id];
      }
    }
    assert current[..|current|] == current;
    d := Diff(add, remove, update);
  }
}
