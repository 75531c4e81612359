/**
 The durable payment journal: the `nwc_requests` table and the SQL statements
 that change it. Each statement is one atomic function from table to table; the
 class `RequestTable` executes them in place.
 */
module Journal {
  import opened Common
  import opened Hex

  datatype RowState = Pending | Succeeded | Rejected | Unknown | NotStarted

  datatype ErrorCode =
    | ValidationError
    | RequestConflict
    | RequestNotFound
    | WalletNotFound
    | WalletNotReady
    | WalletError
    | RelayError

  /** The columns fixed when the row is inserted. */
  datatype NewRequest = NewRequest(
    requestId: string, walletId: string, invoice: string, paymentHash: string, payloadHash: string)

  /** Instants are millisecond clock readings. */
  datatype Row = Row(
    request: NewRequest, state: RowState, dispatchedAt: Option<int>,
    preimage: Option<string>, feesPaidMsats: Option<int>,
    errorCode: Option<ErrorCode>, errorMessage: Option<string>, walletErrorCode: Option<string>,
    createdAt: int, updatedAt: int, completedAt: Option<int>)

  type Table = map<string, Row>

  /** What a finished operation writes. It never returns a row to `Pending`. */
  datatype CompletionRecord = CompletionRecord(
    state: RowState, preimage: Option<string>, feesPaidMsats: Option<int>,
    errorCode: Option<ErrorCode>, errorMessage: Option<string>, walletErrorCode: Option<string>)

  type Completion = c: CompletionRecord | !c.state.Pending?
    witness CompletionRecord(Unknown, None, None, None, None, None)

  predicate Terminal(s: RowState) {
    s.Succeeded? || s.Rejected? || s.NotStarted?
  }

  predicate Unresolved(s: RowState) {
    s.Pending? || s.Unknown?
  }

  // ---- The statements ----

  function Get(t: Table, id: string): Option<Row> {
    if id in t then Some(t[id]) else None
  }

  function FreshRow(request: NewRequest, claimDispatch: bool, now: int): Row {
    Row(request.(paymentHash := ToLower(request.paymentHash)), Pending,
        if claimDispatch then Some(now) else None,
        None, None, None, None, None, now, now, None)
  }

  /** INSERT ... ON CONFLICT (request_id) DO NOTHING; `created` says whether a row was returned. */
  function Insert(t: Table, request: NewRequest, claimDispatch: bool, now: int): (r: (bool, Table))
    ensures r.0 <==> request.requestId !in t
    ensures r.1.Keys == t.Keys + {request.requestId}
    ensures forall id :: id in t ==> r.1[id] == t[id]
  {
    if request.requestId in t then (false, t)
    else (true, t[request.requestId := FreshRow(request, claimDispatch, now)])
  }

  /** UPDATE ... SET dispatched_at = COALESCE(dispatched_at, now()) WHERE state = 'pending'. */
  function MarkDispatched(t: Table, id: string, now: int): (r: (bool, Table))
    ensures r.0 <==> id in t && t[id].state.Pending?
    ensures r.1.Keys == t.Keys
    ensures r.0 ==> r.1[id].dispatchedAt.Some? && r.1[id].state.Pending?
  {
    if id in t && t[id].state.Pending?
    then (true, t[id := t[id].(dispatchedAt := Some(OrElse(t[id].dispatchedAt, now)), updatedAt := now)])
    else (false, t)
  }

  /** The WHERE clause of the completing update. */
  predicate Completable(row: Row, c: Completion) {
    row.state.Pending? || ((c.state.Succeeded? || c.state.Rejected?) && row.state.Unknown?)
  }

  function CompletedRow(row: Row, c: Completion, now: int): Row {
    row.(state := c.state, preimage := c.preimage, feesPaidMsats := c.feesPaidMsats,
         errorCode := c.errorCode, errorMessage := c.errorMessage, walletErrorCode := c.walletErrorCode,
         updatedAt := now,
         completedAt := if Terminal(c.state) then Some(now) else row.completedAt)
  }

  function Complete(t: Table, id: string, c: Completion, now: int): (r: (bool, Table))
    ensures r.0 <==> id in t && Completable(t[id], c)
    ensures r.1.Keys == t.Keys
    ensures r.0 ==> r.1[id].state == c.state
  {
    if id in t && Completable(t[id], c)
    then (true, t[id := CompletedRow(t[id], c, now)])
    else (false, t)
  }

  function RecoveredRow(row: Row, now: int): Row {
    if !row.state.Pending? then row
    else if row.dispatchedAt.None? then
      row.(state := NotStarted, errorCode := Some(WalletNotReady),
           errorMessage := Some("Listener stopped before NWC dispatch"),
           updatedAt := now, completedAt := Some(now))
    else
      row.(state := Unknown, errorCode := Some(RelayError),
           errorMessage := Some("Listener restarted before the NWC result was known"),
           updatedAt := now)
  }

  /** Startup recovery: every pending row of the table, whichever process owns it. */
  function Recover(t: Table, now: int): (r: Table)
    ensures r.Keys == t.Keys
    ensures forall id :: id in r ==> !r[id].state.Pending?
  {
    map id | id in t :: RecoveredRow(t[id], now)
  }

  predicate Resolvable(row: Row, walletId: string, paymentHash: string) {
    row.request.walletId == walletId && row.request.paymentHash == ToLower(paymentHash) && Unresolved(row.state)
  }

  function ResolvedRow(row: Row, preimage: string, fees: Option<int>, now: int): Row {
    row.(state := Succeeded, preimage := Some(ToLower(preimage)), feesPaidMsats := Some(OrElse(fees, 0)),
         errorCode := None, errorMessage := None, walletErrorCode := None,
         updatedAt := now, completedAt := Some(now))
  }

  /** A verified payment_sent notification resolves every matching unresolved row. */
  function Resolve(t: Table, walletId: string, paymentHash: string, preimage: string, fees: Option<int>,
          now: int): (r: Table)
    ensures r.Keys == t.Keys
  {
    map id | id in t ::
      if Resolvable(t[id], walletId, paymentHash) then ResolvedRow(t[id], preimage, fees, now) else t[id]
  }

  // ---- What every statement keeps ----

  /** How a row may change: outcomes are final, the dispatch mark is permanent, no row becomes pending again. */
  predicate RowEvolves(a: Row, b: Row) {
    && a.request == b.request
    && a.createdAt == b.createdAt
    && (Terminal(a.state) ==> b == a)
    && (a.dispatchedAt.Some? ==> b.dispatchedAt == a.dispatchedAt)
    && (b.state.Pending? ==> a.state.Pending?)
    && (b.state.NotStarted? ==> a.state.NotStarted? || a.state.Pending?)
  }

  predicate Evolves(t: Table, t': Table) {
    forall id :: id in t ==> id in t' && RowEvolves(t[id], t'[id])
  }

  /** No row marked as dispatched becomes `NotStarted`, except possibly the row `spared`. */
  predicate KeepsDispatched(t: Table, t': Table, spared: Option<string>) {
    forall id :: id in t && id in t' && t[id].dispatchedAt.Some? && !t[id].state.NotStarted? && Some(id) != spared
      ==> !t'[id].state.NotStarted?
  }

  predicate Stamped(t: Table) {
    forall id :: id in t ==> t[id].request.requestId == id && (Terminal(t[id].state) <==> t[id].completedAt.Some?)
  }

  lemma EvolvesTransitive(a: Table, b: Table, c: Table)
    requires Evolves(a, b) && Evolves(b, c)
    ensures Evolves(a, c)
  {
    forall id | id in a ensures id in c && RowEvolves(a[id], c[id]) {
      assert RowEvolves(a[id], b[id]) && RowEvolves(b[id], c[id]);
    }
  }

  /** The part of the journal discipline that every statement keeps. */
  predicate Advances(t: Table, t': Table, spared: Option<string>) {
    Evolves(t, t') && KeepsDispatched(t, t', spared) && (Stamped(t) ==> Stamped(t'))
  }

  lemma InsertAdvances(t: Table, request: NewRequest, claim: bool, now: int)
    ensures Advances(t, Insert(t, request, claim, now).1, None)
  {
  }

  lemma MarkAdvances(t: Table, id: string, now: int)
    ensures Advances(t, MarkDispatched(t, id, now).1, None)
  {
  }

  /** A completion may turn a dispatched row into `NotStarted` only when it says so itself. */
  lemma CompleteAdvances(t: Table, id: string, c: Completion, now: int)
    ensures Advances(t, Complete(t, id, c, now).1, if c.state.NotStarted? then Some(id) else None)
  {
  }

  /** Recovery writes `NotStarted` only on rows without a dispatch mark. */
  lemma RecoverAdvances(t: Table, now: int)
    ensures Advances(t, Recover(t, now), None)
  {
    var t' := Recover(t, now);
    forall id | id in t ensures RowEvolves(t[id], t'[id]) {
      assert t'[id] == RecoveredRow(t[id], now);
    }
  }

  lemma ResolveAdvances(t: Table, walletId: string, paymentHash: string, preimage: string, fees: Option<int>, now: int)
    ensures Advances(t, Resolve(t, walletId, paymentHash, preimage, fees, now), None)
  {
    var t' := Resolve(t, walletId, paymentHash, preimage, fees, now);
    forall id | id in t ensures RowEvolves(t[id], t'[id]) {
      assert t'[id] == t[id] || t'[id] == ResolvedRow(t[id], preimage, fees, now);
    }
  }

  // ---- The table, changed in place ----

  class RequestTable {
    var rows: Table

    constructor ()
      ensures rows == map[]
    {
      rows := map[];
    }

    /** Claims a request id; when it is taken, the stored row comes back instead. */
    method Register(request: NewRequest, claimDispatch: bool, now: int) returns (created: bool, stored: Row)
      modifies this
      ensures (created, rows) == Insert(old(rows), request, claimDispatch, now)
      ensures request.requestId in rows && stored == rows[request.requestId]
      ensures created <==> request.requestId !in old(rows)
      ensures created ==>
                && stored.request == request.(paymentHash := ToLower(request.paymentHash)) && stored.state.Pending?
                && stored.dispatchedAt == (if claimDispatch then Some(now) else None)
                && stored.preimage.None? && stored.completedAt.None?
      ensures forall id :: id in old(rows) ==> rows[id] == old(rows)[id]
      ensures Advances(old(rows), rows, None)
    {
      created := request.requestId !in rows;
      if created {
        rows := rows[request.requestId := FreshRow(request, claimDispatch, now)];
      }
      stored := rows[request.requestId];
      InsertAdvances(old(rows), request, claimDispatch, now);
    }

    method MarkRequestDispatched(id: string, now: int) returns (changed: bool)
      modifies this
      ensures (changed, rows) == MarkDispatched(old(rows), id, now)
      ensures changed <==> id in old(rows) && old(rows)[id].state.Pending?
      ensures if !changed then rows == old(rows)
              else rows == old(rows)[id := old(rows)[id].(
                             dispatchedAt := Some(OrElse(old(rows)[id].dispatchedAt, now)), updatedAt := now)]
      ensures Advances(old(rows), rows, None)
    {
      changed := id in rows && rows[id].state.Pending?;
      if changed {
        var row := rows[id];
        if row.dispatchedAt.None? {
          row := row.(dispatchedAt := Some(now));
        }
        rows := rows[id := row.(updatedAt := now)];
      }
      MarkAdvances(old(rows), id, now);
    }

    method CompleteRequest(id: string, c: Completion, now: int) returns (changed: bool)
      modifies this
      ensures (changed, rows) == Complete(old(rows), id, c, now)
      ensures changed <==> id in old(rows)
                           && (old(rows)[id].state.Pending?
                               || (old(rows)[id].state.Unknown? && (c.state.Succeeded? || c.state.Rejected?)))
      ensures !changed ==> rows == old(rows)
      ensures changed ==>
                && rows == old(rows)[id := rows[id]]
                && rows[id].state == c.state && rows[id].preimage == c.preimage
                && rows[id].feesPaidMsats == c.feesPaidMsats && rows[id].errorCode == c.errorCode
                && rows[id].errorMessage == c.errorMessage && rows[id].walletErrorCode == c.walletErrorCode
                && rows[id].completedAt == (if c.state.Unknown? then old(rows)[id].completedAt else Some(now))
      ensures Advances(old(rows), rows, if c.state.NotStarted? then Some(id) else None)
    {
      changed := id in rows && Completable(rows[id], c);
      if changed {
        rows := rows[id := CompletedRow(rows[id], c, now)];
      }
      CompleteAdvances(old(rows), id, c, now);
    }

    method RecoverInterrupted(now: int) returns (count: nat)
      modifies this
      ensures rows == Recover(old(rows), now)
      ensures forall id :: id in old(rows) && !old(rows)[id].state.Pending? ==> rows[id] == old(rows)[id]
      ensures forall id :: id in old(rows) && old(rows)[id].state.Pending? ==>
                && rows[id].state == (if old(rows)[id].dispatchedAt.None? then NotStarted else Unknown)
                && rows[id].errorCode == Some(if old(rows)[id].dispatchedAt.None? then WalletNotReady else RelayError)
                && rows[id].completedAt
                   == (if old(rows)[id].dispatchedAt.None? then Some(now) else old(rows)[id].completedAt)
      ensures count == |set id | id in old(rows) && old(rows)[id].state.Pending?|
      ensures Advances(old(rows), rows, None)
    {
      var pending := set id | id in rows && rows[id].state.Pending?;
      count := |pending|;
      rows := rows + map id | id in pending :: RecoveredRow(rows[id], now);
      RecoverAdvances(old(rows), now);
    }

    method ResolveFromNotification(walletId: string, paymentHash: string, preimage: string, fees: Option<int>, now: int)
      returns (count: nat)
      modifies this
      ensures rows == Resolve(old(rows), walletId, paymentHash, preimage, fees, now)
      ensures forall id :: id in old(rows) ==>
                var row := old(rows)[id];
                if row.request.walletId == walletId && row.request.paymentHash == ToLower(paymentHash)
                   && (row.state.Pending? || row.state.Unknown?)
                then rows[id] == row.(state := Succeeded, preimage := Some(ToLower(preimage)),
                                      feesPaidMsats := Some(OrElse(fees, 0)), errorCode := None, errorMessage := None,
                                      walletErrorCode := None, updatedAt := now, completedAt := Some(now))
                else rows[id] == row
      ensures count == |set id | id in old(rows) && Resolvable(old(rows)[id], walletId, paymentHash)|
      ensures Advances(old(rows), rows, None)
    {
      var matching := set id | id in rows && Resolvable(rows[id], walletId, paymentHash);
      count := |matching|;
      rows := rows + map id | id in matching :: ResolvedRow(rows[id], preimage, fees, now);
      ResolveAdvances(old(rows), walletId, paymentHash, preimage, fees, now);
    }
  }
}
