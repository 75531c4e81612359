/**
 What every run of the payment protocol keeps: one invariant, shown to survive
 each action, and the safety theorems that follow for all runs.
 */
module PaymentSafety {
  import opened Common
  import opened Hex
  import opened Journal
  import opened Payments
  import opened PaymentService
  import opened PaymentProtocol

  // ---- The invariant ----

  predicate TableOk(env: Env, t: Table) {
    Stamped(t) && forall id :: id in t ==> RowOk(env, t[id])
  }

  /** A final answer tells what its row says; the other answers promise nothing. */
  predicate AnswerOk(env: Env, t: Table, r: Response) {
    FinalAnswer(r) ==> r.requestId in t && Reflects(env, t[r.requestId], r)
  }

  predicate CacheOk(env: Env, t: Table, s: Service) {
    forall id :: id in s.terminalCache ==>
      var entry := s.terminalCache[id];
      && entry.response.requestId == id
      && FinalAnswer(entry.response)
      && AnswerOk(env, t, entry.response)
      && entry.payloadHash == t[id].request.payloadHash
  }

  /** A row read earlier: the table's row has only moved forward since. */
  predicate SnapshotOk(env: Env, t: Table, id: string, row: Row) {
    id in t && row.request.requestId == id && RowOk(env, row) && RowEvolves(row, t[id])
  }

  /** `tid` inserted the row of `r`. */
  predicate Owns(w: World, tid: nat, r: NewRequest) {
    r.requestId in w.table && w.table[r.requestId].request == r && ToLower(r.paymentHash) == r.paymentHash
    && r.requestId in w.owner && w.owner[r.requestId] == tid
  }

  predicate Uninvoked(w: World, id: string) {
    w.poolCalls[id] == 0 && w.sdkCalls[id] == 0
  }

  /** The dispatch mark is set and no fallback has been handed out: the owner may call the wallet. */
  predicate DispatchClaimed(w: World, id: string) {
    id in w.table && w.table[id].dispatchedAt.Some? && !w.table[id].state.NotStarted?
  }

  ghost predicate TransitionOk(env: Env, w: World, tid: nat, id: string, tr: Transition) {
    && id in w.table
    && TransitionFits(env, w.table[id].request, tr)
    && (tr.completion.state.NotStarted? ==> id in w.owner && w.owner[id] == tid && w.sdkCalls[id] == 0)
  }

  ghost predicate PcOk(env: Env, w: World, tid: nat, kind: Kind, id: string, pc: Pc) {
    match pc
    case Inserting(r, _) => kind.RunTask? && r.requestId == id && ToLower(r.paymentHash) == r.paymentHash
    case Inserted(r, warm) =>
      kind.RunTask? && r.requestId == id && Owns(w, tid, r) && Uninvoked(w, id) && (warm ==> DispatchClaimed(w, id))
    case ReadingExisting(r) => kind.RunTask? && r.requestId == id && id in w.table
    case GotExisting(r, found) =>
      kind.RunTask? && r.requestId == id && found.Some? && SnapshotOk(env, w.table, id, found.value)
    case AwaitingReady(r) => kind.RunTask? && r.requestId == id && Owns(w, tid, r) && Uninvoked(w, id)
    case Marking(r) => kind.RunTask? && r.requestId == id && Owns(w, tid, r) && Uninvoked(w, id)
    case Marked(r, claimed) =>
      kind.RunTask? && r.requestId == id && Owns(w, tid, r) && Uninvoked(w, id) && (claimed ==> DispatchClaimed(w, id))
    case ReadingUnclaimed(r) => kind.RunTask? && r.requestId == id && id in w.table
    case GotUnclaimed(r, found) =>
      kind.RunTask? && r.requestId == id && found.Some? && SnapshotOk(env, w.table, id, found.value)
    case AwaitingSdk(r) => kind.RunTask? && r.requestId == id && Owns(w, tid, r)
    case ReadingStatus(_) => kind.StatusTask?
    case GotStatus(_, found) => kind.StatusTask? && (found.Some? ==> SnapshotOk(env, w.table, id, found.value))
    case AwaitingLookup(stored, _) => kind.LookupTask? && SnapshotOk(env, w.table, id, stored)
    case Completing(tr) => TransitionOk(env, w, tid, id, tr)
    case Completed(tr, updated) =>
      TransitionOk(env, w, tid, id, tr)
      && (updated && Terminal(tr.completion.state) ==> Reflects(env, w.table[id], tr.intended))
    case ReadingCurrent(tr) => TransitionOk(env, w, tid, id, tr)
    case GotCurrent(tr, found) =>
      TransitionOk(env, w, tid, id, tr) && found.Some? && SnapshotOk(env, w.table, id, found.value)
    case Settled(result) => result.Some? ==> AnswerOk(env, w.table, result.value)
  }

  ghost predicate TaskOk(env: Env, w: World, tid: nat)
    requires tid in w.tasks
  {
    PcOk(env, w, tid, w.tasks[tid].kind, w.tasks[tid].id, w.tasks[tid].pc)
  }

  predicate CountsOk(w: World, id: string) {
    && w.sdkCalls[id] <= w.poolCalls[id] <= 1
    && w.directPays[id] <= 1
    && (w.poolCalls[id] > 0 ==> id in w.table && w.table[id].dispatchedAt.Some?)
    && (w.sdkCalls[id] > 0 ==> !w.table[id].state.NotStarted?)
    && (w.directPays[id] > 0 ==> id in w.table && w.table[id].state.NotStarted?)
  }

  /** Every running `submit` is the registered flight of its request id in its process. */
  predicate FlightOk(w: World, tid: nat)
    requires tid in w.tasks
  {
    var task := w.tasks[tid];
    && task.process in w.processes
    && (task.kind.RunTask? && !task.pc.Settled? ==>
          var flights := w.processes[task.process].service.inFlight;
          task.id in flights && flights[task.id].task == tid)
  }

  ghost predicate Inv(env: Env, w: World) {
    && TableOk(env, w.table)
    && w.owner.Keys == w.table.Keys
    && (forall tid :: tid in w.tasks ==> TaskOk(env, w, tid))
    && (forall tid :: tid in w.tasks ==> FlightOk(w, tid))
    && (forall id :: CountsOk(w, id))
    && (forall r :: r in w.answers ==> AnswerOk(env, w.table, r))
    && (forall pid :: pid in w.processes ==> CacheOk(env, w.table, w.processes[pid].service))
  }

  // ---- Frames ----

  lemma AnswerStays(env: Env, t: Table, t': Table, r: Response)
    requires Evolves(t, t') && AnswerOk(env, t, r)
    ensures AnswerOk(env, t', r)
  {
    if FinalAnswer(r) {
      assert RowEvolves(t[r.requestId], t'[r.requestId]);
    }
  }

  lemma CacheStays(env: Env, t: Table, t': Table, s: Service)
    requires Evolves(t, t') && CacheOk(env, t, s)
    ensures CacheOk(env, t', s)
  {
    forall id | id in s.terminalCache ensures AnswerOk(env, t', s.terminalCache[id].response) {
      AnswerStays(env, t, t', s.terminalCache[id].response);
      assert RowEvolves(t[id], t'[id]);
    }
  }

  lemma SnapshotStays(env: Env, t: Table, t': Table, id: string, row: Row)
    requires Evolves(t, t') && SnapshotOk(env, t, id, row)
    ensures SnapshotOk(env, t', id, row)
  {
    assert RowEvolves(t[id], t'[id]);
  }

  /** A step that advances the table and touches the counters and the dispatch state of at most the row `x`. */
  ghost predicate Moves(w: World, w': World, x: Option<string>) {
    && Advances(w.table, w'.table, x)
    && (forall id :: id in w.owner ==> id in w'.owner && w'.owner[id] == w.owner[id])
    && (forall id :: Some(id) != x ==> w'.poolCalls[id] == w.poolCalls[id] && w'.sdkCalls[id] == w.sdkCalls[id])
  }

  lemma OwnerStays(w: World, w': World, x: Option<string>, tid: nat, r: NewRequest)
    requires Moves(w, w', x) && (x.Some? ==> x.value in w.owner && w.owner[x.value] != tid)
    requires Owns(w, tid, r)
    ensures Owns(w', tid, r)
    ensures Uninvoked(w, r.requestId) ==> Uninvoked(w', r.requestId)
    ensures DispatchClaimed(w, r.requestId) ==> DispatchClaimed(w', r.requestId)
  {
    assert RowEvolves(w.table[r.requestId], w'.table[r.requestId]);
  }

  lemma TransitionStays(env: Env, w: World, w': World, x: Option<string>, tid: nat, id: string, tr: Transition)
    requires Moves(w, w', x) && (x.Some? ==> x.value in w.owner && w.owner[x.value] != tid)
    requires TransitionOk(env, w, tid, id, tr)
    ensures TransitionOk(env, w', tid, id, tr) && id in w.table && id in w'.table
    ensures Reflects(env, w.table[id], tr.intended) && Terminal(tr.completion.state) ==>
            Reflects(env, w'.table[id], tr.intended)
  {
    assert RowEvolves(w.table[id], w'.table[id]);
  }

  lemma RowsStay(w: World, w': World, x: Option<string>)
    requires Moves(w, w', x)
    ensures w.table.Keys <= w'.table.Keys && Evolves(w.table, w'.table)
  {
  }

  lemma TransitionPcStays(env: Env, w: World, w': World, x: Option<string>, tid: nat, kind: Kind, id: string, pc: Pc)
    requires Moves(w, w', x)
    requires x.Some? ==> x.value in w.owner && w.owner[x.value] != tid
    requires PcOk(env, w, tid, kind, id, pc)
    requires pc.Completing? || pc.Completed? || pc.ReadingCurrent? || pc.GotCurrent?
    ensures PcOk(env, w', tid, kind, id, pc)
  {
    hide Owns, Uninvoked, DispatchClaimed, TransitionOk, SnapshotOk, AnswerOk, Evolves, RowOk, Reflects, Moves;
    RowsStay(w, w', x);
    TransitionStays(env, w, w', x, tid, id, pc.transition);
    if pc.GotCurrent? {
      SnapshotStays(env, w.table, w'.table, id, pc.found.value);
    }
  }

  /** What holds of a task survives a step that another task makes on a row of its own. */
  lemma PcStays(env: Env, w: World, w': World, x: Option<string>, tid: nat, kind: Kind, id: string, pc: Pc)
    requires Moves(w, w', x)
    requires x.Some? ==> x.value in w.owner && w.owner[x.value] != tid
    requires PcOk(env, w, tid, kind, id, pc)
    ensures PcOk(env, w', tid, kind, id, pc)
  {
    hide Owns, Uninvoked, DispatchClaimed, TransitionOk, SnapshotOk, AnswerOk, Evolves, RowOk, Reflects, Moves;
    RowsStay(w, w', x);
    match pc
    case Inserted(r, _) => OwnerStays(w, w', x, tid, r);
    case AwaitingReady(r) => OwnerStays(w, w', x, tid, r);
    case Marking(r) => OwnerStays(w, w', x, tid, r);
    case Marked(r, _) => OwnerStays(w, w', x, tid, r);
    case AwaitingSdk(r) => OwnerStays(w, w', x, tid, r);
    case Completing(_) => TransitionPcStays(env, w, w', x, tid, kind, id, pc);
    case Completed(_, _) => TransitionPcStays(env, w, w', x, tid, kind, id, pc);
    case ReadingCurrent(_) => TransitionPcStays(env, w, w', x, tid, kind, id, pc);
    case GotCurrent(_, _) => TransitionPcStays(env, w, w', x, tid, kind, id, pc);
    case GotExisting(_, found) => SnapshotStays(env, w.table, w'.table, id, found.value);
    case GotUnclaimed(_, found) => SnapshotStays(env, w.table, w'.table, id, found.value);
    case GotStatus(_, found) => if found.Some? { SnapshotStays(env, w.table, w'.table, id, found.value); }
    case AwaitingLookup(stored, _) => SnapshotStays(env, w.table, w'.table, id, stored);
    case Settled(result) => if result.Some? { AnswerStays(env, w.table, w'.table, result.value); }
    case _ =>
  }

  /** The unchanged tasks, answers and caches after a step. */
  lemma RestStays(env: Env, w: World, w': World, x: Option<string>, actor: Option<nat>)
    requires Inv(env, w) && Moves(w, w', x)
    requires x.Some? ==> x.value in w.owner && Some(w.owner[x.value]) == actor
    ensures forall tid :: tid in w.tasks && Some(tid) != actor ==>
                            PcOk(env, w', tid, w.tasks[tid].kind, w.tasks[tid].id, w.tasks[tid].pc)
    ensures forall r :: r in w.answers ==> AnswerOk(env, w'.table, r)
    ensures forall pid :: pid in w.processes ==> CacheOk(env, w'.table, w.processes[pid].service)
  {
    forall tid | tid in w.tasks && Some(tid) != actor
      ensures PcOk(env, w', tid, w.tasks[tid].kind, w.tasks[tid].id, w.tasks[tid].pc)
    {
      assert TaskOk(env, w, tid);
      PcStays(env, w, w', x, tid, w.tasks[tid].kind, w.tasks[tid].id, w.tasks[tid].pc);
    }
    forall r | r in w.answers ensures AnswerOk(env, w'.table, r) {
      AnswerStays(env, w.table, w'.table, r);
    }
    forall pid | pid in w.processes ensures CacheOk(env, w'.table, w.processes[pid].service) {
      CacheStays(env, w.table, w'.table, w.processes[pid].service);
    }
  }

  // ---- SQL steps keep the invariant ----

  /** The row a statement may turn into `NotStarted` against its dispatch mark. */
  function Spared(id: string, pc: Pc): Option<string> {
    if pc.Completing? && pc.transition.completion.state.NotStarted? then Some(id) else None
  }

  lemma StatementAdvances(t: Table, id: string, pc: Pc, now: int)
    requires AwaitsDatabase(pc)
    requires pc.Inserting? ==> pc.request.requestId == id
    ensures Advances(t, RunStatement(t, id, pc, now).0, Spared(id, pc))
  {
    match pc
    case Inserting(r, warm) => InsertAdvances(t, r, warm, now);
    case Marking(_) => MarkAdvances(t, id, now);
    case Completing(tr) => CompleteAdvances(t, id, tr.completion, now);
    case _ =>
  }

  /** The statement keeps every row sound. */
  lemma StatementKeepsRows(env: Env, w: World, tid: nat, now: int)
    requires Inv(env, w) && tid in w.tasks && AwaitsDatabase(w.tasks[tid].pc)
    ensures TableOk(env, RunStatement(w.table, w.tasks[tid].id, w.tasks[tid].pc, now).0)
  {
    hide CacheOk, AnswerOk, FlightOk, CountsOk, SnapshotOk, Owns, Uninvoked, DispatchClaimed;
    var task := w.tasks[tid];
    var t' := RunStatement(w.table, task.id, task.pc, now).0;
    assert TaskOk(env, w, tid);
    StatementAdvances(w.table, task.id, task.pc, now);
    forall id | id in t' ensures RowOk(env, t'[id]) {
      if task.pc.Completing? && t'[id] != w.table[id] {
        assert t'[id] == CompletedRow(w.table[id], task.pc.transition.completion, now);
        assert TransitionLands(env, t'[id], task.pc.transition);
      }
    }
  }

  lemma StatementKeys(t: Table, id: string, pc: Pc, now: int)
    requires AwaitsDatabase(pc) && (pc.Inserting? ==> pc.request.requestId == id)
    ensures RunStatement(t, id, pc, now).0.Keys == if pc.Inserting? then t.Keys + {id} else t.Keys
  {
  }

  lemma StatementMoves(env: Env, w: World, tid: nat, fault: Fault, now: int)
    requires Inv(env, w) && tid in w.tasks && AwaitsDatabase(w.tasks[tid].pc)
    ensures var w' := ExecuteStatement(w, tid, fault, now);
            Moves(w, w', Spared(w.tasks[tid].id, w.tasks[tid].pc)) && TableOk(env, w'.table)
              && w'.owner.Keys == w'.table.Keys
  {
    hide CacheOk, AnswerOk, FlightOk, CountsOk, SnapshotOk, TransitionOk, Owns, Uninvoked, DispatchClaimed, TableOk,
      RunStatement, Rejects;
    var task := w.tasks[tid];
    assert TaskOk(env, w, tid);
    StatementAdvances(w.table, task.id, task.pc, now);
    StatementKeys(w.table, task.id, task.pc, now);
    StatementKeepsRows(env, w, tid, now);
  }

  lemma StatementKeepsCounts(env: Env, w: World, tid: nat, fault: Fault, now: int)
    requires Inv(env, w) && tid in w.tasks && AwaitsDatabase(w.tasks[tid].pc)
    ensures forall id :: CountsOk(ExecuteStatement(w, tid, fault, now), id)
  {
    hide RowOk, AnswerOk, CacheOk, Stamped, SnapshotOk, FlightOk, Reflects, RunStatement;
    var w' := ExecuteStatement(w, tid, fault, now);
    StatementMoves(env, w, tid, fault, now);
    assert TaskOk(env, w, tid);
    forall id ensures CountsOk(w', id) {
      assert CountsOk(w, id);
      assert id in w.table ==> RowEvolves(w.table[id], w'.table[id]);
    }
  }

  predicate WritesOwnRow(pc: Pc) {
    pc.Inserting? || pc.Marking?
  }

  lemma OwnReplyOk(env: Env, w: World, tid: nat, now: int)
    requires Inv(env, w) && tid in w.tasks && WritesOwnRow(w.tasks[tid].pc)
    ensures var w' := ExecuteStatement(w, tid, NoFault, now);
            PcOk(env, w', tid, w'.tasks[tid].kind, w'.tasks[tid].id, w'.tasks[tid].pc)
  {
    hide AnswerOk, CacheOk, FlightOk, Reflects, TransitionOk, RowOk, SnapshotOk;
    var task := w.tasks[tid];
    var w' := ExecuteStatement(w, tid, NoFault, now);
    assert TaskOk(env, w, tid);
    assert CountsOk(w, task.id);
    if task.pc.Inserting? && task.id !in w.table {
      assert w'.table[task.id] == FreshRow(task.pc.request, task.pc.warm, now);
    }
  }

  lemma ReadReplyOk(env: Env, w: World, tid: nat, now: int)
    requires Inv(env, w) && tid in w.tasks && AwaitsDatabase(w.tasks[tid].pc)
    requires !WritesOwnRow(w.tasks[tid].pc) && !w.tasks[tid].pc.Completing?
    ensures var w' := ExecuteStatement(w, tid, NoFault, now);
            PcOk(env, w', tid, w'.tasks[tid].kind, w'.tasks[tid].id, w'.tasks[tid].pc)
  {
    hide AnswerOk, CacheOk, CountsOk, FlightOk, Reflects, RowOk, Owns, Uninvoked, DispatchClaimed, TransitionFits,
      Rejects, Insert, MarkDispatched, Complete;
    assert TaskOk(env, w, tid);
  }

  /** The reply the statement hands to its task. */
  lemma ReplyOk(env: Env, w: World, tid: nat, now: int)
    requires Inv(env, w) && tid in w.tasks && AwaitsDatabase(w.tasks[tid].pc)
    ensures var w' := ExecuteStatement(w, tid, NoFault, now);
            PcOk(env, w', tid, w'.tasks[tid].kind, w'.tasks[tid].id, w'.tasks[tid].pc)
  {
    hide Inv, PcOk, ExecuteStatement;
    if w.tasks[tid].pc.Completing? {
      CompletionReplyOk(env, w, tid, now);
    } else if WritesOwnRow(w.tasks[tid].pc) {
      OwnReplyOk(env, w, tid, now);
    } else {
      ReadReplyOk(env, w, tid, now);
    }
  }

  lemma CompletionLands(env: Env, t: Table, id: string, tr: Transition, now: int)
    requires id in t && TransitionFits(env, t[id].request, tr)
    ensures var (updated, t') := Complete(t, id, tr.completion, now);
            && id in t' && t'[id].request == t[id].request
            && (updated && Terminal(tr.completion.state) ==> Reflects(env, t'[id], tr.intended))
  {
    hide RowOk, Reflects;
    var (updated, t') := Complete(t, id, tr.completion, now);
    if updated {
      assert t'[id] == CompletedRow(t[id], tr.completion, now);
      assert TransitionLands(env, t'[id], tr);
    }
  }

  lemma CompletionReplyOk(env: Env, w: World, tid: nat, now: int)
    requires Inv(env, w) && tid in w.tasks && w.tasks[tid].pc.Completing?
    ensures var w' := ExecuteStatement(w, tid, NoFault, now);
            PcOk(env, w', tid, w'.tasks[tid].kind, w'.tasks[tid].id, w'.tasks[tid].pc)
  {
    hide TableOk, CacheOk, AnswerOk, FlightOk, CountsOk, TransitionFits, Complete, Reflects, Rejects;
    var task := w.tasks[tid];
    var tr := task.pc.transition;
    assert TaskOk(env, w, tid);
    CompletionLands(env, w.table, task.id, tr, now);
    assert TransitionOk(env, ExecuteStatement(w, tid, NoFault, now), tid, task.id, tr);
  }

  /** A completion that may undo a dispatch mark belongs to the operation that inserted the row. */
  lemma SparedIsOwned(env: Env, w: World, tid: nat)
    requires Inv(env, w) && tid in w.tasks
    ensures var x := Spared(w.tasks[tid].id, w.tasks[tid].pc); x.Some? ==> x.value in w.owner && w.owner[x.value] == tid
  {
    assert TaskOk(env, w, tid);
  }

  lemma StatementKeepsTasks(env: Env, w: World, tid: nat, fault: Fault, now: int)
    requires Inv(env, w) && tid in w.tasks && AwaitsDatabase(w.tasks[tid].pc)
    ensures var w' := ExecuteStatement(w, tid, fault, now);
            && (forall i :: i in w'.tasks ==> TaskOk(env, w', i) && FlightOk(w', i))
            && (forall r :: r in w'.answers ==> AnswerOk(env, w'.table, r))
            && (forall pid :: pid in w'.processes ==> CacheOk(env, w'.table, w'.processes[pid].service))
  {
    hide TableOk, RunStatement, AnswerOk, CacheOk, CountsOk, Moves, TransitionOk, Owns, Uninvoked, DispatchClaimed,
      SnapshotOk;
    var w' := ExecuteStatement(w, tid, fault, now);
    StatementMoves(env, w, tid, fault, now);
    SparedIsOwned(env, w, tid);
    RestStays(env, w, w', Spared(w.tasks[tid].id, w.tasks[tid].pc), Some(tid));
    if fault.NoFault? {
      ReplyOk(env, w, tid, now);
    }
    forall i | i in w'.tasks ensures TaskOk(env, w', i) && FlightOk(w', i) {
      assert FlightOk(w, i);
    }
  }

  lemma StatementKeeps(env: Env, w: World, tid: nat, fault: Fault, now: int)
    requires Inv(env, w)
    ensures Inv(env, ExecuteStatement(w, tid, fault, now))
  {
    if tid in w.tasks && AwaitsDatabase(w.tasks[tid].pc) {
      StatementMoves(env, w, tid, fault, now);
      StatementKeepsCounts(env, w, tid, fault, now);
      StatementKeepsTasks(env, w, tid, fault, now);
    }
  }

  // ---- Continuations keep the invariant ----

  lemma CachingKeeps(env: Env, t: Table, s: Service, payloadHash: string, response: Response, now: int)
    requires CacheOk(env, t, s) && AnswerOk(env, t, response)
    requires response.requestId in t && t[response.requestId].request.payloadHash == payloadHash
    requires FinalAnswer(response)
             || (response.NotPaid? && (response.status.StatusPending? || response.status.StatusUnknown?))
    ensures CacheOk(env, t, CacheTerminal(env, s, payloadHash, response, now))
    ensures CacheTerminal(env, s, payloadHash, response, now).inFlight == s.inFlight
    ensures CacheTerminal(env, s, payloadHash, response, now).lookupFlights == s.lookupFlights
  {
  }

  /** A row read at any time still gives a sound answer. */
  lemma SnapshotAnswerOk(env: Env, t: Table, id: string, row: Row)
    requires SnapshotOk(env, t, id, row)
    ensures var r := ResponseFromStored(env, row);
            && AnswerOk(env, t, r)
            && r.requestId == id
            && (FinalAnswer(r) || (r.NotPaid? && (r.status.StatusPending? || r.status.StatusUnknown?)))
  {
    StoredAnswerReflects(env, row);
  }

  /** The payment call is made by the owner of the row, for the first time, after the dispatch mark. */
  ghost predicate CallOk(env: Env, w: World, tid: nat, id: string, c: Stretch) {
    match c.call
    case NoCall => true
    case PoolAndSdkCall =>
      Uninvoked(w, id) && DispatchClaimed(w, id) && id in w.owner && w.owner[id] == tid && c.pc.AwaitingSdk?
    case PoolCallOnly =>
      Uninvoked(w, id) && DispatchClaimed(w, id) && id in w.owner && w.owner[id] == tid && c.pc.Completing?
  }

  ghost predicate StretchOk(env: Env, w: World, tid: nat, c: Stretch)
    requires tid in w.tasks && w.tasks[tid].process in w.processes
  {
    var task := w.tasks[tid];
    var s := w.processes[task.process].service;
    && CacheOk(env, w.table, c.service)
    && c.service.inFlight == s.inFlight && c.service.lookupFlights == s.lookupFlights
    && PcOk(env, w, tid, task.kind, task.id, c.pc)
    && (c.lookup.Some? ==> SnapshotOk(env, w.table, task.id, c.lookup.value.stored))
    && CallOk(env, w, tid, task.id, c)
  }

  lemma DispatchOk(env: Env, w: World, tid: nat, r: NewRequest, gate: Gate)
    requires Inv(env, w) && tid in w.tasks && w.tasks[tid].process in w.processes
    requires w.tasks[tid].kind.RunTask? && w.tasks[tid].id == r.requestId
    requires Owns(w, tid, r) && Uninvoked(w, r.requestId) && DispatchClaimed(w, r.requestId)
    ensures StretchOk(env, w, tid, Dispatch(r, gate, w.processes[w.tasks[tid].process].service))
  {
    if !gate.GateOpen? {
      GateOutcomeFits(env, r, gate);
    }
  }

  lemma DuplicateOk(env: Env, w: World, tid: nat, r: NewRequest, stored: Row, now: int)
    requires Inv(env, w) && tid in w.tasks && w.tasks[tid].process in w.processes
    requires w.tasks[tid].id == r.requestId && SnapshotOk(env, w.table, r.requestId, stored)
    ensures StretchOk(env, w, tid, AnswerDuplicate(env, w.processes[w.tasks[tid].process].service, r, stored, now))
  {
    hide TableOk, CountsOk, FlightOk, TaskOk, CacheOk, Reflects, ResponseFromStored, CacheTerminal, RowOk;
    var s := w.processes[w.tasks[tid].process].service;
    if stored.request.payloadHash == r.payloadHash {
      SnapshotAnswerOk(env, w.table, r.requestId, stored);
      CachingKeeps(env, w.table, s, r.payloadHash, ResponseFromStored(env, stored), now);
    }
  }

  lemma StatusAnswerOk(env: Env, w: World, tid: nat, active: bool, found: Option<Row>, now: int)
    requires Inv(env, w) && tid in w.tasks && w.tasks[tid].process in w.processes
    requires found.Some? ==> SnapshotOk(env, w.table, w.tasks[tid].id, found.value)
    ensures StretchOk(env, w, tid,
                      AnswerStatus(env, w.processes[w.tasks[tid].process].service, w.tasks[tid].id, active, found, now))
  {
    hide TableOk, CountsOk, FlightOk, TaskOk, CacheOk, Reflects, ResponseFromStored, CacheTerminal, RowOk;
    var s := w.processes[w.tasks[tid].process].service;
    if found.Some? {
      SnapshotAnswerOk(env, w.table, w.tasks[tid].id, found.value);
      CachingKeeps(env, w.table, s, found.value.request.payloadHash, ResponseFromStored(env, found.value), now);
    }
  }

  lemma FinishOk(env: Env, w: World, tid: nat, tr: Transition, response: Response, now: int)
    requires Inv(env, w) && tid in w.tasks && w.tasks[tid].process in w.processes
    requires TransitionOk(env, w, tid, w.tasks[tid].id, tr)
    requires AnswerOk(env, w.table, response) && response.requestId == w.tasks[tid].id
    requires FinalAnswer(response)
             || (response.NotPaid? && (response.status.StatusPending? || response.status.StatusUnknown?))
    ensures StretchOk(env, w, tid, FinishTransition(env, w.processes[w.tasks[tid].process].service, tr, response, now))
  {
    CachingKeeps(env, w.table, w.processes[w.tasks[tid].process].service, tr.payloadHash, response, now);
  }

  lemma ReadinessOk(env: Env, w: World, tid: nat, r: NewRequest, readiness: Readiness)
    requires Inv(env, w) && Owns(w, tid, r) && Uninvoked(w, r.requestId)
    ensures PcOk(env, w, tid, RunTask, r.requestId, AfterReadiness(r, readiness))
  {
    OutcomesFit(env, r, WalletNotFound, "No active NWC wallet exists for this walletId", None);
    OutcomesFit(env, r, WalletNotReady, "Wallet did not become ready before dispatch", None);
  }

  lemma LookupOk(env: Env, w: World, tid: nat, stored: Row, allow: bool, raw: Option<RawResult>)
    requires Inv(env, w) && SnapshotOk(env, w.table, stored.request.requestId, stored)
    ensures PcOk(env, w, tid, LookupTask(allow), stored.request.requestId, AfterLookup(env, stored, allow, raw))
  {
    if raw.Some? && LookupOutcome(env, stored, allow, raw.value).Some? {
      LookupOutcomeFits(env, stored, allow, raw.value);
    }
  }

  lemma SdkReplyOk(env: Env, w: World, tid: nat, r: NewRequest, reply: SdkReply)
    requires Owns(w, tid, r)
    ensures PcOk(env, w, tid, RunTask, r.requestId, Completing(SdkOutcome(env, r, reply)))
  {
    SdkOutcomeFits(env, r, reply);
  }

  ghost predicate ContinuesOk(env: Env, w: World, tid: nat, e: Event, now: int)
    requires tid in w.tasks && Runs(w, w.tasks[tid].process)
  {
    var task := w.tasks[tid];
    var c := Continue(env, w.processes[task.process].service, task.id, task.pc, e, now);
    c.Some? ==> StretchOk(env, w, tid, c.value)
  }

  lemma ReadContinuesOk(env: Env, w: World, tid: nat, e: Event, now: int)
    requires Inv(env, w) && tid in w.tasks && Runs(w, w.tasks[tid].process)
    requires var pc := w.tasks[tid].pc; pc.GotExisting? || pc.GotUnclaimed? || pc.GotStatus?
    ensures ContinuesOk(env, w, tid, e, now)
  {
    hide CacheOk, CountsOk, AnswerStatus, AnswerDuplicate, ResponseFromStored, TableOk, FlightOk;
    var task := w.tasks[tid];
    assert TaskOk(env, w, tid);
    match task.pc
    case GotExisting(r, found) => DuplicateOk(env, w, tid, r, found.value, now);
    case GotUnclaimed(r, found) => SnapshotAnswerOk(env, w.table, task.id, found.value);
    case GotStatus(active, found) => StatusAnswerOk(env, w, tid, active, found, now);
  }

  lemma IntendedAnswerOk(env: Env, w: World, tid: nat, id: string, tr: Transition)
    requires Stamped(w.table) && TransitionOk(env, w, tid, id, tr)
    requires Terminal(tr.completion.state) ==> Reflects(env, w.table[id], tr.intended)
    ensures var r := tr.intended;
            && AnswerOk(env, w.table, r)
            && r.requestId == id
            && (FinalAnswer(r) || (r.NotPaid? && (r.status.StatusPending? || r.status.StatusUnknown?)))
  {
  }

  lemma TransitionContinuesOk(env: Env, w: World, tid: nat, e: Event, now: int)
    requires Inv(env, w) && tid in w.tasks && Runs(w, w.tasks[tid].process)
    requires var pc := w.tasks[tid].pc; pc.Completed? || pc.GotCurrent?
    ensures ContinuesOk(env, w, tid, e, now)
  {
    hide CountsOk, FlightOk, CacheOk, AnswerOk, FinishTransition, ResponseFromStored, TransitionOk, RowOk, Reflects;
    var task := w.tasks[tid];
    assert TaskOk(env, w, tid);
    match task.pc
    case Completed(tr, updated) =>
      if updated {
        IntendedAnswerOk(env, w, tid, task.id, tr);
        FinishOk(env, w, tid, tr, tr.intended, now);
      }
    case GotCurrent(tr, found) =>
      SnapshotAnswerOk(env, w.table, task.id, found.value);
      FinishOk(env, w, tid, tr, ResponseFromStored(env, found.value), now);
  }

  lemma DispatchContinuesOk(env: Env, w: World, tid: nat, e: Event, now: int)
    requires Inv(env, w) && tid in w.tasks && Runs(w, w.tasks[tid].process)
    requires var pc := w.tasks[tid].pc; pc.Inserted? || pc.Marked?
    ensures ContinuesOk(env, w, tid, e, now)
  {
    hide TableOk, CountsOk, CacheOk, FlightOk, AnswerOk, SnapshotOk, TransitionOk;
    var task := w.tasks[tid];
    assert TaskOk(env, w, tid);
    var r := task.pc.request;
    if DispatchClaimed(w, r.requestId) && e.GateResult? {
      DispatchOk(env, w, tid, r, e.gate);
    }
  }

  lemma WaitContinuesOk(env: Env, w: World, tid: nat, e: Event, now: int)
    requires Inv(env, w) && tid in w.tasks && Runs(w, w.tasks[tid].process)
    requires var pc := w.tasks[tid].pc; pc.AwaitingReady? || pc.AwaitingSdk? || pc.AwaitingLookup?
    ensures ContinuesOk(env, w, tid, e, now)
  {
    hide TableOk, CountsOk, CacheOk, FlightOk, AnswerOk, SdkOutcome, TransitionOk, AfterLookup, AfterReadiness,
      DispatchClaimed;
    var task := w.tasks[tid];
    assert TaskOk(env, w, tid);
    match task.pc
    case AwaitingReady(r) =>
      if e.ReadinessResult? { ReadinessOk(env, w, tid, r, e.readiness); }
    case AwaitingSdk(r) =>
      if e.WalletReply? { SdkReplyOk(env, w, tid, r, e.reply); }
    case AwaitingLookup(stored, allow) =>
      if e.LookupReply? { LookupOk(env, w, tid, stored, allow, e.raw); }
  }

  lemma ContinueOk(env: Env, w: World, tid: nat, e: Event, now: int)
    requires Inv(env, w) && tid in w.tasks && Runs(w, w.tasks[tid].process)
    ensures ContinuesOk(env, w, tid, e, now)
  {
    var pc := w.tasks[tid].pc;
    if pc.GotExisting? || pc.GotUnclaimed? || pc.GotStatus? {
      ReadContinuesOk(env, w, tid, e, now);
    } else if pc.Completed? || pc.GotCurrent? {
      TransitionContinuesOk(env, w, tid, e, now);
    } else if pc.Inserted? || pc.Marked? {
      DispatchContinuesOk(env, w, tid, e, now);
    } else if pc.AwaitingReady? || pc.AwaitingSdk? || pc.AwaitingLookup? {
      WaitContinuesOk(env, w, tid, e, now);
    }
  }

  lemma StretchMoves(env: Env, w: World, tid: nat, c: Stretch, ready: bool, lookupTid: nat)
    requires Inv(env, w) && tid in w.tasks && Runs(w, w.tasks[tid].process)
    requires StretchOk(env, w, tid, c)
    ensures var w' := AfterStretch(w, tid, c, ready, lookupTid);
            && Moves(w, w', if c.call.NoCall? then None else Some(w.tasks[tid].id))
            && (forall id :: CountsOk(w', id))
  {
    var w' := AfterStretch(w, tid, c, ready, lookupTid);
    forall id ensures CountsOk(w', id) {
      assert CountsOk(w, id);
    }
  }

  lemma StretchPcOk(env: Env, w: World, tid: nat, c: Stretch, ready: bool, lookupTid: nat)
    requires Inv(env, w) && tid in w.tasks && Runs(w, w.tasks[tid].process)
    requires StretchOk(env, w, tid, c)
    ensures PcOk(env, AfterStretch(w, tid, c, ready, lookupTid), tid, w.tasks[tid].kind, w.tasks[tid].id, c.pc)
  {
    var w' := AfterStretch(w, tid, c, ready, lookupTid);
    StretchMoves(env, w, tid, c, ready, lookupTid);
    if c.call.NoCall? {
      PcStays(env, w, w', None, tid, w.tasks[tid].kind, w.tasks[tid].id, c.pc);
    }
  }

  lemma StretchTasksOk(env: Env, w: World, tid: nat, c: Stretch, ready: bool, lookupTid: nat)
    requires Inv(env, w) && tid in w.tasks && Runs(w, w.tasks[tid].process) && lookupTid !in w.tasks
    requires StretchOk(env, w, tid, c)
    ensures var w' := AfterStretch(w, tid, c, ready, lookupTid);
            && (forall i :: i in w'.tasks ==> TaskOk(env, w', i))
            && (forall r :: r in w'.answers ==> AnswerOk(env, w'.table, r))
            && (forall pid :: pid in w'.processes ==> CacheOk(env, w'.table, w'.processes[pid].service))
  {
    hide TableOk, CountsOk, FlightOk, Moves, SnapshotOk, TransitionOk, Owns, Uninvoked, DispatchClaimed;
    var w' := AfterStretch(w, tid, c, ready, lookupTid);
    StretchMoves(env, w, tid, c, ready, lookupTid);
    StretchPcOk(env, w, tid, c, ready, lookupTid);
    RestStays(env, w, w', if c.call.NoCall? then None else Some(w.tasks[tid].id),
              if c.call.NoCall? then None else Some(tid));
    forall i | i in w'.tasks ensures TaskOk(env, w', i) {
      if i == lookupTid {
        assert PcOk(env, w', i, w'.tasks[i].kind, w.tasks[tid].id, w'.tasks[i].pc);
      } else if i != tid {
        assert w'.tasks[i] == w.tasks[i];
      }
    }
  }

  lemma StretchFlightsOk(env: Env, w: World, tid: nat, c: Stretch, ready: bool, lookupTid: nat)
    requires Inv(env, w) && tid in w.tasks && Runs(w, w.tasks[tid].process) && lookupTid !in w.tasks
    requires !w.tasks[tid].pc.Settled? && StretchOk(env, w, tid, c)
    ensures var w' := AfterStretch(w, tid, c, ready, lookupTid);
            forall i :: i in w'.tasks ==> FlightOk(w', i)
  {
    var w' := AfterStretch(w, tid, c, ready, lookupTid);
    forall i | i in w'.tasks ensures FlightOk(w', i) {
      if i in w.tasks { assert FlightOk(w, i); }
    }
  }

  lemma StretchKeeps(env: Env, w: World, tid: nat, c: Stretch, ready: bool, lookupTid: nat)
    requires Inv(env, w) && tid in w.tasks && Runs(w, w.tasks[tid].process) && lookupTid !in w.tasks
    requires !w.tasks[tid].pc.Settled? && StretchOk(env, w, tid, c)
    ensures Inv(env, AfterStretch(w, tid, c, ready, lookupTid))
  {
    StretchMoves(env, w, tid, c, ready, lookupTid);
    StretchTasksOk(env, w, tid, c, ready, lookupTid);
    StretchFlightsOk(env, w, tid, c, ready, lookupTid);
    var w' := AfterStretch(w, tid, c, ready, lookupTid);
    assert w'.table == w.table && w'.owner == w.owner;
  }

  lemma SettledDoesNotContinue(env: Env, s: Service, id: string, pc: Pc, e: Event, now: int)
    requires Continue(env, s, id, pc, e, now).Some?
    ensures !pc.Settled?
  {
  }

  lemma ContinueKeeps(env: Env, w: World, tid: nat, e: Event, now: int, lookupTid: nat)
    requires Inv(env, w)
    ensures Inv(env, ContinueTask(env, w, tid, e, now, lookupTid))
  {
    hide Inv, Continue, StretchOk, AfterStretch;
    if tid in w.tasks && Runs(w, w.tasks[tid].process) && lookupTid !in w.tasks {
      ContinueOk(env, w, tid, e, now);
      var task := w.tasks[tid];
      var s := w.processes[task.process].service;
      var c := Continue(env, s, task.id, task.pc, e, now);
      if c.Some? {
        SettledDoesNotContinue(env, s, task.id, task.pc, e, now);
        StretchKeeps(env, w, tid, c.value, e.Resume? && e.walletReady, lookupTid);
      }
    }
  }

  // ---- Calls and process life keep the invariant ----

  /** A cached answer, when it is used, is sound; a service whose cache only shrank stays sound. */
  lemma ShrunkCacheOk(env: Env, t: Table, s: Service, s': Service)
    requires CacheOk(env, t, s)
    requires forall id :: id in s'.terminalCache ==>
             id in s.terminalCache && s'.terminalCache[id] == s.terminalCache[id]
    ensures CacheOk(env, t, s')
  {
  }

  /** A step that leaves the table and the counters alone. */
  lemma SameLedgerKeeps(env: Env, w: World, w': World)
    requires Inv(env, w)
    requires w'.table == w.table && w'.owner == w.owner
    requires w'.poolCalls == w.poolCalls && w'.sdkCalls == w.sdkCalls && w'.directPays == w.directPays
    requires forall i :: i in w.tasks ==> i in w'.tasks && w'.tasks[i] == w.tasks[i]
    requires forall i :: i in w'.tasks && i !in w.tasks ==>
             PcOk(env, w, i, w'.tasks[i].kind, w'.tasks[i].id, w'.tasks[i].pc)
    requires forall i :: i in w'.tasks ==> FlightOk(w', i)
    requires forall r :: r in w'.answers ==> AnswerOk(env, w.table, r)
    requires forall pid :: pid in w'.processes ==> CacheOk(env, w.table, w'.processes[pid].service)
    ensures Inv(env, w')
  {
    forall i | i in w'.tasks ensures TaskOk(env, w', i) {
      if i in w.tasks { assert TaskOk(env, w, i); }
      PcStays(env, w, w', None, i, w'.tasks[i].kind, w'.tasks[i].id, w'.tasks[i].pc);
    }
    forall id ensures CountsOk(w', id) {
      assert CountsOk(w, id);
    }
  }

  lemma ServiceKeeps(env: Env, w: World, pid: nat, s': Service, r: Option<Response>)
    requires Inv(env, w) && Runs(w, pid)
    requires s'.inFlight == w.processes[pid].service.inFlight && CacheOk(env, w.table, s')
    requires r.Some? ==> AnswerOk(env, w.table, r.value)
    ensures Inv(env, w.(processes := w.processes[pid := Process(true, s')],
                        answers := if r.Some? then w.answers + {r.value} else w.answers))
  {
    var w' := w.(processes := w.processes[pid := Process(true, s')],
                 answers := if r.Some? then w.answers + {r.value} else w.answers);
    forall i | i in w'.tasks ensures FlightOk(w', i) {
      assert FlightOk(w, i);
    }
    SameLedgerKeeps(env, w, w');
  }

  lemma LaunchKeeps(env: Env, w: World, pid: nat, tid: nat, s': Service, request: NewRequest, warm: bool)
    requires Inv(env, w) && Runs(w, pid) && tid !in w.tasks && CacheOk(env, w.table, s')
    requires var flights := w.processes[pid].service.inFlight;
             request.requestId !in flights
               && s'.inFlight == flights[request.requestId := Flight(request.payloadHash, tid)]
    requires ToLower(request.paymentHash) == request.paymentHash
    ensures Inv(env, w.(processes := w.processes[pid := Process(true, s')],
                        tasks := w.tasks[tid := Task(pid, RunTask, request.requestId, Inserting(request, warm))]))
  {
    var w' := w.(processes := w.processes[pid := Process(true, s')],
                 tasks := w.tasks[tid := Task(pid, RunTask, request.requestId, Inserting(request, warm))]);
    forall i | i in w'.tasks ensures FlightOk(w', i) {
      if i in w.tasks { assert FlightOk(w, i); }
    }
    SameLedgerKeeps(env, w, w');
  }

  lemma SubmitKeeps(env: Env, w: World, pid: nat, tid: nat, input: SubmitInput, warm: bool, now: int)
    requires Inv(env, w)
    ensures Inv(env, CallSubmit(env, w, pid, tid, input, warm, now))
  {
    if Runs(w, pid) && tid !in w.tasks {
      var s := w.processes[pid].service;
      var (s', d) := Submit(env, s, input, now, tid);
      assert CacheOk(env, w.table, s) && CacheOk(env, w.table, s') by {
        ShrunkCacheOk(env, w.table, s, s');
      }
      match d
      case AnswerNow(r) =>
        SubmitAnswerOk(env, w.table, s, input, now, tid);
        ServiceKeeps(env, w, pid, s', Some(r));
      case JoinFlight(_) =>
        ServiceKeeps(env, w, pid, s', None);
      case Launch(request) =>
        LowerKeepsHex(input.paymentHash);
        LaunchKeeps(env, w, pid, tid, s', request, warm);
    }
  }

  lemma SubmitAnswerOk(env: Env, t: Table, s: Service, input: SubmitInput, now: int, tid: nat)
    requires CacheOk(env, t, s)
    ensures var d := Submit(env, s, input, now, tid).1; d.AnswerNow? ==> AnswerOk(env, t, d.response)
  {
    hide Reflects, RowOk, Normalized, ExpectedRequestId, PaymentHashFromInvoice, SafeHexEqual, DropExpired;
  }

  lemma BeginStatusOk(env: Env, t: Table, s: Service, id: string, now: int)
    requires CacheOk(env, t, s)
    ensures var (s', start) := BeginStatus(s, id, now);
            CacheOk(env, t, s') && s'.inFlight == s.inFlight
              && (start.StatusAnswer? ==> AnswerOk(env, t, start.response))
  {
    hide Reflects, RowOk;
    ShrunkCacheOk(env, t, s, BeginStatus(s, id, now).0);
  }

  lemma ReadStartsKeeps(env: Env, w: World, pid: nat, tid: nat, s': Service, id: string, active: bool)
    requires Inv(env, w) && Runs(w, pid) && tid !in w.tasks
    requires s'.inFlight == w.processes[pid].service.inFlight && CacheOk(env, w.table, s')
    ensures Inv(env, w.(processes := w.processes[pid := Process(true, s')],
                        tasks := w.tasks[tid := Task(pid, StatusTask, id, ReadingStatus(active))]))
  {
    hide TableOk, CountsOk, TaskOk, AnswerOk, CacheOk;
    var w' := w.(processes := w.processes[pid := Process(true, s')],
                 tasks := w.tasks[tid := Task(pid, StatusTask, id, ReadingStatus(active))]);
    forall i | i in w'.tasks ensures FlightOk(w', i) {
      if i in w.tasks { assert FlightOk(w, i); }
    }
    SameLedgerKeeps(env, w, w');
  }

  lemma StatusKeeps(env: Env, w: World, pid: nat, tid: nat, requestId: string, now: int)
    requires Inv(env, w)
    ensures Inv(env, CallStatus(w, pid, tid, requestId, now))
  {
    hide TableOk, CountsOk, TaskOk, FlightOk, AnswerOk, CacheOk, BeginStatus;
    if Runs(w, pid) && tid !in w.tasks {
      var s := w.processes[pid].service;
      var id := ToLower(requestId);
      var (s', start) := BeginStatus(s, id, now);
      BeginStatusOk(env, w.table, s, id, now);
      match start
      case StatusAnswer(r) => ServiceKeeps(env, w, pid, s', Some(r));
      case ReadJournal(active) => ReadStartsKeeps(env, w, pid, tid, s', id, active);
    }
  }

  lemma CleanUpKeeps(env: Env, w: World, tid: nat)
    requires Inv(env, w)
    ensures Inv(env, CleanUp(w, tid))
  {
    hide TableOk, CountsOk, TaskOk, AnswerOk, CacheOk, PcOk;
    var w' := CleanUp(w, tid);
    forall i | i in w'.tasks ensures FlightOk(w', i) {
      assert FlightOk(w, i);
    }
    if tid in w.tasks && Runs(w, w.tasks[tid].process) {
      var pid := w.tasks[tid].process;
      ShrunkCacheOk(env, w.table, w.processes[pid].service, w'.processes[pid].service);
    }
    SameLedgerKeeps(env, w, w');
  }

  lemma CrashKeeps(env: Env, w: World, pid: nat)
    requires Inv(env, w)
    ensures Inv(env, CrashProcess(w, pid))
  {
    var w' := CrashProcess(w, pid);
    forall i | i in w'.tasks ensures FlightOk(w', i) {
      assert FlightOk(w, i);
    }
    SameLedgerKeeps(env, w, w');
  }

  lemma SweepKeeps(env: Env, w: World, pid: nat, now: int)
    requires Inv(env, w)
    ensures Inv(env, SweepProcess(w, pid, now))
  {
    hide TableOk, CountsOk, TaskOk, AnswerOk, CacheOk, PcOk;
    var w' := SweepProcess(w, pid, now);
    forall i | i in w'.tasks ensures FlightOk(w', i) {
      assert FlightOk(w, i);
    }
    if Runs(w, pid) {
      ShrunkCacheOk(env, w.table, w.processes[pid].service, w'.processes[pid].service);
    }
    SameLedgerKeeps(env, w, w');
  }

  /** Startup recovery runs over rows of every process, living ones included. */
  lemma StartKeeps(env: Env, w: World, pid: nat, now: int)
    requires Inv(env, w)
    ensures Inv(env, StartProcess(w, pid, now))
  {
    if pid !in w.processes {
      var w' := StartProcess(w, pid, now);
      RecoverAdvances(w.table, now);
      RestStays(env, w, w', None, None);
      forall id | id in w'.table ensures RowOk(env, w'.table[id]) {
        assert w'.table[id] == RecoveredRow(w.table[id], now);
      }
      forall i | i in w'.tasks ensures FlightOk(w', i) {
        assert FlightOk(w, i);
      }
      forall id ensures CountsOk(w', id) {
        assert CountsOk(w, id);
        assert id in w.table ==> RowEvolves(w.table[id], w'.table[id]);
      }
    }
  }

  lemma NotifyKeeps(env: Env, w: World, walletId: string, paymentHash: string, preimage: string, fees: Json, now: int)
    requires Inv(env, w)
    ensures Inv(env, Notify(env, w, walletId, paymentHash, preimage, fees, now))
  {
    if VerifyPreimage(env, preimage, paymentHash) {
      var w' := Notify(env, w, walletId, paymentHash, preimage, fees, now);
      var paid := if fees.JInteger? && SafeAmount(fees.value) then Some(fees.value) else None;
      ResolveAdvances(w.table, walletId, paymentHash, preimage, paid, now);
      RestStays(env, w, w', None, None);
      forall id | id in w'.table ensures RowOk(env, w'.table[id]) {
        if w'.table[id] != w.table[id] {
          assert w'.table[id] == ResolvedRow(w.table[id], preimage, paid, now);
          VerifyIgnoresCase(env, preimage, paymentHash);
          VerifyIgnoresCase(env, ToLower(preimage), paymentHash);
          LowerKeepsHex(preimage);
        }
      }
      forall i | i in w'.tasks ensures FlightOk(w', i) {
        assert FlightOk(w, i);
      }
      forall id ensures CountsOk(w', id) {
        assert CountsOk(w, id);
        assert id in w.table ==> RowEvolves(w.table[id], w'.table[id]);
      }
    }
  }

  lemma DirectPayKeeps(env: Env, w: World, id: string)
    requires Inv(env, w)
    ensures Inv(env, PayDirectly(w, id))
  {
    if MayPayDirectly(w, id) {
      var w' := PayDirectly(w, id);
      RestStays(env, w, w', None, None);
      forall i | i in w'.tasks ensures FlightOk(w', i) {
        assert FlightOk(w, i);
      }
      var r :| r in w.answers && r.requestId == id && r.NotPaid? && r.status.StatusNotStarted?;
      assert AnswerOk(env, w.table, r);
      NotStartedAnswerMeansRow(env, w.table, r);
      forall x ensures CountsOk(w', x) {
        assert CountsOk(w, x);
      }
    }
  }

  lemma NotStartedAnswerMeansRow(env: Env, t: Table, r: Response)
    requires AnswerOk(env, t, r) && r.NotPaid? && r.status.StatusNotStarted?
    ensures r.requestId in t && t[r.requestId].state.NotStarted?
  {
  }

  // ---- All runs ----

  lemma StepKeeps(env: Env, w: World, a: Action)
    requires Inv(env, w)
    ensures Inv(env, Step(env, w, a))
  {
    hide Inv, StartProcess, CrashProcess, CallSubmit, CallStatus, ExecuteStatement, ContinueTask, CleanUp, SweepProcess,
      Notify, PayDirectly;
    match a
    case DoStart(pid, now) => StartKeeps(env, w, pid, now);
    case DoCrash(pid) => CrashKeeps(env, w, pid);
    case DoSubmit(pid, tid, input, warm, now) => SubmitKeeps(env, w, pid, tid, input, warm, now);
    case DoStatus(pid, tid, requestId, now) => StatusKeeps(env, w, pid, tid, requestId, now);
    case DoStatement(tid, fault, now) => StatementKeeps(env, w, tid, fault, now);
    case DoContinue(tid, event, now, lookupTid) => ContinueKeeps(env, w, tid, event, now, lookupTid);
    case DoCleanUp(tid) => CleanUpKeeps(env, w, tid);
    case DoSweep(pid, now) => SweepKeeps(env, w, pid, now);
    case DoNotify(walletId, hash, preimage, fees, now) => NotifyKeeps(env, w, walletId, hash, preimage, fees, now);
    case DoDirectPay(id) => DirectPayKeeps(env, w, id);
  }

  lemma InitialInv(env: Env)
    ensures Inv(env, INITIAL)
  {
  }

  lemma {:induction false} RunKeeps(env: Env, w: World, trace: seq<Action>)
    requires Inv(env, w)
    ensures Inv(env, Run(env, w, trace))
    decreases |trace|
  {
    if trace != [] {
      StepKeeps(env, w, trace[0]);
      RunKeeps(env, Step(env, w, trace[0]), trace[1..]);
    }
  }
}
