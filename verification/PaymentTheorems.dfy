/** The safety of payments over all runs: every interleaving, crash, restart and number of processes. */
module PaymentTheorems {
  import opened Common
  import opened Hex
  import opened Journal
  import opened Payments
  import opened PaymentService
  import opened PaymentProtocol
  import opened PaymentSafety

  /** The worlds some run leads to. */
  ghost predicate Reachable(env: Env, w: World) {
    exists trace :: Run(env, INITIAL, trace) == w
  }

  lemma ReachableInv(env: Env, w: World)
    requires Reachable(env, w)
    ensures Inv(env, w)
  {
    var trace :| Run(env, INITIAL, trace) == w;
    InitialInv(env);
    RunKeeps(env, INITIAL, trace);
  }

  // ---- The journal along a run ----

  predicate WritesTable(a: Action) {
    a.DoStart? || a.DoStatement? || a.DoNotify?
  }

  lemma OtherStepsKeepTable(env: Env, w: World, a: Action)
    requires !WritesTable(a)
    ensures Step(env, w, a).table == w.table
  {
  }

  lemma StatementEvolves(env: Env, w: World, tid: nat, fault: Fault, now: int)
    requires Inv(env, w)
    ensures Evolves(w.table, ExecuteStatement(w, tid, fault, now).table)
  {
    if tid in w.tasks && AwaitsDatabase(w.tasks[tid].pc) {
      StatementMoves(env, w, tid, fault, now);
    }
  }

  lemma EvolvesItself(t: Table)
    ensures Evolves(t, t)
  {
  }

  lemma StepEvolves(env: Env, w: World, a: Action)
    requires Inv(env, w)
    ensures Evolves(w.table, Step(env, w, a).table)
  {
    hide Inv, ExecuteStatement, Recover, Evolves, RowEvolves, VerifyPreimage;
    EvolvesItself(w.table);
    if !WritesTable(a) {
      OtherStepsKeepTable(env, w, a);
    } else {
      match a
      case DoStart(_, now) => RecoverAdvances(w.table, now);
      case DoStatement(tid, fault, now) => StatementEvolves(env, w, tid, fault, now);
      case DoNotify(walletId, hash, preimage, fees, now) =>
        ResolveAdvances(w.table, walletId, hash, preimage,
                        if fees.JInteger? && SafeAmount(fees.value) then Some(fees.value) else None, now);
    }
  }

  /** Along every run rows only move forward, so a final row is the same row for ever. */
  lemma {:induction false} RunEvolves(env: Env, w: World, trace: seq<Action>)
    requires Inv(env, w)
    ensures Evolves(w.table, Run(env, w, trace).table)
    decreases |trace|
  {
    if trace != [] {
      var w' := Step(env, w, trace[0]);
      StepEvolves(env, w, trace[0]);
      StepKeeps(env, w, trace[0]);
      RunEvolves(env, w', trace[1..]);
      EvolvesTransitive(w.table, w'.table, Run(env, w', trace[1..]).table);
    }
  }

  lemma {:induction false} AnswersAccumulate(env: Env, w: World, trace: seq<Action>)
    ensures w.answers <= Run(env, w, trace).answers
    decreases |trace|
  {
    if trace != [] {
      assert w.answers <= Step(env, w, trace[0]).answers;
      AnswersAccumulate(env, Step(env, w, trace[0]), trace[1..]);
    }
  }

  // ---- Fallback safety ----

  predicate ToldNotStarted(w: World, id: string) {
    exists r :: r in w.answers && r.requestId == id && r.NotPaid? && r.status.StatusNotStarted?
  }

  /**
   A `not_started` row or answer means the wallet SDK was never invoked for this
   request id and, whatever happens afterwards, never will be.
   */
  lemma NotStartedIsForEver(env: Env, w: World, id: string, trace: seq<Action>)
    requires Reachable(env, w)
    requires (id in w.table && w.table[id].state.NotStarted?) || ToldNotStarted(w, id)
    ensures var later := Run(env, w, trace);
            && w.sdkCalls[id] == 0 && later.sdkCalls[id] == 0
            && id in w.table && id in later.table && later.table[id] == w.table[id] && later.table[id].state.NotStarted?
  {
    ReachableInv(env, w);
    if !(id in w.table && w.table[id].state.NotStarted?) {
      var r :| r in w.answers && r.requestId == id && r.NotPaid? && r.status.StatusNotStarted?;
      NotStartedAnswerMeansRow(env, w.table, r);
    }
    RunKeeps(env, w, trace);
    RunEvolves(env, w, trace);
    assert CountsOk(w, id) && CountsOk(Run(env, w, trace), id);
    assert RowEvolves(w.table[id], Run(env, w, trace).table[id]);
  }

  /** The listener and a caller that pays directly only after `not_started` make at most one attempt together. */
  lemma AtMostOneAttempt(env: Env, w: World, id: string)
    requires Reachable(env, w)
    ensures w.sdkCalls[id] + w.directPays[id] <= 1
  {
    ReachableInv(env, w);
    assert CountsOk(w, id);
  }

  // ---- At-most-once dispatch ----

  /**
   Over all processes and restarts the pool's payment method is called at most once per id, after the
   durable mark.
   */
  lemma AtMostOneDispatch(env: Env, w: World, id: string)
    requires Reachable(env, w)
    ensures w.sdkCalls[id] <= w.poolCalls[id] <= 1
    ensures w.poolCalls[id] == 1 ==> id in w.table && w.table[id].dispatchedAt.Some?
  {
    ReachableInv(env, w);
    assert CountsOk(w, id);
  }

  /** One process never runs two operations for one request id. */
  lemma OneFlightPerProcess(env: Env, w: World, a: nat, b: nat)
    requires Reachable(env, w) && a in w.tasks && b in w.tasks
    requires w.tasks[a].kind.RunTask? && w.tasks[b].kind.RunTask?
    requires w.tasks[a].process == w.tasks[b].process && w.tasks[a].id == w.tasks[b].id
    requires !w.tasks[a].pc.Settled? && !w.tasks[b].pc.Settled?
    ensures a == b
  {
    ReachableInv(env, w);
    assert FlightOk(w, a) && FlightOk(w, b);
  }

  /** A duplicate submit during a running operation shares its promise, is answered from the cache, or conflicts. */
  lemma DuplicateJoins(env: Env, w: World, tid: nat, input: SubmitInput, now: int, newTask: nat)
    requires Reachable(env, w) && tid in w.tasks && w.tasks[tid].kind.RunTask? && !w.tasks[tid].pc.Settled?
    requires Refusal(env, input).None? && ToLower(input.requestId) == w.tasks[tid].id
    requires w.tasks[tid].process in w.processes
    ensures var s := w.processes[w.tasks[tid].process].service;
            var d := Submit(env, s, input, now, newTask).1;
            && !d.Launch?
            && w.tasks[tid].id in s.inFlight
            && (LiveEntry(s, w.tasks[tid].id, now).None? ==>
                  d == if s.inFlight[w.tasks[tid].id].payloadHash == Normalized(env, input).payloadHash
                       then JoinFlight(tid) else AnswerNow(ConflictResponse(w.tasks[tid].id)))
            && (LiveEntry(s, w.tasks[tid].id, now).Some? ==>
                  var cached := LiveEntry(s, w.tasks[tid].id, now).value;
                  d == AnswerNow(if cached.payloadHash == Normalized(env, input).payloadHash
                                 then cached.response else ConflictResponse(w.tasks[tid].id)))
  {
    ReachableInv(env, w);
    assert FlightOk(w, tid);
  }

  // ---- Success is proved ----

  /** Every succeeded row and every success answered holds a preimage of the row's payment hash. */
  lemma SuccessIsProved(env: Env, w: World)
    requires Reachable(env, w)
    ensures forall id :: id in w.table && w.table[id].state.Succeeded? ==> Proved(env, w.table[id])
    ensures forall r :: r in w.answers && r.Paid? ==>
                          && r.requestId in w.table
                          && VerifyPreimage(env, r.preimage, w.table[r.requestId].request.paymentHash)
                          && w.table[r.requestId].state.Succeeded?
                          && w.table[r.requestId].preimage == Some(r.preimage)
                          && w.table[r.requestId].feesPaidMsats == Some(r.feesPaidMsats)
  {
    ReachableInv(env, w);
    forall r | r in w.answers && r.Paid?
      ensures && r.requestId in w.table
              && VerifyPreimage(env, r.preimage, w.table[r.requestId].request.paymentHash)
              && w.table[r.requestId].state.Succeeded?
              && w.table[r.requestId].preimage == Some(r.preimage)
              && w.table[r.requestId].feesPaidMsats == Some(r.feesPaidMsats)
    {
      assert AnswerOk(env, w.table, r);
    }
  }

  // ---- Answers and cache agree with the journal ----

  /** The same outcome, error text aside when one of the two has a blank message. */
  predicate SameOutcome(a: Response, b: Response) {
    if BlankMessage(a) == BlankMessage(b)
    then a == b || (BlankMessage(a) && a.(error := None) == b.(error := None))
    else a.NotPaid? && b.NotPaid? && a.requestId == b.requestId && a.status == b.status
  }

  /** No two callers are ever told different final outcomes of one request, however far apart in a run. */
  lemma FinalAnswersAgree(env: Env, w: World, trace: seq<Action>, a: Response, b: Response)
    requires Reachable(env, w)
    requires a in w.answers && b in Run(env, w, trace).answers && a.requestId == b.requestId
    requires FinalAnswer(a) && FinalAnswer(b)
    ensures SameOutcome(a, b)
  {
    var later := Run(env, w, trace);
    ReachableInv(env, w);
    RunKeeps(env, w, trace);
    RunEvolves(env, w, trace);
    assert AnswerOk(env, w.table, a) && AnswerOk(env, later.table, b);
    assert RowEvolves(w.table[a.requestId], later.table[a.requestId]);
  }

  /**
   A live cache entry belongs to a finished row with the same payload hash, and
   answering from it is the same as reading the journal again, exactly unless
   the cached error message is blank.
   */
  lemma CacheRefinesJournal(env: Env, w: World, pid: nat, id: string)
    requires Reachable(env, w)
    requires pid in w.processes && id in w.processes[pid].service.terminalCache
    ensures var entry := w.processes[pid].service.terminalCache[id];
            && id in w.table
            && Terminal(w.table[id].state) && w.table[id].completedAt.Some?
            && entry.payloadHash == w.table[id].request.payloadHash
            && (entry.response == ResponseFromStored(env, w.table[id]) <==> !BlankMessage(entry.response))
            && SameOutcome(entry.response, ResponseFromStored(env, w.table[id]))
  {
    ReachableInv(env, w);
    var entry := w.processes[pid].service.terminalCache[id];
    assert CacheOk(env, w.table, w.processes[pid].service);
    assert Reflects(env, w.table[id], entry.response);
    ReflectsExactly(env, w.table[id], entry.response);
  }

  /** `completed_at` is set exactly on final rows, in every reachable journal. */
  lemma CompletedAtIsExact(env: Env, w: World, id: string)
    requires Reachable(env, w) && id in w.table
    ensures w.table[id].completedAt.Some? <==> Terminal(w.table[id].state)
    ensures w.table[id].request.requestId == id
  {
    ReachableInv(env, w);
  }
}
