/** The races the payment protocol leaves open: exactly when they happen, and runs in which they do. */
module PaymentRaces {
  import opened Common
  import opened Hex
  import opened Journal
  import opened Encodings
  import opened Payments
  import opened PaymentService
  import opened PaymentProtocol
  import opened PaymentSafety
  import opened PaymentOrigins
  import opened PaymentTheorems

  // ---- Paying a finished row ----

  /**
   The step continues a running task of `id` with an open gate, after its warm insert or its claimed
   dispatch mark.
   */
  predicate PaysNow(w: World, a: Action, id: string) {
    && a.DoContinue? && a.event == GateResult(GateOpen)
    && a.tid in w.tasks && Runs(w, w.tasks[a.tid].process) && a.lookupTid !in w.tasks
    && w.tasks[a.tid].id == id
    && var pc := w.tasks[a.tid].pc; (pc.Inserted? && pc.warm) || (pc.Marked? && pc.claimed)
  }

  lemma SdkCallIsExact(env: Env, w: World, a: Action, id: string)
    ensures Step(env, w, a).sdkCalls[id] == w.sdkCalls[id] + if PaysNow(w, a, id) then 1 else 0
  {
    hide ContinueTask, ExecuteStatement, StartProcess, CrashProcess, SweepProcess, CleanUp, PayDirectly, CallSubmit,
      CallStatus, Notify, NoRejection;
    if a.DoContinue? {
      ContinuationShape(env, w, a.tid, a.event, a.now, a.lookupTid);
    } else if a.DoStatement? {
      StatementKeepsCalls(w, a.tid, a.fault, a.now);
    } else {
      OtherStepIsQuiet(env, w, a);
    }
  }

  lemma StatementKeepsCalls(w: World, tid: nat, fault: Fault, now: int)
    ensures ExecuteStatement(w, tid, fault, now).sdkCalls == w.sdkCalls
  {
    hide RunStatement, Rejects;
  }

  predicate RowFinished(w: World, id: string) {
    id in w.table && Terminal(w.table[id].state)
  }

  /**
   A step adds an SDK call for an id whose row is already final exactly when it
   passes an open gate, warm or cold, over a final row; the row is then a success
   or a rejection, and the call is the first one of its id.
   */
  lemma PaysFinishedRowExactly(env: Env, w: World, a: Action, id: string)
    requires Reachable(env, w)
    ensures Step(env, w, a).sdkCalls[id] > w.sdkCalls[id] && RowFinished(w, id)
            <==> PaysNow(w, a, id) && RowFinished(w, id)
    ensures PaysNow(w, a, id) && RowFinished(w, id) ==>
              && (w.table[id].state.Succeeded? || w.table[id].state.Rejected?)
              && Step(env, w, a).sdkCalls[id] == 1
  {
    hide Step, AnswerOk, CacheOk, FlightOk, TableOk, SnapshotOk, TransitionOk;
    SdkCallIsExact(env, w, a, id);
    if PaysNow(w, a, id) {
      ReachableInv(env, w);
      assert TaskOk(env, w, a.tid);
    }
  }

  /**
   From every world in which an open gate would pay, a notification can resolve the row first, and
   the payment goes out all the same.
   */
  lemma ResolutionDoesNotStopDispatch(env: Env, w: World, tid: nat, preimage: string, now: int, lookupTid: nat)
    requires Reachable(env, w) && tid in w.tasks
             && PaysNow(w, DoContinue(tid, GateResult(GateOpen), now, lookupTid), w.tasks[tid].id)
    requires VerifyPreimage(env, preimage, w.tasks[tid].pc.request.paymentHash)
    ensures var id, r := w.tasks[tid].id, w.tasks[tid].pc.request;
            var resolved := Notify(env, w, r.walletId, r.paymentHash, preimage, JOther, now);
            var paid := Step(env, resolved, DoContinue(tid, GateResult(GateOpen), now, lookupTid));
            && id in w.table && id in paid.table
            && (Unresolved(w.table[id].state) ==> paid.table[id].state.Succeeded?)
            && paid.sdkCalls[id] == 1
  {
    hide Run, Reachable, Step, VerifyPreimage, AnswerOk, CacheOk, FlightOk, TableOk, SnapshotOk, TransitionOk;
    ReachableInv(env, w);
    assert TaskOk(env, w, tid);
    var r := w.tasks[tid].pc.request;
    var resolved := Notify(env, w, r.walletId, r.paymentHash, preimage, JOther, now);
    var a := DoContinue(tid, GateResult(GateOpen), now, lookupTid);
    SdkCallIsExact(env, resolved, a, w.tasks[tid].id);
    ContinuationKeepsTable(env, resolved, a);
  }

  lemma ContinuationKeepsTable(env: Env, w: World, a: Action)
    requires a.DoContinue?
    ensures Step(env, w, a).table == w.table
  {
  }

  // ---- Who rejected a row ----

  lemma ReachableOrigins(env: Env, w: World)
    requires Reachable(env, w)
    ensures Origins(w)
  {
    var trace :| Run(env, INITIAL, trace) == w;
    InitialInv(env);
    InitialOrigins();
    RunKeepsOrigins(env, INITIAL, trace);
  }

  function Landed(env: Env, w: World, tid: nat, now: int): World {
    Step(env, w, DoStatement(tid, NoFault, now))
  }

  predicate JournalsSuccess(w: World, tid: nat) {
    tid in w.tasks && w.tasks[tid].pc.Completing? && w.tasks[tid].pc.transition.completion.state.Succeeded?
  }

  /**
   The verified success of the operation itself reaches the row exactly when the
   row is not rejected, and a rejected row was then rejected by a lookup that
   was allowed to believe the wallet's report of a failure.
   */
  lemma VerifiedSuccessLands(env: Env, w: World, tid: nat, now: int)
    requires Reachable(env, w) && JournalsSuccess(w, tid) && w.tasks[tid].kind.RunTask?
    ensures var id := w.tasks[tid].id;
            && id in w.table && id in Landed(env, w, tid, now).table
            && (Landed(env, w, tid, now).table[id].state.Succeeded? <==> !w.table[id].state.Rejected?)
            && (w.table[id].state.Rejected? ==> RejectedByLookup(w, id))
  {
    hide AnswerOk, CacheOk, FlightOk, SnapshotOk, RowOk, Reachable, Landed;
    ReachableInv(env, w);
    ReachableOrigins(env, w);
    assert TaskOk(env, w, tid) && OriginOk(w, tid);
    assert CountsOk(w, w.tasks[tid].id) && RejecterOk(w, w.tasks[tid].id);
    LandsUnlessFinal(env, w, tid, now);
  }

  /** The completing statement of a success takes any row that is neither rejected nor not started. */
  lemma LandsUnlessFinal(env: Env, w: World, tid: nat, now: int)
    requires JournalsSuccess(w, tid) && w.tasks[tid].id in w.table
    ensures var id := w.tasks[tid].id;
            && id in Landed(env, w, tid, now).table
            && (Landed(env, w, tid, now).table[id].state.Succeeded?
                <==> !w.table[id].state.Rejected? && !w.table[id].state.NotStarted?)
  {
  }

  predicate RejectedByLookup(w: World, id: string) {
    id in w.rejecter && w.rejecter[id] in w.tasks && w.tasks[w.rejecter[id]].id == id
    && w.tasks[w.rejecter[id]].kind == LookupTask(true)
  }

  predicate RejectedByOperation(w: World, id: string) {
    id in w.rejecter && w.rejecter[id] in w.tasks && w.tasks[w.rejecter[id]].id == id
    && w.tasks[w.rejecter[id]].kind.RunTask? && id in w.owner && w.owner[id] == w.rejecter[id]
  }

  /**
   A lookup's verified success reaches the row exactly when the row is neither
   rejected nor not started; a rejection is then the operation's own or that of
   another lookup.
   */
  lemma LookupSuccessLands(env: Env, w: World, tid: nat, now: int)
    requires Reachable(env, w) && JournalsSuccess(w, tid) && w.tasks[tid].kind.LookupTask?
    ensures var id := w.tasks[tid].id;
            && id in w.table && id in Landed(env, w, tid, now).table
            && (Landed(env, w, tid, now).table[id].state.Succeeded?
                <==> !w.table[id].state.Rejected? && !w.table[id].state.NotStarted?)
            && (w.table[id].state.Rejected? ==>
                  (RejectedByOperation(w, id) || RejectedByLookup(w, id)) && w.rejecter[id] != tid)
  {
    hide AnswerOk, CacheOk, FlightOk, SnapshotOk, RowOk, Reachable, Landed;
    ReachableInv(env, w);
    ReachableOrigins(env, w);
    assert TaskOk(env, w, tid);
    assert RejecterOk(w, w.tasks[tid].id);
    LandsUnlessFinal(env, w, tid, now);
  }

  // ---- Runs in which it happens ----

  lemma {:induction false} RunAppends(env: Env, w: World, trace: seq<Action>, a: Action)
    ensures Run(env, w, trace + [a]) == Step(env, Run(env, w, trace), a)
    decreases |trace|
  {
    hide Step;
    if trace == [] {
      assert [] + [a] == [a];
      assert Run(env, Step(env, w, a), []) == Step(env, w, a);
    } else {
      assert (trace + [a])[1..] == trace[1..] + [a];
      RunAppends(env, Step(env, w, trace[0]), trace[1..], a);
    }
  }

  lemma StepIsReachable(env: Env, w: World, a: Action)
    requires Reachable(env, w)
    ensures Reachable(env, Step(env, w, a))
  {
    hide Step, Run;
    var trace :| Run(env, INITIAL, trace) == w;
    RunAppends(env, INITIAL, trace, a);
  }

  /** A request the service accepts, with a preimage that proves its payment. */
  predicate Payable(env: Env, input: SubmitInput, preimage: string) {
    Refusal(env, input).None? && VerifyPreimage(env, preimage, Normalized(env, input).paymentHash)
  }

  /** Process 0 runs the operation of `r` as task 0, alone; its row is pending. */
  predicate Underway(w: World, r: NewRequest, pc: Pc, dispatched: bool) {
    && r.requestId == ToLower(r.requestId) && r.paymentHash == ToLower(r.paymentHash)
    && w.tasks == map[0 := Task(0, RunTask, r.requestId, pc)]
    && w.processes.Keys == {0} && w.processes[0].alive
    && r.requestId in w.table && w.table[r.requestId].request == r && w.table[r.requestId].state.Pending?
    && (dispatched ==> w.table[r.requestId].dispatchedAt.Some?)
  }

  lemma InsertedWorld(env: Env, input: SubmitInput, warm: bool) returns (w: World)
    requires Refusal(env, input).None?
    ensures Reachable(env, w)
    ensures Underway(w, Normalized(env, input), Inserted(Normalized(env, input), warm), warm)
  {
    hide Run, Refusal;
    var r := Normalized(env, input);
    LowerKeepsHex(input.requestId);
    LowerKeepsHex(input.paymentHash);
    assert Run(env, INITIAL, []) == INITIAL by { RunOfNothing(env, INITIAL); }
    assert Reachable(env, INITIAL);
    var w1 := Step(env, INITIAL, DoStart(0, 0));
    StepIsReachable(env, INITIAL, DoStart(0, 0));
    assert w1 == INITIAL.(processes := map[0 := Process(true, EMPTY_SERVICE)]);
    var w2 := Step(env, w1, DoSubmit(0, 0, input, warm, 0));
    StepIsReachable(env, w1, DoSubmit(0, 0, input, warm, 0));
    assert w2.tasks == map[0 := Task(0, RunTask, r.requestId, Inserting(r, warm))];
    w := Step(env, w2, DoStatement(0, NoFault, 0));
    StepIsReachable(env, w2, DoStatement(0, NoFault, 0));
    assert w.table[r.requestId] == FreshRow(r, warm, 0);
  }

  lemma RunOfNothing(env: Env, w: World)
    ensures Run(env, w, []) == w
  {
  }

  /** The notification of the payment arrives while the operation is under way. */
  lemma NotifiedWorld(env: Env, w: World, r: NewRequest, pc: Pc, preimage: string) returns (w': World)
    requires Reachable(env, w) && VerifyPreimage(env, preimage, r.paymentHash)
    requires exists dispatched :: Underway(w, r, pc, dispatched)
    ensures Reachable(env, w')
    ensures w'.tasks == w.tasks && w'.processes == w.processes
    ensures r.requestId in w'.table && w'.table[r.requestId].state.Succeeded?
  {
    hide Run, Reachable, VerifyPreimage;
    var a := DoNotify(r.walletId, r.paymentHash, preimage, JOther, 0);
    StepIsReachable(env, w, a);
    w' := Step(env, w, a);
  }

  /** The warm path: the notification arrives between the insert and the dispatch. */
  lemma WarmPathPaysAfterResolution(env: Env, input: SubmitInput, preimage: string) returns (w: World, a: Action)
    requires Payable(env, input, preimage)
    ensures Reachable(env, w)
    ensures var id := Normalized(env, input).requestId;
            && id in w.table && w.table[id].state.Succeeded?
            && PaysNow(w, a, id) && w.tasks[a.tid].pc.Inserted?
  {
    hide Run, Reachable, VerifyPreimage;
    var r := Normalized(env, input);
    var w1 := InsertedWorld(env, input, true);
    w := NotifiedWorld(env, w1, r, Inserted(r, true), preimage);
    a := DoContinue(0, GateResult(GateOpen), 0, 1);
  }

  /** The cold path: the wallet becomes ready, the mark is claimed, and the notification arrives before the dispatch. */
  lemma ColdPathPaysAfterResolution(env: Env, input: SubmitInput, preimage: string) returns (w: World, a: Action)
    requires Payable(env, input, preimage)
    ensures Reachable(env, w)
    ensures var id := Normalized(env, input).requestId;
            && id in w.table && w.table[id].state.Succeeded?
            && PaysNow(w, a, id) && w.tasks[a.tid].pc.Marked?
  {
    hide Run, Reachable, VerifyPreimage;
    var r := Normalized(env, input);
    var w1 := InsertedWorld(env, input, false);
    var w2 := MarkedWorld(env, w1, r);
    w := NotifiedWorld(env, w2, r, Marked(r, true), preimage);
    a := DoContinue(0, GateResult(GateOpen), 0, 1);
  }

  lemma ContinuedWorld(env: Env, w: World, r: NewRequest, pc: Pc, dispatched: bool, e: Event, next: Pc)
    returns (w': World)
    requires Reachable(env, w) && Underway(w, r, pc, dispatched)
    requires Continue(env, w.processes[0].service, r.requestId, pc, e, 0) == Some(Quietly(next, w.processes[0].service))
    ensures Reachable(env, w') && Underway(w', r, next, dispatched)
  {
    hide Run, Reachable, Continue;
    StepIsReachable(env, w, DoContinue(0, e, 0, 1));
    w' := Step(env, w, DoContinue(0, e, 0, 1));
  }

  lemma MarkedWorld(env: Env, w: World, r: NewRequest) returns (w': World)
    requires Reachable(env, w) && Underway(w, r, Inserted(r, false), false)
    ensures Reachable(env, w') && Underway(w', r, Marked(r, true), true)
  {
    hide Run, Reachable;
    var w1 := ContinuedWorld(env, w, r, Inserted(r, false), false, Resume(false), AwaitingReady(r));
    var w2 := ContinuedWorld(env, w1, r, AwaitingReady(r), false, ReadinessResult(WalletReady), Marking(r));
    StepIsReachable(env, w2, DoStatement(0, NoFault, 0));
    w' := Step(env, w2, DoStatement(0, NoFault, 0));
  }

  // ---- A second process and its lookup ----

  const FAILED: RawResult := Object(JOther, JOther, JText("failed"))

  /** Process 1 has started beside the operation and has recovered its dispatched row. */
  predicate Joined(w: World, r: NewRequest, pc: Pc) {
    && r.requestId == ToLower(r.requestId)
    && w.processes.Keys == {0, 1} && w.processes[0].alive && w.processes[1].alive
    && 0 in w.tasks && w.tasks[0] == Task(0, RunTask, r.requestId, pc)
    && r.requestId in w.table && w.table[r.requestId].request == r
  }

  lemma SecondProcess(env: Env, w: World, r: NewRequest, pc: Pc) returns (w': World)
    requires Reachable(env, w) && Underway(w, r, pc, true)
    ensures Reachable(env, w') && Joined(w', r, pc) && w'.tasks.Keys == {0}
    ensures w'.processes[1].service == EMPTY_SERVICE && w'.table[r.requestId].state.Unknown?
  {
    hide Run, Reachable;
    StepIsReachable(env, w, DoStart(1, 0));
    w' := Step(env, w, DoStart(1, 0));
    assert w'.table[r.requestId] == RecoveredRow(w.table[r.requestId], 0);
  }

  /** It is asked for the status and finds no operation of its own. */
  lemma StatusReads(env: Env, w: World, r: NewRequest, pc: Pc) returns (w': World)
    requires Reachable(env, w) && Joined(w, r, pc) && w.tasks.Keys == {0} && w.processes[1].service == EMPTY_SERVICE
    ensures Reachable(env, w') && Joined(w', r, pc) && w'.tasks.Keys == {0, 1}
    ensures w'.table == w.table && w'.processes[1].service == EMPTY_SERVICE
    ensures w'.tasks[1] == Task(1, StatusTask, r.requestId, GotStatus(false, Some(w.table[r.requestId])))
  {
    hide Run, Reachable;
    var id := r.requestId;
    StepIsReachable(env, w, DoStatus(1, 1, id, 0));
    var w1 := Step(env, w, DoStatus(1, 1, id, 0));
    assert w1.tasks[1] == Task(1, StatusTask, id, ReadingStatus(false)) && w1.tasks.Keys == {0, 1}
           && w1.table == w.table;
    assert w1.processes[1].service == EMPTY_SERVICE;
    StepIsReachable(env, w1, DoStatement(1, NoFault, 0));
    w' := Step(env, w1, DoStatement(1, NoFault, 0));
  }

  lemma UnknownStatus(env: Env, s: Service, id: string, row: Row, now: int)
    requires row.state.Unknown?
    ensures var c := AnswerStatus(env, s, id, false, Some(row), now);
            c.lookup == Some(Lookup(row, true)) && c.call.NoCall? && c.pc.Settled?
              && c.service.lookupFlights == s.lookupFlights
  {
  }

  /** The status answer starts a lookup that may believe a failure. */
  lemma StatusStartsLookup(env: Env, w: World, r: NewRequest, pc: Pc) returns (w': World)
    requires Reachable(env, w) && Joined(w, r, pc) && w.tasks.Keys == {0, 1}
    requires w.processes[1].service == EMPTY_SERVICE && w.table[r.requestId].state.Unknown?
    requires w.tasks[1] == Task(1, StatusTask, r.requestId, GotStatus(false, Some(w.table[r.requestId])))
    ensures Reachable(env, w') && Joined(w', r, pc) && w'.tasks.Keys == {0, 1, 2} && w'.table == w.table
    ensures w'.tasks[2] == Task(1, LookupTask(true), r.requestId, AwaitingLookup(w.table[r.requestId], true))
  {
    hide Run, Reachable, AnswerStatus;
    UnknownStatus(env, EMPTY_SERVICE, r.requestId, w.table[r.requestId], 0);
    StepIsReachable(env, w, DoContinue(1, Resume(true), 0, 2));
    w' := Step(env, w, DoContinue(1, Resume(true), 0, 2));
    assert w'.table == w.table && w'.tasks.Keys == {0, 1, 2};
  }

  lemma FailedAnswer(env: Env, stored: Row)
    ensures AfterLookup(env, stored, true, Some(FAILED))
            == Completing(RejectedOutcome(stored.request, "Wallet lookup reports payment failed", None))
  {
  }

  /** The wallet reports a failed payment, which the lookup takes to the journal. */
  lemma LookupFails(env: Env, w: World, r: NewRequest, pc: Pc) returns (w': World)
    requires Reachable(env, w) && Joined(w, r, pc) && w.tasks.Keys == {0, 1, 2} && w.table[r.requestId].state.Unknown?
    requires w.tasks[2] == Task(1, LookupTask(true), r.requestId, AwaitingLookup(w.table[r.requestId], true))
    ensures Reachable(env, w') && Joined(w', r, pc) && w'.tasks.Keys == {0, 1, 2} && w'.table == w.table
    ensures w'.tasks[2] == Task(1, LookupTask(true), r.requestId,
                                Completing(RejectedOutcome(r, "Wallet lookup reports payment failed", None)))
  {
    hide Run, Reachable, AfterLookup, RejectedOutcome;
    var failed := Completing(RejectedOutcome(r, "Wallet lookup reports payment failed", None));
    FailedAnswer(env, w.table[r.requestId]);
    StepIsReachable(env, w, DoContinue(2, LookupReply(Some(FAILED)), 0, 3));
    w' := Step(env, w, DoContinue(2, LookupReply(Some(FAILED)), 0, 3));
    assert w'.tasks == w.tasks[2 := Task(1, LookupTask(true), r.requestId, failed)];
  }

  lemma LookupRejects(env: Env, w: World, r: NewRequest, pc: Pc) returns (w': World)
    requires Reachable(env, w) && Joined(w, r, pc) && w.tasks.Keys == {0, 1, 2} && w.table[r.requestId].state.Unknown?
    requires w.tasks[2] == Task(1, LookupTask(true), r.requestId,
                                Completing(RejectedOutcome(r, "Wallet lookup reports payment failed", None)))
    ensures Reachable(env, w') && Joined(w', r, pc) && w'.tasks.Keys == {0, 1, 2}
    ensures w'.table[r.requestId].state.Rejected? && RejectedByLookup(w', r.requestId)
  {
    hide Run, Reachable;
    StepIsReachable(env, w, DoStatement(2, NoFault, 0));
    w' := Step(env, w, DoStatement(2, NoFault, 0));
  }

  lemma ForeignLookupRejects(env: Env, w: World, r: NewRequest, pc: Pc) returns (w': World)
    requires Reachable(env, w) && Underway(w, r, pc, true)
    ensures Reachable(env, w') && Joined(w', r, pc) && w'.tasks.Keys == {0, 1, 2}
    ensures w'.table[r.requestId].state.Rejected? && RejectedByLookup(w', r.requestId)
  {
    hide Reachable, Underway, RejectedByLookup;
    var w1 := SecondProcess(env, w, r, pc);
    var w2 := StatusReads(env, w1, r, pc);
    var w3 := StatusStartsLookup(env, w2, r, pc);
    var w4 := LookupFails(env, w3, r, pc);
    w' := LookupRejects(env, w4, r, pc);
  }

  /** A warm dispatch goes out over a row that another process's lookup has rejected in between. */
  lemma PaysAfterForeignRejection(env: Env, input: SubmitInput) returns (w: World, a: Action)
    requires Refusal(env, input).None?
    ensures Reachable(env, w)
    ensures var id := Normalized(env, input).requestId;
            id in w.table && w.table[id].state.Rejected? && PaysNow(w, a, id)
  {
    hide Run, Reachable, Refusal;
    var r := Normalized(env, input);
    var w1 := InsertedWorld(env, input, true);
    w := ForeignLookupRejects(env, w1, r, Inserted(r, true));
    a := DoContinue(0, GateResult(GateOpen), 0, 3);
  }

  /**
   The payment goes out, a second process's lookup reports it failed, and then the wallet returns its
   preimage: the row stays rejected.
   */
  lemma FailedLookupBeatsSuccess(env: Env, input: SubmitInput, preimage: string) returns (w: World, tid: nat)
    requires Payable(env, input, preimage)
    ensures Reachable(env, w) && JournalsSuccess(w, tid) && w.tasks[tid].kind.RunTask?
    ensures var id := w.tasks[tid].id;
            && id == Normalized(env, input).requestId && id in w.table && id in Landed(env, w, tid, 0).table
            && w.table[id].state.Rejected? && RejectedByLookup(w, id)
            && Landed(env, w, tid, 0).table[id].state.Rejected?
  {
    hide Run, Reachable, Refusal, VerifyPreimage;
    var r := Normalized(env, input);
    var w1 := InsertedWorld(env, input, true);
    var w2 := DispatchedWorld(env, w1, r);
    var w3 := ForeignLookupRejects(env, w2, r, AwaitingSdk(r));
    w := WalletReturnsPreimage(env, w3, r, preimage);
    tid := 0;
  }

  lemma WalletReturnsPreimage(env: Env, w: World, r: NewRequest, preimage: string) returns (w': World)
    requires Reachable(env, w) && Joined(w, r, AwaitingSdk(r)) && w.tasks.Keys == {0, 1, 2}
    requires VerifyPreimage(env, preimage, r.paymentHash)
    ensures Reachable(env, w') && w'.table == w.table
    ensures RejectedByLookup(w, r.requestId) ==> RejectedByLookup(w', r.requestId)
    ensures 0 in w'.tasks && w'.tasks[0] == Task(0, RunTask, r.requestId, Completing(SucceededOutcome(r, preimage, 0)))
  {
    hide Run, Reachable, VerifyPreimage;
    var reply := SdkResult(Object(JText(preimage), JInteger(0), JOther));
    PreimageNotBlank(env, preimage, r.paymentHash);
    assert SdkOutcome(env, r, reply) == SucceededOutcome(r, preimage, 0);
    StepIsReachable(env, w, DoContinue(0, WalletReply(reply), 0, 3));
    w' := Step(env, w, DoContinue(0, WalletReply(reply), 0, 3));
  }

  lemma PreimageNotBlank(env: Env, preimage: string, paymentHash: string)
    requires VerifyPreimage(env, preimage, paymentHash)
    ensures preimage != ""
  {
  }

  lemma DispatchedWorld(env: Env, w: World, r: NewRequest) returns (w': World)
    requires Reachable(env, w) && Underway(w, r, Inserted(r, true), true)
    ensures Reachable(env, w') && Underway(w', r, AwaitingSdk(r), true)
  {
    hide Run, Reachable;
    StepIsReachable(env, w, DoContinue(0, GateResult(GateOpen), 0, 1));
    w' := Step(env, w, DoContinue(0, GateResult(GateOpen), 0, 1));
  }

  // ---- One such request ----

  function Zeros(): seq<byte> {
    seq(32, _ => 0)
  }

  /** Hashes that are all zero, and a request with a preimage of zeros. */
  function ZeroEnv(): Env {
    Env(bytes => Zeros(), text => Zeros(), invoice => Some(ToHex(Zeros())), 0)
  }

  function ZeroInput(): SubmitInput {
    SubmitInput(ToHex(Zeros()), "wallet", "invoice", ToHex(Zeros()), None, None)
  }

  /** The requests of these runs exist. */
  lemma PayableRequestExists()
    ensures Payable(ZeroEnv(), ZeroInput(), ToHex(Zeros()))
  {
    hide ToHex, FromHex, Zeros, ToLower, RequestIdText, PayloadText;
    assert |Zeros()| == 32 by { ZerosLength(); }
    ToHexIsLower(Zeros());
    FromHexToHex(Zeros());
  }

  lemma ZerosLength()
    ensures |Zeros()| == 32
  {
  }
}
