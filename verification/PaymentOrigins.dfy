/** Where outcomes come from: a second invariant of the payment protocol, on who may write what. */
module PaymentOrigins {
  import opened Common
  import opened Hex
  import opened Journal
  import opened Payments
  import opened PaymentService
  import opened PaymentProtocol
  import opened PaymentSafety

  /** The completing statement of the task has been executed or given up. */
  predicate PastCompletion(pc: Pc) {
    pc.Completed? || pc.ReadingCurrent? || pc.GotCurrent? || pc.Settled?
  }

  /** The task inserted the row of its id. */
  predicate Inserter(w: World, tid: nat)
    requires tid in w.tasks
  {
    w.tasks[tid].id in w.owner && w.owner[w.tasks[tid].id] == tid
  }

  /** A task that may reject its row: the operation itself, or a lookup allowed to believe a failure. */
  predicate MayReject(w: World, tid: nat)
    requires tid in w.tasks
  {
    (w.tasks[tid].kind.RunTask? && Inserter(w, tid)) || w.tasks[tid].kind == LookupTask(true)
  }

  predicate OriginOk(w: World, tid: nat)
    requires tid in w.tasks
  {
    var t := w.tasks[tid];
    match t.pc
    case AwaitingSdk(_) => t.kind.RunTask? && Inserter(w, tid) && w.sdkCalls[t.id] == 1
    case AwaitingLookup(_, allow) => t.kind == LookupTask(allow)
    case Completing(tr) =>
      && !t.kind.StatusTask?
      && (t.kind.RunTask? ==> Inserter(w, tid) && (tr.completion.state.Succeeded? ==> w.sdkCalls[t.id] == 1))
      && (tr.completion.state.Rejected? ==> MayReject(w, tid))
    case _ => true
  }

  /** A rejected row was rejected by a task that may do so and has got past it. */
  predicate RejecterOk(w: World, id: string) {
    id in w.table && w.table[id].state.Rejected? ==>
      && id in w.rejecter && w.rejecter[id] in w.tasks
      && w.tasks[w.rejecter[id]].id == id
      && PastCompletion(w.tasks[w.rejecter[id]].pc)
      && MayReject(w, w.rejecter[id])
  }

  ghost predicate Origins(w: World) {
    (forall tid :: tid in w.tasks ==> OriginOk(w, tid)) && (forall id :: RejecterOk(w, id))
  }

  /** No task changes its id or kind or returns to before its completion, and row owners stay. */
  predicate Persists(w: World, w': World) {
    && (forall tid :: tid in w.tasks ==>
          && tid in w'.tasks
          && w'.tasks[tid].id == w.tasks[tid].id && w'.tasks[tid].kind == w.tasks[tid].kind
          && (PastCompletion(w.tasks[tid].pc) ==> PastCompletion(w'.tasks[tid].pc)))
    && (forall id :: id in w.owner ==> id in w'.owner && w'.owner[id] == w.owner[id])
  }

  /** No row became rejected. */
  predicate NoRejection(w: World, w': World) {
    && w'.rejecter == w.rejecter
    && (forall id :: id in w'.table && w'.table[id].state.Rejected? ==> id in w.table && w.table[id].state.Rejected?)
  }

  lemma RejectersStay(w: World, w': World, id: string)
    requires RejecterOk(w, id) && Persists(w, w') && NoRejection(w, w')
    ensures RejecterOk(w', id)
  {
  }

  /** A step that leaves tasks and counters alone, or adds tasks that have not done anything yet. */
  lemma QuietStepKeeps(w: World, w': World)
    requires Origins(w) && Quiet(w, w')
    ensures Origins(w')
  {
    forall tid | tid in w'.tasks ensures OriginOk(w', tid) {
      if tid in w.tasks { assert OriginOk(w, tid); }
    }
    forall id ensures RejecterOk(w', id) {
      assert RejecterOk(w, id);
      RejectersStay(w, w', id);
    }
  }

  // ---- Statements ----

  lemma StatementRejects(w: World, tid: nat, fault: Fault, now: int, id: string)
    requires tid in w.tasks && AwaitsDatabase(w.tasks[tid].pc)
    requires w.tasks[tid].pc.Inserting? ==> w.tasks[tid].pc.request.requestId == w.tasks[tid].id
    ensures var w' := ExecuteStatement(w, tid, fault, now);
            id in w'.table && w'.table[id].state.Rejected? ==>
              (id in w.table && w.table[id].state.Rejected?
               && (id in w.rejecter ==> id in w'.rejecter && w'.rejecter[id] == w.rejecter[id]))
              || (Rejects(w, tid) && id == w.tasks[tid].id && w'.rejecter == w.rejecter[id := tid])
  {
  }

  /** The tasks, owners and counters after a statement. */
  lemma StatementShape(w: World, tid: nat, fault: Fault, now: int)
    requires tid in w.tasks && AwaitsDatabase(w.tasks[tid].pc) && w.owner.Keys == w.table.Keys
    ensures var w' := ExecuteStatement(w, tid, fault, now);
            && Persists(w, w') && w'.sdkCalls == w.sdkCalls && w'.tasks.Keys == w.tasks.Keys
            && (forall i :: i in w.tasks && i != tid ==> w'.tasks[i] == w.tasks[i])
            && var pc := w'.tasks[tid].pc;
               !pc.AwaitingSdk? && !pc.AwaitingLookup? && !pc.Completing?
                 && (w.tasks[tid].pc.Completing? ==> PastCompletion(pc))
  {
    hide Rejects, Insert, MarkDispatched, Complete;
  }

  lemma StatementFacts(env: Env, w: World, tid: nat)
    requires Inv(env, w) && tid in w.tasks
    ensures w.owner.Keys == w.table.Keys
    ensures w.tasks[tid].pc.Inserting? ==> w.tasks[tid].pc.request.requestId == w.tasks[tid].id
  {
    hide TableOk, CountsOk, AnswerOk, CacheOk, FlightOk;
    assert TaskOk(env, w, tid);
  }

  lemma StatementKeepsOrigins(env: Env, w: World, tid: nat, fault: Fault, now: int)
    requires Inv(env, w) && Origins(w)
    ensures Origins(ExecuteStatement(w, tid, fault, now))
  {
    hide Inv, ExecuteStatement, Rejects, AwaitsDatabase, RejecterOk, OriginOk;
    IdleStatement(w, tid, fault, now);
    if tid in w.tasks && AwaitsDatabase(w.tasks[tid].pc) {
      var w' := ExecuteStatement(w, tid, fault, now);
      StatementFacts(env, w, tid);
      StatementShape(w, tid, fault, now);
      forall i | i in w'.tasks ensures OriginOk(w', i) {
        assert OriginOk(w, i);
        StatementKeepsOrigin(w, tid, fault, now, i);
      }
      forall id ensures RejecterOk(w', id) {
        assert RejecterOk(w, id) && OriginOk(w, tid);
        StatementKeepsRejecter(w, tid, fault, now, id);
      }
    }
  }

  lemma StatementKeepsOrigin(w: World, tid: nat, fault: Fault, now: int, i: nat)
    requires tid in w.tasks && AwaitsDatabase(w.tasks[tid].pc) && w.owner.Keys == w.table.Keys
    requires i in w.tasks && OriginOk(w, i)
    ensures var w' := ExecuteStatement(w, tid, fault, now); i in w'.tasks && OriginOk(w', i)
  {
    hide ExecuteStatement, AwaitsDatabase;
    StatementShape(w, tid, fault, now);
  }

  lemma StatementKeepsRejecter(w: World, tid: nat, fault: Fault, now: int, id: string)
    requires tid in w.tasks && AwaitsDatabase(w.tasks[tid].pc) && w.owner.Keys == w.table.Keys
    requires w.tasks[tid].pc.Inserting? ==> w.tasks[tid].pc.request.requestId == w.tasks[tid].id
    requires RejecterOk(w, id) && OriginOk(w, tid)
    ensures RejecterOk(ExecuteStatement(w, tid, fault, now), id)
  {
    hide ExecuteStatement, Rejects;
    StatementShape(w, tid, fault, now);
    RejectsMeans(w, tid);
    StatementRejects(w, tid, fault, now, id);
  }

  lemma IdleStatement(w: World, tid: nat, fault: Fault, now: int)
    ensures !(tid in w.tasks && AwaitsDatabase(w.tasks[tid].pc)) ==> ExecuteStatement(w, tid, fault, now) == w
  {
  }

  lemma RejectsMeans(w: World, tid: nat)
    requires tid in w.tasks && OriginOk(w, tid)
    ensures Rejects(w, tid) ==> MayReject(w, tid) && w.tasks[tid].pc.Completing?
  {
  }

  // ---- Continuations ----

  /** The two continuations that invoke the SDK: an open gate after a warm insert or after a claimed dispatch mark. */
  predicate PaysAt(pc: Pc, e: Event) {
    e == GateResult(GateOpen) && ((pc.Inserted? && pc.warm) || (pc.Marked? && pc.claimed))
  }

  /** Where a completion may come from. */
  predicate LeadsTo(pc: Pc, tr: Transition) {
    match pc
    case AwaitingSdk(_) => true
    case AwaitingLookup(_, allow) =>
      !tr.completion.state.NotStarted? && (tr.completion.state.Rejected? ==> allow)
    case _ => (pc.Inserted? || pc.Marked? || pc.AwaitingReady?) && tr.completion.state.NotStarted?
  }

  lemma ContinueFacts(env: Env, s: Service, id: string, pc: Pc, e: Event, now: int)
    requires Continue(env, s, id, pc, e, now).Some?
    ensures var c := Continue(env, s, id, pc, e, now).value;
            && (c.call.PoolAndSdkCall? <==> PaysAt(pc, e))
            && (c.pc.AwaitingSdk? <==> PaysAt(pc, e))
            && !c.pc.AwaitingLookup?
            && (c.pc.Completing? ==> LeadsTo(pc, c.pc.transition))
            && (PastCompletion(pc) ==> PastCompletion(c.pc) && c.call.NoCall?)
  {
    hide ResponseFromStored;
  }

  predicate Continues(w: World, tid: nat, lookupTid: nat) {
    tid in w.tasks && Runs(w, w.tasks[tid].process) && lookupTid !in w.tasks
  }

  /** The tasks and counters after a continuation, task by task. */
  lemma ContinuationShape(env: Env, w: World, tid: nat, e: Event, now: int, lookupTid: nat)
    ensures var w' := ContinueTask(env, w, tid, e, now, lookupTid);
            && w'.owner == w.owner && w'.rejecter == w.rejecter && w'.table == w.table
            && (!Continues(w, tid, lookupTid) ==> w' == w)
            && (forall i :: i in w.tasks && i != tid ==> i in w'.tasks && w'.tasks[i] == w.tasks[i])
            && (forall i :: i in w'.tasks && i !in w.tasks ==> OriginOk(w', i))
            && (forall id :: w'.sdkCalls[id]
                  == w.sdkCalls[id]
                     + if Continues(w, tid, lookupTid) && PaysAt(w.tasks[tid].pc, e) && w.tasks[tid].id == id
                       then 1 else 0)
            && (tid in w.tasks ==>
                  && tid in w'.tasks && w'.tasks[tid] == w.tasks[tid].(pc := w'.tasks[tid].pc)
                  && (Continues(w, tid, lookupTid) && PaysAt(w.tasks[tid].pc, e) ==> w'.tasks[tid].pc.AwaitingSdk?)
                  && (w'.tasks[tid] == w.tasks[tid]
                      || (&& (w'.tasks[tid].pc.AwaitingSdk? ==> PaysAt(w.tasks[tid].pc, e))
                          && !w'.tasks[tid].pc.AwaitingLookup?
                          && (w'.tasks[tid].pc.Completing? ==> LeadsTo(w.tasks[tid].pc, w'.tasks[tid].pc.transition))
                          && (PastCompletion(w.tasks[tid].pc) ==> PastCompletion(w'.tasks[tid].pc)))))
  {
    hide Continue, PaysAt, LeadsTo;
    if Continues(w, tid, lookupTid) {
      var s := w.processes[w.tasks[tid].process].service;
      var c := Continue(env, s, w.tasks[tid].id, w.tasks[tid].pc, e, now);
      if c.Some? {
        ContinueFacts(env, s, w.tasks[tid].id, w.tasks[tid].pc, e, now);
      } else if PaysAt(w.tasks[tid].pc, e) {
        OpenGateContinues(env, s, w.tasks[tid].id, w.tasks[tid].pc, e, now);
      }
    }
  }

  lemma OpenGateContinues(env: Env, s: Service, id: string, pc: Pc, e: Event, now: int)
    requires PaysAt(pc, e)
    ensures Continue(env, s, id, pc, e, now).Some?
  {
  }

  lemma ContinuedOrigin(env: Env, w: World, tid: nat, e: Event, now: int, lookupTid: nat)
    requires Inv(env, w) && Origins(w) && tid in w.tasks
    ensures OriginOk(ContinueTask(env, w, tid, e, now, lookupTid), tid)
  {
    hide ContinueTask, TableOk, AnswerOk, CacheOk, FlightOk, SnapshotOk, TransitionOk;
    assert TaskOk(env, w, tid) && OriginOk(w, tid);
    ContinuationShape(env, w, tid, e, now, lookupTid);
  }

  lemma ContinueKeepsOrigins(env: Env, w: World, tid: nat, e: Event, now: int, lookupTid: nat)
    requires Inv(env, w) && Origins(w)
    ensures Origins(ContinueTask(env, w, tid, e, now, lookupTid))
  {
    hide ContinueTask, TableOk, AnswerOk, CacheOk, FlightOk, SnapshotOk, TransitionOk;
    var w' := ContinueTask(env, w, tid, e, now, lookupTid);
    ContinuationShape(env, w, tid, e, now, lookupTid);
    if tid in w.tasks {
      assert TaskOk(env, w, tid);
      ContinuedOrigin(env, w, tid, e, now, lookupTid);
    }
    forall i | i in w'.tasks ensures OriginOk(w', i) {
      if i in w.tasks && i != tid {
        assert OriginOk(w, i);
      }
    }
    forall id ensures RejecterOk(w', id) {
      assert RejecterOk(w, id);
      RejectersStay(w, w', id);
    }
  }

  // ---- The other steps ----

  /** Nothing that origins depend on changes, except for new tasks that have not done anything yet. */
  predicate Quiet(w: World, w': World) {
    && NoRejection(w, w') && w'.sdkCalls == w.sdkCalls && w'.owner == w.owner
    && (forall tid :: tid in w.tasks ==> tid in w'.tasks && w'.tasks[tid] == w.tasks[tid])
    && (forall tid :: tid in w'.tasks && tid !in w.tasks ==>
        w'.tasks[tid].pc.Inserting? || w'.tasks[tid].pc.ReadingStatus?)
  }

  lemma NotifyIsQuiet(env: Env, w: World, walletId: string, paymentHash: string, preimage: string, fees: Json, now: int)
    ensures Quiet(w, Notify(env, w, walletId, paymentHash, preimage, fees, now))
  {
    hide VerifyPreimage;
  }

  lemma StartIsQuiet(w: World, pid: nat, now: int)
    ensures Quiet(w, StartProcess(w, pid, now))
  {
  }

  /** A step over one more task at most, the table and its logs untouched. */
  lemma SameTableIsQuiet(w: World, w': World, tid: nat)
    requires w'.table == w.table && w'.rejecter == w.rejecter && w'.sdkCalls == w.sdkCalls && w'.owner == w.owner
    requires w'.tasks == w.tasks
             || (tid !in w.tasks && tid in w'.tasks && w'.tasks == w.tasks[tid := w'.tasks[tid]]
                 && (w'.tasks[tid].pc.Inserting? || w'.tasks[tid].pc.ReadingStatus?))
    ensures Quiet(w, w')
  {
  }

  lemma ProcessStepsAreQuiet(w: World, pid: nat, id: string, now: int)
    ensures Quiet(w, CrashProcess(w, pid)) && Quiet(w, SweepProcess(w, pid, now)) && Quiet(w, PayDirectly(w, id))
  {
    hide Quiet, MayPayDirectly, SweepExpired;
    SameTableIsQuiet(w, CrashProcess(w, pid), 0);
    SameTableIsQuiet(w, SweepProcess(w, pid, now), 0);
    SameTableIsQuiet(w, PayDirectly(w, id), 0);
  }

  lemma CleanUpIsQuiet(w: World, tid: nat)
    ensures Quiet(w, CleanUp(w, tid))
  {
    hide Quiet, FinishRun, FinishLookup;
    SameTableIsQuiet(w, CleanUp(w, tid), 0);
  }

  lemma SubmitCallIsQuiet(env: Env, w: World, pid: nat, tid: nat, input: SubmitInput, warm: bool, now: int)
    ensures Quiet(w, CallSubmit(env, w, pid, tid, input, warm, now))
  {
    hide Quiet, Submit, Normalized, LiveEntry, Refusal;
    if Runs(w, pid) && tid !in w.tasks {
      match Submit(env, w.processes[pid].service, input, now, tid).1
      case Launch(request) =>
        SameTableIsQuiet(w, CallSubmit(env, w, pid, tid, input, warm, now), tid);
      case _ => SameTableIsQuiet(w, CallSubmit(env, w, pid, tid, input, warm, now), tid);
    } else {
      SameTableIsQuiet(w, w, tid);
    }
  }

  lemma StatusCallIsQuiet(w: World, pid: nat, tid: nat, id: string, now: int)
    ensures Quiet(w, CallStatus(w, pid, tid, id, now))
  {
    hide Quiet, BeginStatus;
    SameTableIsQuiet(w, CallStatus(w, pid, tid, id, now), tid);
  }

  lemma StepKeepsOrigins(env: Env, w: World, a: Action)
    requires Inv(env, w) && Origins(w)
    ensures Origins(Step(env, w, a))
  {
    hide Inv, Origins, ExecuteStatement, ContinueTask, StartProcess, CrashProcess, SweepProcess, CleanUp, PayDirectly,
         CallSubmit, CallStatus, Notify, Quiet;
    match a
    case DoStatement(tid, fault, now) => StatementKeepsOrigins(env, w, tid, fault, now);
    case DoContinue(tid, event, now, lookupTid) => ContinueKeepsOrigins(env, w, tid, event, now, lookupTid);
    case _ =>
      OtherStepIsQuiet(env, w, a);
      QuietStepKeeps(w, Step(env, w, a));
  }

  lemma OtherStepIsQuiet(env: Env, w: World, a: Action)
    requires !a.DoStatement? && !a.DoContinue?
    ensures Quiet(w, Step(env, w, a))
  {
    hide ExecuteStatement, ContinueTask, StartProcess, CrashProcess, SweepProcess, CleanUp, PayDirectly,
         CallSubmit, CallStatus, Notify, Quiet;
    match a
    case DoStart(pid, now) => StartIsQuiet(w, pid, now);
    case DoCrash(pid) => ProcessStepsAreQuiet(w, pid, "", 0);
    case DoSweep(pid, now) => ProcessStepsAreQuiet(w, pid, "", now);
    case DoCleanUp(tid) => CleanUpIsQuiet(w, tid);
    case DoDirectPay(id) => ProcessStepsAreQuiet(w, 0, id, 0);
    case DoSubmit(pid, tid, input, warm, now) => SubmitCallIsQuiet(env, w, pid, tid, input, warm, now);
    case DoStatus(pid, tid, id, now) => StatusCallIsQuiet(w, pid, tid, id, now);
    case DoNotify(walletId, hash, preimage, fees, now) => NotifyIsQuiet(env, w, walletId, hash, preimage, fees, now);
  }

  lemma {:induction false} RunKeepsOrigins(env: Env, w: World, trace: seq<Action>)
    requires Inv(env, w) && Origins(w)
    ensures Origins(Run(env, w, trace))
    decreases |trace|
  {
    hide Inv, Origins, Step;
    if trace != [] {
      StepKeeps(env, w, trace[0]);
      StepKeepsOrigins(env, w, trace[0]);
      RunKeepsOrigins(env, Step(env, w, trace[0]), trace[1..]);
    }
  }

  lemma InitialOrigins()
    ensures Origins(INITIAL)
  {
  }
}
