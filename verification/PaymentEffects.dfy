/** What a whole payment, lookup, status request or restart does to the journal and tells its caller. */
module PaymentEffects {
  import opened Common
  import opened Hex
  import opened Journal
  import opened Payments
  import opened PaymentService
  import opened PaymentProtocol
  import opened PaymentSafety
  import opened PaymentTheorems
  import opened PaymentRaces

  lemma RunOfOne(env: Env, w: World, a: Action)
    ensures Run(env, w, [a]) == Step(env, w, a)
  {
    hide Step;
    RunOfNothing(env, Step(env, w, a));
  }

  lemma RunOfTwo(env: Env, w: World, a: Action, b: Action)
    ensures Run(env, w, [a, b]) == Step(env, Step(env, w, a), b)
  {
    hide Step;
    RunOfOne(env, Step(env, w, a), b);
    assert [a, b][1..] == [b];
  }

  lemma RunOfThree(env: Env, w: World, a: Action, b: Action, c: Action)
    ensures Run(env, w, [a, b, c]) == Step(env, Step(env, Step(env, w, a), b), c)
  {
    hide Step;
    RunOfTwo(env, Step(env, w, a), b, c);
    assert [a, b, c][1..] == [b, c];
  }

  // ---- Single stretches and statements ----

  /** Task `tid` is at `pc` in a living process, and `spare` names no task. */
  predicate At(w: World, tid: nat, spare: nat) {
    tid in w.tasks && Runs(w, w.tasks[tid].process) && spare !in w.tasks
  }

  function ServiceOf(w: World, tid: nat): Service
    requires tid in w.tasks && Runs(w, w.tasks[tid].process)
  {
    w.processes[w.tasks[tid].process].service
  }

  function Moved(w: World, tid: nat, pc: Pc): World
    requires tid in w.tasks
  {
    w.(tasks := w.tasks[tid := w.tasks[tid].(pc := pc)])
  }

  /** A stretch that neither calls the wallet nor touches the service. */
  lemma QuietStep(env: Env, w: World, tid: nat, e: Event, now: int, spare: nat, pc: Pc)
    requires At(w, tid, spare) && !(pc.Settled? && pc.result.Some?)
    requires Continue(env, ServiceOf(w, tid), w.tasks[tid].id, w.tasks[tid].pc, e, now)
             == Some(Quietly(pc, ServiceOf(w, tid)))
    ensures Step(env, w, DoContinue(tid, e, now, spare)) == Moved(w, tid, pc)
  {
    hide Continue;
    var task := w.tasks[tid];
    assert w.processes[task.process := w.processes[task.process]] == w.processes;
    assert w.poolCalls[task.id := w.poolCalls[task.id]] == w.poolCalls;
    assert w.sdkCalls[task.id := w.sdkCalls[task.id]] == w.sdkCalls;
  }

  lemma CompletingStep(env: Env, w: World, tid: nat, now: int)
    requires tid in w.tasks && w.tasks[tid].pc.Completing?
    ensures var q, tr := Step(env, w, DoStatement(tid, NoFault, now)), w.tasks[tid].pc.transition;
            var (updated, t) := Complete(w.table, w.tasks[tid].id, tr.completion, now);
            && q.table == t && q.tasks == w.tasks[tid := w.tasks[tid].(pc := Completed(tr, updated))]
            && q.processes == w.processes && q.answers == w.answers && q.sdkCalls == w.sdkCalls
  {
    hide Complete, Rejects;
  }

  lemma SettledStatement(env: Env, w: World, tid: nat, now: int)
    requires tid in w.tasks && w.tasks[tid].pc.Settled?
    ensures Step(env, w, DoStatement(tid, NoFault, now)) == w
  {
  }

  // ---- What an answer of the wallet shows ----

  /** The answer holds this preimage of the payment hash. */
  predicate Shows(env: Env, raw: RawResult, paymentHash: string, preimage: string) {
    raw.Object? && raw.preimage == JText(preimage) && VerifyPreimage(env, preimage, paymentHash)
  }

  predicate SaysFailed(raw: RawResult) {
    raw.Object? && raw.state == JText("failed")
  }

  /** The fees it tells, if they are a safe amount. */
  function ToldFees(raw: RawResult): int {
    if raw.Object? && raw.feesPaid.JInteger? && 0 <= raw.feesPaid.value <= 0x1F_FFFF_FFFF_FFFF
    then raw.feesPaid.value else 0
  }

  /** The row of `id` has become a success with this preimage and fees; no other row has changed. */
  predicate BecameSuccess(t: Table, t': Table, id: string, preimage: string, fees: int, now: int) {
    && id in t && id in t' && t' == t[id := t'[id]]
    && t'[id].request == t[id].request && t'[id].dispatchedAt == t[id].dispatchedAt
    && t'[id].state == Succeeded && t'[id].preimage == Some(ToLower(preimage)) && t'[id].feesPaidMsats == Some(fees)
    && t'[id].errorCode.None? && t'[id].errorMessage.None? && t'[id].completedAt == Some(now)
  }

  /** It has become a rejection with this error; no other row has changed. */
  predicate BecameRejected(t: Table, t': Table, id: string, message: string, code: Option<string>, now: int) {
    && id in t && id in t' && t' == t[id := t'[id]]
    && t'[id].request == t[id].request && t'[id].dispatchedAt == t[id].dispatchedAt
    && t'[id].state == Rejected && t'[id].preimage.None? && t'[id].errorCode == Some(WalletError)
    && t'[id].errorMessage == Some(message) && t'[id].walletErrorCode == code && t'[id].completedAt == Some(now)
  }

  lemma ShowsOne(env: Env, raw: RawResult, hash: string, p: string)
    requires Shows(env, raw, hash, p)
    ensures ParsePaymentResult(raw).preimage == Some(p) && p != ""
    ensures ParsePaymentResult(raw).feesPaidMsats == ToldFees(raw)
  {
    PreimageNotBlank(env, p, hash);
  }

  // ---- Lookup recovery ----

  /**
   The answer of a lookup is of no use: none, a failure that may not be believed, or nothing that
   proves a payment.
   */
  ghost predicate Inconclusive(env: Env, reply: Option<RawResult>, paymentHash: string, allow: bool) {
    || reply.None?
    || (SaysFailed(reply.value) && !allow)
    || (!SaysFailed(reply.value) && forall p :: !Shows(env, reply.value, paymentHash, p))
  }

  lemma LookupTaskFacts(env: Env, w: World, tid: nat)
    requires Reachable(env, w) && tid in w.tasks && w.tasks[tid].pc.AwaitingLookup?
    ensures var id := w.tasks[tid].id; id in w.table && w.tasks[tid].pc.stored.request == w.table[id].request
    ensures w.tasks[tid].kind.LookupTask? && w.tasks[tid].pc.stored.request.requestId == w.tasks[tid].id
  {
    hide TableOk, CountsOk, AnswerOk, CacheOk, FlightOk;
    ReachableInv(env, w);
    assert TaskOk(env, w, tid);
  }

  lemma LookupAnswerBecomes(env: Env, stored: Row, allow: bool, reply: Option<RawResult>)
    ensures Inconclusive(env, reply, stored.request.paymentHash, allow) ==>
              AfterLookup(env, stored, allow, reply) == Settled(None)
    ensures reply.Some? && SaysFailed(reply.value) && allow ==>
              AfterLookup(env, stored, allow, reply)
              == Completing(RejectedOutcome(stored.request, "Wallet lookup reports payment failed", None))
    ensures reply.Some? && !SaysFailed(reply.value) ==>
              forall p :: Shows(env, reply.value, stored.request.paymentHash, p) ==>
                AfterLookup(env, stored, allow, reply)
                == Completing(SucceededOutcome(stored.request, p, ToldFees(reply.value)))
  {
    if reply.Some? && !SaysFailed(reply.value) {
      forall p | Shows(env, reply.value, stored.request.paymentHash, p)
        ensures AfterLookup(env, stored, allow, reply)
                == Completing(SucceededOutcome(stored.request, p, ToldFees(reply.value)))
      {
        ShowsOne(env, reply.value, stored.request.paymentHash, p);
      }
      var parsed := ParsePaymentResult(reply.value);
      if parsed.preimage.Some? && VerifyPreimage(env, parsed.preimage.value, stored.request.paymentHash) {
        assert Shows(env, reply.value, stored.request.paymentHash, parsed.preimage.value);
      }
    }
  }

  function Looked(env: Env, w: World, tid: nat, reply: Option<RawResult>, at: int, now: int, spare: nat): World {
    Run(env, w, [DoContinue(tid, LookupReply(reply), at, spare), DoStatement(tid, NoFault, now)])
  }

  /** The journal after a lookup's answer has been taken to it. */
  lemma LookupStatement(env: Env, w: World, tid: nat, reply: Option<RawResult>, at: int, now: int, spare: nat)
    requires Reachable(env, w) && At(w, tid, spare) && w.tasks[tid].pc.AwaitingLookup?
    ensures var pc := AfterLookup(env, w.tasks[tid].pc.stored, w.tasks[tid].pc.allowTerminalFailure, reply);
            && (pc.Completing? ==> Looked(env, w, tid, reply, at, now, spare).table
                                   == Complete(w.table, w.tasks[tid].id, pc.transition.completion, now).1)
            && (!pc.Completing? ==> Looked(env, w, tid, reply, at, now, spare).table == w.table)
  {
    hide Reachable, Run, Step, AfterLookup, Complete;
    var pc := AfterLookup(env, w.tasks[tid].pc.stored, w.tasks[tid].pc.allowTerminalFailure, reply);
    LookupEndsQuietly(env, w.tasks[tid].pc.stored, w.tasks[tid].pc.allowTerminalFailure, reply);
    RunOfTwo(env, w, DoContinue(tid, LookupReply(reply), at, spare), DoStatement(tid, NoFault, now));
    QuietStep(env, w, tid, LookupReply(reply), at, spare, pc);
    if pc.Completing? {
      CompletingStep(env, Moved(w, tid, pc), tid, now);
    } else {
      SettledStatement(env, Moved(w, tid, pc), tid, now);
    }
  }

  lemma LookupEndsQuietly(env: Env, stored: Row, allow: bool, reply: Option<RawResult>)
    ensures var pc := AfterLookup(env, stored, allow, reply); pc.Completing? || pc == Settled(None)
  {
  }

  /**
   A lookup settles what it can prove: the answer is not "failed" and holds a
   preimage of the payment hash, and a row that is still open becomes a success
   with that preimage and the fees told.
   */
  lemma LookupProvesSuccess(env: Env, w: World, tid: nat, raw: RawResult, p: string, at: int, now: int, spare: nat)
    requires Reachable(env, w) && At(w, tid, spare) && w.tasks[tid].pc.AwaitingLookup?
    requires w.tasks[tid].id in w.table && Unresolved(w.table[w.tasks[tid].id].state)
    requires !SaysFailed(raw) && Shows(env, raw, w.table[w.tasks[tid].id].request.paymentHash, p)
    ensures BecameSuccess(w.table, Looked(env, w, tid, Some(raw), at, now, spare).table, w.tasks[tid].id, p,
                          ToldFees(raw), now)
  {
    hide Reachable, Looked, AfterLookup, Shows, SaysFailed, Inconclusive;
    LookupTaskFacts(env, w, tid);
    LookupAnswerBecomes(env, w.tasks[tid].pc.stored, w.tasks[tid].pc.allowTerminalFailure, Some(raw));
    LookupStatement(env, w, tid, Some(raw), at, now, spare);
  }

  /** A reported failure rejects an open row, where the lookup may believe it. */
  lemma LookupRejectsFailure(env: Env, w: World, tid: nat, raw: RawResult, at: int, now: int, spare: nat)
    requires Reachable(env, w) && At(w, tid, spare) && w.tasks[tid].pc.AwaitingLookup?
    requires w.tasks[tid].id in w.table && Unresolved(w.table[w.tasks[tid].id].state)
    requires SaysFailed(raw) && w.tasks[tid].pc.allowTerminalFailure
    ensures BecameRejected(w.table, Looked(env, w, tid, Some(raw), at, now, spare).table, w.tasks[tid].id,
                           "Wallet lookup reports payment failed", None, now)
  {
    hide Reachable, Looked, AfterLookup, Shows, SaysFailed, Inconclusive;
    LookupTaskFacts(env, w, tid);
    LookupAnswerBecomes(env, w.tasks[tid].pc.stored, true, Some(raw));
    LookupStatement(env, w, tid, Some(raw), at, now, spare);
  }

  /** A lookup leaves the journal as it is exactly when its answer is inconclusive or the row is final already. */
  lemma LookupLeavesAloneExactly(env: Env, w: World, tid: nat, reply: Option<RawResult>, at: int, now: int, spare: nat)
    requires Reachable(env, w) && At(w, tid, spare) && w.tasks[tid].pc.AwaitingLookup?
    ensures var id := w.tasks[tid].id;
            && id in w.table
            && (Looked(env, w, tid, reply, at, now, spare).table == w.table
                <==> Terminal(w.table[id].state)
                     || Inconclusive(env, reply, w.table[id].request.paymentHash, w.tasks[tid].pc.allowTerminalFailure))
  {
    hide Reachable, Looked, AfterLookup, Shows, SaysFailed;
    LookupTaskFacts(env, w, tid);
    var stored, allow := w.tasks[tid].pc.stored, w.tasks[tid].pc.allowTerminalFailure;
    LookupAnswerBecomes(env, stored, allow, reply);
    LookupStatement(env, w, tid, reply, at, now, spare);
    if !Inconclusive(env, reply, stored.request.paymentHash, allow) && !SaysFailed(reply.value) {
      var p :| Shows(env, reply.value, stored.request.paymentHash, p);
    }
  }

  // ---- The wallet's answer to a payment ----

  predicate BecameUnknown(t: Table, t': Table, id: string, message: string) {
    && id in t && id in t' && t' == t[id := t'[id]]
    && t'[id].request == t[id].request && t'[id].dispatchedAt == t[id].dispatchedAt
    && t'[id].state == Unknown && t'[id].preimage.None? && t'[id].errorCode == Some(RelayError)
    && t'[id].errorMessage == Some(message) && t'[id].completedAt == t[id].completedAt
  }

  /** What an answer that settles nothing is put down to; None for a rejection or a proof of payment. */
  ghost function Complaint(env: Env, reply: SdkReply, paymentHash: string): Option<string> {
    match reply
    case SdkTimeout(message) => Some(message)
    case SdkFailure(message) => Some(message)
    case SdkWalletRejection(_, _) => None
    case SdkResult(raw) =>
      if exists p :: Shows(env, raw, paymentHash, p) then None
      else if raw.Object? && raw.preimage.JText? && raw.preimage != JText("")
      then Some("Wallet returned a preimage that does not match the payment hash")
      else Some("Wallet returned no payment preimage")
  }

  lemma PaymentTaskFacts(env: Env, w: World, tid: nat)
    requires Reachable(env, w) && tid in w.tasks && w.tasks[tid].pc.AwaitingSdk?
    ensures var id, r := w.tasks[tid].id, w.tasks[tid].pc.request;
            && id in w.table && w.table[id].request == r && r.requestId == id && w.tasks[tid].kind.RunTask?
  {
    hide TableOk, CountsOk, AnswerOk, CacheOk, FlightOk;
    ReachableInv(env, w);
    assert TaskOk(env, w, tid);
  }

  lemma PaymentAnswerBecomes(env: Env, r: NewRequest, reply: SdkReply)
    ensures reply.SdkResult? ==> forall p :: Shows(env, reply.raw, r.paymentHash, p) ==>
              SdkOutcome(env, r, reply) == SucceededOutcome(r, p, ToldFees(reply.raw))
    ensures reply.SdkWalletRejection? ==>
              SdkOutcome(env, r, reply) == RejectedOutcome(r, reply.message, Some(reply.code))
    ensures var c := Complaint(env, reply, r.paymentHash); c.Some? ==>
            SdkOutcome(env, r, reply) == UnknownOutcome(r, c.value)
  {
    if reply.SdkResult? {
      forall p | Shows(env, reply.raw, r.paymentHash, p)
        ensures SdkOutcome(env, r, reply) == SucceededOutcome(r, p, ToldFees(reply.raw))
      {
        ShowsOne(env, reply.raw, r.paymentHash, p);
      }
      var parsed := ParsePaymentResult(reply.raw);
      if parsed.preimage.Some? && VerifyPreimage(env, parsed.preimage.value, r.paymentHash) {
        assert Shows(env, reply.raw, r.paymentHash, parsed.preimage.value);
      }
    }
  }

  function Replied(env: Env, w: World, tid: nat, reply: SdkReply, at: int, now: int, spare: nat): World {
    Run(env, w, [DoContinue(tid, WalletReply(reply), at, spare), DoStatement(tid, NoFault, now)])
  }

  /** The journal and the operation after the wallet's answer has been taken to it. */
  lemma PaymentStatement(env: Env, w: World, tid: nat, reply: SdkReply, at: int, now: int, spare: nat)
    requires At(w, tid, spare) && w.tasks[tid].pc.AwaitingSdk?
    ensures var tr := SdkOutcome(env, w.tasks[tid].pc.request, reply);
            var q := Replied(env, w, tid, reply, at, now, spare);
            var (updated, t) := Complete(w.table, w.tasks[tid].id, tr.completion, now);
            && q.table == t && q.tasks == w.tasks[tid := w.tasks[tid].(pc := Completed(tr, updated))]
            && q.processes == w.processes && q.answers == w.answers && q.sdkCalls == w.sdkCalls
  {
    hide Run, Step, SdkOutcome, Complete;
    var pc := Completing(SdkOutcome(env, w.tasks[tid].pc.request, reply));
    RunOfTwo(env, w, DoContinue(tid, WalletReply(reply), at, spare), DoStatement(tid, NoFault, now));
    QuietStep(env, w, tid, WalletReply(reply), at, spare, pc);
    CompletingStep(env, Moved(w, tid, pc), tid, now);
    assert w.tasks[tid := w.tasks[tid].(pc := pc)][tid := w.tasks[tid].(pc := Completed(pc.transition,
             Complete(w.table, w.tasks[tid].id, pc.transition.completion, now).0))]
           == w.tasks[tid := w.tasks[tid].(pc := Completed(pc.transition,
                Complete(w.table, w.tasks[tid].id, pc.transition.completion, now).0))];
  }

  /** A preimage of the payment hash makes an open row a success with that preimage and the fees told. */
  lemma ProofIsJournaled(env: Env, w: World, tid: nat, raw: RawResult, p: string, at: int, now: int, spare: nat)
    requires Reachable(env, w) && At(w, tid, spare) && w.tasks[tid].pc.AwaitingSdk?
    requires w.tasks[tid].id in w.table && Unresolved(w.table[w.tasks[tid].id].state)
    requires Shows(env, raw, w.table[w.tasks[tid].id].request.paymentHash, p)
    ensures var q, id := Replied(env, w, tid, SdkResult(raw), at, now, spare), w.tasks[tid].id;
            && BecameSuccess(w.table, q.table, id, p, ToldFees(raw), now)
            && tid in q.tasks
            && q.tasks[tid].pc == Completed(SucceededOutcome(w.table[id].request, p, ToldFees(raw)), true)
  {
    hide Reachable, Replied, SdkOutcome, Shows;
    PaymentTaskFacts(env, w, tid);
    PaymentAnswerBecomes(env, w.tasks[tid].pc.request, SdkResult(raw));
    PaymentStatement(env, w, tid, SdkResult(raw), at, now, spare);
  }

  /** A rejection by the wallet makes an open row a rejection with the wallet's message and code. */
  lemma RejectionIsJournaled(env: Env, w: World, tid: nat, message: string, code: string, at: int, now: int, spare: nat)
    requires Reachable(env, w) && At(w, tid, spare) && w.tasks[tid].pc.AwaitingSdk?
    requires w.tasks[tid].id in w.table && Unresolved(w.table[w.tasks[tid].id].state)
    ensures var q, id := Replied(env, w, tid, SdkWalletRejection(message, code), at, now, spare), w.tasks[tid].id;
            && BecameRejected(w.table, q.table, id, message, Some(code), now)
            && tid in q.tasks && q.tasks[tid].pc.Completed? && q.tasks[tid].pc.updated
            && q.tasks[tid].pc.transition.intended
               == NotPaid(id, StatusRejected,
                          Some(PayError(WalletError, message, if code == "" then None else Some(code))))
  {
    hide Reachable, Replied, SdkOutcome;
    PaymentTaskFacts(env, w, tid);
    PaymentAnswerBecomes(env, w.tasks[tid].pc.request, SdkWalletRejection(message, code));
    PaymentStatement(env, w, tid, SdkWalletRejection(message, code), at, now, spare);
  }

  /** Anything else leaves the outcome open: a pending row becomes unknown, and no other row changes at all. */
  lemma UnclearIsJournaled(env: Env, w: World, tid: nat, reply: SdkReply, at: int, now: int, spare: nat)
    requires Reachable(env, w) && At(w, tid, spare) && w.tasks[tid].pc.AwaitingSdk?
    requires w.tasks[tid].id in w.table
    requires Complaint(env, reply, w.table[w.tasks[tid].id].request.paymentHash).Some?
    ensures var q, id := Replied(env, w, tid, reply, at, now, spare), w.tasks[tid].id;
            var complaint := Complaint(env, reply, w.table[id].request.paymentHash).value;
            && tid in q.tasks && q.tasks[tid].pc.Completed?
            && q.tasks[tid].pc.transition.intended
               == NotPaid(id, StatusUnknown, Some(PayError(RelayError, complaint, None)))
            && (q.tasks[tid].pc.updated <==> w.table[id].state == Pending)
            && (if w.table[id].state == Pending then BecameUnknown(w.table, q.table, id, complaint)
                else q.table == w.table)
  {
    hide Reachable, Replied, SdkOutcome, Complaint;
    PaymentTaskFacts(env, w, tid);
    PaymentAnswerBecomes(env, w.tasks[tid].pc.request, reply);
    PaymentStatement(env, w, tid, reply, at, now, spare);
  }

  // ---- What the caller is told ----

  /** The answer is cached for its time, unless it leaves the outcome open; then the cache is as before. */
  predicate Remembers(env: Env, w: World, q: World, pid: nat, answer: Response, payloadHash: string, now: int)
    requires Runs(w, pid)
  {
    && Runs(q, pid)
    && (answer.Paid? || answer.status.StatusRejected? || answer.status.StatusNotStarted? ==>
          && answer.requestId in q.processes[pid].service.terminalCache
          && q.processes[pid].service.terminalCache[answer.requestId]
             == Cached(payloadHash, answer, now + env.terminalCacheMs))
    && (answer.NotPaid? && (answer.status.StatusPending? || answer.status.StatusUnknown?) ==>
          q.processes[pid].service.terminalCache == w.processes[pid].service.terminalCache)
  }

  /** The answer has been given, its task has settled with it, and it is cached unless it leaves the outcome open. */
  predicate TellsCaller(env: Env, w: World, q: World, tid: nat, answer: Response, payloadHash: string, now: int)
    requires tid in w.tasks && Runs(w, w.tasks[tid].process)
  {
    var pid := w.tasks[tid].process;
    && answer in q.answers && q.table == w.table
    && tid in q.tasks && q.tasks[tid].pc == Settled(Some(answer))
    && Remembers(env, w, q, pid, answer, payloadHash, now)
  }

  /** Once its update went through, an operation tells its caller the outcome it intended. */
  lemma IntendedIsTold(env: Env, w: World, tid: nat, now: int, ready: bool, spare: nat)
    requires At(w, tid, spare) && w.tasks[tid].kind.RunTask? && w.tasks[tid].pc.Completed? && w.tasks[tid].pc.updated
    ensures var tr := w.tasks[tid].pc.transition;
            TellsCaller(env, w, Step(env, w, DoContinue(tid, Resume(ready), now, spare)), tid, tr.intended,
                        tr.payloadHash, now)
  {
  }

  /** When somebody else had finished the row first, it reads the row and tells that outcome instead. */
  lemma FirstOutcomeIsTold(env: Env, w: World, tid: nat, n1: int, n2: int, n3: int, ready: bool, spare: nat)
    requires Reachable(env, w) && At(w, tid, spare) && w.tasks[tid].kind.RunTask?
    requires w.tasks[tid].pc.Completed? && !w.tasks[tid].pc.updated
    ensures var tr, id := w.tasks[tid].pc.transition, w.tasks[tid].id;
            && id in w.table
            && TellsCaller(env, w, Run(env, w,
                                       [DoContinue(tid, Resume(ready), n1, spare), DoStatement(tid, NoFault, n2),
                                                DoContinue(tid, Resume(ready), n3, spare)]),
                           tid, ResponseFromStored(env, w.table[id]), tr.payloadHash, n3)
  {
    hide Run, Step, Continue, ResponseFromStored, Reachable;
    CompletedHasRow(env, w, tid);
    var tr, id := w.tasks[tid].pc.transition, w.tasks[tid].id;
    RunOfThree(env, w, DoContinue(tid, Resume(ready), n1, spare), DoStatement(tid, NoFault, n2),
               DoContinue(tid, Resume(ready), n3, spare));
    LostUpdateReads(env, w, tid, n1, ready, spare);
    var w1 := Moved(w, tid, ReadingCurrent(tr));
    ReadStep(env, w1, tid, n2);
    RowIsTold(env, Moved(w1, tid, GotCurrent(tr, Some(w.table[id]))), tid, n3, ready, spare);
  }

  lemma LostUpdateReads(env: Env, w: World, tid: nat, now: int, ready: bool, spare: nat)
    requires At(w, tid, spare) && w.tasks[tid].pc.Completed? && !w.tasks[tid].pc.updated
    ensures Step(env, w, DoContinue(tid, Resume(ready), now, spare))
            == Moved(w, tid, ReadingCurrent(w.tasks[tid].pc.transition))
  {
    QuietStep(env, w, tid, Resume(ready), now, spare, ReadingCurrent(w.tasks[tid].pc.transition));
  }

  lemma CompletedHasRow(env: Env, w: World, tid: nat)
    requires Reachable(env, w) && tid in w.tasks && w.tasks[tid].pc.Completed?
    ensures w.tasks[tid].id in w.table
  {
    hide TableOk, CountsOk, AnswerOk, CacheOk, FlightOk;
    ReachableInv(env, w);
    assert TaskOk(env, w, tid);
  }

  lemma RowIsTold(env: Env, w: World, tid: nat, now: int, ready: bool, spare: nat)
    requires At(w, tid, spare) && w.tasks[tid].kind.RunTask?
    requires w.tasks[tid].pc.GotCurrent? && w.tasks[tid].pc.found.Some?
    ensures TellsCaller(env, w, Step(env, w, DoContinue(tid, Resume(ready), now, spare)), tid,
                        ResponseFromStored(env, w.tasks[tid].pc.found.value), w.tasks[tid].pc.transition.payloadHash,
                        now)
  {
    hide ResponseFromStored;
  }

  /** What a sound row says: its proof, its rejection, that nothing was sent, or that the outcome is open. */
  lemma RowSays(env: Env, row: Row)
    requires RowOk(env, row)
    ensures var answer := ResponseFromStored(env, row);
            && answer.requestId == row.request.requestId
            && (row.state == Succeeded ==> row.preimage.Some? && row.feesPaidMsats.Some?
                                           && answer == Paid(row.request.requestId, row.preimage.value,
                                                             row.feesPaidMsats.value))
            && (row.state != Succeeded ==>
                  && answer.NotPaid?
                  && answer.status == (match row.state
                                       case Pending => StatusPending
                                       case Rejected => StatusRejected
                                       case NotStarted => StatusNotStarted
                                       case _ => StatusUnknown)
                  && (answer.error.Some? <==> row.errorMessage.Some? && row.errorMessage.value != "")
                  && (answer.error.Some? ==>
                        && answer.error.value.message == row.errorMessage.value
                        && answer.error.value.code == (if row.errorCode.Some? then row.errorCode.value else RelayError)
                        && answer.error.value.walletErrorCode
                           == if row.walletErrorCode == Some("") then None else row.walletErrorCode))
  {
  }

  // ---- Up to the wallet ----

  /** Task `tid` of a living process runs the operation of `r`. */
  predicate Operates(w: World, tid: nat, pid: nat, r: NewRequest, pc: Pc) {
    tid in w.tasks && w.tasks[tid] == Task(pid, RunTask, r.requestId, pc) && Runs(w, pid)
  }

  /**
   An accepted request that nobody has made before gets its row: pending, and marked as dispatched on
   the warm path.
   */
  lemma SubmitInserts(env: Env, w: World, pid: nat, tid: nat, input: SubmitInput, warm: bool, n1: int, n2: int)
    requires Reachable(env, w) && Runs(w, pid) && tid !in w.tasks && Refusal(env, input).None?
    requires var id := Normalized(env, input).requestId; id !in w.table && id !in w.processes[pid].service.inFlight
    ensures var q, r := Run(env, w, [DoSubmit(pid, tid, input, warm, n1), DoStatement(tid, NoFault, n2)]),
            Normalized(env, input);
            && Operates(q, tid, pid, r, Inserted(r, warm)) && q.tasks.Keys == w.tasks.Keys + {tid}
            && r.requestId in q.table && q.table == w.table[r.requestId := q.table[r.requestId]]
            && q.table[r.requestId].request == r && q.table[r.requestId].state == Pending
            && q.table[r.requestId].dispatchedAt == (if warm then Some(n2) else None)
            && q.sdkCalls == w.sdkCalls && q.answers == w.answers
  {
    hide Run, Step, Reachable, Refusal, Normalized, LiveEntry;
    var r := Normalized(env, input);
    RunOfTwo(env, w, DoSubmit(pid, tid, input, warm, n1), DoStatement(tid, NoFault, n2));
    NormalizedIsLower(env, input);
    NoEntryWithoutRow(env, w, pid, r.requestId, n1);
    LaunchStep(env, w, pid, tid, input, warm, n1);
    InsertStep(env, Step(env, w, DoSubmit(pid, tid, input, warm, n1)), tid, r, warm, n2);
  }

  lemma LaunchStep(env: Env, w: World, pid: nat, tid: nat, input: SubmitInput, warm: bool, n: int)
    requires Runs(w, pid) && tid !in w.tasks && Refusal(env, input).None?
    requires var id := Normalized(env, input).requestId;
             id !in w.processes[pid].service.inFlight && LiveEntry(w.processes[pid].service, id, n).None?
    ensures var q, r := Step(env, w, DoSubmit(pid, tid, input, warm, n)), Normalized(env, input);
            && q.tasks == w.tasks[tid := Task(pid, RunTask, r.requestId, Inserting(r, warm))] && Runs(q, pid)
            && q.table == w.table && q.sdkCalls == w.sdkCalls && q.answers == w.answers
  {
    hide Refusal, Normalized, LiveEntry;
    SubmitLaunches(env, w.processes[pid].service, input, n, tid);
  }

  lemma InsertStep(env: Env, w: World, tid: nat, r: NewRequest, warm: bool, n: int)
    requires tid in w.tasks && w.tasks[tid].pc == Inserting(r, warm) && w.tasks[tid].id == r.requestId
    ensures var q := Step(env, w, DoStatement(tid, NoFault, n));
            && q.processes == w.processes && q.sdkCalls == w.sdkCalls && q.answers == w.answers
            && if r.requestId in w.table
               then q.table == w.table && q.tasks == w.tasks[tid := w.tasks[tid].(pc := ReadingExisting(r))]
               else && q.table == w.table[r.requestId := FreshRow(r, warm, n)]
                    && q.tasks == w.tasks[tid := w.tasks[tid].(pc := Inserted(r, warm))]
  {
    hide Rejects;
  }

  /** A read hands the row of the task's id to the task, and changes nothing else. */
  lemma ReadStep(env: Env, w: World, tid: nat, n: int)
    requires tid in w.tasks && var pc := w.tasks[tid].pc;
             pc.ReadingExisting? || pc.ReadingUnclaimed? || pc.ReadingCurrent?
    ensures var pc, found := w.tasks[tid].pc, Get(w.table, w.tasks[tid].id);
            Step(env, w, DoStatement(tid, NoFault, n))
            == Moved(w, tid, if pc.ReadingExisting? then GotExisting(pc.request, found)
                             else if pc.ReadingUnclaimed? then GotUnclaimed(pc.request, found)
                             else GotCurrent(pc.transition, found))
  {
  }

  lemma NormalizedIsLower(env: Env, input: SubmitInput)
    ensures ToLower(Normalized(env, input).paymentHash) == Normalized(env, input).paymentHash
  {
    LowerKeepsHex(input.paymentHash);
  }

  lemma NoEntryWithoutRow(env: Env, w: World, pid: nat, id: string, now: int)
    requires Reachable(env, w) && pid in w.processes && id !in w.table
    ensures LiveEntry(w.processes[pid].service, id, now).None?
  {
    ReachableInv(env, w);
    assert CacheOk(env, w.table, w.processes[pid].service);
  }

  lemma SubmitLaunches(env: Env, s: Service, input: SubmitInput, now: int, tid: nat)
    requires Refusal(env, input).None? && Normalized(env, input).requestId !in s.inFlight
    requires LiveEntry(s, Normalized(env, input).requestId, now).None?
    ensures Submit(env, s, input, now, tid).1 == Launch(Normalized(env, input))
  {
    hide Refusal, Normalized;
  }

  /** On the cold path a wallet that becomes ready lets the operation claim its mark. */
  lemma ReadyWalletClaimsMark(env: Env, w: World, tid: nat, pid: nat, r: NewRequest, n: int, spare: nat, ready: bool)
    requires Operates(w, tid, pid, r, Inserted(r, false)) && spare !in w.tasks
    requires r.requestId in w.table && w.table[r.requestId].state == Pending
    ensures var q := Run(env, w, [DoContinue(tid, Resume(ready), n, spare),
                                  DoContinue(tid, ReadinessResult(WalletReady), n, spare),
                                  DoStatement(tid, NoFault, n)]);
            && Operates(q, tid, pid, r, Marked(r, true)) && q.tasks.Keys == w.tasks.Keys
            && q.table == w.table[r.requestId := w.table[r.requestId].(
                            dispatchedAt := Some(OrElse(w.table[r.requestId].dispatchedAt, n)), updatedAt := n)]
            && q.sdkCalls == w.sdkCalls && q.answers == w.answers
  {
    hide Run, Step;
    RunOfThree(env, w, DoContinue(tid, Resume(ready), n, spare),
               DoContinue(tid, ReadinessResult(WalletReady), n, spare),
               DoStatement(tid, NoFault, n));
    QuietStep(env, w, tid, Resume(ready), n, spare, AwaitingReady(r));
    var w1 := Moved(w, tid, AwaitingReady(r));
    QuietStep(env, w1, tid, ReadinessResult(WalletReady), n, spare, Marking(r));
    MarkIsGranted(env, Moved(w1, tid, Marking(r)), tid, r, n);
  }

  lemma MarkIsGranted(env: Env, w: World, tid: nat, r: NewRequest, n: int)
    requires tid in w.tasks && w.tasks[tid].pc == Marking(r) && w.tasks[tid].id == r.requestId
    requires r.requestId in w.table && w.table[r.requestId].state == Pending
    ensures var q := Step(env, w, DoStatement(tid, NoFault, n));
            && q.tasks == w.tasks[tid := w.tasks[tid].(pc := Marked(r, true))]
            && q.table == w.table[r.requestId := w.table[r.requestId].(
                            dispatchedAt := Some(OrElse(w.table[r.requestId].dispatchedAt, n)), updatedAt := n)]
            && q.processes == w.processes && q.sdkCalls == w.sdkCalls && q.answers == w.answers
  {
    hide Rejects;
  }

  /** Through an open gate the SDK is called, once, and the operation waits for its answer. */
  lemma OpenGateCalls(env: Env, w: World, tid: nat, pid: nat, r: NewRequest, n: int, spare: nat)
    requires spare !in w.tasks
    requires Operates(w, tid, pid, r, Inserted(r, true)) || Operates(w, tid, pid, r, Marked(r, true))
    ensures var q := Step(env, w, DoContinue(tid, GateResult(GateOpen), n, spare));
            && Operates(q, tid, pid, r, AwaitingSdk(r)) && q.tasks.Keys == w.tasks.Keys
            && q.table == w.table && q.answers == w.answers
            && q.sdkCalls == w.sdkCalls[r.requestId := w.sdkCalls[r.requestId] + 1]
  {
  }

  /**
   A payment goes through, warm: an accepted request that nobody has made before,
   an open gate, and a wallet whose answer proves the payment. The row is a
   success, the caller is told the preimage and the fees, and the SDK was called once.
   */
  lemma WarmPaymentGoesThrough(env: Env, w: World, pid: nat, tid: nat, input: SubmitInput, raw: RawResult, p: string,
                               n: int, ready: bool, spare: nat)
    returns (q: World)
    requires Reachable(env, w) && Runs(w, pid) && tid !in w.tasks && spare !in w.tasks && spare != tid
    requires Refusal(env, input).None? && Shows(env, raw, Normalized(env, input).paymentHash, p)
    requires var id := Normalized(env, input).requestId; id !in w.table && id !in w.processes[pid].service.inFlight
    ensures q == Run(env, w, [DoSubmit(pid, tid, input, true, n), DoStatement(tid, NoFault, n)]
                             + [DoContinue(tid, GateResult(GateOpen), n, spare)]
                             + [DoContinue(tid, WalletReply(SdkResult(raw)), n, spare), DoStatement(tid, NoFault, n)]
                             + [DoContinue(tid, Resume(ready), n, spare)])
    ensures PaidFor(env, w, q, Normalized(env, input), p, ToldFees(raw))
  {
    hide Reachable, Run, Step, Refusal, Normalized, Shows, TellsCaller;
    var r := Normalized(env, input);
    var a, b := [DoSubmit(pid, tid, input, true, n), DoStatement(tid, NoFault, n)],
                [DoContinue(tid, GateResult(GateOpen), n, spare)];
    SubmitInserts(env, w, pid, tid, input, true, n, n);
    var w1 := Run(env, w, a);
    RunThen(env, w, a, b);
    RunOfOne(env, w1, b[0]);
    OpenGateCalls(env, w1, tid, pid, r, n, spare);
    var w2 := Run(env, w, a + b);
    q := FinishPayment(env, w, a + b, w2, tid, pid, r, raw, p, n, ready, spare);
    NeverCalled(env, w, r.requestId);
  }

  /** And cold: the wallet becomes ready first, and the mark is set before the call. */
  lemma ColdPaymentGoesThrough(env: Env, w: World, pid: nat, tid: nat, input: SubmitInput, raw: RawResult, p: string,
                               n: int, ready: bool, spare: nat)
    returns (q: World)
    requires Reachable(env, w) && Runs(w, pid) && tid !in w.tasks && spare !in w.tasks && spare != tid
    requires Refusal(env, input).None? && Shows(env, raw, Normalized(env, input).paymentHash, p)
    requires var id := Normalized(env, input).requestId; id !in w.table && id !in w.processes[pid].service.inFlight
    ensures q == Run(env, w, [DoSubmit(pid, tid, input, false, n), DoStatement(tid, NoFault, n)]
                             + [DoContinue(tid, Resume(ready), n, spare),
                                DoContinue(tid, ReadinessResult(WalletReady), n, spare), DoStatement(tid, NoFault, n)]
                             + [DoContinue(tid, GateResult(GateOpen), n, spare)]
                             + [DoContinue(tid, WalletReply(SdkResult(raw)), n, spare), DoStatement(tid, NoFault, n)]
                             + [DoContinue(tid, Resume(ready), n, spare)])
    ensures PaidFor(env, w, q, Normalized(env, input), p, ToldFees(raw))
  {
    hide Reachable, Run, Step, Refusal, Normalized, Shows, TellsCaller;
    var r := Normalized(env, input);
    var a, b, c := [DoSubmit(pid, tid, input, false, n), DoStatement(tid, NoFault, n)],
                   [DoContinue(tid, Resume(ready), n, spare), DoContinue(tid, ReadinessResult(WalletReady), n, spare),
                    DoStatement(tid, NoFault, n)],
                   [DoContinue(tid, GateResult(GateOpen), n, spare)];
    SubmitInserts(env, w, pid, tid, input, false, n, n);
    var w1 := Run(env, w, a);
    RunThen(env, w, a, b);
    ReadyWalletClaimsMark(env, w1, tid, pid, r, n, spare, ready);
    var w2 := Run(env, w, a + b);
    RunThen(env, w, a + b, c);
    RunOfOne(env, w2, c[0]);
    OpenGateCalls(env, w2, tid, pid, r, n, spare);
    var w3 := Run(env, w, a + b + c);
    q := FinishPayment(env, w, a + b + c, w3, tid, pid, r, raw, p, n, ready, spare);
    NeverCalled(env, w, r.requestId);
  }

  /** The row of `r` is a success that its caller knows of, after one call of the SDK; no other row has changed. */
  predicate PaidFor(env: Env, w: World, q: World, r: NewRequest, p: string, fees: int) {
    && r.requestId in q.table && q.table == w.table[r.requestId := q.table[r.requestId]]
    && q.table[r.requestId].request == r && q.table[r.requestId].state == Succeeded
    && q.table[r.requestId].preimage == Some(ToLower(p)) && q.table[r.requestId].feesPaidMsats == Some(fees)
    && q.table[r.requestId].dispatchedAt.Some?
    && Paid(r.requestId, ToLower(p), fees) in q.answers
    && q.sdkCalls[r.requestId] == 1
  }

  lemma FinishPayment(env: Env, w: World, trace: seq<Action>, v: World, tid: nat, pid: nat, r: NewRequest,
                      raw: RawResult, p: string, n: int, ready: bool, spare: nat)
    returns (q: World)
    requires Reachable(env, w) && v == Run(env, w, trace)
    requires Operates(v, tid, pid, r, AwaitingSdk(r)) && spare !in v.tasks && Shows(env, raw, r.paymentHash, p)
    requires r.requestId in v.table && v.table[r.requestId].request == r && v.table[r.requestId].state == Pending
    ensures q == Run(env, w, trace
                             + [DoContinue(tid, WalletReply(SdkResult(raw)), n, spare), DoStatement(tid, NoFault, n)]
                             + [DoContinue(tid, Resume(ready), n, spare)])
    ensures BecameSuccess(v.table, q.table, r.requestId, p, ToldFees(raw), n) && q.sdkCalls == v.sdkCalls
    ensures Paid(r.requestId, ToLower(p), ToldFees(raw)) in q.answers
  {
    hide Reachable, Run, Step, Shows, SdkOutcome;
    RunStaysReachable(env, w, trace);
    var d, e := [DoContinue(tid, WalletReply(SdkResult(raw)), n, spare), DoStatement(tid, NoFault, n)],
                [DoContinue(tid, Resume(ready), n, spare)];
    RunThen(env, w, trace, d);
    RunThen(env, w, trace + d, e);
    ProofIsJournaled(env, v, tid, raw, p, n, n, spare);
    PaymentStatement(env, v, tid, SdkResult(raw), n, n, spare);
    var u := Run(env, v, d);
    RunOfOne(env, u, e[0]);
    IntendedIsTold(env, u, tid, n, ready, spare);
    q := Run(env, u, e);
    ResumeCallsNothing(env, u, tid, n, ready, spare);
  }

  lemma ResumeCallsNothing(env: Env, w: World, tid: nat, now: int, ready: bool, spare: nat)
    ensures Step(env, w, DoContinue(tid, Resume(ready), now, spare)).sdkCalls == w.sdkCalls
  {
    var q := Step(env, w, DoContinue(tid, Resume(ready), now, spare));
    forall id ensures q.sdkCalls[id] == w.sdkCalls[id] {
      SdkCallIsExact(env, w, DoContinue(tid, Resume(ready), now, spare), id);
    }
  }

  lemma NeverCalled(env: Env, w: World, id: string)
    requires Reachable(env, w) && id !in w.table
    ensures w.sdkCalls[id] == 0
  {
    ReachableInv(env, w);
    assert CountsOk(w, id);
  }

  lemma {:induction false} RunThen(env: Env, w: World, a: seq<Action>, b: seq<Action>)
    ensures Run(env, w, a + b) == Run(env, Run(env, w, a), b)
    decreases |a|
  {
    hide Step;
    if a == [] {
      assert a + b == b;
    } else {
      assert (a + b)[1..] == a[1..] + b;
      RunThen(env, Step(env, w, a[0]), a[1..], b);
    }
  }

  lemma RunStaysReachable(env: Env, w: World, trace: seq<Action>)
    requires Reachable(env, w)
    ensures Reachable(env, Run(env, w, trace))
  {
    hide Step, Run;
    var before :| Run(env, INITIAL, before) == w;
    RunThen(env, INITIAL, before, trace);
  }

  // ---- Not started ----

  /** The row of the operation says that nothing was sent, and so does the answer its caller gets. */
  predicate TellsNotStarted(w: World, q: World, id: string, code: ErrorCode, message: string, now: int) {
    && id in w.table && id in q.table && q.table == w.table[id := q.table[id]]
    && q.table[id].state == NotStarted && q.table[id].errorCode == Some(code)
    && q.table[id].errorMessage == Some(message)
    && q.table[id].completedAt == Some(now)
    && NotPaid(id, StatusNotStarted, Some(PayError(code, message, None))) in q.answers
    && q.sdkCalls == w.sdkCalls
  }

  function Ended(env: Env, w: World, tid: nat, e: Event, n: int, ready: bool, spare: nat): World {
    Run(env, w, [DoContinue(tid, e, n, spare), DoStatement(tid, NoFault, n), DoContinue(tid, Resume(ready), n, spare)])
  }

  lemma NotStartedEnds(env: Env, w: World, v: World, tid: nat, r: NewRequest, code: ErrorCode, message: string,
                       n: int, ready: bool, spare: nat)
    requires tid in v.tasks && v.tasks[tid] == Task(v.tasks[tid].process, RunTask, r.requestId,
                                                    Completing(NotStartedOutcome(r, code, message)))
    requires At(v, tid, spare) && v.table == w.table && v.sdkCalls == w.sdkCalls && r.requestId in w.table
    requires w.table[r.requestId].state == Pending
    ensures TellsNotStarted(w,
                            Step(env, Step(env, v, DoStatement(tid, NoFault, n)),
                                 DoContinue(tid, Resume(ready), n, spare)),
                            r.requestId, code, message, n)
  {
    hide Step;
    CompletingStep(env, v, tid, n);
    var u := Step(env, v, DoStatement(tid, NoFault, n));
    IntendedIsTold(env, u, tid, n, ready, spare);
    ResumeCallsNothing(env, u, tid, n, ready, spare);
  }

  lemma ClosedGateDispatch(r: NewRequest, gate: Gate, s: Service)
    requires !gate.GateOpen?
    ensures Dispatch(r, gate, s)
            == Stretch(Completing(NotStartedOutcome(r, if gate.GateNoWallet? then WalletNotFound else WalletNotReady,
                                                    gate.message)), s, PoolCallOnly, None)
  {
  }

  lemma ClosedGateCompletes(env: Env, w: World, tid: nat, pid: nat, r: NewRequest, gate: Gate, n: int, spare: nat)
    requires spare !in w.tasks && !gate.GateOpen?
    requires Operates(w, tid, pid, r, Inserted(r, true)) || Operates(w, tid, pid, r, Marked(r, true))
    ensures var v := Step(env, w, DoContinue(tid, GateResult(gate), n, spare));
            var code := if gate.GateNoWallet? then WalletNotFound else WalletNotReady;
            && Operates(v, tid, pid, r, Completing(NotStartedOutcome(r, code, gate.message)))
            && v.tasks.Keys == w.tasks.Keys && v.table == w.table && v.sdkCalls == w.sdkCalls
  {
    hide NotStartedOutcome, Dispatch;
    ClosedGateDispatch(r, gate, ServiceOf(w, tid));
    assert w.sdkCalls[r.requestId := w.sdkCalls[r.requestId]] == w.sdkCalls;
  }

  /** A gate that refuses, after a warm insert or a claimed mark, ends the operation as not started. */
  lemma ClosedGateTellsNotStarted(env: Env, w: World, tid: nat, pid: nat, r: NewRequest, gate: Gate,
                                  n: int, ready: bool, spare: nat)
    requires spare !in w.tasks && !gate.GateOpen? && r.requestId in w.table && w.table[r.requestId].state == Pending
    requires Operates(w, tid, pid, r, Inserted(r, true)) || Operates(w, tid, pid, r, Marked(r, true))
    ensures TellsNotStarted(w, Ended(env, w, tid, GateResult(gate), n, ready, spare), r.requestId,
                            if gate.GateNoWallet? then WalletNotFound else WalletNotReady, gate.message, n)
  {
    hide Run, Step;
    RunOfThree(env, w, DoContinue(tid, GateResult(gate), n, spare), DoStatement(tid, NoFault, n),
               DoContinue(tid, Resume(ready), n, spare));
    var v := Step(env, w, DoContinue(tid, GateResult(gate), n, spare));
    ClosedGateCompletes(env, w, tid, pid, r, gate, n, spare);
    NotStartedEnds(env, w, v, tid, r, if gate.GateNoWallet? then WalletNotFound else WalletNotReady, gate.message,
                   n, ready, spare);
  }

  /** So does a wallet that is unknown or not ready in time. */
  lemma UnreadyWalletTellsNotStarted(env: Env, w: World, tid: nat, pid: nat, r: NewRequest, readiness: Readiness,
                                     n: int, ready: bool, spare: nat)
    requires spare !in w.tasks && r.requestId in w.table && w.table[r.requestId].state == Pending
    requires Operates(w, tid, pid, r, AwaitingReady(r)) && (readiness == NoSuchWallet || readiness == NotReadyInTime)
    ensures TellsNotStarted(w, Ended(env, w, tid, ReadinessResult(readiness), n, ready, spare), r.requestId,
                            if readiness == NoSuchWallet then WalletNotFound else WalletNotReady,
                            if readiness == NoSuchWallet then "No active NWC wallet exists for this walletId"
                            else "Wallet did not become ready before dispatch", n)
  {
    hide Run, Step, TellsNotStarted;
    RunOfThree(env, w, DoContinue(tid, ReadinessResult(readiness), n, spare), DoStatement(tid, NoFault, n),
               DoContinue(tid, Resume(ready), n, spare));
    var pc := AfterReadiness(r, readiness);
    QuietStep(env, w, tid, ReadinessResult(readiness), n, spare, pc);
    NotStartedEnds(env, w, Moved(w, tid, pc), tid, r,
                   if readiness == NoSuchWallet then WalletNotFound else WalletNotReady,
                   if readiness == NoSuchWallet then "No active NWC wallet exists for this walletId"
                   else "Wallet did not become ready before dispatch", n, ready, spare);
  }

  // ---- Crash and restart ----

  /** A crash ends a process: nobody is served, none of its tasks goes on, and the journal and the others stay. */
  lemma CrashEnds(env: Env, w: World, pid: nat, a: Action)
    requires pid in w.processes
    requires match a
             case DoSubmit(p, _, _, _, _) => p == pid
             case DoStatus(p, _, _, _) => p == pid
             case DoContinue(tid, _, _, _) => tid in w.tasks && w.tasks[tid].process == pid
             case DoCleanUp(tid) => tid in w.tasks && w.tasks[tid].process == pid
             case _ => false
    ensures var v := Run(env, w, [DoCrash(pid)]);
            && v == w.(processes := v.processes) && v.processes.Keys == w.processes.Keys
            && (forall p :: p in w.processes && p != pid ==> v.processes[p] == w.processes[p])
            && Run(env, w, [DoCrash(pid), a]) == v
  {
    hide Continue, Submit, BeginStatus;
    RunOfOne(env, w, DoCrash(pid));
    RunOfTwo(env, w, DoCrash(pid), a);
  }

  /**
   A restart decides every pending row by its dispatch mark, whoever inserted it, and leaves every
   other row alone.
   */
  lemma RestartDecidesByMark(env: Env, w: World, pid: nat, now: int, id: string)
    requires pid !in w.processes && id in w.table
    ensures var q, row := Run(env, w, [DoStart(pid, now)]), w.table[id];
            && q.table.Keys == w.table.Keys && Runs(q, pid)
            && q.table[id] == (if row.state != Pending then row
                               else if row.dispatchedAt.None?
                               then row.(state := NotStarted, errorCode := Some(WalletNotReady),
                                         errorMessage := Some("Listener stopped before NWC dispatch"),
                                         updatedAt := now, completedAt := Some(now))
                               else row.(state := Unknown, errorCode := Some(RelayError),
                                         errorMessage := Some("Listener restarted before the NWC result was known"),
                                         updatedAt := now))
  {
    RunOfOne(env, w, DoStart(pid, now));
  }

  // ---- Status and duplicates ----

  /** A lookup for the row has been started beside the answer, unless the row is final or one is under way. */
  predicate LooksUpToo(w: World, q: World, tid: nat, spare: nat, row: Row, ready: bool, allow: bool)
    requires tid in w.tasks && Runs(w, w.tasks[tid].process)
  {
    var task := w.tasks[tid];
    if (row.state == Pending || row.state == Unknown) && ready
       && task.id !in w.processes[task.process].service.lookupFlights
    then spare in q.tasks
         && q.tasks[spare] == Task(task.process, LookupTask(allow), task.id, AwaitingLookup(row, allow))
         && task.process in q.processes && task.id in q.processes[task.process].service.lookupFlights
    else spare !in q.tasks
  }

  /**
   A status request that has read the journal: pending while the operation runs
   and its row is pending or not yet there, not found if there is neither, and
   otherwise what the row says. An open row is looked up, and a failure may be
   believed only if no operation was running.
   */
  lemma StatusIsTold(env: Env, w: World, tid: nat, now: int, ready: bool, spare: nat)
    requires At(w, tid, spare) && w.tasks[tid].kind.StatusTask? && w.tasks[tid].pc.GotStatus?
    ensures var id, active, found := w.tasks[tid].id, w.tasks[tid].pc.active, w.tasks[tid].pc.found;
            var q := Step(env, w, DoContinue(tid, Resume(ready), now, spare));
            && tid in q.tasks && q.tasks[tid].pc.Settled? && q.tasks[tid].pc.result.Some?
            && q.tasks[tid].pc.result.value in q.answers
            && q.tasks[tid].pc.result.value
               == (if found.None? && !active then
                     NotPaid(id, StatusUnknown, Some(PayError(RequestNotFound, "Payment request was not found", None)))
                   else if active && (found.None? || found.value.state == Pending) then NotPaid(id, StatusPending, None)
                   else ResponseFromStored(env, found.value))
            && Remembers(env, w, q, w.tasks[tid].process, q.tasks[tid].pc.result.value,
                         if found.Some? then found.value.request.payloadHash else "", now)
            && (found.None? ==> spare !in q.tasks)
            && (found.Some? ==> LooksUpToo(w, q, tid, spare, found.value, ready, !active))
  {
    hide ResponseFromStored;
  }

  /** A duplicate that found the row of its id: a conflict for another payload, otherwise what the row says. */
  lemma DuplicateIsTold(env: Env, w: World, tid: nat, now: int, ready: bool, spare: nat)
    requires At(w, tid, spare) && w.tasks[tid].kind.RunTask?
    requires w.tasks[tid].pc.GotExisting? && w.tasks[tid].pc.found.Some?
    ensures var r, row := w.tasks[tid].pc.request, w.tasks[tid].pc.found.value;
            var q := Step(env, w, DoContinue(tid, Resume(ready), now, spare));
            && tid in q.tasks && q.tasks[tid].pc.Settled? && q.tasks[tid].pc.result.Some?
            && q.tasks[tid].pc.result.value in q.answers
            && q.tasks[tid].pc.result.value == (if row.request.payloadHash == r.payloadHash
                                                then ResponseFromStored(env, row) else ConflictResponse(r.requestId))
            && Runs(q, w.tasks[tid].process)
            && (row.request.payloadHash != r.payloadHash ==>
                  && spare !in q.tasks
                  && q.processes[w.tasks[tid].process].service.terminalCache == ServiceOf(w, tid).terminalCache)
            && (row.request.payloadHash == r.payloadHash ==>
                  && Remembers(env, w, q, w.tasks[tid].process, q.tasks[tid].pc.result.value, r.payloadHash, now)
                  && LooksUpToo(w, q, tid, spare, row, ready, false))
  {
    hide ResponseFromStored, ConflictResponse;
  }

  /** An operation that lost the claim of its mark pays nothing: it reads its row and tells what that says. */
  lemma UnclaimedIsTold(env: Env, w: World, tid: nat, pid: nat, r: NewRequest, n1: int, n2: int, n3: int, ready: bool,
                        spare: nat)
    requires Operates(w, tid, pid, r, Marked(r, false)) && spare !in w.tasks && r.requestId in w.table
    ensures var q := Run(env, w, [DoContinue(tid, Resume(ready), n1, spare), DoStatement(tid, NoFault, n2),
                                  DoContinue(tid, Resume(ready), n3, spare)]);
            && Operates(q, tid, pid, r, Settled(Some(ResponseFromStored(env, w.table[r.requestId]))))
            && ResponseFromStored(env, w.table[r.requestId]) in q.answers && q.table == w.table
            && q.sdkCalls == w.sdkCalls && q.processes == w.processes
  {
    hide Run, ResponseFromStored;
    RunOfThree(env, w, DoContinue(tid, Resume(ready), n1, spare), DoStatement(tid, NoFault, n2),
               DoContinue(tid, Resume(ready), n3, spare));
    QuietStep(env, w, tid, Resume(ready), n1, spare, ReadingUnclaimed(r));
    var w1 := Moved(w, tid, ReadingUnclaimed(r));
    ReadStep(env, w1, tid, n2);
    ToldQuietly(env, Moved(w1, tid, GotUnclaimed(r, Some(w.table[r.requestId]))), tid, n3, ready, spare);
  }

  lemma ToldQuietly(env: Env, w: World, tid: nat, now: int, ready: bool, spare: nat)
    requires At(w, tid, spare) && w.tasks[tid].kind.RunTask?
    requires w.tasks[tid].pc.GotUnclaimed? && w.tasks[tid].pc.found.Some?
    ensures var answer := ResponseFromStored(env, w.tasks[tid].pc.found.value);
            Step(env, w, DoContinue(tid, Resume(ready), now, spare))
            == Moved(w, tid, Settled(Some(answer))).(answers := w.answers + {answer})
  {
    hide ResponseFromStored;
    var task := w.tasks[tid];
    assert w.processes[task.process := w.processes[task.process]] == w.processes;
    assert w.poolCalls[task.id := w.poolCalls[task.id]] == w.poolCalls;
    assert w.sdkCalls[task.id := w.sdkCalls[task.id]] == w.sdkCalls;
  }

  /** While the mark is refused only because the row is no longer open. */
  lemma MarkIsRefused(env: Env, w: World, tid: nat, pid: nat, r: NewRequest, n: int)
    requires Operates(w, tid, pid, r, Marking(r)) && r.requestId in w.table && w.table[r.requestId].state != Pending
    ensures var q := Step(env, w, DoStatement(tid, NoFault, n));
            Operates(q, tid, pid, r, Marked(r, false)) && q.table == w.table && q.sdkCalls == w.sdkCalls
  {
  }

  /** A duplicate of a request that is in the journal, but not running here or cached, reads its row. */
  lemma DuplicateReadsRow(env: Env, w: World, pid: nat, tid: nat, input: SubmitInput, warm: bool, n: int)
    requires Runs(w, pid) && tid !in w.tasks && Refusal(env, input).None?
    requires var id := Normalized(env, input).requestId;
             && id in w.table && id !in w.processes[pid].service.inFlight
             && LiveEntry(w.processes[pid].service, id, n).None?
    ensures var r := Normalized(env, input);
            var q := Run(env, w, [DoSubmit(pid, tid, input, warm, n), DoStatement(tid, NoFault, n),
                                  DoStatement(tid, NoFault, n)]);
            && Operates(q, tid, pid, r, GotExisting(r, Some(w.table[r.requestId]))) && q.table == w.table
            && q.sdkCalls == w.sdkCalls && q.tasks.Keys == w.tasks.Keys + {tid}
  {
    hide Run, Step, Refusal, Normalized, LiveEntry;
    var r := Normalized(env, input);
    RunOfThree(env, w, DoSubmit(pid, tid, input, warm, n), DoStatement(tid, NoFault, n), DoStatement(tid, NoFault, n));
    LaunchStep(env, w, pid, tid, input, warm, n);
    var w1 := Step(env, w, DoSubmit(pid, tid, input, warm, n));
    InsertStep(env, w1, tid, r, warm, n);
    ReadStep(env, Step(env, w1, DoStatement(tid, NoFault, n)), tid, n);
  }

  /** A status request without a live cache entry reads its row; whether an operation runs is noted before. */
  lemma StatusReadsRow(env: Env, w: World, pid: nat, tid: nat, requestId: string, n1: int, n2: int)
    requires Runs(w, pid) && tid !in w.tasks
    ensures var id, s := ToLower(requestId), w.processes[pid].service;
            var q := Run(env, w, [DoStatus(pid, tid, requestId, n1), DoStatement(tid, NoFault, n2)]);
            if id in s.terminalCache && n1 < s.terminalCache[id].expiresAt
            then s.terminalCache[id].response in q.answers && q.tasks == w.tasks
            else && tid in q.tasks && q.table == w.table
                 && q.tasks[tid] == Task(pid, StatusTask, id,
                                         GotStatus(id in s.inFlight, if id in w.table then Some(w.table[id]) else None))
  {
    hide Run;
    RunOfTwo(env, w, DoStatus(pid, tid, requestId, n1), DoStatement(tid, NoFault, n2));
  }

  // ---- Registries ----

  /** Settled operations and lookups leave the registries, each only its own entry; expired answers leave the cache. */
  lemma RegistriesAreCleared(env: Env, w: World, tid: nat, now: int)
    requires tid in w.tasks && Runs(w, w.tasks[tid].process) && w.tasks[tid].pc.Settled?
    ensures var task, q := w.tasks[tid], Step(env, w, DoCleanUp(tid));
            && task.process in q.processes
            && var s, t := w.processes[task.process].service, q.processes[task.process].service;
               && t.terminalCache == s.terminalCache
               && t.inFlight == (if task.kind.RunTask? && task.id in s.inFlight && s.inFlight[task.id].task == tid
                                 then s.inFlight - {task.id} else s.inFlight)
               && t.lookupFlights == if task.kind.LookupTask? then s.lookupFlights - {task.id} else s.lookupFlights
    ensures var task, q := w.tasks[tid], Step(env, w, DoSweep(w.tasks[tid].process, now));
            && task.process in q.processes
            && var s, t := w.processes[task.process].service, q.processes[task.process].service;
               && t.inFlight == s.inFlight && t.lookupFlights == s.lookupFlights
               && forall id :: (id in t.terminalCache <==> id in s.terminalCache && now < s.terminalCache[id].expiresAt)
                               && (id in t.terminalCache ==> t.terminalCache[id] == s.terminalCache[id])
  {
  }
}
