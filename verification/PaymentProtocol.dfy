/**
 The payment protocol as a state machine: any number of processes over one
 journal table. A SQL statement is one atomic step; every `await` is a point
 where anything else may happen. Processes crash at any step, a statement they
 issued may still execute afterwards, and any statement may fail with or
 without having taken effect.
 */
module PaymentProtocol {
  import opened Common
  import opened Hex
  import opened Journal
  import opened Payments
  import opened PaymentService

  /** A lookup may or may not believe the wallet when it reports a failed payment. */
  datatype Kind = RunTask | StatusTask | LookupTask(allowsFailure: bool)

  /** Where an asynchronous operation stands between two awaits. */
  datatype Pc =
    // run()
    | Inserting(request: NewRequest, warm: bool)
    | Inserted(request: NewRequest, warm: bool)
    | ReadingExisting(request: NewRequest)
    | GotExisting(request: NewRequest, found: Option<Row>)
    | AwaitingReady(request: NewRequest)
    | Marking(request: NewRequest)
    | Marked(request: NewRequest, claimed: bool)
    | ReadingUnclaimed(request: NewRequest)
    | GotUnclaimed(request: NewRequest, found: Option<Row>)
    | AwaitingSdk(request: NewRequest)
    // status()
    | ReadingStatus(active: bool)
    | GotStatus(active: bool, found: Option<Row>)
    // reconcileWithLookup()
    | AwaitingLookup(stored: Row, allowTerminalFailure: bool)
    // transition()
    | Completing(transition: Transition)
    | Completed(transition: Transition, updated: bool)
    | ReadingCurrent(transition: Transition)
    | GotCurrent(transition: Transition, found: Option<Row>)
    // the promise is settled; None is a rejection
    | Settled(result: Option<Response>)

  datatype Task = Task(process: nat, kind: Kind, id: string, pc: Pc)

  datatype Process = Process(alive: bool, service: Service)

  /**
   `owner` remembers which task inserted each row and `rejecter` which one
   rejected it, `poolCalls` and `sdkCalls` count the calls of
   `payInvoiceByWalletId` and of the SDK's `payInvoice` per request id,
   `answers` collects every response given to a caller, and `directPays` counts
   the payments callers made themselves.
   */
  datatype World = World(
    table: Table, processes: map<nat, Process>, tasks: map<nat, Task>,
    owner: map<string, nat>, rejecter: map<string, nat>, poolCalls: multiset<string>, sdkCalls: multiset<string>,
    answers: set<Response>, directPays: multiset<string>)

  const EMPTY_SERVICE := Service(map[], map[], map[])

  const INITIAL := World(map[], map[], map[], map[], map[], multiset{}, multiset{}, {}, multiset{})

  // ---- SQL steps ----

  predicate AwaitsDatabase(pc: Pc) {
    pc.Inserting? || pc.ReadingExisting? || pc.Marking? || pc.ReadingUnclaimed? || pc.ReadingStatus?
    || pc.Completing? || pc.ReadingCurrent?
  }

  /** The statement a task has issued: the new table and the reply. */
  function RunStatement(t: Table, id: string, pc: Pc, now: int): (Table, Pc)
    requires AwaitsDatabase(pc)
  {
    match pc
    case Inserting(r, warm) =>
      var (created, t') := Insert(t, r, warm, now);
      (t', if created then Inserted(r, warm) else ReadingExisting(r))
    case ReadingExisting(r) => (t, GotExisting(r, Get(t, id)))
    case Marking(r) =>
      var (claimed, t') := MarkDispatched(t, id, now);
      (t', Marked(r, claimed))
    case ReadingUnclaimed(r) => (t, GotUnclaimed(r, Get(t, id)))
    case ReadingStatus(active) => (t, GotStatus(active, Get(t, id)))
    case Completing(tr) =>
      var (updated, t') := Complete(t, id, tr.completion, now);
      (t', Completed(tr, updated))
    case ReadingCurrent(tr) => (t, GotCurrent(tr, Get(t, id)))
  }

  /** The task's pending statement turns its row into a rejected one. */
  predicate Rejects(w: World, tid: nat)
    requires tid in w.tasks
  {
    var task := w.tasks[tid];
    && task.pc.Completing? && task.pc.transition.completion.state.Rejected?
    && task.id in w.table && Completable(w.table[task.id], task.pc.transition.completion)
  }

  /** The database executes an issued statement, whether or not the process that issued it is still alive. */
  function ExecuteStatement(w: World, tid: nat, fault: Fault, now: int): World {
    if tid !in w.tasks || !AwaitsDatabase(w.tasks[tid].pc) then w
    else
      var task := w.tasks[tid];
      var (t', reply) := RunStatement(w.table, task.id, task.pc, now);
      var inserts := task.pc.Inserting? && task.id !in w.table && !fault.LostBefore?;
      w.(table := if fault.LostBefore? then w.table else t',
         tasks := w.tasks[tid := task.(pc := if fault.NoFault? then reply else Settled(None))],
         owner := if inserts then w.owner[task.id := tid] else w.owner,
         rejecter := if Rejects(w, tid) && !fault.LostBefore? then w.rejecter[task.id := tid] else w.rejecter)
  }

  // ---- Continuations ----

  datatype Readiness = WalletReady | NoSuchWallet | NotReadyInTime | ReadinessThrew

  /** What a task waits for, with its outcome. `Resume` also samples the wallet's readiness for lookups. */
  datatype Event =
    | GateResult(gate: Gate)
    | ReadinessResult(readiness: Readiness)
    | WalletReply(reply: SdkReply)
    | LookupReply(raw: Option<RawResult>)
    | Resume(walletReady: bool)

  datatype Call = NoCall | PoolCallOnly | PoolAndSdkCall

  datatype Lookup = Lookup(stored: Row, allowTerminalFailure: bool)

  /**
   One uninterrupted stretch of code: the next await, the service after it, the payment call made,
   the lookup wanted.
   */
  datatype Stretch = Stretch(pc: Pc, service: Service, call: Call, lookup: Option<Lookup>)

  function Quietly(pc: Pc, s: Service): Stretch {
    Stretch(pc, s, NoCall, None)
  }

  /** `payInvoiceByWalletId` up to its first await: the gate throws before the SDK is touched. */
  function Dispatch(r: NewRequest, gate: Gate, s: Service): Stretch {
    if gate.GateOpen? then Stretch(AwaitingSdk(r), s, PoolAndSdkCall, None)
    else Stretch(Completing(DispatchErrorOutcome(r, GateError(gate))), s, PoolCallOnly, None)
  }

  function NotFoundResponse(id: string): Response {
    NotPaid(id, StatusUnknown, Some(PayError(RequestNotFound, "Payment request was not found", None)))
  }

  /** `run` after an insert that hit an existing row. */
  function AnswerDuplicate(env: Env, s: Service, r: NewRequest, stored: Row, now: int): Stretch {
    if stored.request.payloadHash != r.payloadHash then Quietly(Settled(Some(ConflictResponse(r.requestId))), s)
    else
      var response := ResponseFromStored(env, stored);
      Stretch(Settled(Some(response)), CacheTerminal(env, s, r.payloadHash, response, now), NoCall,
              if Unresolved(stored.state) then Some(Lookup(stored, false)) else None)
  }

  /** `status` after its read. */
  function AnswerStatus(env: Env, s: Service, id: string, active: bool, found: Option<Row>, now: int): Stretch {
    if found.None? then
      Quietly(Settled(Some(if active then NotPaid(id, StatusPending, None) else NotFoundResponse(id))), s)
    else
      var stored := found.value;
      if active && stored.state.Pending? then
        Stretch(Settled(Some(NotPaid(id, StatusPending, None))), s, NoCall, Some(Lookup(stored, false)))
      else
        var response := ResponseFromStored(env, stored);
        Stretch(Settled(Some(response)), CacheTerminal(env, s, stored.request.payloadHash, response, now), NoCall,
                if Unresolved(stored.state) then Some(Lookup(stored, !active)) else None)
  }

  function AfterReadiness(r: NewRequest, readiness: Readiness): Pc {
    match readiness
    case WalletReady => Marking(r)
    case NoSuchWallet =>
      Completing(NotStartedOutcome(r, WalletNotFound, "No active NWC wallet exists for this walletId"))
    case NotReadyInTime =>
      Completing(NotStartedOutcome(r, WalletNotReady, "Wallet did not become ready before dispatch"))
    case ReadinessThrew => Settled(None)
  }

  function AfterLookup(env: Env, stored: Row, allowTerminalFailure: bool, raw: Option<RawResult>): Pc {
    if raw.None? then Settled(None)
    else
      var outcome := LookupOutcome(env, stored, allowTerminalFailure, raw.value);
      if outcome.None? then Settled(None) else Completing(outcome.value)
  }

  /** `transition` after its update, and after its re-read. */
  function FinishTransition(env: Env, s: Service, tr: Transition, response: Response, now: int): Stretch {
    Quietly(Settled(Some(response)), CacheTerminal(env, s, tr.payloadHash, response, now))
  }

  function Continue(env: Env, s: Service, id: string, pc: Pc, e: Event, now: int): Option<Stretch> {
    match pc
    case Inserted(r, warm) =>
      if warm && e.GateResult? then Some(Dispatch(r, e.gate, s))
      else if !warm && e.Resume? then Some(Quietly(AwaitingReady(r), s))
      else None
    case GotExisting(r, found) =>
      if !e.Resume? then None
      else if found.None? then Some(Quietly(Settled(None), s))
      else Some(AnswerDuplicate(env, s, r, found.value, now))
    case AwaitingReady(r) =>
      if e.ReadinessResult? then Some(Quietly(AfterReadiness(r, e.readiness), s)) else None
    case Marked(r, claimed) =>
      if claimed && e.GateResult? then Some(Dispatch(r, e.gate, s))
      else if !claimed && e.Resume? then Some(Quietly(ReadingUnclaimed(r), s))
      else None
    case GotUnclaimed(r, found) =>
      if !e.Resume? then None
      else Some(Quietly(Settled(Some(if found.Some? then ResponseFromStored(env, found.value)
                                     else UnknownResponse(r.requestId, "Payment journal changed before dispatch"))), s))
    case AwaitingSdk(r) =>
      if e.WalletReply? then Some(Quietly(Completing(SdkOutcome(env, r, e.reply)), s)) else None
    case GotStatus(active, found) =>
      if e.Resume? then Some(AnswerStatus(env, s, id, active, found, now)) else None
    case AwaitingLookup(stored, allow) =>
      if e.LookupReply? then Some(Quietly(AfterLookup(env, stored, allow, e.raw), s)) else None
    case Completed(tr, updated) =>
      if !e.Resume? then None
      else if updated then Some(FinishTransition(env, s, tr, tr.intended, now))
      else Some(Quietly(ReadingCurrent(tr), s))
    case GotCurrent(tr, found) =>
      if !e.Resume? then None
      else
        var response := if found.Some? then ResponseFromStored(env, found.value) else tr.intended;
        Some(FinishTransition(env, s, tr, response, now))
    case _ => None
  }

  predicate Runs(w: World, pid: nat) {
    pid in w.processes && w.processes[pid].alive
  }

  function Count(call: Call, sdkOnly: bool): nat {
    if call.PoolAndSdkCall? || (call.PoolCallOnly? && !sdkOnly) then 1 else 0
  }

  /** The world after a stretch of task `tid`, which may have started the lookup `lookupTid`. */
  function AfterStretch(w: World, tid: nat, c: Stretch, walletReady: bool, lookupTid: nat): World
    requires tid in w.tasks && Runs(w, w.tasks[tid].process)
  {
    var task := w.tasks[tid];
    var wanted := c.lookup.Some?;
    var (s', started) := StartLookup(c.service, task.id, wanted && walletReady, lookupTid);
    var tasks' := w.tasks[tid := task.(pc := c.pc)];
    w.(tasks := if started
                then tasks'[lookupTid := Task(task.process, LookupTask(c.lookup.value.allowTerminalFailure), task.id,
                                              AwaitingLookup(c.lookup.value.stored,
                                                             c.lookup.value.allowTerminalFailure))]
                else tasks',
       processes := w.processes[task.process := Process(true, s')],
       poolCalls := w.poolCalls[task.id := w.poolCalls[task.id] + Count(c.call, false)],
       sdkCalls := w.sdkCalls[task.id := w.sdkCalls[task.id] + Count(c.call, true)],
       answers := if c.pc.Settled? && c.pc.result.Some? && !task.kind.LookupTask?
                  then w.answers + {c.pc.result.value} else w.answers)
  }

  function ContinueTask(env: Env, w: World, tid: nat, e: Event, now: int, lookupTid: nat): (w': World)
    ensures w'.table == w.table && w'.directPays == w.directPays
    ensures w.answers <= w'.answers
  {
    if tid !in w.tasks || !Runs(w, w.tasks[tid].process) || lookupTid in w.tasks then w
    else
      var task := w.tasks[tid];
      var c := Continue(env, w.processes[task.process].service, task.id, task.pc, e, now);
      if c.None? then w else AfterStretch(w, tid, c.value, e.Resume? && e.walletReady, lookupTid)
  }

  // ---- Calls and process life ----

  function CallSubmit(env: Env, w: World, pid: nat, tid: nat, input: SubmitInput, warm: bool, now: int): (w': World)
    ensures w'.table == w.table && w'.directPays == w.directPays
    ensures w.answers <= w'.answers
  {
    if !Runs(w, pid) || tid in w.tasks then w
    else
      var (s', d) := Submit(env, w.processes[pid].service, input, now, tid);
      var w1 := w.(processes := w.processes[pid := Process(true, s')]);
      match d
      case AnswerNow(r) => w1.(answers := w.answers + {r})
      case JoinFlight(_) => w1
      case Launch(request) =>
        w1.(tasks := w.tasks[tid := Task(pid, RunTask, request.requestId, Inserting(request, warm))])
  }

  function CallStatus(w: World, pid: nat, tid: nat, requestId: string, now: int): (w': World)
    ensures w'.table == w.table && w'.directPays == w.directPays
    ensures w.answers <= w'.answers
  {
    if !Runs(w, pid) || tid in w.tasks then w
    else
      var id := ToLower(requestId);
      var (s', start) := BeginStatus(w.processes[pid].service, id, now);
      var w1 := w.(processes := w.processes[pid := Process(true, s')]);
      match start
      case StatusAnswer(r) => w1.(answers := w.answers + {r})
      case ReadJournal(active) => w1.(tasks := w.tasks[tid := Task(pid, StatusTask, id, ReadingStatus(active))])
  }

  function CleanUp(w: World, tid: nat): (w': World)
    ensures w'.table == w.table && w'.directPays == w.directPays
    ensures w.answers <= w'.answers
  {
    if tid !in w.tasks || !Runs(w, w.tasks[tid].process) || !w.tasks[tid].pc.Settled? then w
    else
      var task := w.tasks[tid];
      var s := w.processes[task.process].service;
      var s' := match task.kind
                case RunTask => FinishRun(s, task.id, tid)
                case StatusTask => s
                case LookupTask => FinishLookup(s, task.id);
      w.(processes := w.processes[task.process := Process(true, s')])
  }

  /** A process starts with recovery over the whole table, before it serves anything. */
  function StartProcess(w: World, pid: nat, now: int): World {
    if pid in w.processes then w
    else w.(table := Recover(w.table, now), processes := w.processes[pid := Process(true, EMPTY_SERVICE)])
  }

  function CrashProcess(w: World, pid: nat): World {
    if pid !in w.processes then w
    else w.(processes := w.processes[pid := w.processes[pid].(alive := false)])
  }

  function SweepProcess(w: World, pid: nat, now: int): World {
    if !Runs(w, pid) then w
    else w.(processes := w.processes[pid := Process(true, SweepExpired(w.processes[pid].service, now))])
  }

  /** A payment_sent notification: only a preimage that verifies reaches the table. */
  function Notify(env: Env, w: World, walletId: string, paymentHash: string, preimage: string, fees: Json,
          now: int): World {
    if !VerifyPreimage(env, preimage, paymentHash) then w
    else w.(table := Resolve(w.table, walletId, paymentHash, preimage,
                             if fees.JInteger? && SafeAmount(fees.value) then Some(fees.value) else None, now))
  }

  /** A caller told `not_started` pays by itself, once. */
  predicate MayPayDirectly(w: World, id: string) {
    w.directPays[id] == 0
    && exists r :: r in w.answers && r.requestId == id && r.NotPaid? && r.status.StatusNotStarted?
  }

  function PayDirectly(w: World, id: string): World {
    if MayPayDirectly(w, id) then w.(directPays := w.directPays[id := 1]) else w
  }

  // ---- Runs ----

  datatype Action =
    | DoStart(pid: nat, now: int)
    | DoCrash(pid: nat)
    | DoSubmit(pid: nat, tid: nat, input: SubmitInput, warm: bool, now: int)
    | DoStatus(pid: nat, tid: nat, requestId: string, now: int)
    | DoStatement(tid: nat, fault: Fault, now: int)
    | DoContinue(tid: nat, event: Event, now: int, lookupTid: nat)
    | DoCleanUp(tid: nat)
    | DoSweep(pid: nat, now: int)
    | DoNotify(walletId: string, paymentHash: string, preimage: string, fees: Json, now: int)
    | DoDirectPay(id: string)

  /** A disabled action leaves the world unchanged. */
  function Step(env: Env, w: World, a: Action): World {
    match a
    case DoStart(pid, now) => StartProcess(w, pid, now)
    case DoCrash(pid) => CrashProcess(w, pid)
    case DoSubmit(pid, tid, input, warm, now) => CallSubmit(env, w, pid, tid, input, warm, now)
    case DoStatus(pid, tid, requestId, now) => CallStatus(w, pid, tid, requestId, now)
    case DoStatement(tid, fault, now) => ExecuteStatement(w, tid, fault, now)
    case DoContinue(tid, event, now, lookupTid) => ContinueTask(env, w, tid, event, now, lookupTid)
    case DoCleanUp(tid) => CleanUp(w, tid)
    case DoSweep(pid, now) => SweepProcess(w, pid, now)
    case DoNotify(walletId, hash, preimage, fees, now) => Notify(env, w, walletId, hash, preimage, fees, now)
    case DoDirectPay(id) => PayDirectly(w, id)
  }

  function Run(env: Env, w: World, trace: seq<Action>): World
    decreases |trace|
  {
    if trace == [] then w else Run(env, Step(env, w, trace[0]), trace[1..])
  }
}
