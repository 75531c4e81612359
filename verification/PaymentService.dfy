/**
 The in-memory side of the payment service: the registry of running operations,
 the registry of lookups and the terminal cache. The functions say what one
 uninterrupted stretch of code does; the class does it in place.
 */
module PaymentService {
  import opened Common
  import opened Hex
  import opened Journal
  import opened Encodings
  import opened Payments

  /** A running `submit`: `task` identifies the promise every duplicate shares. */
  datatype Flight = Flight(payloadHash: string, task: nat)

  datatype Cached = Cached(payloadHash: string, response: Response, expiresAt: int)

  datatype Service = Service(
    inFlight: map<string, Flight>, lookupFlights: map<string, nat>, terminalCache: map<string, Cached>)

  datatype SubmitInput = SubmitInput(
    requestId: string, walletId: string, invoice: string, paymentHash: string,
    attemptNo: Option<nat>, scope: Option<string>)

  /** A submit answers at once, joins a running operation, or launches one. */
  datatype Decision = AnswerNow(response: Response) | JoinFlight(task: nat) | Launch(request: NewRequest)

  datatype StatusStart = StatusAnswer(response: Response) | ReadJournal(active: bool)

  // ---- Terminal cache ----

  /** `getCached`: a live entry, or None. */
  function LiveEntry(s: Service, id: string, now: int): Option<Cached> {
    if id in s.terminalCache && s.terminalCache[id].expiresAt > now then Some(s.terminalCache[id]) else None
  }

  /** The side effect of `getCached`: an expired entry is deleted. */
  function DropExpired(s: Service, id: string, now: int): Service {
    if LiveEntry(s, id, now).Some? then s else s.(terminalCache := s.terminalCache - {id})
  }

  function CacheTerminal(env: Env, s: Service, payloadHash: string, response: Response, now: int): Service {
    if response.NotPaid? && (response.status.StatusPending? || response.status.StatusUnknown?) then s
    else
      var entry := Cached(payloadHash, response, now + env.terminalCacheMs);
      s.(terminalCache := s.terminalCache[response.requestId := entry])
  }

  function SweepExpired(s: Service, now: int): Service {
    s.(terminalCache := map id | id in s.terminalCache && s.terminalCache[id].expiresAt > now :: s.terminalCache[id])
  }

  // ---- submit ----

  function ExpectedRequestId(env: Env, input: SubmitInput): string {
    ToHex(env.textSha256(RequestIdText(input.walletId, input.paymentHash, input.attemptNo, input.scope)))
  }

  /** `safeHexEqual`. */
  predicate SafeHexEqual(a: string, b: string) {
    IsHex64(a) && IsHex64(b) && FromHex(a) == FromHex(b)
  }

  /** `paymentHashFromInvoice`. */
  function PaymentHashFromInvoice(env: Env, invoice: string): Option<string> {
    var h := env.decodedPaymentHash(invoice);
    if h.Some? && IsHex64(h.value) then Some(ToLower(h.value)) else None
  }

  function ValidationFailure(requestId: string, message: string): Response {
    NotPaid(requestId, StatusRejected, Some(PayError(ValidationError, message, None)))
  }

  function Normalized(env: Env, input: SubmitInput): NewRequest {
    var hash := ToLower(input.paymentHash);
    NewRequest(ToLower(input.requestId), input.walletId, input.invoice, hash,
               ToHex(env.textSha256(PayloadText(input.walletId, input.invoice, hash))))
  }

  /** The checks in front of the registries; None means the input may go on. */
  function Refusal(env: Env, input: SubmitInput): Option<Response> {
    var id := ToLower(input.requestId);
    var hash := ToLower(input.paymentHash);
    var invoiceHash := PaymentHashFromInvoice(env, input.invoice);
    if !SafeHexEqual(id, ExpectedRequestId(env, input)) then
      Some(ValidationFailure(id, "requestId does not match the deterministic payment operation"))
    else if invoiceHash != Some(hash) then
      Some(ValidationFailure(id, if invoiceHash.Some? then "invoice payment hash does not match paymentHash"
                                 else "invoice is malformed or has no payment hash"))
    else None
  }

  /** The synchronous part of `submit`; `task` names the promise if one is launched. */
  function Submit(env: Env, s: Service, input: SubmitInput, now: int, task: nat): (r: (Service, Decision))
    ensures r.1.JoinFlight? ==> var id := ToLower(input.requestId);
                                id in s.inFlight && s.inFlight[id].task == r.1.task
                                && s.inFlight[id].payloadHash == Normalized(env, input).payloadHash
    ensures r.1.Launch? ==> && r.1.request == Normalized(env, input)
                            && r.1.request.requestId !in s.inFlight
                            && r.0.inFlight
                               == s.inFlight[r.1.request.requestId := Flight(r.1.request.payloadHash, task)]
    ensures !r.1.Launch? ==> r.0.inFlight == s.inFlight
    ensures r.0.lookupFlights == s.lookupFlights
  {
    var refusal := Refusal(env, input);
    if refusal.Some? then (s, AnswerNow(refusal.value))
    else
      var request := Normalized(env, input);
      var id := request.requestId;
      var cached := LiveEntry(s, id, now);
      var s' := DropExpired(s, id, now);
      if cached.Some? then
        (s', AnswerNow(if cached.value.payloadHash == request.payloadHash then cached.value.response
                       else ConflictResponse(id)))
      else if id in s.inFlight then
        (s', if s.inFlight[id].payloadHash == request.payloadHash then JoinFlight(s.inFlight[id].task)
             else AnswerNow(ConflictResponse(id)))
      else (s'.(inFlight := s.inFlight[id := Flight(request.payloadHash, task)]), Launch(request))
  }

  /** The synchronous part of `status`: `active` is sampled before the journal is read. */
  function BeginStatus(s: Service, id: string, now: int): (Service, StatusStart) {
    var cached := LiveEntry(s, id, now);
    (DropExpired(s, id, now), if cached.Some? then StatusAnswer(cached.value.response)
     else ReadJournal(id in s.inFlight))
  }

  /** `startLookupRecovery`: at most one lookup per request id, and only on a ready wallet. */
  function StartLookup(s: Service, id: string, ready: bool, task: nat): (r: (Service, bool))
    ensures r.1 <==> ready && id !in s.lookupFlights
    ensures r.0.inFlight == s.inFlight && r.0.terminalCache == s.terminalCache
  {
    if ready && id !in s.lookupFlights then (s.(lookupFlights := s.lookupFlights[id := task]), true) else (s, false)
  }

  /** The cleanup attached to a settled run: it removes its own entry and nobody else's. */
  function FinishRun(s: Service, id: string, task: nat): Service {
    if id in s.inFlight && s.inFlight[id].task == task then s.(inFlight := s.inFlight - {id}) else s
  }

  function FinishLookup(s: Service, id: string): Service {
    s.(lookupFlights := s.lookupFlights - {id})
  }

  lemma IdsAgree(id: string, expected: string)
    requires SafeHexEqual(id, expected)
    ensures ToLower(id) == ToLower(expected)
  {
    ToHexFromHex(id);
    ToHexFromHex(expected);
  }

  /** A valid request's row is bound to the invoice: the id and the payment hash are those of the input. */
  lemma AcceptedInputIsBound(env: Env, input: SubmitInput)
    requires Refusal(env, input).None?
    ensures Normalized(env, input).requestId == ToLower(ExpectedRequestId(env, input)) == ExpectedRequestId(env, input)
    ensures env.decodedPaymentHash(input.invoice).Some?
    ensures Normalized(env, input).paymentHash == ToLower(env.decodedPaymentHash(input.invoice).value)
  {
    hide SafeHexEqual, RequestIdText;
    IdsAgree(ToLower(input.requestId), ExpectedRequestId(env, input));
    ToHexIsLower(env.textSha256(RequestIdText(input.walletId, input.paymentHash, input.attemptNo, input.scope)));
    LowerKeepsHex(input.requestId);
  }

  /** A submit is accepted exactly when its id hashes its operation and its invoice carries its payment hash. */
  lemma AcceptedExactly(env: Env, input: SubmitInput)
    ensures Refusal(env, input).None?
            <==> && IsHex64(input.requestId)
                 && FromHex(input.requestId)
                    == env.textSha256(RequestIdText(input.walletId, input.paymentHash, input.attemptNo, input.scope))
                 && env.decodedPaymentHash(input.invoice).Some?
                 && IsHex64(env.decodedPaymentHash(input.invoice).value)
                 && ToLower(env.decodedPaymentHash(input.invoice).value) == ToLower(input.paymentHash)
    ensures Refusal(env, input).Some? ==>
              var r := Refusal(env, input).value;
              && r.NotPaid? && r.requestId == ToLower(input.requestId) && r.status == StatusRejected
              && r.error.Some? && r.error.value.code == ValidationError
  {
    hide RequestIdText;
    var hash := env.textSha256(RequestIdText(input.walletId, input.paymentHash, input.attemptNo, input.scope));
    FromHexToHex(hash);
    LowerKeepsHex(input.requestId);
    FromHexIgnoresCase(input.requestId);
    if IsHex64(input.requestId) {
      ToHexFromHex(input.requestId);
    }
  }

  /** Payload hashes tell payloads apart, as far as the hash function tells their texts apart. */
  lemma PayloadsToldApart(env: Env, a: SubmitInput, b: SubmitInput)
    requires var s, t := PayloadText(a.walletId, a.invoice, ToLower(a.paymentHash)),
                         PayloadText(b.walletId, b.invoice, ToLower(b.paymentHash));
             env.textSha256(s) == env.textSha256(t) ==> s == t
    ensures Normalized(env, a).payloadHash == Normalized(env, b).payloadHash
            <==> a.walletId == b.walletId && a.invoice == b.invoice && ToLower(a.paymentHash) == ToLower(b.paymentHash)
  {
    hide PayloadText;
    var s, t := PayloadText(a.walletId, a.invoice, ToLower(a.paymentHash)),
                PayloadText(b.walletId, b.invoice, ToLower(b.paymentHash));
    FromHexToHex(env.textSha256(s));
    FromHexToHex(env.textSha256(t));
    LowerKeepsHex(a.paymentHash);
    LowerKeepsHex(b.paymentHash);
    PayloadTextInjective(a.walletId, a.invoice, ToLower(a.paymentHash), b.walletId, b.invoice, ToLower(b.paymentHash));
  }

  /** And request ids tell accepted operations apart, up to a scope of digits read as an attempt number. */
  lemma RequestsToldApart(env: Env, a: SubmitInput, b: SubmitInput)
    requires Refusal(env, a).None? && Refusal(env, b).None?
    requires Lacks(a.walletId, '|') && Lacks(b.walletId, '|')
    requires (a.scope.Some? ==> Lacks(a.scope.value, '|')) && (b.scope.Some? ==> Lacks(b.scope.value, '|'))
    requires var s, t := RequestIdText(a.walletId, a.paymentHash, a.attemptNo, a.scope),
                         RequestIdText(b.walletId, b.paymentHash, b.attemptNo, b.scope);
             env.textSha256(s) == env.textSha256(t) ==> s == t
    ensures Normalized(env, a).requestId == Normalized(env, b).requestId
            <==> && a.walletId == b.walletId && ToLower(a.paymentHash) == ToLower(b.paymentHash)
                 && ((a.scope == b.scope && a.attemptNo == b.attemptNo)
                     || Confusable(a.scope, a.attemptNo, b.scope, b.attemptNo)
                     || Confusable(b.scope, b.attemptNo, a.scope, a.attemptNo))
  {
    hide RequestIdText, Refusal, Confusable, PayloadText;
    AcceptedExactly(env, a);
    AcceptedExactly(env, b);
    HashIsHex(env, a);
    HashIsHex(env, b);
    FromHexIgnoresCase(a.requestId);
    FromHexIgnoresCase(b.requestId);
    ToHexFromHex(a.requestId);
    ToHexFromHex(b.requestId);
    RequestIdTextUnique(a.walletId, a.paymentHash, a.attemptNo, a.scope, b.walletId, b.paymentHash, b.attemptNo,
                        b.scope);
  }

  lemma HashIsHex(env: Env, input: SubmitInput)
    requires Refusal(env, input).None?
    ensures AllHex(input.paymentHash)
  {
    hide RequestIdText, SafeHexEqual;
    LowerKeepsHex(env.decodedPaymentHash(input.invoice).value);
    LowerKeepsHex(input.paymentHash);
  }

  // ---- The service, changed in place ----

  class NwcPaymentService {
    var inFlight: map<string, Flight>
    var lookupFlights: map<string, nat>
    var terminalCache: map<string, Cached>

    ghost function State(): Service
      reads this
    {
      Service(inFlight, lookupFlights, terminalCache)
    }

    constructor ()
      ensures State() == Service(map[], map[], map[])
    {
      inFlight, lookupFlights, terminalCache := map[], map[], map[];
    }

    method GetCached(id: string, now: int) returns (cached: Option<Cached>)
      modifies this`terminalCache
      ensures cached == LiveEntry(old(State()), id, now)
      ensures State() == DropExpired(old(State()), id, now)
      ensures cached == if id in old(terminalCache) && now < old(terminalCache)[id].expiresAt
                        then Some(old(terminalCache)[id]) else None
      ensures terminalCache == if cached.Some? then old(terminalCache) else old(terminalCache) - {id}
    {
      if id !in terminalCache {
        assert terminalCache - {id} == terminalCache;
        return None;
      }
      if terminalCache[id].expiresAt <= now {
        terminalCache := terminalCache - {id};
        return None;
      }
      return Some(terminalCache[id]);
    }

    method SubmitPayment(env: Env, input: SubmitInput, now: int, task: nat) returns (d: Decision)
      modifies this
      ensures (State(), d) == Submit(env, old(State()), input, now, task)
      ensures Refusal(env, input).Some? ==> d == AnswerNow(Refusal(env, input).value) && State() == old(State())
      ensures Refusal(env, input).None? ==>
                var r := Normalized(env, input);
                var id := r.requestId;
                d == if id in old(terminalCache) && now < old(terminalCache)[id].expiresAt then
                       AnswerNow(if old(terminalCache)[id].payloadHash == r.payloadHash
                                 then old(terminalCache)[id].response else ConflictResponse(id))
                     else if id in old(inFlight) then
                       if old(inFlight)[id].payloadHash == r.payloadHash then JoinFlight(old(inFlight)[id].task)
                       else AnswerNow(ConflictResponse(id))
                     else Launch(r)
      ensures inFlight == if d.Launch? then old(inFlight)[d.request.requestId := Flight(d.request.payloadHash, task)]
                          else old(inFlight)
    {
      var refusal := Refusal(env, input);
      if refusal.Some? {
        return AnswerNow(refusal.value);
      }
      var request := Normalized(env, input);
      var cached := GetCached(request.requestId, now);
      if cached.Some? {
        return AnswerNow(if cached.value.payloadHash == request.payloadHash
                         then cached.value.response
                         else ConflictResponse(request.requestId));
      }
      if request.requestId in inFlight {
        var active := inFlight[request.requestId];
        return if active.payloadHash == request.payloadHash
               then JoinFlight(active.task)
               else AnswerNow(ConflictResponse(request.requestId));
      }
      inFlight := inFlight[request.requestId := Flight(request.payloadHash, task)];
      return Launch(request);
    }

    method StatusOf(id: string, now: int) returns (start: StatusStart)
      modifies this`terminalCache
      ensures (State(), start) == BeginStatus(old(State()), id, now)
      ensures start == if id in old(terminalCache) && now < old(terminalCache)[id].expiresAt
                       then StatusAnswer(old(terminalCache)[id].response) else ReadJournal(id in old(inFlight))
    {
      var active := id in inFlight;
      var cached := GetCached(id, now);
      return if cached.Some? then StatusAnswer(cached.value.response) else ReadJournal(active);
    }

    method Remember(env: Env, payloadHash: string, response: Response, now: int)
      modifies this`terminalCache
      ensures State() == CacheTerminal(env, old(State()), payloadHash, response, now)
      ensures terminalCache
              == if response.Paid? || response.status.StatusRejected? || response.status.StatusNotStarted?
                 then old(terminalCache)[response.requestId := Cached(payloadHash, response, now + env.terminalCacheMs)]
                 else old(terminalCache)
    {
      if !(response.NotPaid? && (response.status.StatusPending? || response.status.StatusUnknown?)) {
        terminalCache := terminalCache[response.requestId := Cached(payloadHash, response, now + env.terminalCacheMs)];
      }
    }

    /** The timer body: deletes every expired entry and no other. */
    method SweepTerminalCache(now: int)
      modifies this`terminalCache
      ensures State() == SweepExpired(old(State()), now)
      ensures forall id :: id in terminalCache <==> id in old(terminalCache) && now < old(terminalCache)[id].expiresAt
      ensures forall id :: id in terminalCache ==> terminalCache[id] == old(terminalCache)[id]
    {
      var todo := terminalCache.Keys;
      while todo != {}
        invariant todo <= terminalCache.Keys <= old(terminalCache).Keys
        invariant forall id :: id in terminalCache ==> terminalCache[id] == old(terminalCache)[id]
        invariant forall id :: id in old(terminalCache) && id !in todo ==>
                                 (id in terminalCache <==> old(terminalCache)[id].expiresAt > now)
        decreases |todo|
      {
        var id :| id in todo;
        todo := todo - {id};
        if terminalCache[id].expiresAt <= now {
          terminalCache := terminalCache - {id};
        }
      }
      assert terminalCache == SweepExpired(old(State()), now).terminalCache;
    }

    /** The delay of the next sweep timer: the earliest expiry, so no entry is swept early. */
    method NextSweepDelay(now: int) returns (delay: int)
      requires terminalCache != map[]
      ensures delay >= 0
      ensures forall id :: id in terminalCache ==> now + delay <= Max(now, terminalCache[id].expiresAt)
      ensures exists id :: id in terminalCache && now + delay == Max(now, terminalCache[id].expiresAt)
    {
      var first :| first in terminalCache;
      var nextExpiry := terminalCache[first].expiresAt;
      var todo := terminalCache.Keys - {first};
      while todo != {}
        invariant todo <= terminalCache.Keys
        invariant exists id :: id in terminalCache && terminalCache[id].expiresAt == nextExpiry
        invariant forall id :: id in terminalCache && id !in todo ==> nextExpiry <= terminalCache[id].expiresAt
        decreases |todo|
      {
        var id :| id in todo;
        todo := todo - {id};
        nextExpiry := Min(nextExpiry, terminalCache[id].expiresAt);
      }
      delay := Max(0, nextExpiry - now);
    }

    method StartLookupRecovery(id: string, ready: bool, task: nat) returns (started: bool)
      modifies this`lookupFlights
      ensures (State(), started) == StartLookup(old(State()), id, ready, task)
      ensures started <==> ready && id !in old(lookupFlights)
      ensures lookupFlights == if started then old(lookupFlights)[id := task] else old(lookupFlights)
    {
      if !ready || id in lookupFlights {
        return false;
      }
      lookupFlights := lookupFlights[id := task];
      return true;
    }

    method CleanUpRun(id: string, task: nat)
      modifies this`inFlight
      ensures State() == FinishRun(old(State()), id, task)
      ensures inFlight == if id in old(inFlight) && old(inFlight)[id].task == task then old(inFlight) - {id}
                          else old(inFlight)
    {
      if id in inFlight && inFlight[id].task == task {
        inFlight := inFlight - {id};
      }
    }

    method CleanUpLookup(id: string)
      modifies this`lookupFlights
      ensures State() == FinishLookup(old(State()), id)
      ensures lookupFlights == old(lookupFlights) - {id}
    {
      lookupFlights := lookupFlights - {id};
    }
  }
}
