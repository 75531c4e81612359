/**
 The pure parts of the payment service: what the wallet's answers mean, how an
 outcome becomes a journal completion and a response, and how a stored row is
 read back.
 */
module Payments {
  import opened Common
  import opened Hex
  import opened Journal

  /** Hash functions, the BOLT 11 decoder and the cache lifetime: fixed, otherwise arbitrary. */
  datatype Env = Env(
    sha256: seq<byte> -> seq<byte>,
    textSha256: string -> seq<byte>,
    decodedPaymentHash: string -> Option<string>,
    terminalCacheMs: int)

  datatype Status = StatusPending | StatusUnknown | StatusRejected | StatusNotStarted

  datatype PayError = PayError(code: ErrorCode, message: string, walletErrorCode: Option<string>)

  datatype Response =
    | Paid(requestId: string, preimage: string, feesPaidMsats: int)
    | NotPaid(requestId: string, status: Status, error: Option<PayError>)

  const MAX_SAFE_INTEGER := 0x1F_FFFF_FFFF_FFFF

  predicate SafeAmount(n: int) {
    0 <= n <= MAX_SAFE_INTEGER
  }

  /** `verifyPaymentPreimage`. */
  predicate VerifyPreimage(env: Env, preimage: string, paymentHash: string) {
    IsHex64(preimage) && IsHex64(paymentHash) && env.sha256(FromHex(preimage)) == FromHex(paymentHash)
  }

  /** A preimage proves a payment whatever the letter case of either text. */
  lemma VerifyIgnoresCase(env: Env, preimage: string, paymentHash: string)
    ensures VerifyPreimage(env, ToLower(preimage), paymentHash) == VerifyPreimage(env, preimage, paymentHash)
    ensures VerifyPreimage(env, preimage, ToLower(paymentHash)) == VerifyPreimage(env, preimage, paymentHash)
  {
    LowerKeepsHex(preimage);
    LowerKeepsHex(paymentHash);
    FromHexIgnoresCase(preimage);
    FromHexIgnoresCase(paymentHash);
  }

  // ---- Wallet answers ----

  /** The JSON values the parser tells apart. */
  datatype Json = JText(text: string) | JInteger(value: int) | JOther

  datatype RawResult = NotAnObject | Object(preimage: Json, feesPaid: Json, state: Json)

  datatype Parsed = Parsed(preimage: Option<string>, feesPaidMsats: int, state: Option<string>)

  /** `parsePaymentResult`: anything malformed is dropped, never trusted. */
  function ParsePaymentResult(raw: RawResult): (p: Parsed)
    ensures SafeAmount(p.feesPaidMsats)
    ensures p.preimage.Some? <==> raw.Object? && raw.preimage.JText?
    ensures p.preimage.Some? ==> raw.preimage == JText(p.preimage.value)
    ensures raw.Object? && raw.feesPaid.JInteger? && SafeAmount(raw.feesPaid.value) ==>
            p.feesPaidMsats == raw.feesPaid.value
    ensures p.feesPaidMsats != 0 ==> raw.Object? && raw.feesPaid == JInteger(p.feesPaidMsats)
    ensures p.state.Some? <==> raw.Object? && raw.state.JText?
    ensures p.state.Some? ==> raw.state == JText(p.state.value)
  {
    match raw
    case NotAnObject => Parsed(None, 0, None)
    case Object(preimage, fees, state) =>
      Parsed(if preimage.JText? then Some(preimage.text) else None,
             if fees.JInteger? && SafeAmount(fees.value) then fees.value else 0,
             if state.JText? then Some(state.text) else None)
  }

  /** How a call into the wallet SDK can end. */
  datatype SdkReply =
    | SdkResult(raw: RawResult)
    | SdkWalletRejection(message: string, code: string)
    | SdkTimeout(message: string)
    | SdkFailure(message: string)

  datatype PoolErrorCode = PoolWalletNotFound | PoolWalletNotConnected | PoolWalletError | PoolTimeout | PoolRelayError

  datatype PoolError = PoolError(code: PoolErrorCode, message: string, walletErrorCode: Option<string>)

  /** The pool's readiness gate in front of every SDK call. */
  datatype Gate = GateOpen | GateNoWallet(message: string) | GateNotConnected(message: string)

  /** `requireReady`: the error thrown while the SDK has not been touched. */
  function GateError(gate: Gate): (e: PoolError)
    requires !gate.GateOpen?
    ensures BeforeDispatch(e)
  {
    match gate
    case GateNoWallet(m) => PoolError(PoolWalletNotFound, m, None)
    case GateNotConnected(m) => PoolError(PoolWalletNotConnected, m, None)
  }

  /** The two codes the payment service reads as "the SDK was not invoked". */
  predicate BeforeDispatch(e: PoolError) {
    e.code.PoolWalletNotFound? || e.code.PoolWalletNotConnected?
  }

  /** `mapSdkError`: an error after the SDK was invoked never carries a pre-dispatch code. */
  function MapSdkError(reply: SdkReply): (e: PoolError)
    requires !reply.SdkResult?
    ensures !BeforeDispatch(e)
    ensures e.code.PoolWalletError? <==> reply.SdkWalletRejection?
  {
    match reply
    case SdkWalletRejection(m, c) => PoolError(PoolWalletError, m, Some(c))
    case SdkTimeout(m) => PoolError(PoolTimeout, m, None)
    case SdkFailure(m) => PoolError(PoolRelayError, m, None)
  }

  // ---- Outcomes ----

  /** The arguments of `transition`: a journal update and the answer intended if it wins. */
  datatype Transition = Transition(requestId: string, payloadHash: string, completion: Completion, intended: Response)

  function UnknownResponse(requestId: string, message: string): Response {
    NotPaid(requestId, StatusUnknown, Some(PayError(RelayError, message, None)))
  }

  function ConflictResponse(requestId: string): Response {
    NotPaid(requestId, StatusRejected,
            Some(PayError(RequestConflict, "requestId is already bound to a different payment payload", None)))
  }

  function Truthy(text: Option<string>): Option<string> {
    if text.Some? && text.value != "" then text else None
  }

  function UnknownOutcome(r: NewRequest, message: string): Transition {
    Transition(r.requestId, r.payloadHash,
               CompletionRecord(Unknown, None, None, Some(RelayError), Some(message), None),
               UnknownResponse(r.requestId, message))
  }

  function NotStartedOutcome(r: NewRequest, code: ErrorCode, message: string): Transition {
    Transition(r.requestId, r.payloadHash,
               CompletionRecord(NotStarted, None, None, Some(code), Some(message), None),
               NotPaid(r.requestId, StatusNotStarted, Some(PayError(code, message, None))))
  }

  function RejectedOutcome(r: NewRequest, message: string, walletErrorCode: Option<string>): Transition {
    Transition(r.requestId, r.payloadHash,
               CompletionRecord(Rejected, None, None, Some(WalletError), Some(message), walletErrorCode),
               NotPaid(r.requestId, StatusRejected, Some(PayError(WalletError, message, Truthy(walletErrorCode)))))
  }

  function SucceededOutcome(r: NewRequest, preimage: string, fees: int): Transition {
    Transition(r.requestId, r.payloadHash,
               CompletionRecord(Succeeded, Some(ToLower(preimage)), Some(fees), None, None, None),
               Paid(r.requestId, ToLower(preimage), fees))
  }

  /** `handleDispatchError`. */
  function DispatchErrorOutcome(r: NewRequest, e: PoolError): (t: Transition)
    ensures t.completion.state.NotStarted? <==> BeforeDispatch(e)
    ensures !t.completion.state.Succeeded?
  {
    match e.code
    case PoolWalletError => RejectedOutcome(r, e.message, e.walletErrorCode)
    case PoolWalletNotFound => NotStartedOutcome(r, WalletNotFound, e.message)
    case PoolWalletNotConnected => NotStartedOutcome(r, WalletNotReady, e.message)
    case _ => UnknownOutcome(r, e.message)
  }

  /** What `run` does with the answer of `pay_invoice`. */
  function SdkOutcome(env: Env, r: NewRequest, reply: SdkReply): (t: Transition)
    ensures !t.completion.state.NotStarted?
    ensures t.completion.state.Rejected? <==> reply.SdkWalletRejection?
    ensures t.completion.state.Succeeded?
            <==> && reply.SdkResult? && reply.raw.Object? && reply.raw.preimage.JText?
                 && reply.raw.preimage.text != "" && VerifyPreimage(env, reply.raw.preimage.text, r.paymentHash)
    ensures t.completion.state.Succeeded? ==> t.completion.preimage == Some(ToLower(reply.raw.preimage.text))
  {
    if !reply.SdkResult? then DispatchErrorOutcome(r, MapSdkError(reply))
    else
      var parsed := ParsePaymentResult(reply.raw);
      if parsed.preimage.None? || parsed.preimage.value == "" then
        UnknownOutcome(r, "Wallet returned no payment preimage")
      else if !VerifyPreimage(env, parsed.preimage.value, r.paymentHash) then
        UnknownOutcome(r, "Wallet returned a preimage that does not match the payment hash")
      else SucceededOutcome(r, parsed.preimage.value, parsed.feesPaidMsats)
  }

  /** What `reconcileWithLookup` does with the answer of `lookup_invoice`; None leaves the journal alone. */
  function LookupOutcome(env: Env, stored: Row, allowTerminalFailure: bool, raw: RawResult): (t: Option<Transition>)
    ensures t.Some? ==> t.value.completion.state.Succeeded? || t.value.completion.state.Rejected?
    ensures t.Some? && t.value.completion.state.Rejected?
            <==> allowTerminalFailure && raw.Object? && raw.state == JText("failed")
    ensures t.Some? && t.value.completion.state.Succeeded?
            <==> && raw.Object? && raw.state != JText("failed") && raw.preimage.JText?
                 && VerifyPreimage(env, raw.preimage.text, stored.request.paymentHash)
    ensures t.Some? && t.value.completion.state.Succeeded? ==>
              t.value.completion.preimage == Some(ToLower(raw.preimage.text))
  {
    var parsed := ParsePaymentResult(raw);
    if parsed.state == Some("failed") then
      if allowTerminalFailure
      then Some(RejectedOutcome(stored.request, "Wallet lookup reports payment failed", None))
      else None
    else if parsed.preimage.Some? && VerifyPreimage(env, parsed.preimage.value, stored.request.paymentHash) then
      Some(SucceededOutcome(stored.request, parsed.preimage.value, parsed.feesPaidMsats))
    else None
  }

  // ---- Reading a row back ----

  /** The reader's treatment of the fee column: out-of-range values read as absent. */
  function StoredFees(row: Row): int {
    if row.feesPaidMsats.Some? && SafeAmount(row.feesPaidMsats.value) then row.feesPaidMsats.value else 0
  }

  function StoredStatus(s: RowState): Status {
    match s
    case Pending => StatusPending
    case Succeeded => StatusUnknown
    case Rejected => StatusRejected
    case Unknown => StatusUnknown
    case NotStarted => StatusNotStarted
  }

  /** `responseFromStored`: a stored success is believed only if its preimage still verifies. */
  function ResponseFromStored(env: Env, row: Row): (r: Response)
    ensures r.requestId == row.request.requestId
    ensures r.Paid? ==> row.state.Succeeded? && VerifyPreimage(env, r.preimage, row.request.paymentHash)
    ensures r.NotPaid? && r.status.StatusNotStarted? <==> row.state.NotStarted?
    ensures r.NotPaid? && r.status.StatusRejected? <==> row.state.Rejected?
  {
    if row.state.Succeeded? && row.preimage.Some?
      && VerifyPreimage(env, row.preimage.value, row.request.paymentHash) then
      VerifyIgnoresCase(env, row.preimage.value, row.request.paymentHash);
      Paid(row.request.requestId, ToLower(row.preimage.value), StoredFees(row))
    else
      NotPaid(row.request.requestId, StoredStatus(row.state),
              if Truthy(row.errorMessage).None? then None
              else Some(PayError(OrElse(row.errorCode, RelayError), row.errorMessage.value,
                                 Truthy(row.walletErrorCode))))
  }

  // ---- Answers that are final ----

  /** An error made up by the service without a journal row behind it. */
  predicate JournalFree(e: PayError) {
    e.code.ValidationError? || e.code.RequestConflict? || e.code.RequestNotFound?
  }

  /** The answers a caller may act on for good: success, rejection by the wallet, never started. */
  predicate FinalAnswer(r: Response) {
    match r
    case Paid(_, _, _) => true
    case NotPaid(_, status, error) =>
      status.StatusNotStarted? || (status.StatusRejected? && !(error.Some? && JournalFree(error.value)))
  }

  /** The answer carries an error whose message is the empty string, which a re-read would drop. */
  predicate BlankMessage(r: Response) {
    r.NotPaid? && r.error.Some? && r.error.value.message == ""
  }

  /** The row behind a final answer, and the answer itself up to a blank error message. */
  predicate Reflects(env: Env, row: Row, r: Response) {
    && Terminal(row.state)
    && r.requestId == row.request.requestId
    && var reread := ResponseFromStored(env, row);
       if BlankMessage(r)
       then reread == r.(error := None)
       else reread == r
  }

  /** A row that a success may be told from: the preimage hashes to the payment hash. */
  predicate Proved(env: Env, row: Row) {
    && row.preimage.Some?
    && ToLower(row.preimage.value) == row.preimage.value
    && VerifyPreimage(env, row.preimage.value, row.request.paymentHash)
    && row.feesPaidMsats.Some?
    && SafeAmount(row.feesPaidMsats.value)
  }

  predicate RowOk(env: Env, row: Row) {
    && (row.state.Succeeded? ==> Proved(env, row))
    && (row.errorCode.Some? ==> !row.errorCode.value.ValidationError? && !row.errorCode.value.RequestConflict?
                                && !row.errorCode.value.RequestNotFound?)
  }

  /** A transition built for the operation of `r`. */
  ghost predicate TransitionFits(env: Env, r: NewRequest, t: Transition) {
    && t.requestId == r.requestId
    && t.payloadHash == r.payloadHash
    && t.intended.requestId == r.requestId
    && (t.completion.errorCode.Some? ==> !JournalFree(PayError(t.completion.errorCode.value, "", None)))
    && (FinalAnswer(t.intended) <==> Terminal(t.completion.state))
    && (!Terminal(t.completion.state) ==> t.intended.NotPaid? && t.intended.status.StatusUnknown?)
    && (forall row: Row, now: int :: row.request == r ==> TransitionLands(env, CompletedRow(row, t.completion, now), t))
  }

  /** The row after the update is sound, and a final intended answer is the one the row tells. */
  predicate TransitionLands(env: Env, after: Row, t: Transition) {
    RowOk(env, after) && (Terminal(t.completion.state) ==> Reflects(env, after, t.intended))
  }

  /** Every outcome the service builds fits the row of its operation. */
  lemma OutcomesFit(env: Env, r: NewRequest, code: ErrorCode, message: string, walletErrorCode: Option<string>)
    requires code.WalletNotFound? || code.WalletNotReady?
    ensures TransitionFits(env, r, UnknownOutcome(r, message))
    ensures TransitionFits(env, r, NotStartedOutcome(r, code, message))
    ensures TransitionFits(env, r, RejectedOutcome(r, message, walletErrorCode))
  {
  }

  lemma SucceededOutcomeFits(env: Env, r: NewRequest, preimage: string, fees: int)
    requires VerifyPreimage(env, preimage, r.paymentHash) && SafeAmount(fees)
    ensures TransitionFits(env, r, SucceededOutcome(r, preimage, fees))
  {
    VerifyIgnoresCase(env, preimage, r.paymentHash);
    LowerKeepsHex(preimage);
  }

  /** Whatever the wallet answers, the resulting transition fits the row. */
  lemma SdkOutcomeFits(env: Env, r: NewRequest, reply: SdkReply)
    ensures TransitionFits(env, r, SdkOutcome(env, r, reply))
  {
    match reply
    case SdkWalletRejection(message, code) =>
      OutcomesFit(env, r, WalletNotReady, message, Some(code));
    case SdkTimeout(message) =>
      OutcomesFit(env, r, WalletNotReady, message, None);
    case SdkFailure(message) =>
      OutcomesFit(env, r, WalletNotReady, message, None);
    case SdkResult(raw) =>
      SdkResultFits(env, r, raw);
  }

  lemma SdkResultFits(env: Env, r: NewRequest, raw: RawResult)
    ensures TransitionFits(env, r, SdkOutcome(env, r, SdkResult(raw)))
  {
    var parsed := ParsePaymentResult(raw);
    if parsed.preimage.None? || parsed.preimage.value == "" {
      OutcomesFit(env, r, WalletNotReady, "Wallet returned no payment preimage", None);
    } else if !VerifyPreimage(env, parsed.preimage.value, r.paymentHash) {
      OutcomesFit(env, r, WalletNotReady, "Wallet returned a preimage that does not match the payment hash", None);
    } else {
      SucceededOutcomeFits(env, r, parsed.preimage.value, parsed.feesPaidMsats);
    }
  }

  /**
   A lookup reaches a conclusion exactly when it may believe the failure reported, or when no failure
   is reported and the preimage is that of the payment; its conclusion fits the row.
   */
  lemma LookupOutcomeFits(env: Env, stored: Row, allowTerminalFailure: bool, raw: RawResult)
    ensures var t := LookupOutcome(env, stored, allowTerminalFailure, raw);
            && (t.Some? <==> && raw.Object?
                             && if raw.state == JText("failed") then allowTerminalFailure
                                else raw.preimage.JText?
                                     && VerifyPreimage(env, raw.preimage.text, stored.request.paymentHash))
            && (t.Some? ==> TransitionFits(env, stored.request, t.value))
  {
    if LookupOutcome(env, stored, allowTerminalFailure, raw).Some? {
      var parsed := ParsePaymentResult(raw);
      if parsed.state == Some("failed") {
        OutcomesFit(env, stored.request, WalletNotReady, "Wallet lookup reports payment failed", None);
      } else {
        SucceededOutcomeFits(env, stored.request, parsed.preimage.value, parsed.feesPaidMsats);
      }
    }
  }

  /** A failure before the SDK is invoked becomes `NotStarted`, and it fits too. */
  lemma GateOutcomeFits(env: Env, r: NewRequest, gate: Gate)
    requires !gate.GateOpen?
    ensures TransitionFits(env, r, DispatchErrorOutcome(r, GateError(gate)))
    ensures DispatchErrorOutcome(r, GateError(gate)).completion.state.NotStarted?
  {
    var e := GateError(gate);
    OutcomesFit(env, r, if gate.GateNoWallet? then WalletNotFound else WalletNotReady, e.message, None);
  }

  /** The answer of a final row is final and is its own re-reading. */
  lemma StoredAnswerReflects(env: Env, row: Row)
    requires RowOk(env, row)
    ensures FinalAnswer(ResponseFromStored(env, row)) <==> Terminal(row.state)
    ensures Terminal(row.state) ==> Reflects(env, row, ResponseFromStored(env, row))
  {
  }

  /** A final answer equals what re-reading the row gives exactly when its error message is not blank. */
  lemma ReflectsExactly(env: Env, row: Row, r: Response)
    requires Reflects(env, row, r)
    ensures ResponseFromStored(env, row) == r <==> !BlankMessage(r)
  {
  }

  /**
   The blank-message case happens: a wallet rejection without text, answered one way live and another
   way from the row.
   */
  lemma BlankRejectionDiffers(env: Env, r: NewRequest, now: int)
    ensures var t := SdkOutcome(env, r, SdkWalletRejection("", "INTERNAL"));
            var row := CompletedRow(FreshRow(r, true, now), t.completion, now);
            t.intended.error.Some? && ResponseFromStored(env, row).NotPaid? && ResponseFromStored(env, row).error.None?
  {
  }
}
