# Payment listener, settings cache and tap signing: a verified model

This project models the parts of LaWallet NWC in which order matters: the
payment listener (`apps/listener`), and two small pieces of the web application
(`apps/web/lib`). It states their guarantees for every run and proves them.

**Payments.** A payment is an operation on one row of a journal table. Any
number of listener processes share the table, each with its own registries and
cache. Every SQL statement is one atomic step, every `await` is a point at which
anything else may happen, and processes may crash at any step; a statement
already issued may still take effect after its process has died, and may fail
with or without having taken effect. `Journal`, `Encodings`, `Payments` and
`PaymentService` hold the statements, the pure functions and the in-memory
service; `PaymentProtocol` is the state machine, `PaymentSafety` its invariant,
`PaymentOrigins` a second one on who may write what, `PaymentTheorems` what
follows for all runs, `PaymentEffects` what each operation does to the journal
and tells its caller, and `PaymentRaces` where the guarantees end.

**Connection pool.** `Reconcile` and `PoolModel` hold one function per
uninterrupted stretch of code: reconciling, the connect queue with its eight
slots, retry timers, the continuations of a connect with their generation test,
readiness with its side effects, the watcher and shutdown. `PoolSafety` is the
invariant, `PoolConvergence`, `PoolTheorems` and `PoolIndex` what runs promise,
`PoolEffects` what connects, timers and reconciles get done, and `PoolService`
the class that does it in place.

**Events and recovery.** `EventStore` has the event table and the cursors,
`Notifications` the handler with dedup and pruning, `Catchup` the window planner
and its runs, `Pagination` the ledger scan, `Webhook` delivery with its retry
gate and sweep, `WebhookRace` one delivery round beside the sweep in time,
`DeadProber` the streak that declares a wallet dead.

**The rest.** `HotSettings` is the single-flight settings cache, `Tap` the
NTAG424 signer and verifier, `LogThrottle` the bounded log throttle, `Hex` and
`Common` what they share.

A class method is specified by a function from the old state to the new; the
theorems are about those functions and their runs. Hash functions, AES, CMAC and
the invoice decoder are arbitrary functions; the only law assumed is that AES
decryption inverts encryption on a block.

## Findings

Each is a lemma with the failing case, or an exact condition.

- A cached rejection with a blank message is answered with an error, the
  re-read row without one (`Payments.BlankRejectionDiffers`,
  `PaymentTheorems.CacheRefinesJournal`).
- A payment is dispatched over a row that is already final exactly when an
  operation passes the open gate after its warm insert or its claimed mark and
  the row was finished in between, by a notification or a lookup; both paths
  reach it (`PaymentRaces.PaysFinishedRowExactly`,
  `PaymentRaces.WarmPathPaysAfterResolution`,
  `PaymentRaces.ColdPathPaysAfterResolution`,
  `PaymentRaces.PaysAfterForeignRejection`).
- The verified success of an operation is lost exactly when a lookup that
  believes the wallet's report of a failure has rejected the row first
  (`PaymentRaces.VerifiedSuccessLands`, `PaymentRaces.FailedLookupBeatsSuccess`).
- Two wallets that swap connection strings in one full reconcile leave the
  earlier one out of the index (`PoolIndex.SwapLosesOne`,
  `PoolIndex.SwapHappens`); `PoolIndex.FullReconcileFinds` says exactly which
  desired wallets a full reconcile leaves findable, `PoolIndex.LossIsExact` the
  same for a targeted one.
- The text behind the request id confuses a scope of decimal digits with an
  attempt number, and a bar in a wallet id with a scope
  (`Encodings.RequestIdTextUnique`, `Encodings.BarInWalletIdCollides`).
- An event without a timestamp, or dated more than a day ahead, can be
  dispatched again after its row is pruned (`Notifications.DedupFenceIsExact`).
- The two-minute age gate keeps the webhook sweep away from an unfinished first
  round exactly up to four inline attempts; with five, the default, a delivered
  row can be marked failed again (`WebhookRace.GateSufficesExactly`,
  `WebhookRace.FourAttemptsFit`, `WebhookRace.SweepOverlaps`).
- The comment at `apps/listener/src/nwc/catchup.ts:197-201` says entries past
  the page cap are covered by the next run; the cursor advances all the same,
  and only the first thousand entries are visited (`Pagination.CapIsExact`).
- A throttle whose oldest key is the empty text never evicts again
  (`LogThrottle.EmptyKeyBlocksEviction`, `LogThrottle.BoundIsExact`).
- A hot read never returns a setting that is not on the hot list, and
  `apps/web/lib/auth/passkey.ts:36` asks for one (`HotSettings.HotPathAgrees`,
  `HotSettings.CommunityNameIsMissed`).

## Model

| member | source | states |
|---|---|---|
| PaymentTheorems.NotStartedIsForEver | apps/listener/src/nwc/payments.ts:185-266 | Over every interleaving, crash, restart and number of processes: once a row is `not_started`, or a caller was told so, the SDK payment of that id has not been made, never will be, and the row never changes again |
| PaymentTheorems.AtMostOneAttempt | apps/listener/src/nwc/payments.ts:346-372 | The listener and a caller that pays by itself only after `not_started` make at most one payment attempt together |
| PaymentTheorems.AtMostOneDispatch | apps/listener/src/nwc/payments.ts:185-266 | Over all processes sharing the journal the pool is asked to pay at most once per id, the SDK no more often, and only with the durable dispatch mark set |
| PaymentTheorems.OneFlightPerProcess | apps/listener/src/nwc/payments.ts:118-136 | Two unsettled `run` operations of one process never have the same request id |
| PaymentTheorems.DuplicateJoins | apps/listener/src/nwc/payments.ts:108-124 | While an operation runs, another valid submit of its id never starts a second one: it gets the live cached answer, else joins the running promise, or conflicts, exactly by the payload hash |
| PaymentTheorems.SuccessIsProved | apps/listener/src/nwc/payments.ts:664-677 | Every succeeded row and every success told to a caller holds a preimage whose SHA-256 is the row's payment hash, and the answer is the row's |
| PaymentTheorems.FinalAnswersAgree | apps/listener/src/nwc/payments.ts:397-415 | Two final answers to one id, given to anybody at any two times of a run, report the same outcome |
| PaymentTheorems.CacheRefinesJournal | apps/listener/src/nwc/payments.ts:535-562 | Every terminal cache entry belongs to a finished row with the same payload hash; answering from it is the same as re-reading the journal, exactly unless its error message is blank |
| PaymentTheorems.CompletedAtIsExact | apps/listener/src/store.ts:249-334 | In every reachable journal `completed_at` is set exactly on succeeded, rejected and not-started rows |
| PaymentTheorems.RunEvolves | apps/listener/src/store.ts:227-334 | Along every run rows only move forward: a final row is never changed, a dispatch mark is never cleared, no row becomes pending again |
| PaymentRaces.SdkCallIsExact | apps/listener/src/nwc/payments.ts:185-266 | A step calls the SDK for an id exactly when it takes a running operation through an open gate, after its warm insert or its claimed mark; no other step does |
| PaymentRaces.PaysFinishedRowExactly | apps/listener/src/nwc/payments.ts:191-266 | In every reachable world: an SDK call for an already final row is made exactly by such a step over a final row, warm or cold; the row is then a success or a rejection, and the call is the first of its id |
| PaymentRaces.ResolutionDoesNotStopDispatch | apps/listener/src/nwc/payments.ts:191-266 | From every world in which an open gate would pay, a notification can resolve the row first and the payment goes out all the same |
| PaymentRaces.WarmPathPaysAfterResolution | apps/listener/src/nwc/payments.ts:191-194 | A run from the empty journal, for every acceptable request: the notification arrives between the warm insert and the dispatch, which pays |
| PaymentRaces.ColdPathPaysAfterResolution | apps/listener/src/nwc/payments.ts:224-266 | The same on the cold path, between the claimed mark and the dispatch |
| PaymentRaces.PaysAfterForeignRejection | apps/listener/src/nwc/payments.ts:468-533 | A run in which the call is made after the lookup of another process has rejected the row |
| PaymentRaces.VerifiedSuccessLands | apps/listener/src/nwc/payments.ts:397-415 | The verified success of the operation itself reaches its row exactly when the row is not rejected; a rejected row was then rejected by a lookup allowed to believe a failure, and by nobody else |
| PaymentRaces.LookupSuccessLands | apps/listener/src/nwc/payments.ts:468-533 | The verified success of a lookup reaches the row exactly when the row is neither rejected nor not-started; a rejection is then the operation's own or another lookup's |
| PaymentRaces.FailedLookupBeatsSuccess | apps/listener/src/nwc/payments.ts:397-415 | A run in which that happens: dispatch, start of a second process, status request, its lookup reports a failure, and then the wallet returns the preimage; the row stays rejected |
| PaymentEffects.WarmPaymentGoesThrough | apps/listener/src/nwc/payments.ts:185-304 | In every reachable world: a submit that is accepted and new, an open gate and an answer that proves the payment end with the row a success, the caller told preimage and fees, and the SDK called exactly once |
| PaymentEffects.ColdPaymentGoesThrough | apps/listener/src/nwc/payments.ts:185-304 | The same on the cold path, where the wallet becomes ready and the mark is set first |
| PaymentEffects.SubmitInserts | apps/listener/src/store.ts:194-224 | A submit that is accepted and new gets a pending row, marked as dispatched exactly on the warm path |
| PaymentEffects.ClosedGateTellsNotStarted | apps/listener/src/nwc/payments.ts:346-372 | A gate that refuses, after a warm insert or a claimed mark, makes the row `not_started` with its error and tells the caller so, and the SDK is not called |
| PaymentEffects.UnreadyWalletTellsNotStarted | apps/listener/src/nwc/payments.ts:205-239 | So does a wallet that is unknown or not ready in time |
| PaymentEffects.UnclaimedIsTold | apps/listener/src/nwc/payments.ts:241-255 | An operation that lost the claim of its mark calls nothing and tells what its row says |
| PaymentEffects.ProofIsJournaled | apps/listener/src/nwc/payments.ts:263-304 | In every reachable world: an answer of the wallet with a preimage of the payment hash makes an open row a success with that preimage and the fees told; no other row changes |
| PaymentEffects.RejectionIsJournaled | apps/listener/src/nwc/payments.ts:315-344 | A rejection by the wallet makes an open row a rejection with its message and code; no other row changes |
| PaymentEffects.UnclearIsJournaled | apps/listener/src/nwc/payments.ts:268-287 | Every other answer, timeouts and failures included, makes a pending row unknown with what went wrong, and changes no row that is not pending |
| PaymentEffects.LookupProvesSuccess | apps/listener/src/nwc/payments.ts:468-533 | In every reachable world: a lookup whose answer is not `failed` and holds a preimage of the payment hash makes an open row, pending or unknown, a success with that preimage and the fees told |
| PaymentEffects.LookupRejectsFailure | apps/listener/src/nwc/payments.ts:468-533 | A lookup that may believe a failure makes an open row a rejection when told of one |
| PaymentEffects.LookupLeavesAloneExactly | apps/listener/src/nwc/payments.ts:468-533 | A lookup leaves the journal as it is exactly when the row is final, or there is no answer, a failure it may not believe, or no failure and no preimage of the payment hash |
| PaymentEffects.IntendedIsTold | apps/listener/src/nwc/payments.ts:392-415 | An operation whose update went through tells its caller its outcome, and caches it unless it leaves the payment open |
| PaymentEffects.FirstOutcomeIsTold | apps/listener/src/nwc/payments.ts:397-415 | An operation whose row was finished by somebody else tells what the row says, and caches that |
| PaymentEffects.RowSays | apps/listener/src/nwc/payments.ts:664-701 | What a sound row says: a success its preimage and fees, any other row its status and its error, if that has a text |
| PaymentEffects.DuplicateIsTold | apps/listener/src/nwc/payments.ts:203-222 | A duplicate that finds its row conflicts exactly for another payload, else tells what the row says; an open row is looked up, and that lookup may not believe a failure |
| PaymentEffects.DuplicateReadsRow | apps/listener/src/nwc/payments.ts:108-136 | A duplicate that is neither cached nor running here finds its row and calls nothing |
| PaymentEffects.StatusReadsRow | apps/listener/src/nwc/payments.ts:139-155 | A status request is answered from a live cache entry, else it reads the row of its id after noting whether an operation runs |
| PaymentEffects.StatusIsTold | apps/listener/src/nwc/payments.ts:150-183 | It tells pending while an operation runs and its row is pending or not there, not found if there is neither, else what the row says; an open row is looked up, and a failure may be believed only if no operation ran |
| PaymentEffects.CrashEnds | apps/listener/src/nwc/payments.ts:64-183 | A crash ends a process: it serves nobody and none of its operations goes on, while the journal and the other processes stay as they are |
| PaymentEffects.RestartDecidesByMark | apps/listener/src/store.ts:290-306 | A restart makes a pending row `not_started` without a dispatch mark and unknown with one, and changes no other row |
| PaymentEffects.RegistriesAreCleared | apps/listener/src/nwc/payments.ts:126-136 | A settled operation or lookup leaves its registry, and nobody else does; a sweep drops exactly the expired answers |
| PaymentOrigins.StepKeepsOrigins | apps/listener/src/nwc/payments.ts:185-533 | Every step keeps the second invariant: only the operation that inserted a row, or a lookup allowed to, rejects it, and a success of the operation follows its SDK call |
| PaymentOrigins.RunKeepsOrigins | apps/listener/src/nwc/payments.ts:64-582 | That invariant holds after every run of any length |
| PaymentSafety.StepKeeps | apps/listener/src/nwc/payments.ts:185-313 | Every single step of the protocol (statement, continuation, call, crash, start, notification) keeps the invariant the theorems rest on |
| PaymentSafety.RunKeeps | apps/listener/src/nwc/payments.ts:64-582 | The invariant holds after every run of any length |
| PaymentSafety.StatementKeeps | apps/listener/src/store.ts:194-334 | A SQL statement of a task keeps the invariant whether it takes effect, is lost, or takes effect with its reply lost, also after its process has died |
| PaymentSafety.StartKeeps | apps/listener/src/index.ts:82-85 | Startup recovery keeps the invariant although it touches pending rows of other processes that are alive |
| PaymentSafety.NotifyKeeps | apps/listener/src/index.ts:130-146 | A payment notification keeps the invariant, whatever operation is under way for the same hash |
| PaymentSafety.ContinueKeeps | apps/listener/src/nwc/payments.ts:185-533 | Every continuation after an await keeps the invariant, whatever happened to the row meanwhile |
| PaymentSafety.SubmitKeeps | apps/listener/src/nwc/payments.ts:64-137 | A submit keeps the invariant; every unsettled operation stays registered |
| Payments.SdkOutcomeFits | apps/listener/src/nwc/payments.ts:263-304 | Whatever the wallet answers to `pay_invoice`, the journal update is sound for the row, and a final answer given is the one the row tells afterwards |
| Payments.LookupOutcomeFits | apps/listener/src/nwc/payments.ts:468-533 | A lookup answer leads to an update exactly when it is a reported failure that may be believed, or no reported failure and a preimage of the payment hash; the update is sound for the row, and its final answer is the one the row tells afterwards |
| Payments.GateOutcomeFits | apps/listener/src/nwc/payments.ts:346-372 | A refusal of the readiness gate becomes `not_started`, soundly |
| Payments.OutcomesFit | apps/listener/src/nwc/payments.ts:315-390 | Unknown, not-started and rejected outcomes are sound for the row and tell what it will tell |
| Payments.StoredAnswerReflects | apps/listener/src/nwc/payments.ts:664-701 | The answer read from a sound row is final exactly when the row is, and then is its own re-reading |
| Payments.ReflectsExactly | apps/listener/src/nwc/payments.ts:679-701 | A final answer equals the re-read answer exactly when its error message is not blank |
| Payments.BlankRejectionDiffers | apps/listener/src/nwc/payments.ts:324-344 | The blank case happens: a wallet rejection without text is told with an error live and without one from the row |
| Payments.VerifyIgnoresCase | apps/listener/src/nwc/payments.ts:602-617 | Preimage verification does not depend on the letter case of preimage or hash |
| Payments.ParsePaymentResult | apps/listener/src/nwc/payments.ts:639-662 | The preimage is the text the wallet sent and absent otherwise; fees are its safe non-negative integer and zero otherwise; the state is its text |
| Payments.DispatchErrorOutcome | apps/listener/src/nwc/payments.ts:315-390 | A dispatch error becomes `not_started` exactly for the two codes of the readiness gate and is never a success |
| Payments.SdkOutcome | apps/listener/src/nwc/payments.ts:263-304 | After an SDK call the outcome is never `not_started`, a rejection exactly when the wallet rejected, and a success exactly when the answer holds a preimage of the payment hash, which is then journaled in lower case |
| Payments.LookupOutcome | apps/listener/src/nwc/payments.ts:468-533 | A lookup is a success exactly when its answer is not `failed` and holds a preimage of the payment hash, which is then journaled in lower case, a rejection exactly when it is `failed` and may be believed, and nothing else |
| Payments.ResponseFromStored | apps/listener/src/nwc/payments.ts:664-701 | A success is told from a row only with a preimage that verifies; not-started and rejected answers come from exactly those rows |
| Payments.MapSdkError | apps/listener/src/nwc/pool.ts:800-816 | An error after the SDK was invoked never carries a code that means it was not |
| Payments.GateError | apps/listener/src/nwc/pool.ts:775-798 | An error of the readiness gate always carries a code that means the SDK was not invoked |
| PaymentService.Submit | apps/listener/src/nwc/payments.ts:64-137 | What joining and launching mean for the registry of running operations |
| PaymentService.StartLookup | apps/listener/src/nwc/payments.ts:455-466 | A lookup starts exactly when the wallet is ready and none is running for the id |
| PaymentService.AcceptedInputIsBound | apps/listener/src/nwc/payments.ts:64-106 | A submit that passes the checks is bound to its invoice: the id is the deterministic one and the hash is the invoice's |
| PaymentService.AcceptedExactly | apps/listener/src/nwc/payments.ts:64-106 | A submit is accepted exactly when its id is the hash of its operation and its invoice carries its payment hash, up to letter case; every other one is rejected with a validation error |
| PaymentService.PayloadsToldApart | apps/listener/src/nwc/payments.ts:95-106 | Two submits have the same payload hash exactly when wallet, invoice and payment hash agree, as far as the hash function tells their texts apart |
| PaymentService.RequestsToldApart | apps/listener/src/nwc/payments.ts:586-600 | Two accepted submits have the same request id exactly when they are the same operation, or one uses as scope the digits the other uses as attempt number, under the same condition and without bars |
| PaymentService.NwcPaymentService.SubmitPayment | apps/listener/src/nwc/payments.ts:64-137 | In place: a refused, cached or conflicting input leaves the registry alone, a duplicate gets the running promise, and only a launch registers one |
| PaymentService.NwcPaymentService.StatusOf | apps/listener/src/nwc/payments.ts:139-149 | In place: whether an operation is running is sampled before the journal is read; only an expired cache entry is dropped |
| PaymentService.NwcPaymentService.GetCached | apps/listener/src/nwc/payments.ts:554-562 | In place: an entry is returned up to, not at, its expiry; an expired one is deleted, every other entry stays |
| PaymentService.NwcPaymentService.Remember | apps/listener/src/nwc/payments.ts:535-552 | In place: every answer but pending and unknown is cached under its own id, with a fresh expiry |
| PaymentService.NwcPaymentService.SweepTerminalCache | apps/listener/src/nwc/payments.ts:565-583 | The sweep deletes exactly the expired entries |
| PaymentService.NwcPaymentService.NextSweepDelay | apps/listener/src/nwc/payments.ts:565-583 | The timer is set to the earliest expiry: no entry is due before it, and one is due then |
| PaymentService.NwcPaymentService.CleanUpRun | apps/listener/src/nwc/payments.ts:130-135 | A settled operation unregisters itself and never a later one of the same id |
| PaymentService.NwcPaymentService.StartLookupRecovery | apps/listener/src/nwc/payments.ts:455-466 | At most one lookup per id |
| Journal.CompleteAdvances | apps/listener/src/store.ts:249-283 | The completing update keeps final rows, marks and timestamps, and can turn a dispatched row into not-started only if it says so itself |
| Journal.RecoverAdvances | apps/listener/src/store.ts:290-306 | Recovery keeps them and never makes a dispatched row not-started |
| Journal.ResolveAdvances | apps/listener/src/store.ts:309-334 | Resolution by notification keeps them |
| Journal.EvolvesTransitive | apps/listener/src/store.ts:194-334 | Moving forward composes over statements |
| Journal.RequestTable.Register | apps/listener/src/store.ts:194-224 | Inserts exactly when the id is free and returns the row now stored |
| Journal.RequestTable.MarkRequestDispatched | apps/listener/src/store.ts:227-238 | Marks exactly pending rows, keeping an earlier mark |
| Journal.RequestTable.CompleteRequest | apps/listener/src/store.ts:249-283 | Completes pending rows, and unknown rows only with a success or a rejection |
| Journal.RequestTable.RecoverInterrupted | apps/listener/src/store.ts:290-306 | Every pending row is resolved by its dispatch mark; the count is the number of pending rows |
| Journal.RequestTable.ResolveFromNotification | apps/listener/src/store.ts:309-334 | Exactly the unresolved rows of that wallet and hash become successes |
| Encodings.PayloadTextInjective | apps/listener/src/store.ts:165-175 | The text behind the payload hash determines wallet id, invoice and payment hash, for all texts |
| Encodings.RequestIdTextUnique | apps/listener/src/nwc/payments.ts:586-600 | For wallet ids and scopes without a bar and hexadecimal hashes: two requests share the text behind the id exactly when they are the same operation, or one uses as scope the decimal digits the other uses as attempt number |
| Encodings.BarInWalletIdCollides | apps/listener/src/nwc/payments.ts:586-600 | Without that condition it is ambiguous: a bar in a wallet id reads as a scope |
| Encodings.DecimalInjective | apps/listener/src/nwc/payments.ts:586-600 | Decimal text determines the number |
| Encodings.EventTextUnique | apps/listener/src/store.ts:388-396 | The text behind the event key determines wallet id, type and payment hash, as soon as types and either wallet ids or payment hashes hold no bar |
| Encodings.BarShiftsEvents | apps/listener/src/store.ts:388-396 | Without that condition it is ambiguous: a bar in a wallet id and one in a payment hash shift the fields |
| Hex.FromHexToHex | apps/web/lib/ntag424.ts:229-256 | Decoding inverts hexadecimal encoding |
| Hex.ToHexFromHex | apps/listener/src/nwc/payments.ts:634-637 | Encoding what was decoded gives the text back in lower case |
| Hex.FromHexIgnoresCase | apps/listener/src/nwc/payments.ts:602-617 | The decoder does not see letter case |
| PoolTheorems.SchedulerIsExact | apps/listener/src/nwc/pool.ts:309-353 | In every reachable state the slots are counted exactly and at most eight, and a held wallet that is not ready or disconnected is in exactly one of connect queue, running connect and armed timer; no wallet is connected twice at once; delays are 750 to 75000 ms |
| PoolTheorems.ReadyMeansWarmed | apps/listener/src/nwc/pool.ts:389-468 | A held client was built from its wallet's current string; ready or disconnected means a `get_info` finished on that very client (that connects do get there: `PoolEffects.ConnectSucceeds`) |
| PoolTheorems.OvertakenConnectIsInert | apps/listener/src/nwc/pool.ts:389-468 | A connect overtaken by removal, rotation or shutdown ends without changing any connection and without a callback |
| PoolTheorems.OvertakenForEver | apps/listener/src/nwc/pool.ts:389-468 | And it stays overtaken: after any further run its connection is still not held and its continuations still change no connection and fire no callback |
| PoolTheorems.GateIsExact | apps/listener/src/nwc/pool.ts:775-798 | The gate in front of every payment opens exactly for a held, ready wallet with relays up, and then the payment goes out on a warmed client of its current string; a positive readiness read means the gate is open |
| PoolTheorems.CallbackIsExact | apps/listener/src/nwc/pool.ts:431-468 | `onSubscribed` fires exactly when a warm-up is answered for a connection still held; the wallet is then ready on that very client, built from its current string |
| PoolEffects.ConnectSucceeds | apps/listener/src/nwc/pool.ts:426-468 | In every reachable pool, for a connect whose connection is held: its subscription resolves and `get_info` is answered, by a result or an error of the wallet; then the wallet is ready on that client, its failures are forgotten, the callback fires once, the payment gate opens with relays up, and nothing else has changed |
| PoolEffects.ConnectFails | apps/listener/src/nwc/pool.ts:469-514 | A rejected subscription, or a warm-up without an answer, leaves the wallet failed, without a client, one attempt further and with the timer of that attempt, and nothing else has changed |
| PoolEffects.SubscriptionEnds | apps/listener/src/nwc/pool.ts:389-431 | In every reachable pool a connect whose subscription settles goes on to its warm-up exactly if it resolved for a connection still held; otherwise it is over |
| PoolEffects.ConnectEnds | apps/listener/src/nwc/pool.ts:431-499 | And however the warm-up ends, the connect is over and gives its slot back next |
| PoolEffects.RelaysDownPark | apps/listener/src/nwc/pool.ts:599-618 | Whoever finds the relays of a ready wallet down, gate or readiness read, parks it and changes nothing else |
| PoolEffects.RelaysUpBringBack | apps/listener/src/nwc/pool.ts:599-618 | With relays up a readiness read brings a parked wallet back and says yes, while the gate refuses it and leaves it parked |
| PoolEffects.NewWalletIsAttempted | apps/listener/src/nwc/pool.ts:289-353 | While a slot is free a wallet that a targeted reconcile adds or rotates is connected at once: on a new client of its string, or, if that cannot be parsed, with a retry timer |
| PoolEffects.RetryIsAttempted | apps/listener/src/nwc/pool.ts:501-514 | While a slot is free a retry timer that fires starts its connect at once |
| PoolEffects.SlotIsReused | apps/listener/src/nwc/pool.ts:339-353 | A connect that has ended gives its slot to the wallet at the head of the queue; then the queue is empty or eight connects run |
| PoolEffects.TimerGoesFirst | apps/listener/src/nwc/pool.ts:324-353 | While all slots are taken a retry timer that fires puts its wallet in front of the queue, and nothing else changes |
| PoolEffects.ReconciledGoesFirst | apps/listener/src/nwc/pool.ts:289-337 | So does a targeted reconcile that adds or rotates a wallet |
| PoolEffects.CardPaymentGoesFirst | apps/listener/src/nwc/pool.ts:620-637 | A card payment moves its wallet to the front of the queue, the others keeping their order, or ends its wait for a retry |
| PoolEffects.ReconcileQueuesBehind | apps/listener/src/nwc/pool.ts:265-337 | A full reconcile queues its new connections behind the others, rotations first |
| PoolEffects.RetryDelayDoubles | apps/listener/src/nwc/pool.ts:501-514 | The delay before a retry is three to five quarters of a second doubled with every failure, up to a minute |
| PoolSafety.FenceIsExact | apps/listener/src/nwc/pool.ts:389-431 | The generation test passes exactly when the pool still holds the connection the connect was started for |
| PoolTheorems.ClosedPoolIsQuiet | apps/listener/src/nwc/pool.ts:757-773 | In every reachable closed pool, however long after shutdown, no connection is open or held, no timer is armed and nobody is queued or indexed |
| PoolTheorems.FullReconcileConverges | apps/listener/src/nwc/pool.ts:253-287 | In every reachable pool a full reconcile makes the held wallets exactly the desired ones, metadata included |
| PoolTheorems.UnchangedWalletsStayConnected | apps/listener/src/nwc/pool.ts:265-287 | A full reconcile leaves the connection object of a wallet alone when its string is unchanged |
| PoolTheorems.OneReconcileConverges | apps/listener/src/nwc/pool.ts:289-307 | A targeted reconcile changes exactly one wallet to its row; all others keep their connection object |
| PoolTheorems.PoolConverges | apps/listener/src/nwc/pool.ts:253-307 | After any run, whatever connects and timers did in between, the wallets held are those the reconciles asked for |
| PoolTheorems.IndexIsComplete | apps/listener/src/nwc/pool.ts:309-366 | The index by string is always sound, and complete over every run in which no string is shared or handed between two ids |
| PoolIndex.LossIsExact | apps/listener/src/nwc/pool.ts:289-366 | A wallet the index finds stays findable after a targeted reconcile of another one exactly when that one neither drops nor opens a connection under the same string |
| PoolIndex.FullReconcileFinds | apps/listener/src/nwc/pool.ts:265-366 | In every reachable pool: after a full reconcile the index finds a desired wallet exactly when no later addition or rotation touches its string (a rotation deletes the old string and claims the new one) and, for a wallet whose string did not change, it was found before and no removal, rotation or addition touches the string |
| PoolIndex.SwapLosesOne | apps/listener/src/nwc/pool.ts:275-280 | Not kept by the code: two wallets that swap their strings in one full reconcile, among any others, leave the earlier one held and not found, and unless a third takes its string the index forgets it |
| PoolIndex.SwapHappens | apps/listener/src/nwc/pool.ts:275-280 | A reachable pool in which that happens: of two swapping wallets the second is found and the first is not |
| PoolTheorems.FullReconcileIndexes | apps/listener/src/nwc/pool.ts:253-287 | One full reconcile keeps a complete index complete under the same condition |
| PoolTheorems.PoolStepKeeps | apps/listener/src/nwc/pool.ts:253-798 | Every entry point, timer and continuation of the pool keeps its invariant |
| PoolSafety.DrainKeeps | apps/listener/src/nwc/pool.ts:339-353 | Draining the connect queue keeps the invariant and changes no held wallet |
| PoolSafety.DrainIsComplete | apps/listener/src/nwc/pool.ts:339-353 | After draining an open pool the queue is empty or all slots are taken |
| PoolSafety.StartConnectKeeps | apps/listener/src/nwc/pool.ts:389-426 | Taking a slot keeps the invariant, also when the string cannot be parsed |
| PoolSafety.GiveUpKeeps | apps/listener/src/nwc/pool.ts:469-514 | A failed connect leaves its wallet failed without a client, with one retry timer of 750 to 75000 ms and one attempt more, and keeps the invariant |
| PoolSafety.ReadyKeeps | apps/listener/src/nwc/pool.ts:427-468 | Promotion to ready keeps the invariant |
| PoolSafety.RemoveWalletKeeps | apps/listener/src/nwc/pool.ts:355-387 | Removal keeps the invariant and forgets only that id |
| PoolSafety.WatcherKeeps | apps/listener/src/nwc/pool.ts:146-164 | The reconnect watcher moves a ready or disconnected wallet to ready or disconnected by its relays, leaves every other one untouched, and keeps the invariant |
| PoolSafety.ReadinessKeeps | apps/listener/src/nwc/pool.ts:599-618 | Readiness reads with their side effects keep the invariant and change no held wallet |
| PoolModel.RetryDelay | apps/listener/src/nwc/pool.ts:501-514 | A retry delay lies between 750 and 75000 ms for every attempt and random number |
| PoolService.NwcPool.ReconcileAll | apps/listener/src/nwc/pool.ts:265-287 | In place: the walk over the map, the difference and the four loops end in the state `FullReconcileConverges` is about, and the pool invariant survives |
| PoolService.NwcPool.ReconcileWallet | apps/listener/src/nwc/pool.ts:289-307 | In place: the same for one wallet and `OneReconcileConverges` |
| PoolService.NwcPool.OnSubscribeSettled | apps/listener/src/nwc/pool.ts:397-431 | In place: for a connection still held a resolved subscription stores its client and goes on to the warm-up, a rejected one leaves the wallet failed, without a client and with a timer; the pool invariant survives |
| PoolService.NwcPool.OnWarmUpSettled | apps/listener/src/nwc/pool.ts:431-499 | In place: the fence, the promotion and the callback log come out as in `CallbackIsExact`: for a connection still held an answer makes the wallet ready and is told once, a failure leaves it failed with a timer; the pool invariant survives |
| PoolService.NwcPool.CheckReady | apps/listener/src/nwc/pool.ts:599-618 | In place: the answer and the promotion or demotion it causes; the pool invariant survives |
| PoolService.NwcPool.DrainConnectQueue | apps/listener/src/nwc/pool.ts:339-353 | In place: the loop starts the connects that the recursive drain starts, in its order, and stops where it stops |
| PoolService.NwcPool.OnConnectFinished | apps/listener/src/nwc/pool.ts:431-499 | Releasing a slot lets the next wallet in: afterwards the queue is empty or the slots are full |
| PoolService.NwcPool.CloseEverything | apps/listener/src/nwc/pool.ts:757-773 | In place: every held connection is closed, nothing stays indexed, held or queued, and the pool invariant survives |
| Reconcile.DiffWallets | apps/listener/src/nwc/reconcile.ts:20-42 | The three loops yield the difference whose parts `AdditionsAndRotations` and `RemovalsExact` characterize |
| Reconcile.AdditionsAndRotations | apps/listener/src/nwc/reconcile.ts:20-42 | Additions are exactly the desired wallets not held, rotations exactly those held under another string |
| Reconcile.RemovalsExact | apps/listener/src/nwc/reconcile.ts:20-42 | Removals are exactly the held ids not desired |
| Reconcile.ByIdMapExact | apps/listener/src/nwc/reconcile.ts:20-42 | With distinct ids the map by id holds exactly the list |
| Notifications.NewAtMostOnce | apps/listener/src/index.ts:95-168 | Over every run of arrivals, failing statements, prunes and delivery marks an event whose copies share a fenced timestamp is stored as new at most once and dispatched at most once; which notifications are one event is `Notifications.EventsToldApart` |
| Notifications.EventsToldApart | apps/listener/src/index.ts:153-211 | Two notifications that get through, in either order on an empty event table: the second is new and dispatched exactly when it differs in wallet, type or payment hash, and counts as a duplicate otherwise; as long as the hash function does not confuse their texts, and types and either wallet ids or hashes hold no bar |
| Notifications.TableHoldsWhatReachedIt | apps/listener/src/index.ts:111-211 | Over every run without a prune, under the same condition, an event is in the table exactly when a notification of it reached the table, whatever failed in between |
| Notifications.StaleIsTurnedAway | apps/listener/src/index.ts:147-152 | A notification dated further back than retention less a day is turned away: neither stored nor dispatched |
| Notifications.LiveEventSetsCursor | apps/listener/src/index.ts:170-180 | A live notification that gets through moves its wallet's cursor to its timestamp, settled before created before the clock, unless it was later already |
| Notifications.ProofSettlesRequests | apps/listener/src/index.ts:126-146 | A preimage in a `payment_sent` notification makes every open request of that wallet and hash a success with its fees, and changes no other row |
| Notifications.DispatchesAreNew | apps/listener/src/index.ts:153-211 | Over every run an event is dispatched by its handler no more often than it was stored as new, inserts with a lost reply included |
| Notifications.DedupFenceIsExact | apps/listener/src/index.ts:95-97 | That holds for all runs exactly when the timestamp is positive and, with the handler's delay, at most a day ahead of first receipt |
| Notifications.ReopeningIsNewTwice | apps/listener/src/store.ts:611-621 | Otherwise: arrival, prune, arrival in the same millisecond dispatches the event twice |
| Notifications.EveryNotificationCounts | apps/listener/src/index.ts:111-211 | Over every run each notification is counted once as turned away, failed, duplicate or dispatched; cursors only advance |
| Notifications.RejectsOnFaults | apps/listener/src/index.ts:126-161 | The handler rejects exactly when its journal update or its insert fails |
| Notifications.StoredIsDue | apps/listener/src/store.ts:591-609 | An event that was stored is due for the webhook sweep once old enough, also when the reply of its insert was lost |
| Notifications.OnlyLiveEventsMoveCursor | apps/listener/src/index.ts:170-180 | The catch-up anchor follows live events that were not turned away, duplicates included; recovered and refused ones leave it |
| Notifications.HandlerIsProtocolStep | apps/listener/src/index.ts:126-146 | The journal half of the handler is the notification step of the payment protocol |
| Notifications.NotificationHandler.HandleNotification | apps/listener/src/index.ts:111-211 | In place: journal, events, cursors and counters end in the state the runs of `NewAtMostOnce` are made of; a notification that gets through is new exactly when its key was free, and leaves every event with another wallet, type or hash as it was |
| Notifications.NotificationHandler.PruneEvents | apps/listener/src/store.ts:611-621 | In place: the prune step of those runs |
| EventStore.EventTables.InsertEventIfNew | apps/listener/src/store.ts:425-446 | Inserts exactly when the key is free and changes no other row |
| EventStore.EventTables.MarkDelivery | apps/listener/src/store.ts:448-467 | Writes one row, whatever its status was, and leaves every receipt time, which pruning goes by |
| EventStore.EventTables.PruneEvents | apps/listener/src/store.ts:611-621 | Deletes exactly the rows past retention and counts them |
| EventStore.EventTables.Advance | apps/listener/src/store.ts:368-381 | A cursor never moves back |
| EventStore.EventTables.Seed | apps/listener/src/store.ts:354-366 | Seeding never overwrites a cursor |
| Catchup.PlanIsTight | apps/listener/src/nwc/catchup.ts:29-44 | The planned window holds exactly the seconds that touch the wanted stretch of time; there is none exactly when the cursor is past now and overlap |
| Catchup.JoinIsExact | apps/listener/src/nwc/catchup.ts:29-44 | The next planned window leaves no second out after the last exactly when cursor less overlap and now less maximum both precede the end of the second after its final one |
| Catchup.HolesAreExact | apps/listener/src/nwc/catchup.ts:100-145 | Over every run of plans, failures, crashes and live events some second between the start of a scan and the end of the next is in no window ever scanned exactly when the next was planned too late to reach back or a live event moved the cursor more than the overlap past the first |
| Catchup.NoHoles | apps/listener/src/nwc/catchup.ts:100-145 | Every second from the start of the first scan to the end of the last is scanned exactly when no two successive scans leave such a gap |
| Catchup.CursorNeverMovesBack | apps/listener/src/store.ts:354-381 | The cursor never moves back, and only seeding, the update after a full scan and live events move it, also when their reply is lost; how far they move it: `Catchup.CursorCoversScan`, `Catchup.QuietRunReachesNow` |
| Catchup.CursorCoversScan | apps/listener/src/nwc/catchup.ts:120-133 | Once the update after a scan took effect the cursor is never again before the end of that scan, over every further run |
| Catchup.QuietRunReachesNow | apps/listener/src/nwc/catchup.ts:100-145 | A run without a fault takes the cursor to now, rounded up to the second, unless it was later already, and logs one scan up to that second |
| Catchup.FirstRunSeeds | apps/listener/src/nwc/catchup.ts:106-112 | A wallet without a cursor gets exactly now, unless the statement is lost, and is not scanned |
| Catchup.IdleRunsMoveNothing | apps/listener/src/nwc/catchup.ts:100-145 | A run that comes too early, or whose scan throws, moves nothing |
| Catchup.StepKeeps | apps/listener/src/nwc/catchup.ts:100-145 | Every step keeps the invariant that ties the cursor to the last scan or a live event |
| Pagination.CatchupRunner.WalletCatchup | apps/listener/src/nwc/catchup.ts:148-202 | The page loop visits a prefix of the ledger in order, each entry once, ends at a throwing entry, a failed page or an unsupported answer as it should, and returns the number of events that were new |
| Pagination.CatchupRunner.RunForWallet | apps/listener/src/nwc/catchup.ts:100-145 | A run alone, in numbers: a wallet without a cursor gets now; after a scan that does not throw the cursor is the later of the old one and now rounded up to the second, unless the update is lost; nothing else moves it, and nothing stays in flight |
| Pagination.CapIsExact | apps/listener/src/nwc/catchup.ts:148-202 | With every page answered the whole ledger is visited exactly when it has at most a thousand entries |
| Pagination.QuietScanIsComplete | apps/listener/src/nwc/catchup.ts:148-202 | A scan without errors finishes after the first thousand entries, or all if there are fewer |
| Pagination.ThrowEndsScan | apps/listener/src/nwc/catchup.ts:158-195 | A handler that rejects on an entry of an answered page ends the scan at that entry, and the scan throws |
| Pagination.RescanIsFree | apps/listener/src/nwc/catchup.ts:148-202 | Scanning again later what a scan got through without an error stores and dispatches nothing new |
| Pagination.ScanSettlesRequests | apps/listener/src/nwc/catchup.ts:148-202 | A scan makes an open request a success exactly through a settled outgoing entry with a preimage of its hash: it never touches a final row, and writes nothing but successes |
| Pagination.VisitedSettle | apps/listener/src/nwc/catchup.ts:148-202 | After a scan every settled entry whose handler did not reject is known or too old |
| Pagination.PagesEnd | apps/listener/src/nwc/catchup.ts:180-190 | The page that stops the loop completes the ledger |
| Webhook.NeverGivenUp | apps/listener/src/webhook.ts:209-258 | In every run of stores, delivery rounds and prunes, an undelivered row is due for the sweep at most an hour after the last event |
| Webhook.GateIsExact | apps/listener/src/webhook.ts:229-258 | After a failed round the sweep may select the row from its gate on and not before |
| Webhook.RetryDelayGrows | apps/listener/src/webhook.ts:229-236 | The gate lies between two minutes and an hour and never shrinks as attempts grow |
| Webhook.RetryDelayDoubles | apps/listener/src/webhook.ts:229-236 | The gate is two minutes while the inline attempts last and doubles with each attempt beyond, up to an hour |
| Webhook.RoundOutcome | apps/listener/src/webhook.ts:102-142 | A round delivers its row exactly on an answer from 200 to 299, and no sweep selects it again; every other end keeps it with its error and its gate |
| Webhook.SelectedWhenItsTurn | apps/listener/src/store.ts:591-609 | A due row is selected whenever at most fifty due rows were received no later, and only when fewer than fifty were received earlier |
| Webhook.SweepClearsTheWay | apps/listener/src/webhook.ts:211-227 | A full sweep brings a due row it left behind exactly fifty places nearer, whatever the replies were |
| WebhookRace.GateSufficesExactly | apps/listener/src/webhook.ts:102-142 | Over every timed run of a first delivery round beside the sweep: the sweep can select the row while the round is unfinished, and a delivered row can be marked failed again, exactly when the longest round does not fit into the two-minute age gate |
| WebhookRace.FourAttemptsFit | apps/listener/src/webhook.ts:102-142 | With no delay but the posts and the pauses it fits exactly up to four attempts; five, the default, never fit |
| WebhookRace.SweepOverlaps | apps/listener/src/webhook.ts:211-258 | The run in which it goes wrong: the sweep selects and delivers the row, then the round marks it failed |
| WebhookRace.EndedLikeDispatch | apps/listener/src/webhook.ts:102-142 | A round of that machine makes the posts of the dispatch method and stops where it stops |
| WebhookRace.RunKeeps | apps/listener/src/webhook.ts:102-142 | Every timed run keeps the bounds on how late each post can begin and what its row holds |
| Webhook.SweptRowByRow | apps/listener/src/webhook.ts:211-227 | A sweep leaves every selected row as one round of its own would |
| Webhook.SweptElsewhere | apps/listener/src/webhook.ts:211-227 | A sweep leaves every other row alone |
| Webhook.WebhookDispatcher.Dispatch | apps/listener/src/webhook.ts:102-142 | At most the allowed posts, stopping at the first accepted or final reply; one mark at the end with prior plus posts |
| Webhook.WebhookDispatcher.RetryOnce | apps/listener/src/webhook.ts:239-258 | One post and one mark that counts one attempt more than was read |
| Webhook.WebhookDispatcher.Sweep | apps/listener/src/webhook.ts:211-227 | One post per selected row; the loop leaves the table `SweptRowByRow` and `SweptElsewhere` describe |
| DeadProber.DeathNeedsFullStreak | apps/listener/src/nwc/dead-prober.ts:75-128 | A sweep reports a wallet dead exactly when it confirms a timeout and with it the confirmations since the last reset reach the required number; in observations: `DeadProber.DeathIsEarned` |
| DeadProber.DeathIsEarned | apps/listener/src/nwc/dead-prober.ts:56-142 | A report implies, in raw observations: this sweep and enough sweeps before it found the wallet ready, connected, without a card payment, relays up and silent past the threshold, and probed it without an answer on a client still held with relays still up; no sweep in between gave a sign of life |
| DeadProber.EvidenceIsActedOn | apps/listener/src/nwc/dead-prober.ts:75-128 | As long as no report was delivered a sweep reports a wallet exactly when such sweeps since the last sign of life are enough |
| DeadProber.ExoneratedHasNoStreak | apps/listener/src/nwc/dead-prober.ts:89-105 | A sweep that did not find the wallet silent, or whose probe was answered, failed otherwise, lost its client or its relays, leaves no streak and reports nothing |
| DeadProber.StreakCounts | apps/listener/src/nwc/dead-prober.ts:75-115 | The streak kept is the number of confirmed timeouts since the last reset |
| DeadProber.StreakHasBeginning | apps/listener/src/nwc/dead-prober.ts:75-115 | Every streak has a beginning |
| DeadProber.NotResentWhileSubscribed | apps/listener/src/nwc/dead-prober.ts:66-76 | A delivered report is not sent again while the wallet is subscribed at every sweep |
| DeadProber.ReportedIsStanding | apps/listener/src/nwc/dead-prober.ts:66-76 | A wallet is in the reported set exactly when a delivered report stands: subscribed at every sweep since |
| DeadProber.SweepAdvancesEach | apps/listener/src/nwc/dead-prober.ts:56-142 | The loop over shared maps advances every wallet as if it were alone |
| DeadProber.CandidatesAreSilent | apps/listener/src/nwc/pool.ts:184-212 | The candidates are exactly the subscribed wallets with relays up that have been silent for the threshold, each once |
| DeadProber.DeadWalletProber.EvaluateSweep | apps/listener/src/nwc/dead-prober.ts:56-142 | In place: the state and the reports of the sweeps that `DeathIsEarned` is about; who is reported was found silent and did not answer on a client still held with relays up, who gave a sign of life has no streak left; a second sweep changes nothing while one runs |
| DeadProber.DeadWalletProber.DeadCandidates | apps/listener/src/nwc/pool.ts:184-212 | The filter loop yields the list `CandidatesAreSilent` describes |
| DeadProber.DeadWalletProber.SubscribedIds | apps/listener/src/nwc/pool.ts:231-243 | The filter loop collects exactly the ready, connected wallets without a foreground payment |
| DeadProber.DeadWalletProber.DropBookkeeping | apps/listener/src/nwc/dead-prober.ts:66-73 | Reports of unsubscribed wallets and streaks of others than candidates are dropped, and nothing else |
| HotSettings.NeverStale | apps/web/lib/settings.ts:81-120 | For every interleaving of calls, queries, completions, failures, writes and invalidations: a call gets values of a read started after the last invalidation before it, so the table as of that invalidation or later |
| HotSettings.ServedWithinTheSecond | apps/web/lib/settings.ts:81-110 | Values served at once come from a successful read completed less than 1000 ms ago |
| HotSettings.SingleFlight | apps/web/lib/settings.ts:81-110 | At most one read of the current generation is in flight, and a call starts one exactly when there is none and no live snapshot |
| HotSettings.CompletedReadIsServed | apps/web/lib/settings.ts:81-101 | A read of the current generation that completes is what every call gets for a second, and not longer |
| HotSettings.OvertakenReadIsNotServed | apps/web/lib/settings.ts:91-101 | A read overtaken by an invalidation leaves the snapshot as it is |
| HotSettings.JoinedCallersHear | apps/web/lib/settings.ts:91-106 | Everybody who joined a read hears its values, or its failure |
| HotSettings.NextCallReadsAgain | apps/web/lib/settings.ts:81-120 | After an invalidation, and after a failed read has settled, the next call starts a new read |
| HotSettings.HotPathAgrees | apps/web/lib/settings.ts:52-74 | The hot path answers like the database exactly when every requested setting that exists is a hot one |
| HotSettings.CommunityNameIsMissed | apps/web/lib/auth/passkey.ts:31-45 | The passkey code asks for `community_name` on the hot path: a stored name is never returned |
| HotSettings.HotSettingsCache.GetHotSettings | apps/web/lib/settings.ts:81-110 | In place: serves the live snapshot, else joins the shared read, else starts one, as in the runs of `NeverStale` and `SingleFlight` |
| HotSettings.HotSettingsCache.OnLoaded | apps/web/lib/settings.ts:91-101 | In place: a read overtaken by an invalidation delivers to its callers but never becomes the snapshot |
| HotSettings.HotSettingsCache.OnFinally | apps/web/lib/settings.ts:102-106 | In place: a settling read frees the shared slot only if it still holds it |
| HotSettings.HotSettingsCache.InvalidateHotSettingsCache | apps/web/lib/settings.ts:116-120 | In place: no later call can see the old snapshot or join the old read |
| Tap.RoundTripIsExact | apps/web/lib/ntag424.ts:146-256 | For every lawful cipher, card with a seven-byte id and integer counter: a signed tap verifies with the counter modulo 2^24 exactly when the id text is its fourteen digits, else the card is not found |
| Tap.SignedTapIsConsumed | apps/web/lib/ntag424.ts:197-214 | A signed tap is consumed exactly when its counter modulo 2^24 is above the one on record |
| Tap.AcceptedIsSigned | apps/web/lib/ntag424.ts:146-190 | Whatever verifies carries the one c that signing gives for its counter |
| Tap.AcceptedExactly | apps/web/lib/ntag424.ts:146-190 | A tap verifies with a counter exactly when p is thirty-two upper-case digits that decrypt to the marker, the card's id and that counter, and c is the card's signature over id and counter |
| Tap.RefusalsInOrder | apps/web/lib/ntag424.ts:146-214 | Which refusal a tap meets: the form of p, that of c, the marker, the card id, the signature, and last the age of its counter |
| Tap.NoReplay | apps/web/lib/ntag424.ts:197-214 | With every accepted counter stored, no p is accepted twice in any sequence of taps, with whatever c |
| Tap.CountersIncrease | apps/web/lib/ntag424.ts:197-214 | Accepted counters are above the one on record and strictly increase |
| Tap.CounterRoundTrip | apps/web/lib/ntag424.ts:176-176 | Three little-endian bytes hold a counter modulo 2^24, through the 32-bit operators of the language |
| Tap.CidMatchesItself | apps/web/lib/ntag424.ts:175-181 | A card id text matches its own bytes exactly when it is fourteen characters long |
| LogThrottle.Conservation | apps/listener/src/process-errors.ts:26-50 | After any calls: calls are admitted, reported as duplicates, pending, or lost by eviction, and nothing else |
| LogThrottle.TwiceMeansEvicted | apps/listener/src/process-errors.ts:26-50 | With a clock that does not run back, a key is reported twice within the window only if it was evicted in between |
| LogThrottle.AdmittedExactly | apps/listener/src/process-errors.ts:26-50 | With such a clock a call is held back exactly when its key was reported less than a window ago and has not been evicted since |
| LogThrottle.ReportCountsRepeats | apps/listener/src/process-errors.ts:34-49 | A report tells how often its key was called since its last report, if that has not been evicted |
| LogThrottle.NewKeyReportsNone | apps/listener/src/process-errors.ts:34-49 | And zero otherwise |
| LogThrottle.BoundIsExact | apps/listener/src/process-errors.ts:26-50 | The map stays within its limit, one entry at least, over every run exactly when the empty key cannot occur |
| LogThrottle.EmptyKeyBlocksEviction | apps/listener/src/process-errors.ts:43-46 | In every sequence of calls, once the empty key is the oldest entry nothing is ever evicted again, every entry keeps its place, and each call with a new key adds one |
| LogThrottle.ReporterIsBounded | apps/listener/src/process-errors.ts:58-79 | The error reporter's keys are never empty, so its map is bounded |
| LogThrottle.Throttle.TakeCall | apps/listener/src/process-errors.ts:34-49 | In place: the entries and the answer of the calls that `Conservation` and `TwiceMeansEvicted` count |

## Left out

- The legacy request proxy (`apps/listener/src/nwc/pool.ts:523-591`) may also send `pay_invoice` and writes no journal row: the at-most-once theorems are about the payment service only.
- HTTP routing and schemas, JSON parsing, the Postgres driver, relay sockets, the Nostr SDK, logging, metrics other than the counters named, and error reporting: replaced by atomic steps and arbitrary outcomes.
- Clocks, random numbers, and the replies of wallets, web application and database: parameters of the steps.
- The handler swallows a failing cursor write: the flag `cursorSaved` in `Notifications` says whether it took effect. A failing read of the cursor ends a catch-up run like `Crash` in `Catchup`.
- The listener's clock and the database clock are two parameters where both are read (`Notifications`, `Webhook`); elsewhere one reading stands for both. The database session counts days of 24 hours.
- Texts are sequences of UTF-16 units and letter case is ASCII case; unpaired surrogates, which hashing replaces, are not told apart.
- Readiness of a wallet inside the payment protocol is an arbitrary answer of each gate; its side effects are modelled in the pool. The list of waiters for readiness (`apps/listener/src/nwc/pool.ts:638-660`) is not modelled: waiting ends in any of its outcomes.
- A `WalletConnection` object is a position in a growing sequence of values, so object identity is equality of positions; the connection's display fields (last event, last error, foreground payment count) are not modelled, except where the prober reads them.
- Closing of SDK clients: a client whose subscription rejects is dropped without being closed, as in the code, and the model does not count open sockets.
- Methods that change fields are specified by equality with a function of the old state, and the main ones in fields as well; the rest of what they mean is in the lemmas about those functions.
- Pagination.CatchupRunner.WalletCatchup: runs without interleaving: live events that arrive between its pages are modelled in `Catchup` (cursor) and `Notifications` (events), not inside the loop. The ledger is fixed during a scan and a total count, when sent, is its length.
- The relay replay of catch-up (`apps/listener/src/nwc/catchup.ts:208-289`) is not modelled; its events take the path of `Notifications.Handle` and its failures are swallowed.
- `Catchup` follows one wallet of one listener process; a second process would be a source of cursor advances like live events.
- Catchup.HolesAreExact, Catchup.NoHoles: for plans whose clock readings do not run backwards.
- LogThrottle.TwiceMeansEvicted: for call times that do not run backwards.
- Webhook.Selection: the rows a sweep selects are a parameter constrained to be the oldest selectable ones; the order among equal receipt times is left open.
- `WebhookRace` follows one row through its first round, with sweeps beside it; every wait other than a post or a pause (the insert's reply, timers, the mark) takes at most one bound, a parameter, and the clocks of listener and database agree there. Over whole tables a sweep beside an inline loop is rounds in any order (`Webhook.NeverGivenUp`).
- Webhook.SweepClearsTheWay: for marks whose clock does not precede the selection, and no new arrivals during the sweep.
- Notifications.EventsToldApart: for types without the separator, wallet ids or payment hashes without it (otherwise: `Encodings.BarShiftsEvents`), and a hash function that does not confuse the two texts.
- Tap.Sign: for card ids that decode to seven bytes, the only size the signer's single block has room for; with other sizes the cipher throws or chains blocks. Keys decode to sixteen bytes, as the ciphers demand.
- Key provisioning payloads, key generation and the atomic counter claim in Postgres: plumbing around the tap functions.
- `getSettings` without the hot option is a plain query and is not modelled beyond `HotSettings.Load`.
- `normalizeReason` and `safeString` only build keys; all the throttle needs of them is that a key is not empty.
- All user interface, documentation, installer and schema code.
