# Stellar card payments: order fulfilment and the receiver contract

Two developments, each a model proved against itself and against an imperative rendering of the code.
`dafny verify dfyconfig.toml` checks the whole project.

## The order-fulfilment protocol (backend)

One order row is driven by the payment handler, the job runner (expiry, reconciler, poller), the VCC callback
and refunds in flight, which interleave at every `await`.

* `Decimals.dfy` models the decimal strings: `BigInt` on text, the parsers, the printers, the comparison and the
  refund sum. They are proved against one another and against rational numbers; `DecimalText.dfy` decides every text:
  which are taken for an amount, for how much, and which are refused.
* `Orders.dfy` models a row, a payment event and the verdict on it, and follows an amount from the event that
  claims an order to the string handed to `sendUsdc` or `sendXlm`.
* `Protocol.dfy` is the state machine: one action per synchronous stretch of one actor, a crash that forgets every
  program counter and keeps the row, and a ledger of payments landed and refunds sent that no code reads.
  `ProtocolSafety.dfy` holds its inductive invariant and the safety theorems over all runs.
* `ProtocolAssumptions.dfy` shows each of the five assumptions on the outside world to be needed: without it, every
  claimable order has a run that pays twice, or pays and refunds.
* `ProtocolEffects.dfy` says what each step does to an order in statuses, columns and sends: who is refunded and exactly
  when, who is delivered, who expires, who is retried.
* `OrderService.dfy` is the program itself, one method per stretch over mutable fields. Each method is proved to be the
  machine's step and to keep the object valid, and a valid object has never paid twice, refunded twice, or both paid
  and refunded.
* `PaymentIntake.dfy` accounts for every stroop over the table of all orders, and says of each chain event where it ends.
* `Breakers.dfy` has both circuit breakers, against the history of recorded outcomes.

The assumptions are the five fields of `Protocol.Assumptions`:

1. `notifyMovesJob`: a VCC job leaves `invoice_issued` only after a notify request was sent
   (api/vcc-internal.d.ts:59-63), and a reply never shows a status the job has not reached.
2. `throwsAreTagged`: a `payCtxOrder` that throws after its payment landed throws an error tagged `unknown` or
   `applied_failed` that carries a hash; one that returns has landed and returns a non-empty hash.
3. `leaseHolds`: while the handler is suspended, its last `updated_at` write is at most `STUCK_RETRY_AFTER_MS` old.
4. `sendsAreRecorded`: the process does not die between a CTX payment landing and the UPDATE that records it.
5. `looseSendsStayOff`: a send that threw without an ambiguous tag, or whose process died before it landed, does not
   land afterwards. An ambiguous send, whose hash is parked on the row, may land at any time after its throw.

Besides, clocks do not run backwards, and a payment event names the order it is handled for and carries a non-empty
sender.

The VCC callback is modelled from `stellar_card-backend/src/api/vcc-callback.js`: a row in any of five terminal
statuses is left alone, whichever way the callback goes.

## The receiver contract

`stellar_card-contract/src/lib.rs` holds two layers of an unfinished merge. The model follows the newer one: the packed
`Config` slot read through `load_config`, the guard in temporary storage, and the entrypoints from line 1306 on.
`Config` and the payment-limit keys are used there but not declared, and take their shape from use. `release_escrow`
reads a treasury slot (line 2097) that `save_config` removes (line 931): as written it fails in the packed layout.
The model reads the treasury through `load_config`, as its documentation intends. Statements of the older layer that the
merge left inside newer functions (such as lines 721-724, inside `validate_init_params`) are not followed.

* `Receiver.dfy` has storage, events, every modelled entrypoint, and `Exec`, which runs one invocation. A token is an
  adversary: each token call runs a finite tree of callbacks into any entrypoint with any authorization. A call that
  panics or returns an error leaves no trace. `Run` strings invocations together under a ledger and a clock that
  never decrease, mixed with transfers between outsiders.
* `ReceiverNesting.dfy` shows that callbacks under the guard amount to a sequence of unguarded calls, and gives the
  anatomy of a guarded call that all other proofs use.
* `ReceiverLog.dfy` and `ReceiverHistory.dfy`: the event log is the contract's history.
* `ReceiverAdministration.dfy` gives every entrypoint that calls no token from the log: when it succeeds, what it changes,
  what it publishes. `ReceiverEffects.dfy` gives every money call in balances, records and its event.
* `ReceiverRescue.dfy`, `ReceiverRate.dfy`, `ReceiverWidening.dfy`, `ReceiverEscrow.dfy`, `ReceiverShutdown.dfy`, `ReceiverAuthority.dfy`,
  `ReceiverLayout.dfy`: one subject each. `ReceiverDecisions.dfy` says from the log alone which money calls are let
  through and which refusal is given for what. `Fees.dfy` has the 128-bit basis-point arithmetic.
* `ReceiverContract.dfy` is the contract over mutable storage, one method per entrypoint with the source's early
  returns and loops, each proved to do what `Receiver` says, callbacks included.

Assumed of the host and the tokens: a failed invocation is rolled back whole; the contract never authorizes a call on
its own behalf other than as the source of its own transfers; a token that reports success has moved the amount, and
refuses a negative or uncovered one; a token acts on the world only by calling back into this contract. An entry of the
log also records who authorized the call, which a real event does not carry.

## Model

| member | source | states |
|---|---|---|
| Decimals.RoundTrip | stellar_card-backend/src/payment-handler.js:109-175 | parsing what the printer prints gives the number back, for every integer, negative ones included |
| Decimals.PrintedIsPlain | stellar_card-backend/src/payment-handler.js:169-175 | a printed non-negative amount is a plain decimal, so the strict and the tolerant parser both read it back |
| Decimals.ParsersAgree | stellar_card-backend/src/payment-handler.js:130-143 | on every string the strict parser accepts, all three parsers give the same positive value |
| Decimals.StroopsAreRational | stellar_card-backend/src/payment-handler.js:109-118 | up to seven fractional digits, every signed spelling the parser takes, "5." and ".5" and the empty string included, gives the rational value times ten million |
| Decimals.CompareIsRationalOrder | stellar_card-backend/src/payment-handler.js:100-106 | on the same spellings the comparison is exactly the order of the rational values |
| Decimals.LongFractionsAreCut | stellar_card-backend/src/payment-handler.js:109-118 | digits after the seventh do not change the parsed value, which bounds the previous two claims |
| Decimals.PrintedIsRefundable | stellar_card-backend/src/fulfillment.js:569-575 | for every integer, its printed form passes the refund guard if and only if it is positive |
| Decimals.PrintedExactly | stellar_card-backend/src/payment-handler.js:169-175 | the text printed is a sign if negative, a whole part without idle zeros, a point and seven digits, worth the number over ten million |
| DecimalText.AmountsAreRead | stellar_card-backend/src/payment-handler.js:130-143 | every text of digits, or digits, a point and digits, between white space, of any length, reads as its whole stroops: positive ones only for the strict parser; it passes the refund guard if and only if it is not zero |
| DecimalText.OthersAreRefused | stellar_card-backend/src/fulfillment.js:569-611 | every other text is refused by the strict parser and the refund guard and counts as zero in the refund sum |
| Orders.ParsesExactly | stellar_card-backend/src/payments/parse-payment-event.js:44-112 | an event is dispatched if and only if it is a pay_usdc or pay_xlm of a positive plain amount with 1 to 64 printable bytes of order id, and then carries the ledger's transaction, payer, order and printed amount in its own token |
| Orders.ParsedAmount | stellar_card-backend/src/payments/parse-payment-event.js:67-111 | the amount field of a dispatched event reads back as the amount on the ledger |
| Orders.Classify | stellar_card-backend/src/payment-handler.js:225-376 | the handler's chain of early returns reaches the verdict of the specification |
| Orders.ClaimedExactly | stellar_card-backend/src/payment-handler.js:280-365 | a parsed event claims an order if and only if there is a usable quote in its token and the amount on the ledger covers it |
| Orders.JudgedInStroops | stellar_card-backend/src/payment-handler.js:225-412 | the verdict reached on texts is the one the row and the ledger's amount give in stroops, reasons and excess included, and a claim leaves the row the event describes |
| Orders.ClaimCoversQuote | stellar_card-backend/src/payment-handler.js:296-361 | an order is claimed only by a payment at least as large as its quote |
| Orders.UsdcSum | stellar_card-backend/src/fulfillment.js:593-619 | quote plus recorded excess is the amount paid |
| Orders.RefundIsExact | stellar_card-backend/src/fulfillment.js:738-783 | for a claimed order the refund is sent to the payer, in the token paid, for the amount paid; the fallback to the quote is dead |
| Orders.StaleExcessIsRefunded | stellar_card-backend/src/payment-handler.js:391-400 | COALESCE keeps an old excess on an exact payment; the refund is exact if and only if that old excess counts as zero |
| Orders.StrictIsRefundable | stellar_card-backend/src/fulfillment.js:569-575 | every quote the intake accepts passes the refund guard |
| ProtocolSafety.ReachableInv | stellar_card-backend/src/payment-handler.js:386-571 | lease, checkpoints and the ledgers of payments, refunds and claims stay consistent over every interleaving, crashes included |
| ProtocolSafety.NeverPaidAndRefunded | stellar_card-backend/src/fulfillment.js:683-858 | no reachable order has both a refund sent and a CTX payment, whether on the ledger or reported ambiguous and yet to land |
| ProtocolSafety.AtMostOnePayment | stellar_card-backend/src/jobs.js:454-527 | first pass and retries together put at most one CTX payment on the ledger or in doubt, parked sends that land late included |
| ProtocolSafety.RecordedIsNeverResent | stellar_card-backend/src/jobs.js:316-328 | once a hash is recorded, parked or not, nobody is sending and the reconciler does not select the order |
| ProtocolSafety.SkipBranchIsDead | stellar_card-backend/src/jobs.js:492-500 | the branch that skips the payment because VCC is further along is never taken |
| ProtocolSafety.HandlerAndReconcilerExclude | stellar_card-backend/src/jobs.js:309-328 | handler and reconciler are never both inside the fulfilment steps, and a selected row is still the row |
| ProtocolSafety.AtMostOneRefund | stellar_card-backend/src/fulfillment.js:695-710 | at most one refund is sent over any run, and never two are in flight |
| ProtocolSafety.RefundClaimIsAbsorbing | stellar_card-backend/src/fulfillment.js:695-710 | no action, guarded or not, takes an order out of refund_pending except the send's return, nor out of refunded |
| ProtocolSafety.SecondCallIsIdle | stellar_card-backend/src/payment-handler.js:559-571 | the second of the catch's two refund calls changes nothing |
| ProtocolSafety.ReportedFailureInv | stellar_card-backend/src/api/vcc-callback.js:406-421 | a failure VCC reports after the payment is recorded keeps every invariant and refunds nothing |
| ProtocolSafety.PaymentUrlInv | stellar_card-backend/src/jobs.js:487-513 | while nothing was announced, no reply can trigger the skip, and the retry keeps the invariant |
| ProtocolSafety.RefundIsThePayment | stellar_card-backend/src/fulfillment.js:738-783 | in every reachable state the refund sent is, to the character, the printed amount of the one event that claimed the order |
| ProtocolSafety.FulfilmentIsBackground | stellar_card-backend/src/jobs.js:235-242 | every step but a payment is one of the row changes the table-wide accounting allows |
| ProtocolSafety.PaymentIsIntake | stellar_card-backend/src/payment-handler.js:386-412 | a payment step does to the row what the table-wide handler does |
| ProtocolEffects.OutcomeExactly | stellar_card-backend/src/payment-handler.js:386-571 | in every reachable state every enabled step leaves the status the table gives; a step that fails an order CTX was not paid for sends exactly the refund of its claiming payment unless the system is frozen, and no other step sends anything |
| ProtocolEffects.UnpaidFailureIsRefunded | stellar_card-backend/src/fulfillment.js:683-858 | an order that a step leaves failed with no CTX hash was failed on a frozen system |
| ProtocolEffects.RefundOrQuarantineEffect | stellar_card-backend/src/fulfillment.js:683-858 | from any status: with a hash an unfinished order goes to manual recovery; without one an order not yet refunded is, once, by its payment's refund, unless the system is frozen |
| ProtocolEffects.RefundSendExactly | stellar_card-backend/src/fulfillment.js:711-790 | for any row, legacy assets included, a refund is sent if and only if there is a sender and the recorded amount is the text of a positive number; to that sender, in that token, for XLM with that text and for USDC with the printed sum of quote and excess |
| ProtocolEffects.ReconcileEffect | stellar_card-backend/src/jobs.js:344-456 | by the selected row's age and attempts: ask VCC, fail and refund, or count one more attempt and take up the first missing step |
| ProtocolEffects.HardFailReplyEffect | stellar_card-backend/src/jobs.js:349-436 | silence, or a job under way or delivered, postpones the hard fail; anything else fails a row in ordering and refunds it |
| ProtocolEffects.HandlerFails | stellar_card-backend/src/payment-handler.js:542-571 | the handler's catch fails the order, whatever its status was, and refunds it at once unless CTX was paid or the system is frozen |
| ProtocolEffects.AmbiguousParks | stellar_card-backend/src/payment-handler.js:494-528 | an ambiguous send is parked: failed, with its hash, no refund |
| ProtocolEffects.AmbiguousRetryParks | stellar_card-backend/src/jobs.js:179-210 | an ambiguous retry is parked the same way |
| ProtocolEffects.PlainRetryWaits | stellar_card-backend/src/jobs.js:454-540 | a plain failure of a retry changes no column |
| ProtocolEffects.PollEffect | stellar_card-backend/src/jobs.js:585-650 | a failed job fails a live order and refunds it, or moves it to manual recovery when CTX was paid; a delivered one only refreshes it |
| ProtocolEffects.FulfilledEffect | stellar_card-backend/src/api/vcc-callback.js:267-301 | the fulfilled callback delivers an order in pending_payment, ordering or expired, and touches no order in the five finished statuses |
| ProtocolEffects.FailedCallbackEffect | stellar_card-backend/src/api/vcc-callback.js:406-497 | the failed callback moves a paid order to manual recovery and fails and refunds an unpaid one; finished orders stay |
| ProtocolEffects.RefundReturnEffect | stellar_card-backend/src/fulfillment.js:747-800 | a refund send that returns marks the order refunded; one that throws leaves its status |
| ProtocolEffects.ExpiryEffect | stellar_card-backend/src/jobs.js:232-242 | a pending order two hours old, in whole seconds, expires, and nothing else does |
| ProtocolEffects.SelectionEffect | stellar_card-backend/src/jobs.js:309-328 | the reconciler and the poller select by status, missing checkpoints, hash and age as written |
| ProtocolEffects.PaymentEffect | stellar_card-backend/src/payment-handler.js:386-412 | a payment claims the order if and only if it is dispatched, the order is pending, and its quote in that token is usable and covered |
| ProtocolEffects.HandlerCheckpoints | stellar_card-backend/src/payment-handler.js:454-541 | each step of the handler writes one checkpoint and refreshes the lease |
| ProtocolEffects.RetryCheckpoints | stellar_card-backend/src/jobs.js:459-540 | a retry resumes at the first missing step and writes the same checkpoints |
| ProtocolEffects.OrdersCanBeDelivered | stellar_card-backend/src/payment-handler.js:386-571 | every claimable order has a run that pays CTX once and is delivered |
| ProtocolEffects.OrdersCanBeRefunded | stellar_card-backend/src/fulfillment.js:683-858 | every claimable order has a run that ends refunded, by its payment's own refund |
| ProtocolEffects.OrdersCanBeRetried | stellar_card-backend/src/jobs.js:303-540 | every claimable order has a run that crashes before CTX is paid, is retried, paid once and delivered |
| ProtocolAssumptions.WithoutNotifyMovesJob | api/vcc-internal.d.ts:58-63 | without assumption 1 every claimable order has a run with a payment landed and a refund sent |
| ProtocolAssumptions.WithoutThrowsAreTagged | stellar_card-backend/src/payment-handler.js:490-528 | without assumption 2 every claimable order has a run with a payment landed and a refund sent |
| ProtocolAssumptions.WithoutLeaseHolds | stellar_card-backend/src/jobs.js:309-328 | without assumption 3 every claimable order has a run that pays twice |
| ProtocolAssumptions.WithoutSendsAreRecorded | stellar_card-backend/src/payment-handler.js:530-533 | without assumption 4 every claimable order has a run that pays twice |
| ProtocolAssumptions.WithoutLooseSendsStayOff | stellar_card-backend/src/payment-handler.js:494-528 | without assumption 5 every claimable order has a run that refunds and then pays, and one that pays twice |
| OrderService.Backend.Valid | stellar_card-backend/src/payment-handler.js:386-571 | an object satisfying the protocol's invariant has at most one payment landed or in doubt, at most one refund, and never both |
| OrderService.Backend.Drive | stellar_card-backend/src/jobs.js:293-651 | driven through any interleaving, callbacks, time and crashes included, the object follows the machine and stays valid, so none of these is ever violated |
| OrderService.Backend.UpdateStatus | stellar_card-backend/src/fulfillment.js:698-710 | a guarded UPDATE changes the row exactly when its status is not excluded, and reports whether it did |
| OrderService.Backend.ScheduleRefund | stellar_card-backend/src/fulfillment.js:683-800 | the routine up to its first await is the machine's step, with every early return |
| OrderService.Backend.QuarantineForManualRecovery | stellar_card-backend/src/fulfillment.js:815-836 | is the machine's function of the same name |
| OrderService.Backend.RefundOrQuarantine | stellar_card-backend/src/fulfillment.js:850-858 | is the machine's function of the same name |
| OrderService.Backend.RefundSendReturns | stellar_card-backend/src/fulfillment.js:747-755 | is the machine's step and keeps the object valid |
| OrderService.Backend.RefundSendThrows | stellar_card-backend/src/fulfillment.js:645-679 | is the machine's step and keeps the object valid |
| OrderService.Backend.HandlePayment | stellar_card-backend/src/payment-handler.js:217-431 | the parse, the chain of checks and the claiming UPDATE are the machine's step, whose effect is ProtocolEffects.PaymentEffect, and keep the object valid |
| OrderService.Backend.OuterCatch | stellar_card-backend/src/payment-handler.js:542-571 | is the machine's step: unguarded write, then two calls |
| OrderService.Backend.PriceReturns | stellar_card-backend/src/payment-handler.js:454-467 | is the machine's step and keeps the object valid |
| OrderService.Backend.PayCtxReturns | stellar_card-backend/src/payment-handler.js:530-535 | is the machine's step and keeps the object valid |
| OrderService.Backend.PayCtxThrows | stellar_card-backend/src/payment-handler.js:494-528 | is the machine's step: park on an ambiguous error, catch otherwise |
| OrderService.Backend.NotifyPaidReturns | stellar_card-backend/src/payment-handler.js:535-541 | is the machine's step, for both of the two notify calls |
| OrderService.Backend.RunJobs | stellar_card-backend/src/jobs.js:1277-1304 | is the machine's step: the mutex, then expiry |
| OrderService.Backend.ReconcileSelects | stellar_card-backend/src/jobs.js:303-333 | is the machine's step and keeps the object valid |
| OrderService.Backend.ReconcileTakes | stellar_card-backend/src/jobs.js:344-456 | is the machine's step, decided on the stale row |
| OrderService.Backend.HardFailStatusArrives | stellar_card-backend/src/jobs.js:349-390 | is the machine's step and keeps the object valid |
| OrderService.Backend.HardFail | stellar_card-backend/src/jobs.js:408-436 | is the machine's function, whose effect (failed and refunded, from ordering only) is ProtocolEffects.HardFailReplyEffect and ReconcileEffect |
| OrderService.Backend.RetryInvoiceReturns | stellar_card-backend/src/jobs.js:459-472 | is the machine's step and keeps the object valid |
| OrderService.Backend.PaymentUrlArrives | stellar_card-backend/src/jobs.js:488-513 | is the machine's step and keeps the object valid |
| OrderService.Backend.RetryCtxReturns | stellar_card-backend/src/jobs.js:514-527 | is the machine's step and keeps the object valid |
| OrderService.Backend.RetryCtxThrows | stellar_card-backend/src/jobs.js:179-210 | is the machine's step and keeps the object valid |
| OrderService.Backend.RetryNotifyReturns | stellar_card-backend/src/jobs.js:530-538 | is the machine's step and keeps the object valid |
| OrderService.Backend.PollSelects | stellar_card-backend/src/jobs.js:566-585 | is the machine's step and keeps the object valid |
| OrderService.Backend.PollStatusArrives | stellar_card-backend/src/jobs.js:585-650 | is the machine's step and keeps the object valid |
| OrderService.Backend.SubJobAborts | stellar_card-backend/src/jobs.js:1256-1275 | is the machine's step and keeps the object valid |
| OrderService.Backend.Crash | stellar_card-backend/src/jobs.js:1244-1304 | a restart keeps the row, forgets every suspended actor, and keeps the object valid |
| OrderService.Backend.CallbackFulfilled | stellar_card-backend/src/api/vcc-callback.js:267-301 | is the machine's step, which delivers by ProtocolEffects.FulfilledEffect, and keeps the object valid |
| OrderService.Backend.CallbackFailed | stellar_card-backend/src/api/vcc-callback.js:406-497 | is the machine's step, with the effect of ProtocolEffects.FailedCallbackEffect, and keeps the object valid |
| PaymentIntake.NothingIsLost | stellar_card-backend/src/payment-handler.js:217-412 | over every run, the payments reported by the contract, memo payments and unreadable order ids included, equal claimed plus unmatched plus dead-lettered, token by token and in number |
| PaymentIntake.IntakeExactly | stellar_card-backend/src/payment-handler.js:217-412 | on the table, from chain event and rows alone: a payment claims its order, is recorded as unmatched with its reason, or is dead-lettered because it does not parse or its handling throws, and nothing else changes |
| PaymentIntake.ClaimsIff | stellar_card-backend/src/payment-handler.js:280-412 | a claim is appended and the row moves to ordering if and only if the order exists, is pending, and has a usable quote in the event's token that the amount covers |
| PaymentIntake.ClaimsAreSound | stellar_card-backend/src/payment-handler.js:386-412 | no order is claimed twice or both claimed and expired, and each claim covers its quote |
| PaymentIntake.ThrowsExactlyOnBadXlmQuote | stellar_card-backend/src/payment-handler.js:331-365 | handling throws if and only if a pending order carries an XLM quote that is not a number |
| PaymentIntake.PaymentHandler.HandlePayment | stellar_card-backend/src/payment-handler.js:217-412 | parsing, the checks and the claim do to the whole table what the specification says, which PaymentIntake.IntakeExactly gives from the chain event; an event is dead-lettered exactly when it is reported so |
| Breakers.VccTripsExactly | stellar_card-backend/src/vcc-client.js:69-84 | the breaker trips exactly when three failures since the last success or trip each follow the previous within 60 s |
| Breakers.VccCounter | stellar_card-backend/src/vcc-client.js:69-95 | the counter is the length of the current chain of failures, whatever was recorded |
| Breakers.VccGate | stellar_card-backend/src/vcc-client.js:64-95 | the gate is shut exactly during the 30 s after a trip, whatever in-flight outcomes are recorded |
| Breakers.VccCircuit.Guard | stellar_card-backend/src/vcc-client.js:64-68 | reports whether the gate is shut by the recorded history |
| Breakers.VccCircuit.RecordFailure | stellar_card-backend/src/vcc-client.js:69-84 | extends the history by a failure and keeps the fields its summary |
| Breakers.VccCircuit.RecordSuccess | stellar_card-backend/src/vcc-client.js:85-95 | extends the history by a success and keeps the fields its summary |
| Breakers.WebhookTripsExactly | stellar_card-backend/src/fulfillment.js:354-374 | the breaker trips exactly on the fifth failure inside 60 s since the last success or trip |
| Breakers.WebhookList | stellar_card-backend/src/fulfillment.js:362-364 | the pruned list, filtered to the window, is the full history filtered to the window |
| Breakers.WebhookGate | stellar_card-backend/src/fulfillment.js:348-394 | the gate is shut exactly during the five minutes after a trip, whatever in-flight outcomes are recorded |
| Breakers.WebhookCircuits.RecordFailure | stellar_card-backend/src/fulfillment.js:354-374 | extends one origin's history, and no other's |
| Breakers.WebhookCircuits.RecordSuccess | stellar_card-backend/src/fulfillment.js:375-394 | extends one origin's history, and no other's |
| Breakers.WebhookCircuits.IsOpen | stellar_card-backend/src/fulfillment.js:348-352 | reports whether the origin's gate is shut by its history |
| Breakers.Filter | stellar_card-backend/src/fulfillment.js:363 | the filter loop keeps exactly the failures inside the window, in order |
| Fees.DiscountIsExact | stellar_card-contract/src/lib.rs:3440-3463 | for every positive 128-bit amount and up to 10000 bps nothing overflows and the net is the amount less the floored discount |
| Fees.NetIsMonotone | stellar_card-contract/src/lib.rs:3440-3463 | a larger payment never nets less |
| Fees.NetIsAntitone | stellar_card-contract/src/lib.rs:3440-3463 | a larger discount never nets more |
| Fees.FeeLegsSum | stellar_card-contract/src/lib.rs:955-979 | no 128-bit step of a fee split overflows; its legs are non-negative and sum to the amount, the fee being the floored share |
| ReceiverNesting.GuardRefuses | stellar_card-contract/src/lib.rs:836-847 | while the guard is held no guarded entrypoint succeeds, whatever its tokens do |
| ReceiverNesting.CallbacksFlatten | stellar_card-contract/src/lib.rs:881-886 | a callback tree of any depth under the guard amounts to the sequence of unguarded calls in it that succeeded |
| ReceiverNesting.CallbacksMoveNothing | stellar_card-contract/src/lib.rs:881-886 | whatever a token calls back, balances, escrow, rate vectors and rescue slot are untouched and no money event appears |
| ReceiverNesting.GuardReleased | stellar_card-contract/src/lib.rs:867-886 | every call that succeeds leaves the guard as it found it |
| ReceiverNesting.GuardedCall | stellar_card-contract/src/lib.rs:881-886 | a successful guarded call passed its checks with the guard free, wrote, ran its token calls, and wrote again |
| ReceiverNesting.ExecLog | stellar_card-contract/src/lib.rs:2715-2723 | a call only ever appends to the log, and nothing is stamped in the future |
| ReceiverHistory.LogIsHistory | stellar_card-contract/src/lib.rs:581-642 | in every world reachable from deployment, replaying the log gives admin, treasury, tokens, flags, roles, blacklist, limits and rate; the log is legal; the guard is free |
| ReceiverHistory.GuardedSound | stellar_card-contract/src/lib.rs:3287-3325 | a guarded call keeps log and storage in step even when its callbacks reconfigure the contract half-way, sweep included |
| ReceiverHistory.DirectWhenDead | stellar_card-contract/src/lib.rs:3340-3344 | on a decommissioned contract no administrative call unpauses, changes the admin or adds a role |
| ReceiverLog.EventsAreTransitions | stellar_card-contract/src/lib.rs:3022-3060 | every role, pause, blacklist, init and decommission event of a legal log changes the replayed view |
| ReceiverLog.RoleIsLastGrant | stellar_card-contract/src/lib.rs:3022-3060 | an address holds a role exactly when the latest role event about it granted that role |
| ReceiverLog.AdminProvenance | stellar_card-contract/src/lib.rs:2829-2832 | Admin authority in a legal log is the stored admin's, or comes from init or a grant authorized by the admin of that moment |
| ReceiverLog.NoAdminUntilGranted | stellar_card-contract/src/lib.rs:2913-2940 | an address without Admin authority stays without it until a later event grants it |
| ReceiverLog.SettledOnce | stellar_card-contract/src/lib.rs:2077-2165 | between two settlements under one key lies a deposit of exactly the second one's payer and amount |
| ReceiverRescue.SlotIsAlwaysHistory | stellar_card-contract/src/lib.rs:2843-2876 | the one reused slot gives the log's total of rescues for today and every later day, in every reachable world |
| ReceiverRescue.RescueWithinLimits | stellar_card-contract/src/lib.rs:2640-2724 | a successful rescue adds its amount to the day's total, which is within the limits read at its check |
| ReceiverRescue.DailyLimitHolds | stellar_card-contract/src/lib.rs:2680-2693 | while a daily limit stays in force, over any run, no day's rescues exceed it |
| ReceiverRescue.RestoreUndoesRecord | stellar_card-contract/src/lib.rs:2705-2713 | the write that undoes a failed rescue reads, from today on, as if nothing had been recorded |
| ReceiverRate.AgreementExactly | stellar_card-contract/src/lib.rs:1587-1626 | in every reachable chain, the pruned and expiring vectors decide as the full histories now and at every later ledger if and only if no vector has forgotten a payment of the window |
| ReceiverRate.SetRateExactly | stellar_card-contract/src/lib.rs:1550-1577 | after an accepted set_payment_rate_limit they do so if and only if, before it, none had forgotten a payment of the new window |
| ReceiverRate.VectorAgrees | stellar_card-contract/src/lib.rs:1587-1626 | from any reachable agreeing chain, agreement persists over every run that does not lengthen the window, both assets together |
| ReceiverWidening.WideningLetsThrough | stellar_card-contract/src/lib.rs:1550-1611 | every deployed contract has a run that lengthens the window, breaks agreement, and lets a payment through that the history would refuse |
| ReceiverRate.HistoryDecides | stellar_card-contract/src/lib.rs:1587-1611 | in every reachable chain a payment refused for its rate is over the limit on the full history too; one let through is within it as long as the payer's vector agrees |
| ReceiverRate.WindowNeverExceeded | stellar_card-contract/src/lib.rs:1737-1788 | from any reachable chain, while the configuration stays fixed, any window of consecutive ledgers holds at most the maximum of one payer's payments accepted from there on, over any run |
| ReceiverRate.WholeHistoryBounded | stellar_card-contract/src/lib.rs:1737-1788 | where the vectors agree at the start, the bound is on all payments ever accepted, unless the window gained none |
| ReceiverRate.RecentRecent | stellar_card-contract/src/lib.rs:1597-1605 | pruning by a window cannot be noticed later by a window that is no longer |
| ReceiverRate.RecentCounts | stellar_card-contract/src/lib.rs:1597-1605 | the filter keeps as many ledgers as lie in the window |
| ReceiverDecisions.AcceptedIffAllowed | stellar_card-contract/src/lib.rs:1737-2724 | in every reachable chain, and whatever its token calls back, a deposit, release, refund, rescue or memo payment succeeds if and only if the logged history allows it, the token answers and the sender has the amount; a rate-limited payment likewise when its payer's vector agrees |
| ReceiverDecisions.DecommissionIffAllowed | stellar_card-contract/src/lib.rs:3287-3325 | with plain tokens decommission succeeds if and only if the stored admin signed and the contract lives |
| ReceiverDecisions.CheckedIffAllowed | stellar_card-contract/src/lib.rs:1737-1788 | what the logged history allows passes the checks, decommission and every payment included; what passes them the history allows, rate-limited payments when the payer's vector agrees |
| ReceiverDecisions.RefusalIsTrue | stellar_card-contract/src/lib.rs:1550-3463 | in every reachable chain every error code a call returns is true: what it claims holds of the call and the logged history |
| ReceiverEscrow.EscrowIsSolvent | stellar_card-contract/src/lib.rs:1994-2165 | with nothing rescued, swept or repointed, the contract's balance of each token covers all escrow records in it, live ones in particular |
| ReceiverEffects.MoneyMovesExactly | stellar_card-contract/src/lib.rs:1737-2724 | in every reachable world a successful payment, deposit, release, refund or rescue moves the stated amount of the stated token between the two stated holders and no other balance; it and a decommission write exactly the stated record and publish exactly one money event, whatever the token calls back |
| ReceiverEffects.RescueMoves | stellar_card-contract/src/lib.rs:2640-2724 | a rescue lowers the contract's balance and raises the named recipient's by the amount, and changes no other balance |
| ReceiverEffects.DepositMoves | stellar_card-contract/src/lib.rs:1994-2068 | a deposit takes exactly the amount from the depositor, who signed, to the contract |
| ReceiverEffects.PaymentMovesNet | stellar_card-contract/src/lib.rs:1737-1788 | an accepted payment moves the amount less its floored discount from the payer, who signed, to the treasury in force |
| ReceiverEffects.SettlementIsExact | stellar_card-contract/src/lib.rs:2077-2165 | a settlement pays exactly the open deposit, a release to the treasury and a refund to the depositor; a release takes Operator authority, a refund within seven days Admin authority |
| ReceiverEscrow.LiveIffOpen | stellar_card-contract/src/lib.rs:2039-2055 | within the timelock a record is live exactly when the log shows an open deposit, and it is that deposit |
| ReceiverShutdown.DecommissionSweeps | stellar_card-contract/src/lib.rs:3302-3318 | after the sweep the contract holds none of the listed tokens, the treasury has gained exactly what it held, and no other holder and no unlisted token is touched |
| ReceiverShutdown.SweepListCovers | stellar_card-contract/src/lib.rs:3300-3308 | the list swept holds USDC, XLM and the extra tokens, and nothing else |
| ReceiverShutdown.DeadRefuses | stellar_card-contract/src/lib.rs:1737-1742 | on a decommissioned contract no payment, deposit, rescue or second decommission succeeds |
| ReceiverShutdown.DecommissionKills | stellar_card-contract/src/lib.rs:3287-3299 | a successful decommission leaves the contract paused and decommissioned, with the same admin and no new role, whatever its tokens call back |
| ReceiverShutdown.DeadForever | stellar_card-contract/src/lib.rs:3332-3344 | and over every later run it stays so, the role map only shrinking |
| ReceiverAuthority.AdminComesFromAdmin | stellar_card-contract/src/lib.rs:2829-2832 | in every reachable world whoever passes an Admin check is the stored admin or was made Admin by one and not demoted since |
| ReceiverAuthority.OldAdminIsOut | stellar_card-contract/src/lib.rs:2913-2940 | after transfer_admin to another address the old admin passes no Admin check in any later world until a logged grant |
| ReceiverAuthority.AdminNeverLockedOut | stellar_card-contract/src/lib.rs:3360-3363 | in every reachable live world the stored admin's signature carries every gated call with valid arguments: administration succeeds, no money call panics, and decommission goes through with plain tokens |
| ReceiverAuthority.PaymentsNeverOverflow | stellar_card-contract/src/lib.rs:3440-3463 | no payment of a 128-bit amount fails for arithmetic |
| ReceiverAdministration.AdministrationExactly | stellar_card-contract/src/lib.rs:1256-3412 | in every reachable world each entrypoint that calls no token succeeds if and only if the replayed log permits it to those who signed, leaves exactly the stated configuration and discounts, moves no money and publishes exactly the stated events |
| ReceiverAdministration.DiscountExactly | stellar_card-contract/src/lib.rs:3386-3412 | set_discount succeeds if and only if the contract is initialized, the caller signed, is the stored admin or holds Operator or Admin, and the discount is at most 10000 bps; it then changes that account's discount and nothing else |
| ReceiverAdministration.CallbackTakesEffect | stellar_card-contract/src/lib.rs:881-886 | what a token calls back takes effect if it is administration the state so far permits, and changes nothing otherwise |
| ReceiverLayout.ExecSame | stellar_card-contract/src/lib.rs:899-919 | every call, callbacks included, has the same result in the packed and in the older layout |
| ReceiverLayout.LayoutsAgree | stellar_card-contract/src/lib.rs:899-933 | two runs of the same steps from the two layouts stay the same throughout |
| ReceiverLayout.FirstSaveRetires | stellar_card-contract/src/lib.rs:927-933 | a call leaves the slots alone or leaves only the packed one |
| ReceiverLayout.MigrationIsInvisible | stellar_card-contract/src/lib.rs:899-933 | a contract in the three-slot layout answers every call as the one whose packed slot holds the same admin, treasury and flag; once either saves they are equal |
| ReceiverLayout.InitRefused | stellar_card-contract/src/lib.rs:592-596 | an initialized contract refuses init in either layout |
| ReceiverContract.Contract.Load | stellar_card-contract/src/lib.rs:899-919 | is the specification's read of the configuration |
| ReceiverContract.Contract.Save | stellar_card-contract/src/lib.rs:927-933 | is the specification's write |
| ReceiverContract.Contract.Init | stellar_card-contract/src/lib.rs:581-642 | does what the specification says, or fails as it does |
| ReceiverContract.Contract.Pause | stellar_card-contract/src/lib.rs:1306-1325 | does what the specification says, or fails as it does |
| ReceiverContract.Contract.Unpause | stellar_card-contract/src/lib.rs:1344-1362 | does what the specification says, or fails as it does |
| ReceiverContract.Contract.SetBlacklisted | stellar_card-contract/src/lib.rs:1256-1276 | does what the specification says, or fails as it does |
| ReceiverContract.Contract.UpdateTreasury | stellar_card-contract/src/lib.rs:2342-2361 | does what the specification says, or fails as it does |
| ReceiverContract.Contract.UpdateToken | stellar_card-contract/src/lib.rs:2376-2429 | does what the specification says for either token, or fails as it does |
| ReceiverContract.Contract.PutRole | stellar_card-contract/src/lib.rs:3022-3039 | writes and publishes only when the role changes |
| ReceiverContract.Contract.DropRole | stellar_card-contract/src/lib.rs:3048-3060 | removes and publishes only when a role is held |
| ReceiverContract.Contract.GrantRoles | stellar_card-contract/src/lib.rs:2967-3006 | the loop over addresses does what the specification says; grant_role is the one-address case |
| ReceiverContract.Contract.RevokeRole | stellar_card-contract/src/lib.rs:3078-3085 | does what the specification says, or fails as it does |
| ReceiverContract.Contract.RenounceRole | stellar_card-contract/src/lib.rs:3113-3120 | does what the specification says, or fails as it does |
| ReceiverContract.Contract.TransferAdmin | stellar_card-contract/src/lib.rs:2913-2940 | does what the specification says, or fails as it does |
| ReceiverContract.Contract.SetDiscount | stellar_card-contract/src/lib.rs:3386-3412 | does what the specification says, or fails as it does; exactly when and what is ReceiverAdministration.DiscountExactly |
| ReceiverContract.Contract.SetRateLimit | stellar_card-contract/src/lib.rs:1550-1577 | does what the specification says, or fails as it does |
| ReceiverContract.Contract.SetPaymentLimits | stellar_card-contract/src/lib.rs:1643-1677 | does what the specification says, or fails as it does |
| ReceiverContract.Contract.SetWithdrawLimits | stellar_card-contract/src/lib.rs:2755-2801 | does what the specification says, or fails as it does |
| ReceiverContract.Contract.GuardedTransfer | stellar_card-contract/src/lib.rs:836-886 | runs the token with the guard held and releases it on both outcomes, or panics when it is held already |
| ReceiverContract.Contract.TokenCalled | stellar_card-contract/src/lib.rs:881-886 | a token's callbacks run one by one, the failing ones leaving no trace |
| ReceiverContract.Contract.NextPaymentRateLimit | stellar_card-contract/src/lib.rs:1587-1611 | the filter loop returns the payer's ledgers inside the window plus this one, or refuses at the maximum |
| ReceiverContract.Contract.PaymentChecks | stellar_card-contract/src/lib.rs:1737-1770 | the checks, in the source's order, fail as the specification does and otherwise yield its transfer and its ledgers |
| ReceiverContract.Contract.Pay | stellar_card-contract/src/lib.rs:1737-1963 | the four payment entrypoints do what the specification says, callbacks included |
| ReceiverContract.Contract.Deposit | stellar_card-contract/src/lib.rs:1994-2068 | does what the specification says, callbacks included; what it moves is ReceiverEffects.DepositMoves |
| ReceiverContract.Contract.Release | stellar_card-contract/src/lib.rs:2077-2115 | does what the specification says, callbacks included |
| ReceiverContract.Contract.Refund | stellar_card-contract/src/lib.rs:2124-2165 | does what the specification says, callbacks included |
| ReceiverContract.Contract.Rescue | stellar_card-contract/src/lib.rs:2640-2724 | does what the specification says, callbacks included; what it moves is ReceiverEffects.RescueMoves |
| ReceiverContract.Contract.ListTokens | stellar_card-contract/src/lib.rs:3300-3308 | the listing loop builds the specification's list |
| ReceiverContract.Contract.SweepAll | stellar_card-contract/src/lib.rs:3310-3318 | the sweep loop does what the specification says, or fails as it does |
| ReceiverContract.Contract.Shut | stellar_card-contract/src/lib.rs:3287-3325 | decommission does what the specification says, callbacks included |
| ReceiverContract.Contract.Dispatch | stellar_card-contract/src/lib.rs:867-880 | an invocation takes effect whole, as the specification says, or leaves every field as it was |

## Left out

- Horizon, Soroban RPC, VCC HTTP, SQLite itself, webhooks, email, logging and telemetry: nondeterministic replies or nothing.
- A database write that fails, and a second process on the same database.
- Approval requests, the `rejected` and `awaiting_approval` statuses, policies, retention and pruning jobs, `reconcileRefundQuarantine`, `env.js`, `db.js`.
- The dead-letter entry of an event that moved no money (an unknown symbol is skipped, an amount that is not positive is dead-lettered): the books count payments only.
- The webhook retry delay (`fulfillment.js`, lines 274-326): two versions overlap unmerged.
- Whether every stuck order is eventually resolved: a row with a recorded hash is never retried, by design.
- `delivered` as a terminal status: the handler's catch writes `failed` without a guard.
- `parseFloat` of a decimal below 5e-324, which rounds to zero; the model takes the string's own digits.
- The older contract layer (batch payments, treasury timelock, upgrade signers), treasury splits, WASM upgrade and instance-storage lifetimes; of its fee split only the arithmetic.
- Archival of persistent entries and network ceilings on lifetimes: role, blacklist and discount entries are taken to stay.
- Machine widths, other than the 128-bit discount and daily total and the saturating 64-bit escrow expiry: ledgers, times and token balances are unbounded.
- Callbacks during `init`: the two token probes are taken to be read-only.
- Tokens that misreport balances, charge on transfer, or receive donations during a sweep.
- Rate limits on the memo entrypoints: the source has none.
- ReceiverEscrow.EscrowIsSolvent: does not extend to runs that rescue, decommission or repoint a token, since those take or orphan the very tokens held.
- ReceiverRate.VectorAgrees: after a change that lengthens the window agreement is decided case by case (ReceiverRate.SetRateExactly); it can fail (ReceiverWidening.WideningLetsThrough).
- ReceiverRate.WindowNeverExceeded: payments accepted before the configuration was set are not counted with the later ones, since they may have been pruned under a shorter window; where they have not, ReceiverRate.WholeHistoryBounded counts them.
- ReceiverDecisions.AcceptedIffAllowed: a rate-limited payment that the full history refuses can be accepted once its payer's vector has forgotten; the exact condition is ReceiverRate.AgreementExactly.
- ReceiverDecisions.DecommissionIffAllowed: says nothing of tokens that fail during the sweep; any failing token call fails the decommission.
- ReceiverShutdown.DecommissionSweeps: assumes the treasury is not the contract itself, which `init` checks and `update_treasury` does not.
- ReceiverLog.EventsAreTransitions: not claimed of limit, rate, treasury and token events, which are published even when they set the value already there.
