/**
 * What each step does to an order, stated on statuses, columns, clocks and sends, and so on no function of
 * the program: who is refunded and exactly when, who is delivered, who expires, who is retried.
 */
module ProtocolEffects {
  import opened Results
  import opened Orders
  import opened Protocol
  import opened ProtocolSafety
  import opened ProtocolAssumptions
  import Decimals
  import DecimalText

  // ---------------------------------------------------------------------------
  // Failing an order
  // ---------------------------------------------------------------------------

  /** The row carries the hash of a CTX payment. */
  predicate Recorded(row: Row) {
    row.ctxTxid.Some? && row.ctxTxid.value != ""
  }

  /** The refund the payment `c` is owed: its own token, its own amount, back to its payer. */
  function RefundOf(c: ChainEvent): Send {
    Send(if c.symbol == PayUsdc then Usdc else Xlm, Decimals.StroopsToDecimal(c.stroops), c.from)
  }

  function StatusAt(s: State, status: Status): State {
    s.(row := s.row.(status := status, updatedAt := s.clock))
  }

  /**
   * `s` with its order failed: left at `recorded` when CTX was paid, at `failed` when the system is frozen,
   * and otherwise refunded by one more send.
   */
  function FailedFrom(s: State, c: ChainEvent, recorded: Status): State {
    if Recorded(s.row) then StatusAt(s, recorded)
    else if s.frozen then StatusAt(s, Failed)
    else StatusAt(s, RefundPending).(refundsInFlight := s.refundsInFlight + 1,
                                     ledger := s.ledger.(refunds := s.ledger.refunds + [RefundOf(c)]))
  }

  /** `s` is the text of a number above zero. */
  ghost predicate PositiveText(s: string) {
    exists whole, frac :: DecimalText.Denotes(s, whole, frac) && Decimals.Rational(whole, frac, false) > 0.0
  }

  lemma GuardIsPositive(s: string)
    ensures IsValid(s) <==> PositiveText(s)
  {
    hide Decimals.IsValidRefundAmount, Decimals.Rational, Decimals.ToStroopsOrZero, Decimals.ParseStrictPositiveStroops;
    if IsValid(s) && !exists whole, frac :: DecimalText.Denotes(s, whole, frac) {
      DecimalText.OthersAreRefused(s);
    }
    forall whole, frac | DecimalText.Denotes(s, whole, frac)
      ensures IsValid(s) <==> Decimals.Rational(whole, frac, false) > 0.0
    {
      DecimalText.AmountsAreRead(s, whole, frac);
    }
  }

  predicate IsValid(s: string) {
    Decimals.IsValidRefundAmount(Some(s))
  }

  /**
   * Any row, legacy assets included: a refund is sent if and only if there is a sender and the amount on record,
   * paid for XLM and quoted for USDC, is the text of a positive number; it goes to that sender, in that token, for
   * XLM with that very text, for USDC with the printed sum of quote and excess (the quote, should the sum be zero).
   */
  lemma RefundSendExactly(m: Money)
    ensures var xlm := m.paymentAsset == Some(XlmSoroban) || m.paymentAsset == Some(LegacyXlm);
            var usdc := m.paymentAsset == Some(UsdcSoroban) || m.paymentAsset == Some(LegacyUsdc);
            && (RefundSend(m) != None <==>
                  && m.senderAddress != None && m.senderAddress != Some("")
                  && (|| (xlm && m.paymentXlmAmount != None && PositiveText(m.paymentXlmAmount.value))
                      || (usdc && PositiveText(m.amountUsdc))))
            && (RefundSend(m) != None ==>
                  && RefundSend(m).value.token == (if xlm then Xlm else Usdc)
                  && Some(RefundSend(m).value.destination) == m.senderAddress
                  && (xlm ==> Some(RefundSend(m).value.amount) == m.paymentXlmAmount)
                  && (usdc ==>
                        var sum := Decimals.ToStroopsOrZero(Some(m.amountUsdc)) + Decimals.ToStroopsOrZero(m.excessUsdc);
                        RefundSend(m).value.amount == if sum > 0 then Decimals.StroopsToDecimal(sum) else m.amountUsdc))
  {
    hide PositiveText, Decimals.IsValidRefundAmount, Decimals.ToStroopsOrZero, Decimals.StroopsToDecimal;
    Decimals.PrintedIsRefundable(Decimals.ToStroopsOrZero(Some(m.amountUsdc)) + Decimals.ToStroopsOrZero(m.excessUsdc));
    NoAmountIsRefused();
    GuardIsPositive(m.amountUsdc);
    if m.paymentXlmAmount.Some? {
      GuardIsPositive(m.paymentXlmAmount.value);
    }
  }

  lemma NoAmountIsRefused()
    ensures !Decimals.IsValidRefundAmount(None)
  {
  }

  /**
   * The choice between refund and quarantine, from any status: with a hash on the row, an unfinished order goes to
   * manual recovery; without one, an order not yet refunded is, once, unless the system is frozen.
   */
  lemma RefundOrQuarantineEffect(s: State, c: ChainEvent)
    requires ClaimedBy(s.row.money, c)
    ensures RefundOrQuarantine(s) ==
            if Recorded(s.row) then
              if s.row.status in {Delivered, Failed, Refunded, RefundPending, PendingManualRecovery} then s
              else StatusAt(s, PendingManualRecovery)
            else if s.frozen || s.row.status == RefundPending || s.row.status == Refunded then s
            else StatusAt(s, RefundPending).(refundsInFlight := s.refundsInFlight + 1,
                                             ledger := s.ledger.(refunds := s.ledger.refunds + [RefundOf(c)]))
  {
    hide RefundSend, ClaimedBy, Decimals.StroopsToDecimal;
    RefundIsExact(s.row.money, c);
  }

  lemma FailThenRefund(s: State, c: ChainEvent)
    requires ClaimedBy(s.row.money, c)
    ensures RefundOrQuarantine(SetStatus(s, Failed)) == FailedFrom(s, c, Failed)
  {
    hide RefundSend, ClaimedBy, Decimals.StroopsToDecimal;
    RefundIsExact(s.row.money, c);
  }

  lemma QuarantineKeeps(s: State)
    requires Recorded(s.row)
    ensures RefundOrQuarantine(SetStatus(s, PendingManualRecovery)) == StatusAt(s, PendingManualRecovery)
  {
    hide RefundSend;
  }

  predicate Plain(e: PayError) {
    !(e.stellarStatus == Unknown || e.stellarStatus == AppliedFailed) || e.txHash == None || e.txHash == Some("")
  }

  lemma CatchEffect(s: State, c: ChainEvent)
    requires ClaimedBy(s.row.money, c)
    ensures HandlerCatch(s) == FailedFrom(s, c, Failed).(handler := HandlerIdle)
  {
    hide RefundSend, ClaimedBy, RefundOrQuarantine, Decimals.StroopsToDecimal;
    var t := s.(handler := HandlerIdle);
    FailThenRefund(t, c);
    SecondCallIsIdle(SetStatus(t, Failed));
  }

  lemma LoosenedFails(s: State, c: ChainEvent, unlanded: bool)
    ensures FailedFrom(Loosen(s, unlanded), c, Failed)
         == FailedFrom(s, c, Failed).(ledger := FailedFrom(s, c, Failed).ledger.(
              loose := if unlanded then s.ledger.loose + 1 else s.ledger.loose))
  {
    hide RefundOf;
  }

  /** The handler's catch: the order fails, whatever its status was, and is refunded at once unless CTX was paid. */
  lemma HandlerFails(s: State, c: ChainEvent, a: Action)
    requires ClaimedBy(s.row.money, c)
    requires a.InvoiceThrows? || a.NotifyThrows? || (a.CtxThrows? && Plain(a.error))
    ensures var lost := if a.CtxThrows? && s.handler == AwaitCtx(false) then s.ledger.loose + 1 else s.ledger.loose;
            Next(s, a) == FailedFrom(s, c, Failed).(handler := HandlerIdle,
              ledger := FailedFrom(s, c, Failed).ledger.(loose := lost))
  {
    hide HandlerCatch, ClaimedBy, FailedFrom;
    var unlanded := a.CtxThrows? && s.handler == AwaitCtx(false);
    SameClaim(s, unlanded);
    CatchEffect(Loosen(s, unlanded), c);
    CatchEffect(s, c);
    LoosenedFails(s, c, unlanded);
    LoosenedFails(s, c, false);
  }

  lemma SameClaim(s: State, unlanded: bool)
    ensures Loosen(s, unlanded).row == s.row && Loosen(s, false) == s
  {
  }

  /** An ambiguous send is parked: failed, with its hash, no refund. */
  lemma AmbiguousParks(s: State, e: PayError)
    requires s.handler.AwaitCtx? && !Plain(e)
    ensures Next(s, CtxThrows(e)).row == s.row.(status := Failed, ctxTxid := e.txHash, updatedAt := s.clock)
    ensures Next(s, CtxThrows(e)).handler == HandlerIdle && Next(s, CtxThrows(e)).refundsInFlight == s.refundsInFlight
    ensures Next(s, CtxThrows(e)).ledger.refunds == s.ledger.refunds
  {
    hide HandlerCatch;
  }

  lemma AmbiguousRetryParks(s: State, e: PayError)
    requires s.jobs.AwaitRetryCtx? && !Plain(e)
    ensures Next(s, RetryCtxThrows(e)).row == s.row.(status := Failed, ctxTxid := e.txHash, updatedAt := s.clock)
    ensures Next(s, RetryCtxThrows(e)).jobs == BeforePoll && Next(s, RetryCtxThrows(e)).refundsInFlight == s.refundsInFlight
    ensures Next(s, RetryCtxThrows(e)).ledger.refunds == s.ledger.refunds
  {
  }

  /** A plain failure of a retry changes no column: the next tick tries again. */
  lemma PlainRetryWaits(s: State, a: Action)
    requires a.RetryInvoiceThrows? || a.RetryNotifyThrows? || (a.RetryCtxThrows? && Plain(a.error))
    ensures Next(s, a).row == s.row && Next(s, a).jobs == BeforePoll
    ensures Next(s, a).ledger.refunds == s.ledger.refunds && Next(s, a).refundsInFlight == s.refundsInFlight
  {
  }

  lemma HardFailEffect(s: State, c: ChainEvent)
    requires ClaimedBy(s.row.money, c)
    ensures HardFail(s) == (if s.row.status == Ordering then FailedFrom(s, c, Failed) else s).(jobs := BeforePoll)
  {
    hide RefundSend, ClaimedBy, RefundOrQuarantine, Decimals.StroopsToDecimal;
    FailThenRefund(s.(jobs := BeforePoll), c);
  }

  /**
   * The reconciler on its selected row, by that row's age and attempts: too old or tried too often with a job,
   * ask VCC; without one, fail and refund; otherwise count one more attempt and take up the first missing step.
   */
  lemma ReconcileEffect(s: State, c: ChainEvent)
    requires s.jobs.Selected? && ClaimedBy(s.row.money, c)
    ensures var snap := s.jobs.snap;
            var t := Next(s, ReconcileTakes);
            var retried := s.(row := s.row.(attempt := s.row.attempt + 1, updatedAt := s.clock));
            if snap.updatedAt < s.jobs.failCutoff || snap.attempt >= s.timings.maxAttempts then
              if snap.hasJob then t == s.(jobs := AwaitHardFailStatus(snap))
              else t == (if s.row.status == Ordering then FailedFrom(s, c, Failed) else s).(jobs := BeforePoll)
            else if s.row.status != Ordering || s.row.attempt != snap.attempt then t == s.(jobs := BeforePoll)
            else if !snap.hasJob then t == retried.(jobs := AwaitRetryInvoice(snap))
            else if !snap.xlmSent then t == retried.(jobs := AwaitPaymentUrl(snap))
            else if !snap.notified then t == retried.(jobs := AwaitRetryNotify(snap), notifyCalled := true)
            else t == retried.(jobs := BeforePoll)
  {
    hide HardFail, ClaimedBy, Decimals.StroopsToDecimal;
    HardFailEffect(s, c);
  }

  /** VCC's answer before a hard fail: silence, or a job under way or delivered, postpones it; anything else fails and refunds. */
  lemma HardFailReplyEffect(s: State, c: ChainEvent, reply: Reply)
    requires s.jobs.AwaitHardFailStatus? && ClaimedBy(s.row.money, c)
    ensures var t := Next(s, HardFailStatusArrives(reply));
            if reply == Threw || reply.status == Some(InvoiceIssued) || reply.status == Some(Queued)
               || reply.status == Some(Running) || reply.status == Some(JobDelivered)
            then t == s.(row := s.row.(updatedAt := s.clock), jobs := BeforePoll)
            else t == (if s.row.status == Ordering then FailedFrom(s, c, Failed) else s).(jobs := BeforePoll)
  {
    hide HardFail, ClaimedBy, Decimals.StroopsToDecimal;
    HardFailEffect(s, c);
  }

  /** The poller: a failed job fails a live order, a delivered one only refreshes it, anything else waits. */
  lemma PollEffect(s: State, c: ChainEvent, reply: Reply)
    requires s.jobs.AwaitPollStatus? && (s.row.status in {PendingPayment, Ordering} ==> ClaimedBy(s.row.money, c))
    requires Recorded(s.jobs.snap) ==> Recorded(s.row)
    ensures var t := Next(s, PollStatusArrives(reply));
            if reply.Reply? && reply.status == Some(JobDelivered) then
              t == s.(row := s.row.(updatedAt := s.clock), jobs := JobsIdle)
            else if reply.Reply? && reply.status == Some(JobFailed) && s.row.status in {PendingPayment, Ordering} then
              t == (if Recorded(s.jobs.snap) then StatusAt(s, PendingManualRecovery)
                    else FailedFrom(s, c, Failed)).(jobs := JobsIdle)
            else
              t == s.(jobs := JobsIdle)
  {
    hide RefundSend, ClaimedBy, RefundOrQuarantine, Decimals.StroopsToDecimal;
    var t := s.(jobs := JobsIdle);
    if Recorded(s.jobs.snap) {
      QuarantineKeeps(t);
    } else if s.row.status in {PendingPayment, Ordering} {
      FailThenRefund(t, c);
    }
  }

  // ---------------------------------------------------------------------------
  // The callback, the refund's return, expiry
  // ---------------------------------------------------------------------------

  /** VCC's fulfilled callback delivers every order that is not finished, and touches no finished one. */
  lemma FulfilledEffect(s: State)
    ensures s.row.status in {PendingPayment, Ordering, Expired} ==>
              Next(s, CallbackFulfilled) == s.(row := s.row.(status := Delivered, updatedAt := s.clock))
    ensures s.row.status in {Delivered, Failed, Refunded, RefundPending, PendingManualRecovery} ==>
              Next(s, CallbackFulfilled) == s
  {
  }

  /** Its failed callback: into manual recovery when CTX was paid, otherwise failed and refunded; finished orders stay. */
  lemma FailedCallbackEffect(s: State, c: ChainEvent)
    requires ClaimedBy(s.row.money, c)
    ensures s.row.status in {PendingPayment, Ordering, Expired} ==>
              Next(s, CallbackFailed) == FailedFrom(s, c, PendingManualRecovery)
    ensures s.row.status in {Delivered, Failed, Refunded, RefundPending, PendingManualRecovery} ==>
              Next(s, CallbackFailed) == s
  {
    hide RefundSend, ClaimedBy, RefundOrQuarantine, Decimals.StroopsToDecimal;
    if Recorded(s.row) {
      QuarantineKeeps(s);
    } else {
      FailThenRefund(s, c);
    }
  }

  /** A refund send that returns closes the order; one that throws leaves it for operators, touched if it left a hash. */
  lemma RefundReturnEffect(s: State, hasHash: bool)
    requires s.refundsInFlight > 0
    ensures Next(s, RefundReturns)
         == s.(row := s.row.(status := Refunded, updatedAt := s.clock), refundsInFlight := s.refundsInFlight - 1)
    ensures Next(s, RefundThrows(hasHash))
         == s.(row := if hasHash then s.row.(updatedAt := s.clock) else s.row, refundsInFlight := s.refundsInFlight - 1)
  {
  }

  /** The expiry sweep: an unpaid order two hours old, in whole seconds, expires; nothing else does; a running tick is left alone. */
  lemma ExpiryEffect(s: State)
    ensures s.jobs != JobsIdle ==> Next(s, RunJobs) == s
    ensures s.jobs == JobsIdle ==>
              Next(s, RunJobs) ==
              if s.row.status == PendingPayment && s.row.createdAt / 1000 < (s.clock - 2 * 60 * 60 * 1000) / 1000
              then s.(row := s.row.(status := Expired, updatedAt := s.clock), jobs := BeforeReconcile)
              else s.(jobs := BeforeReconcile)
  {
  }

  // ---------------------------------------------------------------------------
  // Claims, checkpoints, selections
  // ---------------------------------------------------------------------------

  /** A payment the parser dispatches, for a pending order whose quote in its token it covers. */
  predicate ClaimsIt(row: Row, c: ChainEvent) {
    && (c.symbol == PayUsdc || c.symbol == PayXlm) && c.stroops > 0 && !c.tuple
    && 1 <= |c.orderId| <= 64 && (forall i :: 0 <= i < |c.orderId| ==> ' ' <= c.orderId[i] <= '~')
    && row.status == PendingPayment
    && Quoted(row.money, c).Some? && Quoted(row.money, c).value <= c.stroops
  }

  /** Such a payment claims the order; any other leaves it alone. */
  lemma PaymentEffect(s: State, c: ChainEvent)
    ensures Next(s, PaymentArrives(c)) ==
            if ClaimsIt(s.row, c) then s.(row := RowClaimedBy(s.row, c, s.clock), handler := AwaitInvoice,
                              ledger := s.ledger.(claims := s.ledger.claims + [c]))
            else s
  {
    ParsesExactly(c);
    hide ParsePaymentEvent, Judge, RowClaimedBy, ClaimRow, Decimals.StroopsToDecimal, Decimals.ToStroops,
      Decimals.ParseStrictPositiveStroops;
    if ParsePaymentEvent(c).Some? {
      JudgedInStroops(s.row, c, s.clock);
    }
  }

  /** The handler's way forward: one checkpoint column per step, each refreshing the lease. */
  lemma HandlerCheckpoints(s: State, hash: string)
    requires hash != ""
    ensures Next(s, InvoiceReturns) == s.(handler := AwaitPrice)
    ensures Next(s, PriceReturns) == s.(row := s.row.(hasJob := true, updatedAt := s.clock), handler := AwaitCtx(false))
    ensures Next(s, CtxReturns(hash))
         == s.(row := s.row.(xlmSent := true, ctxTxid := Some(hash), updatedAt := s.clock), handler := AwaitNotify,
               notifyCalled := true)
    ensures s.handler == AwaitNotify ==> Next(s, NotifyReturns) == s.(handler := AwaitSecondNotify)
    ensures s.handler == AwaitSecondNotify ==>
              Next(s, NotifyReturns) == s.(row := s.row.(notified := true, updatedAt := s.clock), handler := HandlerIdle)
  {
  }

  /** The retry's way forward from the first missing step, with the same checkpoints. */
  lemma RetryCheckpoints(s: State, hash: string, reply: Reply)
    requires hash != ""
    ensures s.jobs.AwaitRetryInvoice? && !s.jobs.snap.xlmSent ==>
              Next(s, RetryInvoiceReturns)
              == s.(row := s.row.(hasJob := true, updatedAt := s.clock), jobs := AwaitRetryCtx(s.jobs.snap, false))
    ensures s.jobs.AwaitPaymentUrl? && (reply == Threw || !reply.hasUrl) ==>
              Next(s, PaymentUrlArrives(reply)) == s.(jobs := BeforePoll)
    ensures s.jobs.AwaitPaymentUrl? && reply.Reply? && reply.hasUrl && reply.status in {None, Some(InvoiceIssued)} ==>
              Next(s, PaymentUrlArrives(reply)) == s.(jobs := AwaitRetryCtx(s.jobs.snap, false))
    ensures s.jobs.AwaitRetryCtx? && !s.jobs.snap.notified ==>
              Next(s, RetryCtxReturns(hash))
              == s.(row := s.row.(xlmSent := true, ctxTxid := Some(hash), updatedAt := s.clock),
                    jobs := AwaitRetryNotify(s.jobs.snap), notifyCalled := true)
    ensures s.jobs.AwaitRetryInvoice? && s.jobs.snap.xlmSent && !s.jobs.snap.notified ==>
              Next(s, RetryInvoiceReturns)
              == s.(row := s.row.(hasJob := true, updatedAt := s.clock), jobs := AwaitRetryNotify(s.jobs.snap), notifyCalled := true)
    ensures s.jobs.AwaitRetryCtx? && s.jobs.snap.notified ==>
              Next(s, RetryCtxReturns(hash))
              == s.(row := s.row.(xlmSent := true, ctxTxid := Some(hash), updatedAt := s.clock), jobs := BeforePoll)
    ensures Next(s, RetryNotifyReturns) == s.(row := s.row.(notified := true, updatedAt := s.clock), jobs := BeforePoll)
  {
    hide Payment, HandlerCatch, Take, HardFailReply, PollReply, FailedCallback, FulfilledCallback, Expire;
  }

  /** A crash keeps the row and forgets who was suspended where; an aborted sub-job keeps it and lets the tick go on. */
  lemma CrashEffect(s: State)
    ensures var t := Next(s, Crash);
            t == s.(handler := HandlerIdle, jobs := JobsIdle, refundsInFlight := 0, ledger := s.ledger.(loose := t.ledger.loose))
    ensures Next(s, SubJobAborts)
         == s.(jobs := if s.jobs == BeforePoll || s.jobs.AwaitPollStatus? then JobsIdle else BeforePoll)
  {
  }

  /** Which order the reconciler and the poller take up: by status, missing checkpoints, hash and age. */
  lemma SelectionEffect(s: State)
    ensures Next(s, ReconcileSelects) ==
            if !s.frozen && s.row.status == Ordering && !(s.row.hasJob && s.row.xlmSent && s.row.notified)
               && s.row.ctxTxid == None && s.clock - s.row.updatedAt > s.timings.retryAfter
            then s.(jobs := Selected(s.row, s.clock - s.timings.failAfter))
            else s.(jobs := BeforePoll)
    ensures Next(s, PollSelects) ==
            if s.row.status in {PendingPayment, Ordering} && s.row.hasJob
               && s.row.updatedAt / 1000 < (s.clock - 10 * 60 * 1000) / 1000
            then s.(jobs := AwaitPollStatus(s.row))
            else s.(jobs := JobsIdle)
  {
  }

  // ---------------------------------------------------------------------------
  // The whole table, over every reachable state
  // ---------------------------------------------------------------------------

  /** A reply that postpones a hard fail. */
  predicate Postpones(reply: Reply) {
    reply == Threw || reply.status == Some(InvoiceIssued) || reply.status == Some(Queued)
    || reply.status == Some(Running) || reply.status == Some(JobDelivered)
  }

  /** The reconciler gives up on its selected row without asking VCC. */
  predicate GivesUp(t: State) {
    && t.jobs.Selected? && !t.jobs.snap.hasJob
    && (t.jobs.snap.updatedAt < t.jobs.failCutoff || t.jobs.snap.attempt >= t.timings.maxAttempts)
  }

  /** The steps that fail an order CTX was not paid for. */
  predicate FailsUnpaid(t: State, a: Action) {
    || a.InvoiceThrows?
    || (a.CtxThrows? && Plain(a.error))
    || (a.ReconcileTakes? && GivesUp(t))
    || (a.HardFailStatusArrives? && !Postpones(a.reply))
  }

  /** What a row in `ordering` becomes. */
  function OrderingBecomes(t: State, a: Action): Status {
    if FailsUnpaid(t, a) then (if t.frozen then Failed else RefundPending)
    else if a.NotifyThrows? || a.CtxThrows? || (a.RetryCtxThrows? && !Plain(a.error)) then Failed
    else if a.CallbackFulfilled? then Delivered
    else if a.CallbackFailed? then PendingManualRecovery
    else if a.PollStatusArrives? && a.reply.Reply? && a.reply.status == Some(JobFailed) && t.jobs.AwaitPollStatus? then
      if Recorded(t.jobs.snap) then PendingManualRecovery else Failed
    else Ordering
  }

  /** The status after any step, from any status. */
  function StatusAfter(t: State, a: Action): Status {
    match t.row.status
    case PendingPayment =>
      if a.PaymentArrives? && ClaimsIt(t.row, a.event) then Ordering
      else if a.RunJobs? && t.jobs == JobsIdle && t.row.createdAt / 1000 < (t.clock - 7_200_000) / 1000 then Expired
      else PendingPayment
    case Ordering => OrderingBecomes(t, a)
    case RefundPending => if a.RefundReturns? then Refunded else RefundPending
    case Delivered => if a.NotifyThrows? then Failed else Delivered
    case PendingManualRecovery => if a.NotifyThrows? then Failed else PendingManualRecovery
    case other => other
  }

  /** The event that claimed a reachable order. */
  lemma ClaimOf(t: State) returns (c: ChainEvent)
    requires Inv(t) && t.row.status !in {PendingPayment, Expired}
    ensures t.ledger.claims == [c] && ClaimedBy(t.row.money, c)
  {
    hide ClaimedBy, RefundSend, Lease, Checkpoints, PaymentLedger, RefundLedger;
    c := t.ledger.claims[0];
  }

  lemma FailedJobIsRecorded(t: State)
    requires Inv(t) && t.job == JobFailed
    ensures Recorded(t.row) && t.row.status !in {PendingPayment, Expired, RefundPending}
  {
    hide ClaimLedger;
  }

  /** The status is the table's, and the sends grow by exactly the refund of the claiming payment, exactly when the table says so. */
  predicate Outcome(t: State, a: Action, u: State) {
    && u.row.status == StatusAfter(t, a)
    && u.ledger.refunds == (if FailsUnpaid(t, a) && !t.frozen && |t.ledger.claims| == 1 then [RefundOf(t.ledger.claims[0])]
                            else t.ledger.refunds)
  }

  /** Handler and reconciler failing an order: it is in `ordering`, claimed once, with no refund sent. */
  lemma FailingIsClaimed(t: State, a: Action)
    requires Inv(t) && Enabled(t, a, ALL) && FailsUnpaid(t, a)
    ensures t.row.status == Ordering && t.row.ctxTxid == None && t.ledger.refunds == [] && |t.ledger.claims| == 1
  {
    hide ClaimedBy, RefundSend, PaymentLedger;
  }

  lemma HandlerIsClaimed(t: State)
    requires Inv(t) && HandlerActive(t)
    ensures |t.ledger.claims| == 1 && ClaimedBy(t.row.money, t.ledger.claims[0])
    ensures t.row.status in {Ordering, Delivered, Failed, PendingManualRecovery}
    ensures t.handler in {AwaitNotify, AwaitSecondNotify} ==> Recorded(t.row)
    ensures t.handler in {AwaitInvoice, AwaitPrice} || t.handler.AwaitCtx? ==> t.row.status == Ordering && !Recorded(t.row)
  {
    hide ClaimedBy, RefundSend, PaymentLedger;
  }

  lemma HandlerOutcome(t: State, a: Action)
    requires Inv(t) && Enabled(t, a, ALL) && (a.InvoiceThrows? || a.NotifyThrows? || a.CtxThrows?)
    ensures Outcome(t, a, Next(t, a))
  {
    hide Next, Inv, ClaimedBy, ClaimsIt, Postpones, GivesUp, RefundOf;
    if FailsUnpaid(t, a) { FailingIsClaimed(t, a); }
    HandlerIsClaimed(t);
    if a.CtxThrows? && !Plain(a.error) {
      AmbiguousParks(t, a.error);
    } else {
      HandlerFails(t, t.ledger.claims[0], a);
    }
  }

  lemma ReconcilerIsClaimed(t: State)
    requires Inv(t) && (t.jobs.Selected? || t.jobs.AwaitHardFailStatus?)
    ensures |t.ledger.claims| == 1 && ClaimedBy(t.row.money, t.ledger.claims[0])
    ensures t.row.status == Ordering && t.row.ctxTxid == None && t.ledger.refunds == []
  {
    hide ClaimedBy, RefundSend, PaymentLedger;
  }

  lemma ReconcilerOutcome(t: State, a: Action)
    requires Inv(t) && Enabled(t, a, ALL) && (a.ReconcileTakes? || a.HardFailStatusArrives?)
    ensures Outcome(t, a, Next(t, a))
  {
    hide Next, Inv, ClaimedBy, ClaimsIt, Plain, RefundOf;
    ReconcilerIsClaimed(t);
    if a.ReconcileTakes? {
      ReconcileEffect(t, t.ledger.claims[0]);
    } else {
      HardFailReplyEffect(t, t.ledger.claims[0], a.reply);
    }
  }

  lemma VccOutcome(t: State, a: Action)
    requires Inv(t) && Enabled(t, a, ALL) && (a.PollStatusArrives? || a.CallbackFailed? || a.CallbackFulfilled?)
    ensures Outcome(t, a, Next(t, a))
  {
    hide Next, Inv, ClaimedBy, ClaimsIt, Postpones, Plain, GivesUp, RefundOf;
    if a.CallbackFulfilled? {
      DeliveredJobIsLive(t);
      FulfilledEffect(t);
    } else if a.CallbackFailed? {
      FailedJobIsRecorded(t);
      var c := ClaimOf(t);
      FailedCallbackEffect(t, c);
    } else {
      PollOutcome(t, a.reply);
    }
  }

  lemma DeliveredJobIsLive(t: State)
    requires Inv(t) && t.job == JobDelivered
    ensures t.row.status !in {PendingPayment, Expired, RefundPending}
  {
    hide ClaimLedger;
  }

  lemma PollOutcome(t: State, reply: Reply)
    requires Inv(t) && Enabled(t, PollStatusArrives(reply), ALL)
    ensures Outcome(t, PollStatusArrives(reply), Next(t, PollStatusArrives(reply)))
  {
    hide Next, Inv, ClaimedBy, ClaimsIt, Postpones, Plain, GivesUp, RefundOf;
    if reply.Reply? && reply.status == Some(JobFailed) {
      FailedJobIsRecorded(t);
      var c := ClaimOf(t);
      PollFails(t, c, reply);
    } else {
      PollWaits(t, reply);
    }
  }

  lemma PollFails(t: State, c: ChainEvent, reply: Reply)
    requires t.jobs.AwaitPollStatus? && reply.Reply? && reply.status == Some(JobFailed)
    requires ClaimedBy(t.row.money, c) && Recorded(t.row) && t.row.status !in {PendingPayment, Expired, RefundPending}
    ensures Outcome(t, PollStatusArrives(reply), Next(t, PollStatusArrives(reply)))
  {
    hide Next, ClaimedBy, ClaimsIt, Postpones, Plain, GivesUp, RefundOf;
    PollEffect(t, c, reply);
  }

  lemma PollWaits(t: State, reply: Reply)
    requires t.jobs.AwaitPollStatus? && !(reply.Reply? && reply.status == Some(JobFailed))
    ensures Next(t, PollStatusArrives(reply)).row.status == t.row.status
    ensures Next(t, PollStatusArrives(reply)).ledger.refunds == t.ledger.refunds
  {
    hide RefundOrQuarantine;
  }

  predicate QuietAction(a: Action) {
    && !a.InvoiceThrows? && !a.NotifyThrows? && !a.CtxThrows? && !a.ReconcileTakes? && !a.HardFailStatusArrives?
    && !a.PollStatusArrives? && !a.CallbackFailed? && !a.CallbackFulfilled? && !a.PaymentArrives?
  }

  lemma QuietOutcome(t: State, a: Action)
    requires Inv(t) && Enabled(t, a, ALL) && QuietAction(a)
    ensures Outcome(t, a, Next(t, a))
  {
    hide ClaimLedger, PaymentLedger, HandlerCatch, HardFail, Take, HardFailReply, PollReply, FailedCallback,
      FulfilledCallback, Payment, RefundOf, ClaimsIt, Postpones, GivesUp, ReconcileQuery, PollQuery;
  }

  lemma PaymentOutcome(t: State, c: ChainEvent)
    ensures Outcome(t, PaymentArrives(c), Next(t, PaymentArrives(c)))
  {
    hide Next, Decimals.StroopsToDecimal;
    PaymentEffect(t, c);
  }

  /**
   * In every reachable state every enabled step leaves the status the table gives. A step that fails an order
   * CTX was not paid for sends exactly the refund of the claiming payment unless the system is frozen; no other
   * step sends anything.
   */
  lemma OutcomeExactly(t: State, a: Action)
    requires Reachable(t) && Enabled(t, a, ALL)
    ensures Next(t, a).row.status == StatusAfter(t, a)
    ensures FailsUnpaid(t, a) ==> t.row.status == Ordering && t.ledger.refunds == [] && |t.ledger.claims| == 1
    ensures Next(t, a).ledger.refunds ==
            if FailsUnpaid(t, a) && !t.frozen then [RefundOf(t.ledger.claims[0])] else t.ledger.refunds
  {
    hide Reachable, Inv, Next, Enabled, StatusAfter, RefundOf;
    InvOf(t);
    if FailsUnpaid(t, a) {
      FailingIsClaimed(t, a);
    }
    if a.PaymentArrives? {
      PaymentOutcome(t, a.event);
    } else if a.InvoiceThrows? || a.NotifyThrows? || a.CtxThrows? {
      HandlerOutcome(t, a);
    } else if a.ReconcileTakes? || a.HardFailStatusArrives? {
      ReconcilerOutcome(t, a);
    } else if a.PollStatusArrives? || a.CallbackFailed? || a.CallbackFulfilled? {
      VccOutcome(t, a);
    } else {
      QuietOutcome(t, a);
    }
  }

  /** No customer is left unrefunded: an order that a step fails with no CTX hash on it was failed on a frozen system. */
  lemma UnpaidFailureIsRefunded(t: State, a: Action)
    requires Reachable(t) && Enabled(t, a, ALL)
    requires t.row.status != Failed && Next(t, a).row.status == Failed && Next(t, a).row.ctxTxid == None
    ensures t.frozen
  {
    hide Reachable, Inv, Next, Enabled, FailsUnpaid;
    OutcomeExactly(t, a);
    InvOf(t);
    if FailsUnpaid(t, a) {
      if !t.frozen {
        UnfrozenRefunds(t, a);
      }
    } else {
      FailureIsRecorded(t, a);
    }
  }

  lemma UnfrozenRefunds(t: State, a: Action)
    requires FailsUnpaid(t, a) && t.row.status == Ordering && !t.frozen
    ensures StatusAfter(t, a) == RefundPending
  {
  }

  lemma FailureIsRecorded(t: State, a: Action)
    requires Inv(t) && Enabled(t, a, ALL) && !FailsUnpaid(t, a)
    requires t.row.status != Failed && StatusAfter(t, a) == Failed
    ensures Next(t, a).row.ctxTxid != None
  {
    hide Next, Inv, ClaimedBy;
    if a.CtxThrows? {
      AmbiguousParks(t, a.error);
    } else if a.RetryCtxThrows? {
      AmbiguousRetryParks(t, a.error);
    } else if a.NotifyThrows? {
      HandlerIsClaimed(t);
      HandlerFails(t, t.ledger.claims[0], a);
    } else {
      FailedJobIsRecorded(t);
      var c := ClaimOf(t);
      PollEffect(t, c, a.reply);
    }
  }

  // ---------------------------------------------------------------------------
  // What can happen does
  // ---------------------------------------------------------------------------

  /** Every claimable order has a run that pays CTX once and delivers. */
  lemma OrdersCanBeDelivered(s: State, c: ChainEvent) returns (t: State)
    requires Claimable(s, c)
    ensures Reaches(s, ALL, t)
    ensures t.row.status == Delivered && t.ledger.landed == 1 && t.ledger.refunds == []
  {
    hide ParsePaymentEvent, JudgeAmount, Reaches, RefundSend;
    t := PayingIsReached(s, c, ALL);
    t := After(s, t, CtxLands);
    t := After(s, t, CtxReturns("hash"));
    t := After(s, t, NotifyReturns);
    t := After(s, t, NotifyReturns);
    t := After(s, t, JobMoves(Queued));
    t := After(s, t, JobMoves(JobDelivered));
    t := After(s, t, CallbackFulfilled);
  }

  lemma After(s: State, t0: State, a: Action) returns (t: State)
    requires Reaches(s, ALL, t0) && Enabled(t0, a, ALL)
    ensures Reaches(s, ALL, t) && t == Next(t0, a)
  {
    hide Reaches, Next, Enabled;
    Go(s, ALL, t0, a);
    t := Next(t0, a);
  }

  /** And one that fails before CTX is paid and gives the customer the payment back. */
  lemma OrdersCanBeRefunded(s: State, c: ChainEvent) returns (t: State)
    requires Claimable(s, c)
    ensures Reaches(s, ALL, t)
    ensures t.row.status == Refunded && t.ledger.landed == 0 && t.ledger.refunds == [RefundOf(c)]
  {
    hide ParsePaymentEvent, JudgeAmount, Reaches, RefundSend;
    t := PayingIsReached(s, c, ALL);
    RefundIsExact(t.row.money, c);
    t := After(s, t, CtxThrows(PayError(NotLanded, None)));
    t := After(s, t, RefundReturns);
  }

  /** And one whose process dies before CTX is paid, which the reconciler pays once and sees delivered. */
  lemma OrdersCanBeRetried(s: State, c: ChainEvent) returns (t: State)
    requires Claimable(s, c)
    ensures Reaches(s, ALL, t)
    ensures t.row.status == Delivered && t.ledger.landed == 1 && t.ledger.refunds == []
  {
    hide ParsePaymentEvent, JudgeAmount, Reaches, RefundSend;
    t := PayingIsReached(s, c, ALL);
    t := After(s, t, Crash);
    t := After(s, t, Tick(t.timings.retryAfter + 1));
    t := After(s, t, RunJobs);
    t := After(s, t, ReconcileSelects);
    t := After(s, t, ReconcileTakes);
    t := After(s, t, PaymentUrlArrives(Reply(Some(InvoiceIssued), true)));
    t := After(s, t, RetryCtxLands);
    t := RetryDelivers(s, t);
  }

  lemma RetryDelivers(s: State, t0: State) returns (t: State)
    requires Reaches(s, ALL, t0)
    requires t0.jobs.AwaitRetryCtx? && t0.jobs.landed && !t0.jobs.snap.notified
    requires t0.row.status == Ordering && t0.job == InvoiceIssued && t0.handler == HandlerIdle
    ensures Reaches(s, ALL, t)
    ensures t.row.status == Delivered && t.ledger == t0.ledger
  {
    hide ParsePaymentEvent, JudgeAmount, Reaches, RefundSend;
    t := After(s, t0, RetryCtxReturns("hash"));
    t := After(s, t, RetryNotifyReturns);
    t := After(s, t, JobMoves(Queued));
    t := After(s, t, JobMoves(JobDelivered));
    t := After(s, t, CallbackFulfilled);
  }
}
