/** What every reachable state of one order's fulfilment satisfies, and what each assumption is needed for. */
module ProtocolSafety {
  import opened Results
  import opened Orders
  import opened Protocol
  import PaymentIntake

  // ---------------------------------------------------------------------------
  // The inductive invariant
  // ---------------------------------------------------------------------------

  /** The reconciler has picked this order and may still act on it. */
  predicate Reconciling(s: State) {
    s.jobs.Selected? || s.jobs.AwaitHardFailStatus? || s.jobs.AwaitRetryInvoice? || s.jobs.AwaitPaymentUrl?
    || s.jobs.AwaitRetryCtx? || s.jobs.AwaitRetryNotify?
  }

  predicate HandlerActive(s: State) {
    s.handler != HandlerIdle
  }

  /** Nothing recorded and nothing announced about a CTX payment. */
  predicate Unpaid(s: State) {
    s.row.ctxTxid.None? && !s.row.xlmSent && !s.row.notified && !s.notifyCalled
  }

  predicate RefundClaimed(s: State) {
    s.row.status in {RefundPending, Refunded}
  }

  predicate HandlerLanded(s: State) {
    s.handler == AwaitCtx(true)
  }

  predicate RetryLanded(s: State) {
    s.jobs.AwaitRetryCtx? && s.jobs.landed
  }

  function Count(b: bool): nat {
    if b then 1 else 0
  }

  /** Lease: the handler's last write is recent, so the reconciler's query has not selected the row. */
  predicate Lease(s: State) {
    && s.row.updatedAt <= s.clock
    && (HandlerActive(s) ==> s.clock - s.row.updatedAt <= s.timings.retryAfter)
    && !(HandlerActive(s) && Reconciling(s))
    && (s.row.status in {PendingPayment, Expired, RefundPending, Refunded} ==> !HandlerActive(s) && !Reconciling(s))
  }

  /** Checkpoint columns agree with where each actor is. */
  predicate Checkpoints(s: State) {
    && (s.row.ctxTxid.Some? ==> s.row.ctxTxid.value != "")
    && (s.row.xlmSent || s.row.notified || s.notifyCalled ==> s.row.ctxTxid.Some?)
    && (s.job !in {NoJob, InvoiceIssued} ==> s.notifyCalled)
    && (s.row.status in {PendingPayment, Expired} ==> Unpaid(s) && !s.row.hasJob)
    && (s.handler in {AwaitInvoice, AwaitPrice} || s.handler.AwaitCtx? ==> s.row.status == Ordering && Unpaid(s))
    && (s.handler in {AwaitNotify, AwaitSecondNotify} ==> s.row.ctxTxid.Some?)
    && (s.jobs.AwaitRetryNotify? ==> s.row.ctxTxid.Some?)
    && (Reconciling(s) && !s.jobs.AwaitRetryNotify? ==>
          s.row.status == Ordering && Unpaid(s) && !s.jobs.snap.xlmSent && !s.jobs.snap.notified)
    && (s.jobs.Selected? || s.jobs.AwaitHardFailStatus? ==> s.row == s.jobs.snap)
  }

  /** At most one payment can have gone to CTX, and the row carries its hash as soon as nobody is mid-send. */
  predicate PaymentLedger(s: State) {
    && s.ledger.landed <= s.ledger.possible
    && s.ledger.possible == Count(s.row.ctxTxid.Some?) + Count(HandlerLanded(s)) + Count(RetryLanded(s))
  }

  predicate RefundLedger(s: State) {
    && |s.ledger.refunds| <= 1
    && s.refundsInFlight <= |s.ledger.refunds|
    && (s.ledger.refunds != [] ==> RefundClaimed(s))
    && (s.refundsInFlight > 0 ==> s.row.status == RefundPending)
    && (RefundClaimed(s) ==> Unpaid(s))
  }

  ghost predicate ClaimLedger(s: State) {
    && |s.ledger.claims| <= 1
    && (s.ledger.claims == [] <==> s.row.status in {PendingPayment, Expired})
    && (s.row.status == PendingPayment ==> s.row.money.excessUsdc.None?)
    && (s.ledger.claims != [] ==> ClaimedBy(s.row.money, s.ledger.claims[0]))
    && (s.ledger.refunds != [] ==> s.ledger.claims != [] && RefundSend(s.row.money) == Some(s.ledger.refunds[0]))
  }

  ghost predicate Inv(s: State) {
    Lease(s) && Checkpoints(s) && PaymentLedger(s) && RefundLedger(s) && ClaimLedger(s)
  }

  lemma InitInv(s: State)
    requires Init(s)
    ensures Inv(s)
  {
  }

  // ---------------------------------------------------------------------------
  // One step keeps the invariant
  // ---------------------------------------------------------------------------

  /** Where a refund may be scheduled: a claimed order nobody is fulfilling. */
  ghost predicate Refundable(s: State) {
    Inv(s) && !HandlerActive(s) && !Reconciling(s) && s.row.status == Failed
  }

  lemma ScheduleInv(s: State)
    requires Refundable(s)
    ensures Inv(RefundOrQuarantine(s))
    ensures s.row.ctxTxid.None? && !s.frozen ==> RefundClaimed(RefundOrQuarantine(s))
  {
    hide RefundSend, ClaimedBy;
  }

  /** The second of two refund-or-quarantine calls changes nothing. */
  lemma SecondCallIsIdle(s: State)
    requires s.row.status == Failed
    ensures RefundOrQuarantine(RefundOrQuarantine(s)) == RefundOrQuarantine(s)
  {
    hide RefundSend;
  }

  lemma LoosenInv(s: State, unlanded: bool)
    requires Inv(s)
    ensures Inv(Loosen(s, unlanded))
    ensures Loosen(s, unlanded) == s.(ledger := s.ledger.(loose := Loosen(s, unlanded).ledger.loose))
  {
    hide RefundSend, ClaimedBy;
  }

  lemma CatchInv(s: State)
    requires Inv(s) && HandlerActive(s) && !HandlerLanded(s)
    ensures Inv(HandlerCatch(s))
  {
    hide RefundSend, ClaimedBy, RefundOrQuarantine;
    var t := SetStatus(s, Failed).(handler := HandlerIdle);
    SecondCallIsIdle(t);
    ScheduleInv(t);
  }

  lemma HardFailInv(s: State)
    requires Inv(s) && Reconciling(s) && !RetryLanded(s)
    ensures Inv(HardFail(s))
  {
    hide RefundSend, ClaimedBy, RefundOrQuarantine;
    var t := s.(jobs := BeforePoll);
    if t.row.status == Ordering {
      ScheduleInv(SetStatus(t, Failed));
    }
  }

  /** A VCC-reported failure after the payment is recorded ends in manual recovery or in a parked row, never in a refund. */
  lemma ReportedFailureInv(s: State, target: Status)
    requires Inv(s) && s.row.ctxTxid.Some? && (Reconciling(s) ==> s.jobs.AwaitRetryNotify?)
    requires target in {Failed, PendingManualRecovery}
    requires s.row.status !in {PendingPayment, Expired, RefundPending, Refunded}
    ensures Inv(RefundOrQuarantine(SetStatus(s, target)))
  {
    hide RefundSend, ClaimedBy;
  }

  predicate OfTheWorld(a: Action) {
    a.Tick? || a.SetFrozen? || a.JobCreated? || a.JobMoves? || a.Crash? || a.ParkedLands? || a.LooseLands?
  }

  lemma WorldStep(s: State, a: Action)
    requires Inv(s) && Enabled(s, a, ALL)
    requires OfTheWorld(a)
    ensures Inv(Next(s, a))
  {
    hide RefundSend, ClaimedBy, RefundOrQuarantine, Payment;
  }

  lemma ClaimInv(s: State, c: ChainEvent)
    requires Inv(s) && c.from != ""
    ensures Inv(Payment(s, c))
  {
    hide ParsePaymentEvent, JudgeAmount, RefundSend;
  }

  lemma HandlerStep(s: State, a: Action)
    requires Inv(s) && Enabled(s, a, ALL)
    requires a.InvoiceReturns? || a.InvoiceThrows? || a.PriceReturns? || a.CtxLands? || a.CtxReturns?
             || a.CtxThrows? || a.NotifyReturns? || a.NotifyThrows?
    ensures Inv(Next(s, a))
  {
    hide RefundSend, ClaimedBy, HandlerCatch, Payment;
    if a.InvoiceThrows? || a.NotifyThrows? {
      CatchInv(s);
    } else if a.CtxThrows? && !Ambiguous(a.error) {
      LoosenInv(s, s.handler == AwaitCtx(false));
      CatchInv(Loosen(s, s.handler == AwaitCtx(false)));
    }
  }

  lemma TakeInv(s: State)
    requires Inv(s) && s.jobs.Selected?
    ensures Inv(Take(s, s.jobs.snap, s.jobs.failCutoff))
  {
    hide RefundSend, ClaimedBy, HardFail;
    HardFailInv(s);
  }

  lemma HardFailReplyInv(s: State, reply: Reply)
    requires Inv(s) && s.jobs.AwaitHardFailStatus?
    ensures Inv(HardFailReply(s, reply))
  {
    hide RefundSend, ClaimedBy, HardFail;
    HardFailInv(s);
  }

  /** While nothing is announced to VCC, its job cannot be seen past `invoice_issued`. */
  lemma PaymentUrlInv(s: State, reply: Reply)
    requires Inv(s) && s.jobs.AwaitPaymentUrl? && CanReply(s, reply)
    ensures !SkipsPayment(reply)
    ensures Inv(PaymentUrlReply(s, s.jobs.snap, reply))
  {
    hide RefundSend, ClaimedBy;
  }

  lemma RetrySendStep(s: State, a: Action)
    requires Inv(s) && Enabled(s, a, ALL)
    requires a.RetryCtxLands? || a.RetryCtxReturns? || a.RetryCtxThrows?
    ensures Inv(Next(s, a))
  {
    hide RefundSend, ClaimedBy, HardFail, Payment, HandlerCatch, RefundOrQuarantine;
  }

  lemma RetryAroundSendStep(s: State, a: Action)
    requires Inv(s) && Enabled(s, a, ALL)
    requires a.RetryInvoiceReturns? || a.RetryInvoiceThrows? || a.RetryNotifyReturns? || a.RetryNotifyThrows?
    ensures Inv(Next(s, a))
  {
    hide RefundSend, ClaimedBy, HardFail, Payment, HandlerCatch, RefundOrQuarantine;
  }

  lemma RunnerStep(s: State, a: Action)
    requires Inv(s) && Enabled(s, a, ALL)
    requires a.RunJobs? || a.ReconcileSelects? || a.PollSelects? || a.SubJobAborts?
    ensures Inv(Next(s, a))
  {
    hide RefundSend, ClaimedBy, RefundOrQuarantine, Payment, HandlerCatch;
  }

  lemma PollInv(s: State, reply: Reply)
    requires Inv(s) && s.jobs.AwaitPollStatus? && CanReply(s, reply)
    ensures Inv(PollReply(s, s.jobs.snap, reply))
  {
    hide RefundSend, ClaimedBy, RefundOrQuarantine;
    if reply.Reply? && reply.status == Some(JobFailed) {
      var t := s.(jobs := JobsIdle);
      if t.row.status in {PendingPayment, Ordering} {
        ReportedFailureInv(t, if Truthy(s.jobs.snap.ctxTxid) then PendingManualRecovery else Failed);
      }
    }
  }

  lemma CallbackInv(s: State)
    requires Inv(s)
    ensures s.job == JobDelivered ==> Inv(FulfilledCallback(s))
    ensures s.job == JobFailed ==> Inv(FailedCallback(s))
  {
    hide RefundSend, ClaimedBy, RefundOrQuarantine;
    if s.job == JobFailed && !Terminal(s.row.status) {
      ReportedFailureInv(s, PendingManualRecovery);
    }
  }

  lemma RefundStep(s: State, a: Action)
    requires Inv(s) && Enabled(s, a, ALL)
    requires a.RefundReturns? || a.RefundThrows?
    ensures Inv(Next(s, a))
  {
    hide RefundSend, ClaimedBy, RefundOrQuarantine, Payment, HandlerCatch;
  }

  lemma DirectStep(s: State, a: Action)
    requires Inv(s) && Enabled(s, a, ALL)
    requires a.PaymentArrives? || a.ReconcileTakes? || a.HardFailStatusArrives? || a.PaymentUrlArrives?
             || a.PollStatusArrives? || a.CallbackFulfilled? || a.CallbackFailed?
    ensures Inv(Next(s, a))
  {
    hide Inv, Payment, Take, HardFailReply, PaymentUrlReply, PollReply, FulfilledCallback, FailedCallback;
    match a
    case PaymentArrives(c) => ClaimInv(s, c);
    case ReconcileTakes => TakeInv(s);
    case HardFailStatusArrives(reply) => HardFailReplyInv(s, reply);
    case PaymentUrlArrives(reply) => PaymentUrlInv(s, reply);
    case PollStatusArrives(reply) => PollInv(s, reply);
    case _ => CallbackInv(s);
  }

  lemma StepInv(s: State, a: Action)
    requires Inv(s) && Enabled(s, a, ALL)
    ensures Inv(Next(s, a))
  {
    hide Inv, Next, Enabled;
    if OfTheWorld(a) {
      WorldStep(s, a);
    } else if a.InvoiceReturns? || a.InvoiceThrows? || a.PriceReturns? || a.CtxLands? || a.CtxReturns?
              || a.CtxThrows? || a.NotifyReturns? || a.NotifyThrows? {
      HandlerStep(s, a);
    } else if a.RunJobs? || a.ReconcileSelects? || a.PollSelects? || a.SubJobAborts? {
      RunnerStep(s, a);
    } else if a.RetryCtxLands? || a.RetryCtxReturns? || a.RetryCtxThrows? {
      RetrySendStep(s, a);
    } else if a.RetryInvoiceReturns? || a.RetryInvoiceThrows? || a.RetryNotifyReturns? || a.RetryNotifyThrows? {
      RetryAroundSendStep(s, a);
    } else if a.RefundReturns? || a.RefundThrows? {
      RefundStep(s, a);
    } else {
      DirectStep(s, a);
    }
  }

  lemma {:induction false} ReachableInv(s: State, actions: seq<Action>)
    requires Init(s) && Run(s, actions, ALL).Some?
    ensures Inv(Run(s, actions, ALL).value)
  {
    hide Inv, Next, Enabled, Init;
    if actions == [] {
      InitInv(s);
    } else {
      var before := actions[..|actions| - 1];
      ReachableInv(s, before);
      StepInv(Run(s, before, ALL).value, actions[|actions| - 1]);
    }
  }

  // ---------------------------------------------------------------------------
  // Main results, over every run
  // ---------------------------------------------------------------------------

  /** `t` is reached from a fresh order by some run under all the assumptions. */
  ghost predicate Reachable(t: State) {
    exists s, actions :: Init(s) && Run(s, actions, ALL) == Some(t)
  }

  lemma InvOf(t: State)
    requires Reachable(t)
    ensures Inv(t)
  {
    hide Inv, Run, Init;
    var s, actions :| Init(s) && Run(s, actions, ALL) == Some(t);
    ReachableInv(s, actions);
  }

  /** The money facts of one order. `possible` counts ambiguous payments too, landed or yet to land. */
  predicate Safe(s: State) {
    && s.ledger.landed <= s.ledger.possible <= 1
    && |s.ledger.refunds| <= 1
    && (s.ledger.possible == 0 || s.ledger.refunds == [])
  }

  lemma InvIsSafe(s: State)
    requires Inv(s)
    ensures Safe(s)
  {
    hide ClaimLedger;
  }

  /** No order has both a CTX payment, on the ledger or in doubt, and a refund sent. */
  lemma NeverPaidAndRefunded(t: State)
    requires Reachable(t)
    ensures t.ledger.possible == 0 || t.ledger.refunds == []
    ensures t.ledger.landed == 0 || t.ledger.refunds == []
  {
    hide Reachable, Inv;
    InvOf(t);
    InvIsSafe(t);
  }

  /** First pass and retries together put at most one payment on the ledger or in doubt. */
  lemma AtMostOnePayment(t: State)
    requires Reachable(t)
    ensures t.ledger.landed <= t.ledger.possible <= 1
  {
    hide Reachable, Inv;
    InvOf(t);
    InvIsSafe(t);
  }

  /** Nobody is sending, or will select for a retry, an order that has a recorded hash: a parked one is never retried. */
  lemma RecordedIsNeverResent(t: State)
    requires Reachable(t) && t.row.ctxTxid.Some?
    ensures !t.handler.AwaitCtx? && !t.jobs.AwaitRetryCtx? && !t.jobs.AwaitPaymentUrl? && !t.jobs.AwaitRetryInvoice?
    ensures !ReconcileQuery(t) && !t.jobs.Selected?
  {
    hide Reachable, ClaimLedger;
    InvOf(t);
  }

  /** The branch that marks the payment as sent because VCC says so is never taken. */
  lemma SkipBranchIsDead(t: State, reply: Reply)
    requires Reachable(t) && Enabled(t, PaymentUrlArrives(reply), ALL)
    ensures !SkipsPayment(reply)
  {
    hide Reachable, Inv;
    InvOf(t);
    PaymentUrlInv(t, reply);
  }

  /** One actor at a time inside the fulfilment steps, although the reconciler acts on a stale row. */
  lemma HandlerAndReconcilerExclude(t: State)
    requires Reachable(t)
    ensures !(HandlerActive(t) && Reconciling(t))
    ensures t.jobs.Selected? || t.jobs.AwaitHardFailStatus? ==> t.row == t.jobs.snap
  {
    hide Reachable, ClaimLedger;
    InvOf(t);
  }

  /** One refund call per order at most, and never two in flight. */
  lemma AtMostOneRefund(t: State)
    requires Reachable(t)
    ensures |t.ledger.refunds| <= 1 && t.refundsInFlight <= 1
  {
    hide Reachable, ClaimLedger;
    InvOf(t);
  }

  /** Once claimed for refund, an order stays so, whatever the unguarded writers do; only the send's return moves it on. */
  lemma RefundClaimIsAbsorbing(t: State, a: Action)
    requires Reachable(t) && Enabled(t, a, ALL)
    ensures t.row.status == RefundPending ==> Next(t, a).row.status == (if a.RefundReturns? then Refunded else RefundPending)
    ensures t.row.status == Refunded ==> Next(t, a).row.status == Refunded
  {
    hide Reachable, ClaimLedger, Judge, RefundSend, ParsePaymentEvent;
    InvOf(t);
    JudgeNeedsPendingForAll(t.row);
  }

  lemma JudgeNeedsPendingForAll(row: Row)
    ensures forall e :: Judge(row, e).Claim? ==> row.status == PendingPayment
  {
  }

  /** End to end: the string handed to sendUsdc or sendXlm prints the amount of the event that claimed the order. */
  lemma RefundIsThePayment(t: State)
    requires Reachable(t) && t.ledger.refunds != []
    ensures |t.ledger.claims| == 1
    ensures var c := t.ledger.claims[0];
            t.ledger.refunds == [Send(if c.symbol == PayUsdc then Usdc else Xlm,
                                      Decimals.StroopsToDecimal(c.stroops), c.from)]
  {
    hide Reachable, Judge, RefundSend, ParsePaymentEvent, Decimals.StroopsToDecimal;
    InvOf(t);
    var c := t.ledger.claims[0];
    RefundIsExact(t.row.money, c);
  }

  // ---------------------------------------------------------------------------
  // The single order and the table
  // ---------------------------------------------------------------------------

  /** No new payment, no money column touched, and nothing turned back to pending. */
  predicate Quiet(s: State, t: State) {
    && t.row.money == s.row.money
    && t.ledger.claims == s.ledger.claims
    && (t.row.status == PendingPayment ==> s.row.status == PendingPayment)
  }

  lemma RefundIsQuiet(s: State)
    ensures Quiet(s, RefundOrQuarantine(s))
  {
    hide RefundSend;
  }

  lemma FailureIsQuiet(s: State)
    ensures Quiet(s, HandlerCatch(s)) && Quiet(s, HardFail(s)) && Quiet(s, FailedCallback(s))
  {
    hide RefundOrQuarantine;
    var t := SetStatus(s, Failed).(handler := HandlerIdle);
    RefundIsQuiet(t);
    RefundIsQuiet(RefundOrQuarantine(t));
    RefundIsQuiet(SetStatus(s.(jobs := BeforePoll), Failed));
    RefundIsQuiet(SetStatus(s, Failed));
    RefundIsQuiet(SetStatus(s, PendingManualRecovery));
  }

  lemma PollIsQuiet(s: State, snap: Row, reply: Reply)
    ensures Quiet(s, PollReply(s, snap, reply))
  {
    hide RefundOrQuarantine;
    RefundIsQuiet(SetStatus(s.(jobs := JobsIdle), Failed));
    RefundIsQuiet(SetStatus(s.(jobs := JobsIdle), PendingManualRecovery));
  }

  lemma RetryIsQuiet(s: State, snap: Row, failCutoff: int, reply: Reply)
    ensures Quiet(s, Take(s, snap, failCutoff)) && Quiet(s, HardFailReply(s, reply))
    ensures Quiet(s, PaymentUrlReply(s, snap, reply))
  {
    hide HardFail, HandlerCatch, FailedCallback;
    FailureIsQuiet(s);
  }

  predicate CanFail(a: Action) {
    a.InvoiceThrows? || a.CtxThrows? || a.NotifyThrows? || a.CallbackFailed?
  }

  predicate JobDecides(a: Action) {
    a.ReconcileTakes? || a.HardFailStatusArrives? || a.PaymentUrlArrives? || a.PollStatusArrives?
  }

  lemma JobStepIsQuiet(s: State, a: Action)
    requires s.jobs.Selected? || s.jobs.AwaitHardFailStatus? || s.jobs.AwaitPaymentUrl? || s.jobs.AwaitPollStatus?
    requires JobDecides(a)
    ensures Quiet(s, Next(s, a))
  {
    hide Payment, HandlerCatch, FailedCallback, Take, HardFailReply, PaymentUrlReply, PollReply;
    if a.PollStatusArrives? {
      PollIsQuiet(s, s.jobs.snap, a.reply);
    } else {
      var cutoff := if s.jobs.Selected? then s.jobs.failCutoff else 0;
      RetryIsQuiet(s, s.jobs.snap, cutoff, if a.ReconcileTakes? then Threw else a.reply);
    }
  }

  lemma FailingStepIsQuiet(s: State, a: Action)
    requires Enabled(s, a, ALL) && CanFail(a)
    ensures Quiet(s, Next(s, a))
  {
    hide Payment, HandlerCatch, FailedCallback, HardFail, Take, HardFailReply, PaymentUrlReply, PollReply;
    FailureIsQuiet(s);
    FailureIsQuiet(Loosen(s, true));
  }

  lemma PlainStepIsQuiet(s: State, a: Action)
    requires Enabled(s, a, ALL) && !a.PaymentArrives? && !CanFail(a) && !JobDecides(a)
    ensures Quiet(s, Next(s, a))
  {
    hide Payment, HandlerCatch, FailedCallback, HardFail, Take, HardFailReply, PaymentUrlReply, PollReply, Seconds, PollQuery, ReconcileQuery;
  }

  lemma StepIsQuiet(s: State, a: Action)
    requires Enabled(s, a, ALL) && !a.PaymentArrives?
    ensures Quiet(s, Next(s, a))
  {
    if JobDecides(a) {
      JobStepIsQuiet(s, a);
    } else if CanFail(a) {
      FailingStepIsQuiet(s, a);
    } else {
      PlainStepIsQuiet(s, a);
    }
  }

  /** Everything but a payment is, for the table of all orders, one of the background steps its accounting allows. */
  lemma FulfilmentIsBackground(t: State, a: Action)
    requires Reachable(t) && Enabled(t, a, ALL) && !a.PaymentArrives?
    ensures PaymentIntake.Background(t.row, Next(t, a).row)
  {
    hide Reachable, Next, Enabled, Lease, Checkpoints, PaymentLedger, RefundLedger, ClaimedBy, RefundSend;
    InvOf(t);
    StepInv(t, a);
    StepIsQuiet(t, a);
  }

  /** A payment step is what the table-wide handler does to this order's row. */
  lemma PaymentIsIntake(t: State, c: ChainEvent, books: PaymentIntake.Books)
    requires c.orderId in books.orders && books.orders[c.orderId] == t.row
    ensures PaymentIntake.HandleEvent(books, c, t.clock).orders == books.orders[c.orderId := Payment(t, c).row]
  {
    hide Judge;
  }
}
