/**
 * Fulfilment of one order as a state machine. Each action is the synchronous stretch between two
 * awaits of one actor: the payment handler, the job runner (expiry, reconciler, poller), the VCC
 * callback, a refund in flight, or the outside world. `Enabled` carries the assumptions on the
 * outside world, one field of `Assumptions` each.
 */
module Protocol {
  import opened Results
  import opened Orders

  // ---------------------------------------------------------------------------
  // State
  // ---------------------------------------------------------------------------

  /** Lifecycle of the VCC job behind an order. */
  datatype VccJob = NoJob | InvoiceIssued | Queued | Running | JobDelivered | JobFailed

  /** Where the payment handler is suspended. `landed` is whether its CTX payment is already on the ledger. */
  datatype HandlerPc =
    | HandlerIdle
    | AwaitInvoice
    | AwaitPrice
    | AwaitCtx(landed: bool)
    | AwaitNotify
    | AwaitSecondNotify

  /**
   * Where the job runner is suspended. `snap` is the row as the SELECT saw it; every decision the
   * source takes on its loop variable is taken on `snap`, however stale it is. JobsIdle is
   * `jobsRunning == false`.
   */
  datatype JobsPc =
    | JobsIdle
    | BeforeReconcile
    | Selected(snap: Row, failCutoff: int)
    | AwaitHardFailStatus(snap: Row)
    | AwaitRetryInvoice(snap: Row)
    | AwaitPaymentUrl(snap: Row)
    | AwaitRetryCtx(snap: Row, landed: bool)
    | AwaitRetryNotify(snap: Row)
    | BeforePoll
    | AwaitPollStatus(snap: Row)

  datatype Timings = Timings(retryAfter: nat, failAfter: int, maxAttempts: int)

  /** What has happened outside the database: nothing in the program reads it. */
  datatype Ledger = Ledger(
    landed: nat,              // CTX payments on the ledger
    possible: nat,            // CTX payments on the ledger or reported ambiguous
    loose: nat,               // sends that ended off the ledger with no hash recorded: crashed, or thrown untagged
    refunds: seq<Send>,       // calls of sendUsdc and sendXlm
    claims: seq<ChainEvent>   // payments that claimed the order
  )

  datatype State = State(
    row: Row,
    handler: HandlerPc,
    jobs: JobsPc,
    refundsInFlight: nat,
    frozen: bool,
    clock: int,
    job: VccJob,
    notifyCalled: bool,       // some notifyPaid request has been sent
    ledger: Ledger,
    timings: Timings
  )

  const EXPIRY_MS := 7_200_000
  const POLL_AFTER_MS := 600_000

  // ---------------------------------------------------------------------------
  // Actions
  // ---------------------------------------------------------------------------

  /** What payCtxOrder throws. */
  datatype StellarStatus = NotLanded | AppliedFailed | Unknown | Untagged
  datatype PayError = PayError(stellarStatus: StellarStatus, txHash: Option<string>)

  predicate Ambiguous(e: PayError) {
    e.stellarStatus in {Unknown, AppliedFailed} && Truthy(e.txHash)
  }

  /** Outcome of getVccJobStatus; a reply may lack a status or a payment URL. */
  datatype Reply = Threw | Reply(status: Option<VccJob>, hasUrl: bool)

  datatype Action =
    // outside world
    | Tick(ms: nat)
    | SetFrozen(on: bool)
    | JobCreated
    | JobMoves(to: VccJob)
    | Crash
    | ParkedLands
    | LooseLands
    // payment handler
    | PaymentArrives(event: ChainEvent)
    | InvoiceReturns
    | InvoiceThrows
    | PriceReturns
    | CtxLands
    | CtxReturns(hash: string)
    | CtxThrows(error: PayError)
    | NotifyReturns
    | NotifyThrows
    // job runner
    | RunJobs
    | ReconcileSelects
    | ReconcileTakes
    | HardFailStatusArrives(reply: Reply)
    | RetryInvoiceReturns
    | RetryInvoiceThrows
    | PaymentUrlArrives(reply: Reply)
    | RetryCtxLands
    | RetryCtxReturns(hash: string)
    | RetryCtxThrows(error: PayError)
    | RetryNotifyReturns
    | RetryNotifyThrows
    | PollSelects
    | PollStatusArrives(reply: Reply)
    | SubJobAborts
    // VCC callback
    | CallbackFulfilled
    | CallbackFailed
    // refund in flight
    | RefundReturns
    | RefundThrows(hasHash: bool)

  // ---------------------------------------------------------------------------
  // Refund or quarantine (fulfillment.js)
  // ---------------------------------------------------------------------------

  function SetStatus(s: State, status: Status): State {
    s.(row := s.row.(status := status, updatedAt := s.clock))
  }

  function Touch(s: State): State {
    s.(row := s.row.(updatedAt := s.clock))
  }

  function ScheduleRefund(s: State): State {
    if s.frozen || s.row.status in {RefundPending, Refunded} then
      s
    else
      var t := SetStatus(s, RefundPending);
      match RefundSend(t.row.money)
      case None => t
      case Some(send) =>
        t.(ledger := t.ledger.(refunds := t.ledger.refunds + [send]), refundsInFlight := t.refundsInFlight + 1)
  }

  function Quarantine(s: State): State {
    if s.row.status in {Delivered, Failed, Refunded, RefundPending, PendingManualRecovery} then s
    else SetStatus(s, PendingManualRecovery)
  }

  function RefundOrQuarantine(s: State): State {
    if Truthy(s.row.ctxTxid) then Quarantine(s) else ScheduleRefund(s)
  }

  // ---------------------------------------------------------------------------
  // Payment handler (payment-handler.js)
  // ---------------------------------------------------------------------------

  function Payment(s: State, c: ChainEvent): State {
    match ParsePaymentEvent(c)
    case None => s
    case Some(e) =>
      match Judge(s.row, e)
      case Claim(excess) =>
        s.(row := ClaimRow(s.row, e, excess, s.clock), handler := AwaitInvoice,
           ledger := s.ledger.(claims := s.ledger.claims + [c]))
      case _ => s
  }

  /** The outer catch: an unguarded write of `failed`, then two refund-or-quarantine calls. */
  function HandlerCatch(s: State): State {
    RefundOrQuarantine(RefundOrQuarantine(SetStatus(s, Failed).(handler := HandlerIdle)))
  }

  function Park(s: State, e: PayError, landed: bool): State {
    s.(row := s.row.(status := Failed, ctxTxid := e.txHash, updatedAt := s.clock),
       ledger := s.ledger.(possible := s.ledger.possible + if landed then 0 else 1))
  }

  /** A send that ends off the ledger and leaves no trace in the row. */
  function Loosen(s: State, unlanded: bool): State {
    if unlanded then s.(ledger := s.ledger.(loose := s.ledger.loose + 1)) else s
  }

  function RecordSend(s: State, hash: string): State {
    s.(row := s.row.(xlmSent := true, ctxTxid := if hash == "" then None else Some(hash), updatedAt := s.clock))
  }

  function Land(s: State): State {
    s.(ledger := s.ledger.(landed := s.ledger.landed + 1, possible := s.ledger.possible + 1))
  }

  // ---------------------------------------------------------------------------
  // Job runner (jobs.js)
  // ---------------------------------------------------------------------------

  /** SQLite's datetime() drops the milliseconds. */
  function Seconds(ms: int): int {
    ms / 1000
  }

  function Expire(s: State): State {
    if s.row.status == PendingPayment && Seconds(s.row.createdAt) < Seconds(s.clock - EXPIRY_MS)
    then SetStatus(s, Expired)
    else s
  }

  predicate ReconcileQuery(s: State) {
    && s.row.status == Ordering
    && (!s.row.hasJob || !s.row.xlmSent || !s.row.notified)
    && s.row.ctxTxid.None?
    && s.row.updatedAt < s.clock - s.timings.retryAfter
  }

  predicate PollQuery(s: State) {
    && s.row.status in {PendingPayment, Ordering}
    && s.row.hasJob
    && Seconds(s.row.updatedAt) < Seconds(s.clock - POLL_AFTER_MS)
  }

  predicate InProgress(j: VccJob) {
    j in {InvoiceIssued, Queued, Running, JobDelivered}
  }

  function HardFail(s: State): State {
    var t := s.(jobs := BeforePoll);
    if t.row.status == Ordering then RefundOrQuarantine(SetStatus(t, Failed)) else t
  }

  /** Step 3 of a retry: notifyPaid unless the selected row already had it. */
  function GoNotify(s: State, snap: Row): State {
    if snap.notified then s.(jobs := BeforePoll)
    else s.(jobs := AwaitRetryNotify(snap), notifyCalled := true)
  }

  function Take(s: State, snap: Row, failCutoff: int): State {
    if snap.updatedAt < failCutoff || snap.attempt >= s.timings.maxAttempts then
      if snap.hasJob then s.(jobs := AwaitHardFailStatus(snap)) else HardFail(s)
    else if s.row.status == Ordering && s.row.attempt == snap.attempt then
      var t := s.(row := s.row.(attempt := s.row.attempt + 1, updatedAt := s.clock));
      if !snap.hasJob then t.(jobs := AwaitRetryInvoice(snap))
      else if !snap.xlmSent then t.(jobs := AwaitPaymentUrl(snap))
      else GoNotify(t, snap)
    else
      s.(jobs := BeforePoll)
  }

  function HardFailReply(s: State, reply: Reply): State {
    match reply
    case Threw => Touch(s).(jobs := BeforePoll)
    case Reply(status, _) =>
      if status.Some? && InProgress(status.value) then Touch(s).(jobs := BeforePoll) else HardFail(s)
  }

  /** The branch that trusts VCC that somebody has already paid. */
  predicate SkipsPayment(reply: Reply) {
    reply.Reply? && reply.hasUrl && reply.status.Some? && reply.status != Some(InvoiceIssued)
  }

  function PaymentUrlReply(s: State, snap: Row, reply: Reply): State {
    if reply.Threw? || !reply.hasUrl then s.(jobs := BeforePoll)
    else if SkipsPayment(reply) then
      GoNotify(s.(row := s.row.(xlmSent := true, updatedAt := s.clock)), snap)
    else s.(jobs := AwaitRetryCtx(snap, false))
  }

  function PollReply(s: State, snap: Row, reply: Reply): State {
    var t := s.(jobs := JobsIdle);
    if reply.Threw? then t
    else if reply.status == Some(JobDelivered) then Touch(t)
    else if reply.status == Some(JobFailed) && t.row.status in {PendingPayment, Ordering} then
      RefundOrQuarantine(SetStatus(t, if Truthy(snap.ctxTxid) then PendingManualRecovery else Failed))
    else t
  }

  // ---------------------------------------------------------------------------
  // VCC callback (api/vcc-callback.js)
  // ---------------------------------------------------------------------------

  predicate Terminal(status: Status) {
    status in {Delivered, Failed, Refunded, RefundPending, PendingManualRecovery}
  }

  function FulfilledCallback(s: State): State {
    if Terminal(s.row.status) then s else SetStatus(s, Delivered)
  }

  function FailedCallback(s: State): State {
    if Terminal(s.row.status) then s
    else RefundOrQuarantine(SetStatus(s, if Truthy(s.row.ctxTxid) then PendingManualRecovery else Failed))
  }

  // ---------------------------------------------------------------------------
  // Steps
  // ---------------------------------------------------------------------------

  function Next(s: State, a: Action): State {
    match a
    case Tick(ms) => s.(clock := s.clock + ms)
    case SetFrozen(on) => s.(frozen := on)
    case JobCreated => s.(job := InvoiceIssued)
    case JobMoves(to) => s.(job := to)
    case Crash =>
      Loosen(Loosen(s, s.handler == AwaitCtx(false)), s.jobs.AwaitRetryCtx? && !s.jobs.landed)
        .(handler := HandlerIdle, jobs := JobsIdle, refundsInFlight := 0)
    case ParkedLands => s.(ledger := s.ledger.(landed := s.ledger.landed + 1))
    case LooseLands => Land(s).(ledger := Land(s).ledger.(loose := if s.ledger.loose > 0 then s.ledger.loose - 1 else 0))

    case PaymentArrives(c) => Payment(s, c)
    case InvoiceReturns => s.(handler := AwaitPrice)
    case InvoiceThrows => HandlerCatch(s)
    case PriceReturns => s.(row := s.row.(hasJob := true, updatedAt := s.clock), handler := AwaitCtx(false))
    case CtxLands => Land(s).(handler := AwaitCtx(true))
    case CtxReturns(hash) => RecordSend(s, hash).(handler := AwaitNotify, notifyCalled := true)
    case CtxThrows(e) =>
      if Ambiguous(e) && s.handler.AwaitCtx? then Park(s, e, s.handler.landed).(handler := HandlerIdle)
      else HandlerCatch(Loosen(s, s.handler == AwaitCtx(false)))
    case NotifyReturns =>
      if s.handler == AwaitNotify then s.(handler := AwaitSecondNotify)
      else s.(row := s.row.(notified := true, updatedAt := s.clock), handler := HandlerIdle)
    case NotifyThrows => HandlerCatch(s)

    case RunJobs => if s.jobs != JobsIdle then s else Expire(s).(jobs := BeforeReconcile)
    case ReconcileSelects =>
      if !s.frozen && ReconcileQuery(s) then s.(jobs := Selected(s.row, s.clock - s.timings.failAfter))
      else s.(jobs := BeforePoll)
    case ReconcileTakes => if s.jobs.Selected? then Take(s, s.jobs.snap, s.jobs.failCutoff) else s
    case HardFailStatusArrives(reply) => HardFailReply(s, reply)
    case RetryInvoiceReturns =>
      if s.jobs.AwaitRetryInvoice? then
        var t := s.(row := s.row.(hasJob := true, updatedAt := s.clock));
        if !s.jobs.snap.xlmSent then t.(jobs := AwaitRetryCtx(s.jobs.snap, false)) else GoNotify(t, s.jobs.snap)
      else s
    case RetryInvoiceThrows => s.(jobs := BeforePoll)
    case PaymentUrlArrives(reply) => if s.jobs.AwaitPaymentUrl? then PaymentUrlReply(s, s.jobs.snap, reply) else s
    case RetryCtxLands =>
      if s.jobs.AwaitRetryCtx? then Land(s).(jobs := AwaitRetryCtx(s.jobs.snap, true)) else s
    case RetryCtxReturns(hash) => if s.jobs.AwaitRetryCtx? then GoNotify(RecordSend(s, hash), s.jobs.snap) else s
    case RetryCtxThrows(e) =>
      if s.jobs.AwaitRetryCtx? && Ambiguous(e) then Park(s, e, s.jobs.landed).(jobs := BeforePoll)
      else Loosen(s, s.jobs.AwaitRetryCtx? && !s.jobs.landed).(jobs := BeforePoll)
    case RetryNotifyReturns => s.(row := s.row.(notified := true, updatedAt := s.clock), jobs := BeforePoll)
    case RetryNotifyThrows => s.(jobs := BeforePoll)
    case PollSelects => s.(jobs := if PollQuery(s) then AwaitPollStatus(s.row) else JobsIdle)
    case PollStatusArrives(reply) => if s.jobs.AwaitPollStatus? then PollReply(s, s.jobs.snap, reply) else s
    case SubJobAborts => s.(jobs := if s.jobs.AwaitPollStatus? || s.jobs.BeforePoll? then JobsIdle else BeforePoll)

    case CallbackFulfilled => FulfilledCallback(s)
    case CallbackFailed => FailedCallback(s)
    case RefundReturns =>
      SetStatus(s, Refunded).(refundsInFlight := if s.refundsInFlight > 0 then s.refundsInFlight - 1 else 0)
    case RefundThrows(hasHash) =>
      (if hasHash then Touch(s) else s).(refundsInFlight := if s.refundsInFlight > 0 then s.refundsInFlight - 1 else 0)
  }

  /**
   * Assumptions on the outside world.
   * notifyMovesJob: a VCC job leaves `invoice_issued` only once a notifyPaid request was sent.
   * throwsAreTagged: a payCtxOrder that throws after its payment landed throws an ambiguous error,
   *   and one that returns has landed and returns a non-empty hash.
   * leaseHolds: while the handler is suspended, the last `updated_at` write is at most `retryAfter` old.
   * sendsAreRecorded: the process does not die between a CTX payment landing and the UPDATE recording it.
   * looseSendsStayOff: a send that threw untagged, or whose process died, does not land afterwards.
   * An ambiguous send, whose hash is parked, may land at any time after its throw.
   */
  datatype Assumptions = Assumptions(
    notifyMovesJob: bool, throwsAreTagged: bool, leaseHolds: bool, sendsAreRecorded: bool, looseSendsStayOff: bool)

  const ALL := Assumptions(true, true, true, true, true)

  predicate JobCanMove(from: VccJob, to: VccJob) {
    || (from == Queued && to in {Running, JobDelivered, JobFailed})
    || (from == Running && to in {JobDelivered, JobFailed})
  }

  /** A status a reply may carry: one the job has gone through, possibly stale by now. */
  predicate Observable(seen: VccJob, now: VccJob) {
    match seen
    case NoJob => false
    case InvoiceIssued => now != NoJob
    case Queued => now in {Queued, Running, JobDelivered, JobFailed}
    case Running => now in {Running, JobDelivered, JobFailed}
    case JobDelivered => now == JobDelivered
    case JobFailed => now == JobFailed
  }

  predicate CanReply(s: State, reply: Reply) {
    reply.Threw? || reply.status.None? || Observable(reply.status.value, s.job)
  }

  predicate Enabled(s: State, a: Action, given: Assumptions) {
    match a
    case Tick(ms) =>
      given.leaseHolds && s.handler != HandlerIdle ==> s.clock + ms - s.row.updatedAt <= s.timings.retryAfter
    case SetFrozen(_) => true
    case JobCreated => s.job == NoJob
    case JobMoves(to) =>
      || JobCanMove(s.job, to)
      || (s.job == InvoiceIssued && to == Queued && s.notifyCalled)
      || (!given.notifyMovesJob && s.job == InvoiceIssued && to in {Queued, JobFailed})
    case Crash =>
      given.sendsAreRecorded ==> s.handler != AwaitCtx(true) && (s.jobs.AwaitRetryCtx? ==> !s.jobs.landed)
    case ParkedLands => s.ledger.landed < s.ledger.possible
    case LooseLands => s.ledger.loose > 0 && !given.looseSendsStayOff

    case PaymentArrives(c) => c.from != ""
    case InvoiceReturns => s.handler == AwaitInvoice && s.job != NoJob
    case InvoiceThrows => s.handler == AwaitInvoice
    case PriceReturns => s.handler == AwaitPrice
    case CtxLands => s.handler == AwaitCtx(false)
    case CtxReturns(hash) => s.handler.AwaitCtx? && (given.throwsAreTagged ==> s.handler.landed && hash != "")
    case CtxThrows(e) => s.handler.AwaitCtx? && (given.throwsAreTagged && s.handler.landed ==> Ambiguous(e))
    case NotifyReturns => s.handler in {AwaitNotify, AwaitSecondNotify}
    case NotifyThrows => s.handler in {AwaitNotify, AwaitSecondNotify}

    case RunJobs => true
    case ReconcileSelects => s.jobs == BeforeReconcile
    case ReconcileTakes => s.jobs.Selected?
    case HardFailStatusArrives(reply) => s.jobs.AwaitHardFailStatus? && CanReply(s, reply)
    case RetryInvoiceReturns => s.jobs.AwaitRetryInvoice? && s.job != NoJob
    case RetryInvoiceThrows => s.jobs.AwaitRetryInvoice?
    case PaymentUrlArrives(reply) => s.jobs.AwaitPaymentUrl? && CanReply(s, reply)
    case RetryCtxLands => s.jobs.AwaitRetryCtx? && !s.jobs.landed
    case RetryCtxReturns(hash) => s.jobs.AwaitRetryCtx? && (given.throwsAreTagged ==> s.jobs.landed && hash != "")
    case RetryCtxThrows(e) => s.jobs.AwaitRetryCtx? && (given.throwsAreTagged && s.jobs.landed ==> Ambiguous(e))
    case RetryNotifyReturns => s.jobs.AwaitRetryNotify?
    case RetryNotifyThrows => s.jobs.AwaitRetryNotify?
    case PollSelects => s.jobs == BeforePoll
    case PollStatusArrives(reply) => s.jobs.AwaitPollStatus? && CanReply(s, reply)
    case SubJobAborts =>
      s.jobs in {BeforeReconcile, BeforePoll} || s.jobs.Selected? || s.jobs.AwaitHardFailStatus? || s.jobs.AwaitPollStatus?

    case CallbackFulfilled => s.job == JobDelivered
    case CallbackFailed => s.job == JobFailed
    case RefundReturns => s.refundsInFlight > 0
    case RefundThrows(_) => s.refundsInFlight > 0
  }

  /** A freshly inserted order: no claim, no checkpoint, no excess. */
  predicate Init(s: State) {
    && s.row.status == PendingPayment
    && !s.row.hasJob && !s.row.xlmSent && !s.row.notified && s.row.ctxTxid.None?
    && s.row.money.excessUsdc.None?
    && s.row.updatedAt <= s.clock
    && s.handler == HandlerIdle && s.jobs == JobsIdle && s.refundsInFlight == 0
    && s.job == NoJob && !s.notifyCalled
    && s.ledger == Ledger(0, 0, 0, [], [])
  }

  /** State after a sequence of actions, each enabled when it is taken; None when one is not. */
  function Run(s: State, actions: seq<Action>, given: Assumptions): Option<State> {
    if actions == [] then
      Some(s)
    else
      match Run(s, actions[..|actions| - 1], given)
      case None => None
      case Some(t) =>
        var a := actions[|actions| - 1];
        if Enabled(t, a, given) then Some(Next(t, a)) else None
  }
}
