/**
 * The program itself: one object holding the order row and the suspended actors, one method per
 * synchronous stretch. Each method issues the source's UPDATE statements in the source's order, is
 * proved to be the corresponding step of the state machine in Protocol, and keeps the object valid:
 * a valid object has never paid twice, never refunded twice, and never both paid and refunded.
 */
module OrderService {
  import opened Results
  import opened Orders
  import P = Protocol
  import S = ProtocolSafety
  import Decimals

  ghost function Fresh(order: Row, clock: int, timings: P.Timings): P.State {
    P.State(order, P.HandlerIdle, P.JobsIdle, 0, false, clock, P.NoJob, false, P.Ledger(0, 0, 0, [], []), timings)
  }

  class Backend {
    var row: Row
    var handler: P.HandlerPc
    var jobs: P.JobsPc
    var jobsRunning: bool
    var refundsInFlight: nat
    var frozen: bool
    var now: int
    ghost var job: P.VccJob
    ghost var notifyCalled: bool
    ghost var ledger: P.Ledger
    const timings: P.Timings

    /** `jobsRunning` is the mutex of the job runner. */
    predicate Mutex()
      reads this
    {
      jobsRunning == (jobs != P.JobsIdle)
    }

    /** The inductive invariant of the protocol, on the object; the money facts follow from it. */
    ghost predicate Valid()
      reads this
      ensures Valid() ==> S.Safe(View())
    {
      hide S.Inv;
      if S.Inv(View()) then S.InvIsSafe(View()); Mutex() else false
    }

    ghost function View(): P.State
      reads this
    {
      P.State(row, handler, jobs, refundsInFlight, frozen, now, job, notifyCalled, ledger, timings)
    }

    /** The freshly inserted order. */
    constructor (order: Row, clock: int, timings: P.Timings)
      requires P.Init(Fresh(order, clock, timings))
      ensures Valid() && View() == Fresh(order, clock, timings)
    {
      S.InitInv(Fresh(order, clock, timings));
      row, now := order, clock;
      handler, jobs, jobsRunning, refundsInFlight, frozen := P.HandlerIdle, P.JobsIdle, false, 0, false;
      job, notifyCalled, ledger := P.NoJob, false, P.Ledger(0, 0, 0, [], []);
      this.timings := timings;
    }

    // -------------------------------------------------------------------------
    // fulfillment.js
    // -------------------------------------------------------------------------

    /** `UPDATE orders SET status = ?, updated_at = ?` when the row's status is not one of `unless`. */
    method UpdateStatus(target: Status, unless: set<Status>) returns (changes: nat)
      modifies this`row
      ensures changes == if old(row.status) in unless then 0 else 1
      ensures row == if changes == 0 then old(row) else old(row).(status := target, updatedAt := now)
    {
      if row.status in unless { return 0; }
      row := row.(status := target, updatedAt := now);
      return 1;
    }

    method ScheduleRefund()
      modifies this`row, this`refundsInFlight, this`ledger
      ensures View() == P.ScheduleRefund(old(View()))
    {
      hide Decimals.ComputeUsdcRefundAmount, Decimals.IsPlainDecimal;
      if frozen { return; }
      var changes := UpdateStatus(RefundPending, {RefundPending, Refunded});
      if changes == 0 { return; }
      if !Truthy(row.money.senderAddress) { return; }
      var isXlm := row.money.paymentAsset == Some(XlmSoroban) || row.money.paymentAsset == Some(LegacyXlm);
      var isUsdc := row.money.paymentAsset == Some(UsdcSoroban) || row.money.paymentAsset == Some(LegacyUsdc);
      if !isXlm && !isUsdc { return; }
      if isXlm {
        if !Decimals.IsValidRefundAmount(row.money.paymentXlmAmount) { return; }
        StartSend(Send(Xlm, row.money.paymentXlmAmount.value, row.money.senderAddress.value));
      } else {
        if !Decimals.IsValidRefundAmount(Some(row.money.amountUsdc)) { return; }
        var refund := Decimals.ComputeUsdcRefundAmount(Some(row.money.amountUsdc), row.money.excessUsdc);
        var amount := row.money.amountUsdc;
        if Decimals.IsValidRefundAmount(Some(refund)) { amount := refund; }
        StartSend(Send(Usdc, amount, row.money.senderAddress.value));
      }
    }

    method StartSend(send: Send)
      modifies this`refundsInFlight, this`ledger
      ensures refundsInFlight == old(refundsInFlight) + 1
      ensures ledger == old(ledger).(refunds := old(ledger).refunds + [send])
    {
      refundsInFlight := refundsInFlight + 1;
      ledger := ledger.(refunds := ledger.refunds + [send]);
    }

    method QuarantineForManualRecovery()
      modifies this`row
      ensures View() == P.Quarantine(old(View()))
    {
      var _ := UpdateStatus(PendingManualRecovery, {Delivered, Failed, Refunded, RefundPending, PendingManualRecovery});
    }

    method RefundOrQuarantine()
      modifies this`row, this`refundsInFlight, this`ledger
      ensures View() == P.RefundOrQuarantine(old(View()))
    {
      if Truthy(row.ctxTxid) {
        QuarantineForManualRecovery();
      } else {
        ScheduleRefund();
      }
    }

    method RefundSendReturns()
      requires Valid() && P.Enabled(View(), P.RefundReturns, P.ALL)
      modifies this`row, this`refundsInFlight
      ensures Valid() && View() == P.Next(old(View()), P.RefundReturns)
    {
      hide S.Inv;
      S.StepInv(View(), P.RefundReturns);
      var _ := UpdateStatus(Refunded, {});
      refundsInFlight := refundsInFlight - 1;
    }

    /** recordRefundSendFailure: the row is only touched when the error carries a hash. */
    method RefundSendThrows(hasHash: bool)
      requires Valid() && P.Enabled(View(), P.RefundThrows(hasHash), P.ALL)
      modifies this`row, this`refundsInFlight
      ensures Valid() && View() == P.Next(old(View()), P.RefundThrows(hasHash))
    {
      hide S.Inv;
      S.StepInv(View(), P.RefundThrows(hasHash));
      if hasHash {
        row := row.(updatedAt := now);
      }
      refundsInFlight := refundsInFlight - 1;
    }

    // -------------------------------------------------------------------------
    // payment-handler.js
    // -------------------------------------------------------------------------

    /** handlePayment up to its first await; an unmatched payment leaves the order alone. */
    method HandlePayment(c: ChainEvent)
      requires Valid() && P.Enabled(View(), P.PaymentArrives(c), P.ALL)
      modifies this`row, this`handler, this`ledger
      ensures Valid() && View() == P.Next(old(View()), P.PaymentArrives(c))
    {
      hide S.Inv, Judge, ParsePaymentEvent;
      S.StepInv(View(), P.PaymentArrives(c));
      var parsed := ParsePaymentEvent(c);
      if parsed.None? { return; }
      var e := parsed.value;
      var verdict := Classify(row, e);
      if !verdict.Claim? { return; }
      var money := row.money.(paymentAsset := Some(e.paymentAsset), senderAddress := Some(e.senderAddress),
                              paymentXlmAmount := e.amountXlm);
      if verdict.excessUsdc.Some? {
        money := money.(excessUsdc := verdict.excessUsdc);
      }
      row := row.(status := Ordering, money := money, updatedAt := now);
      handler := P.AwaitInvoice;
      ledger := ledger.(claims := ledger.claims + [c]);
    }

    method OuterCatch()
      modifies this`row, this`handler, this`refundsInFlight, this`ledger
      ensures View() == P.HandlerCatch(old(View()))
    {
      hide RefundSend, P.RefundOrQuarantine;
      handler := P.HandlerIdle;
      var _ := UpdateStatus(Failed, {});
      RefundOrQuarantine();
      RefundOrQuarantine();
    }

    method GetInvoiceReturns()
      requires Valid() && P.Enabled(View(), P.InvoiceReturns, P.ALL)
      modifies this`handler
      ensures Valid() && View() == P.Next(old(View()), P.InvoiceReturns)
    {
      hide S.Inv;
      S.StepInv(View(), P.InvoiceReturns);
      handler := P.AwaitPrice;
    }

    method GetInvoiceThrows()
      requires Valid() && P.Enabled(View(), P.InvoiceThrows, P.ALL)
      modifies this`row, this`handler, this`refundsInFlight, this`ledger
      ensures Valid() && View() == P.Next(old(View()), P.InvoiceThrows)
    {
      hide S.Inv;
      S.StepInv(View(), P.InvoiceThrows);
      hide P.HandlerCatch;
      OuterCatch();
    }

    method PriceReturns()
      requires Valid() && P.Enabled(View(), P.PriceReturns, P.ALL)
      modifies this`row, this`handler
      ensures Valid() && View() == P.Next(old(View()), P.PriceReturns)
    {
      hide S.Inv;
      S.StepInv(View(), P.PriceReturns);
      row := row.(hasJob := true, updatedAt := now);
      handler := P.AwaitCtx(false);
    }

    /** Persists the outcome of a send that returned. */
    method RecordSend(hash: string)
      modifies this`row
      ensures row == P.RecordSend(old(View()), hash).row
    {
      row := row.(xlmSent := true, ctxTxid := if hash == "" then None else Some(hash), updatedAt := now);
    }

    /** Persists an ambiguous hash and marks the order failed, with no refund. */
    method ParkAmbiguous(e: P.PayError, ghost landed: bool)
      modifies this`row, this`ledger
      ensures View() == P.Park(old(View()), e, landed)
    {
      row := row.(status := Failed, ctxTxid := e.txHash, updatedAt := now);
      ledger := ledger.(possible := ledger.possible + if landed then 0 else 1);
    }

    /** Bookkeeping of the ledger no code reads: a send has ended off it, with no trace in the row. */
    ghost method Loosen(unlanded: bool)
      modifies this`ledger
      ensures View() == P.Loosen(old(View()), unlanded)
    {
      if unlanded {
        ledger := ledger.(loose := ledger.loose + 1);
      }
    }

    method PayCtxReturns(hash: string)
      requires Valid() && P.Enabled(View(), P.CtxReturns(hash), P.ALL)
      modifies this`row, this`handler, this`notifyCalled
      ensures Valid() && View() == P.Next(old(View()), P.CtxReturns(hash))
    {
      hide S.Inv;
      S.StepInv(View(), P.CtxReturns(hash));
      RecordSend(hash);
      handler, notifyCalled := P.AwaitNotify, true;
    }

    method PayCtxThrows(e: P.PayError)
      requires Valid() && P.Enabled(View(), P.CtxThrows(e), P.ALL)
      modifies this`row, this`handler, this`refundsInFlight, this`ledger
      ensures Valid() && View() == P.Next(old(View()), P.CtxThrows(e))
    {
      hide S.Inv;
      S.StepInv(View(), P.CtxThrows(e));
      hide P.HandlerCatch;
      if e.stellarStatus in {P.Unknown, P.AppliedFailed} && Truthy(e.txHash) {
        ParkAmbiguous(e, handler.landed);
        handler := P.HandlerIdle;
        return;
      }
      Loosen(!handler.landed);
      OuterCatch();
    }

    method NotifyPaidReturns()
      requires Valid() && P.Enabled(View(), P.NotifyReturns, P.ALL)
      modifies this`row, this`handler
      ensures Valid() && View() == P.Next(old(View()), P.NotifyReturns)
    {
      hide S.Inv;
      S.StepInv(View(), P.NotifyReturns);
      if handler == P.AwaitNotify {
        handler := P.AwaitSecondNotify;
        return;
      }
      row := row.(notified := true, updatedAt := now);
      handler := P.HandlerIdle;
    }

    method NotifyPaidThrows()
      requires Valid() && P.Enabled(View(), P.NotifyThrows, P.ALL)
      modifies this`row, this`handler, this`refundsInFlight, this`ledger
      ensures Valid() && View() == P.Next(old(View()), P.NotifyThrows)
    {
      hide S.Inv;
      S.StepInv(View(), P.NotifyThrows);
      hide P.HandlerCatch;
      OuterCatch();
    }

    // -------------------------------------------------------------------------
    // jobs.js
    // -------------------------------------------------------------------------

    method Suspend(at: P.JobsPc)
      modifies this`jobs, this`jobsRunning
      ensures jobs == at && Mutex()
    {
      jobs, jobsRunning := at, at != P.JobsIdle;
    }

    /** runJobs up to its first await: the mutex, then expireStaleOrders. */
    method RunJobs()
      requires Valid() && P.Enabled(View(), P.RunJobs, P.ALL)
      modifies this`row, this`jobs, this`jobsRunning
      ensures Valid() && View() == P.Next(old(View()), P.RunJobs)
    {
      hide S.Inv;
      S.StepInv(View(), P.RunJobs);
      if jobsRunning { return; }
      if row.status == PendingPayment && P.Seconds(row.createdAt) < P.Seconds(now - P.EXPIRY_MS) {
        row := row.(status := Expired, updatedAt := now);
      }
      Suspend(P.BeforeReconcile);
    }

    method ReconcileSelects()
      requires Valid() && P.Enabled(View(), P.ReconcileSelects, P.ALL)
      modifies this`jobs, this`jobsRunning
      ensures Valid() && View() == P.Next(old(View()), P.ReconcileSelects)
    {
      hide S.Inv;
      S.StepInv(View(), P.ReconcileSelects);
      if frozen {
        Suspend(P.BeforePoll);
        return;
      }
      var cutoff := now - timings.retryAfter;
      if row.status == Ordering && (!row.hasJob || !row.xlmSent || !row.notified) && row.ctxTxid.None?
         && row.updatedAt < cutoff {
        Suspend(P.Selected(row, now - timings.failAfter));
      } else {
        Suspend(P.BeforePoll);
      }
    }

    method HardFail()
      modifies this`row, this`jobs, this`jobsRunning, this`refundsInFlight, this`ledger
      ensures Mutex() && View() == P.HardFail(old(View()))
    {
      hide RefundSend, P.RefundOrQuarantine;
      Suspend(P.BeforePoll);
      if row.status != Ordering { return; }
      row := row.(status := Failed, updatedAt := now);
      RefundOrQuarantine();
    }

    method RetryNotify(snap: Row)
      modifies this`jobs, this`jobsRunning, this`notifyCalled
      ensures Mutex() && View() == P.GoNotify(old(View()), snap)
    {
      if snap.notified {
        Suspend(P.BeforePoll);
      } else {
        notifyCalled := true;
        Suspend(P.AwaitRetryNotify(snap));
      }
    }

    /** The loop body of reconcileOrderingFulfillment up to its first await. */
    method ReconcileTakes()
      requires Valid() && P.Enabled(View(), P.ReconcileTakes, P.ALL)
      modifies this`row, this`jobs, this`jobsRunning, this`refundsInFlight, this`ledger, this`notifyCalled
      ensures Valid() && View() == P.Next(old(View()), P.ReconcileTakes)
    {
      hide S.Inv;
      S.StepInv(View(), P.ReconcileTakes);
      hide P.HardFail;
      var order := jobs.snap;
      var timedOut := order.updatedAt < jobs.failCutoff;
      var attemptsExhausted := order.attempt >= timings.maxAttempts;
      if timedOut || attemptsExhausted {
        if order.hasJob {
          Suspend(P.AwaitHardFailStatus(order));
        } else {
          HardFail();
        }
        return;
      }
      if row.status != Ordering || row.attempt != order.attempt {
        Suspend(P.BeforePoll);
        return;
      }
      row := row.(attempt := row.attempt + 1, updatedAt := now);
      if !order.hasJob {
        Suspend(P.AwaitRetryInvoice(order));
      } else if !order.xlmSent {
        Suspend(P.AwaitPaymentUrl(order));
      } else {
        RetryNotify(order);
      }
    }

    method HardFailStatusArrives(reply: P.Reply)
      requires Valid() && P.Enabled(View(), P.HardFailStatusArrives(reply), P.ALL)
      modifies this`row, this`jobs, this`jobsRunning, this`refundsInFlight, this`ledger
      ensures Valid() && View() == P.Next(old(View()), P.HardFailStatusArrives(reply))
    {
      hide S.Inv;
      S.StepInv(View(), P.HardFailStatusArrives(reply));
      hide P.HardFail, P.Payment, P.HandlerCatch, P.Take, P.PaymentUrlReply, P.PollReply, P.FailedCallback, P.Expire;
      if reply.Threw? || (reply.status.Some? && P.InProgress(reply.status.value)) {
        row := row.(updatedAt := now);
        Suspend(P.BeforePoll);
        return;
      }
      HardFail();
    }

    method RetryInvoiceReturns()
      requires Valid() && P.Enabled(View(), P.RetryInvoiceReturns, P.ALL)
      modifies this`row, this`jobs, this`jobsRunning, this`notifyCalled
      ensures Valid() && View() == P.Next(old(View()), P.RetryInvoiceReturns)
    {
      hide S.Inv;
      S.StepInv(View(), P.RetryInvoiceReturns);
      var order := jobs.snap;
      row := row.(hasJob := true, updatedAt := now);
      if !order.xlmSent {
        Suspend(P.AwaitRetryCtx(order, false));
      } else {
        RetryNotify(order);
      }
    }

    method PaymentUrlArrives(reply: P.Reply)
      requires Valid() && P.Enabled(View(), P.PaymentUrlArrives(reply), P.ALL)
      modifies this`row, this`jobs, this`jobsRunning, this`notifyCalled
      ensures Valid() && View() == P.Next(old(View()), P.PaymentUrlArrives(reply))
    {
      hide S.Inv;
      S.StepInv(View(), P.PaymentUrlArrives(reply));
      var order := jobs.snap;
      if reply.Threw? || !reply.hasUrl {
        Suspend(P.BeforePoll);
        return;
      }
      if reply.status.Some? && reply.status.value != P.InvoiceIssued {
        row := row.(xlmSent := true, updatedAt := now);
        RetryNotify(order);
        return;
      }
      Suspend(P.AwaitRetryCtx(order, false));
    }

    method RetryCtxReturns(hash: string)
      requires Valid() && P.Enabled(View(), P.RetryCtxReturns(hash), P.ALL)
      modifies this`row, this`jobs, this`jobsRunning, this`notifyCalled
      ensures Valid() && View() == P.Next(old(View()), P.RetryCtxReturns(hash))
    {
      hide S.Inv;
      S.StepInv(View(), P.RetryCtxReturns(hash));
      var order := jobs.snap;
      RecordSend(hash);
      RetryNotify(order);
    }

    method RetryCtxThrows(e: P.PayError)
      requires Valid() && P.Enabled(View(), P.RetryCtxThrows(e), P.ALL)
      modifies this`row, this`jobs, this`jobsRunning, this`ledger
      ensures Valid() && View() == P.Next(old(View()), P.RetryCtxThrows(e))
    {
      hide S.Inv;
      S.StepInv(View(), P.RetryCtxThrows(e));
      if e.stellarStatus in {P.Unknown, P.AppliedFailed} && Truthy(e.txHash) {
        ParkAmbiguous(e, jobs.landed);
      } else {
        Loosen(!jobs.landed);
      }
      Suspend(P.BeforePoll);
    }

    method RetryNotifyReturns()
      requires Valid() && P.Enabled(View(), P.RetryNotifyReturns, P.ALL)
      modifies this`row, this`jobs, this`jobsRunning
      ensures Valid() && View() == P.Next(old(View()), P.RetryNotifyReturns)
    {
      hide S.Inv;
      S.StepInv(View(), P.RetryNotifyReturns);
      row := row.(notified := true, updatedAt := now);
      Suspend(P.BeforePoll);
    }

    /** A throw inside the retry's try block is logged; the row waits for the next tick. */
    method RetryThrows(a: P.Action)
      requires Valid() && P.Enabled(View(), a, P.ALL) && (a.RetryInvoiceThrows? || a.RetryNotifyThrows?)
      modifies this`jobs, this`jobsRunning
      ensures Valid() && View() == P.Next(old(View()), a)
    {
      hide S.Inv;
      S.StepInv(View(), a);
      Suspend(P.BeforePoll);
    }

    method PollSelects()
      requires Valid() && P.Enabled(View(), P.PollSelects, P.ALL)
      modifies this`jobs, this`jobsRunning
      ensures Valid() && View() == P.Next(old(View()), P.PollSelects)
    {
      hide S.Inv;
      S.StepInv(View(), P.PollSelects);
      if row.status in {PendingPayment, Ordering} && row.hasJob
         && P.Seconds(row.updatedAt) < P.Seconds(now - P.POLL_AFTER_MS) {
        Suspend(P.AwaitPollStatus(row));
      } else {
        Suspend(P.JobsIdle);
      }
    }

    /** The loop body of recoverStuckOrders after its await, and the end of runJobs. */
    method PollStatusArrives(reply: P.Reply)
      requires Valid() && P.Enabled(View(), P.PollStatusArrives(reply), P.ALL)
      modifies this`row, this`jobs, this`jobsRunning, this`refundsInFlight, this`ledger
      ensures Valid() && View() == P.Next(old(View()), P.PollStatusArrives(reply))
    {
      hide S.Inv;
      S.StepInv(View(), P.PollStatusArrives(reply));
      hide RefundSend, P.RefundOrQuarantine;
      var order := jobs.snap;
      Suspend(P.JobsIdle);
      if reply.Threw? { return; }
      if reply.status == Some(P.JobDelivered) {
        row := row.(updatedAt := now);
      } else if reply.status == Some(P.JobFailed) {
        var target := if Truthy(order.ctxTxid) then PendingManualRecovery else Failed;
        if row.status !in {PendingPayment, Ordering} { return; }
        row := row.(status := target, updatedAt := now);
        RefundOrQuarantine();
      }
    }

    // -------------------------------------------------------------------------
    // api/vcc-callback.js
    // -------------------------------------------------------------------------

    method CallbackFulfilled()
      requires Valid() && P.Enabled(View(), P.CallbackFulfilled, P.ALL)
      modifies this`row
      ensures Valid() && View() == P.Next(old(View()), P.CallbackFulfilled)
    {
      hide S.Inv;
      S.StepInv(View(), P.CallbackFulfilled);
      if P.Terminal(row.status) { return; }
      var _ := UpdateStatus(Delivered, {Delivered, Failed, Refunded, RefundPending});
    }

    method CallbackFailed()
      requires Valid() && P.Enabled(View(), P.CallbackFailed, P.ALL)
      modifies this`row, this`refundsInFlight, this`ledger
      ensures Valid() && View() == P.Next(old(View()), P.CallbackFailed)
    {
      hide S.Inv;
      S.StepInv(View(), P.CallbackFailed);
      hide RefundSend, P.RefundOrQuarantine;
      if P.Terminal(row.status) { return; }
      var target := if Truthy(row.ctxTxid) then PendingManualRecovery else Failed;
      var changes := UpdateStatus(target, {Delivered, Failed, Refunded, RefundPending, PendingManualRecovery});
      if changes == 0 { return; }
      RefundOrQuarantine();
    }

    // -------------------------------------------------------------------------
    // Everything else, and whole runs
    // -------------------------------------------------------------------------

    /** A throw that ends a sub-job early. */
    method SubJobAborts()
      requires Valid() && P.Enabled(View(), P.SubJobAborts, P.ALL)
      modifies this`jobs, this`jobsRunning
      ensures Valid() && View() == P.Next(old(View()), P.SubJobAborts)
    {
      hide S.Inv;
      S.StepInv(View(), P.SubJobAborts);
      Suspend(if jobs.AwaitPollStatus? || jobs.BeforePoll? then P.JobsIdle else P.BeforePoll);
    }

    /** The process dies: the row stays, every suspended actor is forgotten. */
    method Crash()
      requires Valid() && P.Enabled(View(), P.Crash, P.ALL)
      modifies this`handler, this`jobs, this`jobsRunning, this`refundsInFlight, this`ledger
      ensures Valid() && View() == P.Next(old(View()), P.Crash)
    {
      hide S.Inv;
      S.StepInv(View(), P.Crash);
      Loosen(handler == P.AwaitCtx(false));
      Loosen(jobs.AwaitRetryCtx? && !jobs.landed);
      handler, refundsInFlight := P.HandlerIdle, 0;
      Suspend(P.JobsIdle);
    }

    /** What the program does not do itself: time, the freeze switch, VCC, and CTX payments reaching the ledger. */
    method World(a: P.Action)
      requires Valid() && P.Enabled(View(), a, P.ALL)
      requires (S.OfTheWorld(a) && !a.Crash?) || a.CtxLands? || a.RetryCtxLands?
      modifies this`now, this`frozen, this`job, this`handler, this`jobs, this`ledger
      ensures Valid() && View() == P.Next(old(View()), a)
    {
      hide S.Inv;
      S.StepInv(View(), a);
      match a {
        case Tick(ms) => now := now + ms;
        case SetFrozen(on) => frozen := on;
        case JobCreated => job := P.InvoiceIssued;
        case JobMoves(to) => job := to;
        case ParkedLands => ledger := ledger.(landed := ledger.landed + 1);
        case LooseLands => assert false;
        case CtxLands => ledger := P.Land(View()).ledger; handler := P.AwaitCtx(true);
        case RetryCtxLands => ledger := P.Land(View()).ledger; jobs := P.AwaitRetryCtx(jobs.snap, true);
      }
    }

    method Perform(a: P.Action)
      requires Valid() && P.Enabled(View(), a, P.ALL)
      modifies this
      ensures Valid() && View() == P.Next(old(View()), a)
    {
      hide S.Inv, P.Next, P.Enabled, Valid, View;
      match a {
        case PaymentArrives(c) => HandlePayment(c);
        case InvoiceReturns => GetInvoiceReturns();
        case InvoiceThrows => GetInvoiceThrows();
        case PriceReturns => PriceReturns();
        case CtxReturns(hash) => PayCtxReturns(hash);
        case CtxThrows(e) => PayCtxThrows(e);
        case NotifyReturns => NotifyPaidReturns();
        case NotifyThrows => NotifyPaidThrows();
        case RunJobs => RunJobs();
        case ReconcileSelects => ReconcileSelects();
        case ReconcileTakes => ReconcileTakes();
        case HardFailStatusArrives(reply) => HardFailStatusArrives(reply);
        case RetryInvoiceReturns => RetryInvoiceReturns();
        case RetryInvoiceThrows => RetryThrows(a);
        case PaymentUrlArrives(reply) => PaymentUrlArrives(reply);
        case RetryCtxReturns(hash) => RetryCtxReturns(hash);
        case RetryCtxThrows(e) => RetryCtxThrows(e);
        case RetryNotifyReturns => RetryNotifyReturns();
        case RetryNotifyThrows => RetryThrows(a);
        case PollSelects => PollSelects();
        case PollStatusArrives(reply) => PollStatusArrives(reply);
        case SubJobAborts => SubJobAborts();
        case CallbackFulfilled => CallbackFulfilled();
        case CallbackFailed => CallbackFailed();
        case RefundReturns => RefundSendReturns();
        case RefundThrows(hasHash) => RefundSendThrows(hasHash);
        case Crash => Crash();
        case _ => World(a);
      }
    }

    lemma Prefix(s: P.State, actions: seq<P.Action>, i: nat)
      requires i < |actions| && P.Run(s, actions, P.ALL).Some?
      ensures P.Run(s, actions[..i], P.ALL).Some?
      ensures P.Enabled(P.Run(s, actions[..i], P.ALL).value, actions[i], P.ALL)
      ensures P.Run(s, actions[..i + 1], P.ALL) == Some(P.Next(P.Run(s, actions[..i], P.ALL).value, actions[i]))
      decreases |actions|
    {
      hide P.Next, P.Enabled;
      var n := |actions| - 1;
      if i < n {
        Prefix(s, actions[..n], i);
        assert actions[..n][..i] == actions[..i] && actions[..n][..i + 1] == actions[..i + 1];
      } else {
        assert actions[..i + 1] == actions;
      }
    }

    /** Any interleaving of the actors, the outside world and crashes: the object follows the machine and stays valid. */
    method Drive(actions: seq<P.Action>)
      requires Valid() && P.Run(View(), actions, P.ALL).Some?
      modifies this
      ensures Valid() && P.Run(old(View()), actions, P.ALL) == Some(View())
      ensures S.Safe(View())
    {
      hide S.Inv, P.Next, P.Enabled;
      ghost var s := View();
      for i := 0 to |actions|
        invariant Valid() && P.Run(s, actions[..i], P.ALL) == Some(View())
      {
        Prefix(s, actions, i);
        Perform(actions[i]);
      }
      assert actions[..|actions|] == actions;
    }
  }
}
