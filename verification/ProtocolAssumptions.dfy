/**
 * None of the five assumptions of the protocol can be dropped: without any one of them, every order
 * that some payment can claim has a run that pays CTX twice, or pays CTX and refunds.
 */
module ProtocolAssumptions {
  import opened Results
  import opened Orders
  import opened Protocol

  /** The order can be claimed by `c`, refunds are not frozen, and a first retry is not already a timeout. */
  predicate Claimable(s: State, c: ChainEvent) {
    && Init(s) && !s.frozen && c.from != ""
    && ParsePaymentEvent(c).Some? && Judge(s.row, ParsePaymentEvent(c).value).Claim?
    && s.row.attempt < s.timings.maxAttempts && s.timings.retryAfter < s.timings.failAfter
  }

  ghost predicate Reaches(s: State, given: Assumptions, t: State) {
    exists actions :: Run(s, actions, given) == Some(t)
  }

  lemma Stay(s: State, given: Assumptions)
    ensures Reaches(s, given, s)
  {
    assert Run(s, [], given) == Some(s);
  }

  lemma Go(s: State, given: Assumptions, t: State, a: Action)
    requires Reaches(s, given, t) && Enabled(t, a, given)
    ensures Reaches(s, given, Next(t, a))
  {
    hide Next, Enabled;
    var actions :| Run(s, actions, given) == Some(t);
    var longer := actions + [a];
    assert longer[..|longer| - 1] == actions;
    assert Run(s, longer, given) == Some(Next(t, a));
  }

  /** A claimed order whose handler is about to pay CTX. */
  ghost predicate AboutToPay(s: State, c: ChainEvent, t: State)
    requires Claimable(s, c)
  {
    && t.handler == AwaitCtx(false) && t.jobs == JobsIdle && t.job == InvoiceIssued
    && t.timings == s.timings && !t.frozen && t.clock == t.row.updatedAt
    && t.row.status == Ordering && t.row.hasJob && !t.row.xlmSent && !t.row.notified && t.row.ctxTxid.None?
    && t.row.attempt == s.row.attempt
    && t.ledger.landed == 0 && t.ledger.loose == 0 && t.ledger.refunds == []
    && ClaimedBy(t.row.money, c)
  }

  lemma PayingIsReached(s: State, c: ChainEvent, given: Assumptions) returns (t: State)
    requires Claimable(s, c)
    ensures Reaches(s, given, t) && AboutToPay(s, c, t)
  {
    hide ParsePaymentEvent, JudgeAmount, Reaches;
    Stay(s, given);
    var s1 := Next(s, PaymentArrives(c));
    Go(s, given, s, PaymentArrives(c));
    Go(s, given, s1, JobCreated);
    var s2 := Next(s1, JobCreated);
    Go(s, given, s2, InvoiceReturns);
    var s3 := Next(s2, InvoiceReturns);
    Go(s, given, s3, PriceReturns);
    t := Next(s3, PriceReturns);
  }

  lemma WithoutNotifyMovesJob(s: State, c: ChainEvent) returns (t: State)
    requires Claimable(s, c)
    ensures Reaches(s, ALL.(notifyMovesJob := false), t)
    ensures t.ledger.landed == 1 && |t.ledger.refunds| == 1
  {
    hide ParsePaymentEvent, JudgeAmount, Reaches, RefundSend;
    var given := ALL.(notifyMovesJob := false);
    var s0 := PayingIsReached(s, c, given);
    Go(s, given, s0, CtxLands);
    var s1 := Next(s0, CtxLands);
    Go(s, given, s1, JobMoves(JobFailed));
    var s2 := Next(s1, JobMoves(JobFailed));
    Go(s, given, s2, CallbackFailed);
    t := Next(s2, CallbackFailed);
    RefundIsExact(t.row.money, c);
  }

  lemma WithoutThrowsAreTagged(s: State, c: ChainEvent) returns (t: State)
    requires Claimable(s, c)
    ensures Reaches(s, ALL.(throwsAreTagged := false), t)
    ensures t.ledger.landed == 1 && |t.ledger.refunds| == 1
  {
    hide ParsePaymentEvent, JudgeAmount, Reaches, RefundSend;
    var given := ALL.(throwsAreTagged := false);
    var s0 := PayingIsReached(s, c, given);
    Go(s, given, s0, CtxLands);
    var s1 := Next(s0, CtxLands);
    var a := CtxThrows(PayError(Untagged, None));
    Go(s, given, s1, a);
    t := Next(s1, a);
    RefundIsExact(t.row.money, c);
  }

  /** The reconciler picks up a row in `ordering` with a job and no send recorded. */
  lemma ReconcilerTakes(s: State, given: Assumptions, t0: State) returns (t: State)
    requires Reaches(s, given, t0)
    requires t0.jobs == JobsIdle && !t0.frozen && t0.job == InvoiceIssued
    requires t0.row.status == Ordering && t0.row.hasJob && !t0.row.xlmSent && t0.row.ctxTxid.None?
    requires t0.row.attempt < t0.timings.maxAttempts
    requires t0.timings.retryAfter + 1 == t0.clock - t0.row.updatedAt <= t0.timings.failAfter
    ensures Reaches(s, given, t)
    ensures t.jobs == AwaitPaymentUrl(t0.row)
    ensures t.handler == t0.handler && t.ledger == t0.ledger && t.job == t0.job
  {
    hide Reaches, ParsePaymentEvent, JudgeAmount, RefundSend;
    Go(s, given, t0, RunJobs);
    var t1 := Next(t0, RunJobs);
    Go(s, given, t1, ReconcileSelects);
    var t2 := Next(t1, ReconcileSelects);
    Go(s, given, t2, ReconcileTakes);
    t := Next(t2, ReconcileTakes);
  }

  lemma ReconcilerSends(s: State, given: Assumptions, t0: State) returns (t: State)
    requires Reaches(s, given, t0) && t0.jobs.AwaitPaymentUrl? && t0.job == InvoiceIssued
    ensures Reaches(s, given, t)
    ensures t.handler == t0.handler && t.ledger == Land(t0).ledger
  {
    hide Reaches, ParsePaymentEvent, JudgeAmount, RefundSend;
    var url := PaymentUrlArrives(Reply(Some(InvoiceIssued), true));
    Go(s, given, t0, url);
    var t1 := Next(t0, url);
    Go(s, given, t1, RetryCtxLands);
    t := Next(t1, RetryCtxLands);
  }

  lemma WithoutLeaseHolds(s: State, c: ChainEvent) returns (t: State)
    requires Claimable(s, c)
    ensures Reaches(s, ALL.(leaseHolds := false), t)
    ensures t.ledger.landed == 2
  {
    hide ParsePaymentEvent, JudgeAmount, Reaches;
    var given := ALL.(leaseHolds := false);
    var s0 := PayingIsReached(s, c, given);
    var wait := Tick(s0.timings.retryAfter + 1);
    Go(s, given, s0, wait);
    var s1 := ReconcilerTakes(s, given, Next(s0, wait));
    s1 := ReconcilerSends(s, given, s1);
    Go(s, given, s1, CtxLands);
    t := Next(s1, CtxLands);
  }

  lemma WithoutSendsAreRecorded(s: State, c: ChainEvent) returns (t: State)
    requires Claimable(s, c)
    ensures Reaches(s, ALL.(sendsAreRecorded := false), t)
    ensures t.ledger.landed == 2
  {
    hide ParsePaymentEvent, JudgeAmount, Reaches;
    var given := ALL.(sendsAreRecorded := false);
    var s0 := PayingIsReached(s, c, given);
    Go(s, given, s0, CtxLands);
    var s1 := Next(s0, CtxLands);
    Go(s, given, s1, Crash);
    var s2 := Next(s1, Crash);
    var wait := Tick(s2.timings.retryAfter + 1);
    Go(s, given, s2, wait);
    t := ReconcilerTakes(s, given, Next(s2, wait));
    t := ReconcilerSends(s, given, t);
  }

  /** A send that outlives its call: after a plain throw the order is refunded and then paid, after a crash it is paid twice. */
  lemma WithoutLooseSendsStayOff(s: State, c: ChainEvent) returns (t: State, u: State)
    requires Claimable(s, c)
    ensures Reaches(s, ALL.(looseSendsStayOff := false), t)
    ensures t.ledger.landed == 1 && |t.ledger.refunds| == 1
    ensures Reaches(s, ALL.(looseSendsStayOff := false), u)
    ensures u.ledger.landed == 2
  {
    hide ParsePaymentEvent, JudgeAmount, Reaches, RefundSend;
    var given := ALL.(looseSendsStayOff := false);
    var s0 := PayingIsReached(s, c, given);
    var a := CtxThrows(PayError(NotLanded, None));
    Go(s, given, s0, a);
    var s1 := Next(s0, a);
    RefundIsExact(s1.row.money, c);
    Go(s, given, s1, LooseLands);
    t := Next(s1, LooseLands);
    u := PaysAfterCrash(s, c, given, s0);
  }

  lemma PaysAfterCrash(s: State, c: ChainEvent, given: Assumptions, s0: State) returns (t: State)
    requires Claimable(s, c) && given == ALL.(looseSendsStayOff := false)
    requires Reaches(s, given, s0) && AboutToPay(s, c, s0)
    ensures Reaches(s, given, t) && t.ledger.landed == 2
  {
    hide ParsePaymentEvent, JudgeAmount, Reaches, RefundSend;
    Go(s, given, s0, Crash);
    var s2 := Next(s0, Crash);
    var wait := Tick(s2.timings.retryAfter + 1);
    Go(s, given, s2, wait);
    t := ReconcilerTakes(s, given, Next(s2, wait));
    t := ReconcilerSends(s, given, t);
    Go(s, given, t, LooseLands);
    t := Next(t, LooseLands);
  }
}
