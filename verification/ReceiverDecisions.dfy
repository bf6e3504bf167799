/**
 * When a money call is let through, and why not: both are facts about the event log, read without
 * looking at the checks or their order.
 */
module ReceiverDecisions {
  import opened Results
  import opened Receiver
  import opened ReceiverLog
  import opened ReceiverNesting
  import opened ReceiverHistory
  import opened ReceiverRate
  import opened ReceiverRescue
  import opened ReceiverAdministration
  import opened ReceiverShutdown
  import Fees

  /** What the invariants proved elsewhere give of every reachable chain. */
  ghost predicate Known(c: Chain) {
    Start(c) && SlotIsHistory(c.world, c.time)
  }

  lemma ReachableIsKnown(c: Chain, steps: seq<Step>)
    requires Deployed(c) && Run(c, steps).Some?
    ensures Known(Run(c, steps).value)
  {
    hide Run, Start, SlotIsHistory, Past;
    ReachableStart(c, steps);
    SlotIsAlwaysHistory(c, steps);
  }

  /** For the payments the rate limit is about, its vector still decides as the history: see ReceiverRate.AgreementExactly. */
  predicate RateKnown(c: Chain, env: Env, call: Call) {
    call.Pay? && call.memo.None? ==> Agree(c.world, call.from, env.ledger)
  }

  // ---------------------------------------------------------------------------
  // What the log allows
  // ---------------------------------------------------------------------------

  predicate Open(v: View) {
    v.config.Some? && !v.config.value.paused && !v.decommissioned
  }

  predicate InBounds(v: View, asset: Asset, amount: int) {
    var b := if asset in v.bounds then v.bounds[asset] else Bounds(0, 0);
    (b.min <= 0 || b.min <= amount) && (b.max <= 0 || amount <= b.max)
  }

  /** The configured rate, or ten payments in a hundred ledgers. */
  function RateIn(v: View): Rate {
    if v.rate.Some? then v.rate.value else Rate(10, 100)
  }

  /** Payments of `payer` in the last `window` ledgers up to and including `ledger`, counted on the log. */
  function RecentPayments(log: seq<Entry>, payer: Address, ledger: nat): nat {
    InWindow(History(log, payer), ledger, RateIn(Replay(log)).window)
  }

  /** The live escrow record under `key`. */
  function LiveRecord(v: Vault, key: EscrowKey, ledger: nat): Option<EscrowRecord> {
    if key in v.escrow && ledger <= v.escrow[key].liveUntil then Some(v.escrow[key].value) else None
  }

  predicate IsAdmin(v: View, a: Address) {
    v.config.Some? && (a == v.config.value.admin || (a in v.roles && v.roles[a] == Admin))
  }

  predicate PayAllowed(env: Env, auths: set<Address>, c: Call, log: seq<Entry>)
    requires c.Pay?
  {
    var v := Replay(log);
    && Open(v) && c.amount > 0 && InBounds(v, c.asset, c.amount)
    && c.from !in v.blacklist && Signed(c.from, auths)
    && (c.memo.Some? ==> |c.memo.value| <= 64)
    && (c.memo.None? ==> RecentPayments(log, c.from, env.ledger) < RateIn(v).max)
  }

  predicate RescueAllowed(env: Env, auths: set<Address>, c: Call, log: seq<Entry>)
    requires c.RescueTokens?
  {
    var v := Replay(log);
    var total := RescuedOn(log, env.time / 86_400) + c.amount;
    && MayAdminister(v, auths, c.caller)
    && c.amount > 0 && c.to != 0 && total <= 0x7fff_ffff_ffff_ffff_ffff_ffff_ffff_ffff
    && (v.limits.perCall.Some? ==> c.amount <= v.limits.perCall.value)
    && (v.limits.perDay.Some? ==> total <= v.limits.perDay.value)
  }

  /** `held` is the live escrow record under the key of the call, if there is one. */
  predicate EscrowAllowed(env: Env, auths: set<Address>, c: Call, v: View, held: Option<EscrowRecord>)
    requires c.DepositEscrow? || c.ReleaseEscrow? || c.RefundEscrow?
  {
    match c
    case DepositEscrow(from, amount, _) =>
      Open(v) && amount > 0 && from !in v.blacklist && Signed(from, auths) && held.None?
    case ReleaseEscrow(caller, _) => MayOperate(v, auths, caller) && held.Some?
    case RefundEscrow(caller, key) =>
      && key.asset in v.tokens && Signed(caller, auths) && held.Some?
      && (env.time >= held.value.expiresAt || IsAdmin(v, caller))
  }

  predicate Allowed(env: Env, auths: set<Address>, c: Call, w: World)
    requires Guarded(c)
  {
    match c
    case Pay(_, _, _, _, _) => PayAllowed(env, auths, c, w.log)
    case RescueTokens(_, _, _, _) => RescueAllowed(env, auths, c, w.log)
    case Decommission(_) => AdminSigns(Replay(w.log), auths) && !Replay(w.log).decommissioned
    case DepositEscrow(_, _, key) => EscrowAllowed(env, auths, c, Replay(w.log), LiveRecord(w.vault, key, env.ledger))
    case ReleaseEscrow(_, key) => EscrowAllowed(env, auths, c, Replay(w.log), LiveRecord(w.vault, key, env.ledger))
    case RefundEscrow(_, key) => EscrowAllowed(env, auths, c, Replay(w.log), LiveRecord(w.vault, key, env.ledger))
  }

  /** The sender of the call's transfer has what it is to send. */
  predicate Affords(v: View, w: World, c: Call)
    requires Guarded(c) && !c.Decommission?
  {
    match c
    case Pay(asset, from, amount, _, _) =>
      asset in v.tokens && Balance(w.vault, v.tokens[asset], from) >= amount - amount * Discount(w.settings, from) / 10_000
    case DepositEscrow(from, amount, key) => key.asset in v.tokens && Balance(w.vault, v.tokens[key.asset], from) >= amount
    case ReleaseEscrow(_, key) =>
      && key.asset in v.tokens && key in w.vault.escrow
      && Balance(w.vault, v.tokens[key.asset], 0) >= w.vault.escrow[key].value.amount
    case RefundEscrow(_, key) =>
      && key.asset in v.tokens && key in w.vault.escrow
      && Balance(w.vault, v.tokens[key.asset], 0) >= w.vault.escrow[key].value.amount
    case RescueTokens(_, token, _, amount) => Balance(w.vault, token, 0) >= amount
  }

  /** The token called reports success; its callbacks do not matter. */
  predicate TokenAnswers(externals: seq<Behaviour>) {
    externals == [] || externals[0].ok
  }

  // ---------------------------------------------------------------------------
  // What a refusal claims
  // ---------------------------------------------------------------------------

  /** What an error code claims about the call and the history. */
  predicate Reason(error: Error, env: Env, inv: Invocation, w: World) {
    var c, v := inv.call, Replay(w.log);
    match error
    case ContractDecommissioned => v.decommissioned
    case ContractPaused => v.config.Some? && v.config.value.paused
    case InvalidAmount => (c.Pay? || c.DepositEscrow? || c.RescueTokens?) && c.amount <= 0
    case AmountOutOfBounds =>
      || (c.Pay? && !InBounds(v, c.asset, c.amount))
      || (c.SetPaymentLimits? && (c.bounds.min < 0 || c.bounds.max < 0 || 0 < c.bounds.max < c.bounds.min))
    case AddressBlacklisted => (c.Pay? || c.DepositEscrow?) && c.from in v.blacklist
    case InvalidMetadata => c.Pay? && c.memo.Some? && |c.memo.value| > 64
    case RateLimitExceeded => c.Pay? && c.memo.None? && RecentPayments(w.log, c.from, env.ledger) >= RateIn(v).max
    case InvalidRateLimit => c.SetRateLimit? && !(0 < c.rate.max <= 1_000 && 0 < c.rate.window <= 8_640_000)
    case InvalidDiscount => c.SetDiscount? && c.bps > 10_000
    case EscrowAlreadyExists => c.DepositEscrow? && LiveRecord(w.vault, c.key, env.ledger).Some?
    case EscrowNotFound => (c.ReleaseEscrow? || c.RefundEscrow?) && LiveRecord(w.vault, c.key, env.ledger).None?
    case EscrowNotExpired =>
      && c.RefundEscrow? && LiveRecord(w.vault, c.key, env.ledger).Some?
      && env.time < LiveRecord(w.vault, c.key, env.ledger).value.expiresAt && !IsAdmin(v, c.caller)
    case InvalidRecipient => c.RescueTokens? && c.to == 0
    case WithdrawLimitExceeded => c.RescueTokens? && v.limits.perCall.Some? && c.amount > v.limits.perCall.value
    case DailyWithdrawLimitExceeded =>
      c.RescueTokens? && v.limits.perDay.Some? && RescuedOn(w.log, env.time / 86_400) + c.amount > v.limits.perDay.value
    case ArithmeticOverflow =>
      c.RescueTokens? && RescuedOn(w.log, env.time / 86_400) + c.amount > 0x7fff_ffff_ffff_ffff_ffff_ffff_ffff_ffff
    case TransferFailed => Guarded(c) && !c.Decommission? && (!TokenAnswers(inv.externals) || !Affords(v, w, c))
  }

  // ---------------------------------------------------------------------------
  // The checks decide as the log does
  // ---------------------------------------------------------------------------

  /** What the checks of one call read, as the log has it. */
  predicate Basis(env: Env, call: Call, w: World) {
    && ViewOf(w) == Replay(w.log)
    && RateOf(w.settings.rate) == RateIn(Replay(w.log))
    && (LoadConfig(w.settings.slots).Some? ==> Usdc in w.settings.tokens && Xlm in w.settings.tokens)
    && WithdrawnOn(w.vault.daily, Day(env.time)) == RescuedOn(w.log, env.time / 86_400) >= 0
    && (call.Pay? ==> |ActivePayments(env, call.from, w)| <= RecentPayments(w.log, call.from, env.ledger))
  }

  lemma BasisHolds(c: Chain, env: Env, call: Call)
    requires Known(c) && env.ledger >= c.ledger && env.time >= c.time
    ensures Basis(env, call, c.world)
    ensures call.Pay? && Agree(c.world, call.from, env.ledger) ==>
              |ActivePayments(env, call.from, c.world)| == RecentPayments(c.world.log, call.from, env.ledger)
  {
    hide Replay, Legal, EscrowBacked, DiscountsBounded, RescuedOn, WithdrawnOn, History, Recent, Stored, LoadConfig, Past,
      Tracked, InWindow;
    TokensConfigured(c.world.log);
    RescuedNonNegative(c.world.log, env.time / 86_400);
    if call.Pay? {
      VectorShowsNoMore(c.world, call.from, env.ledger);
      RecentCounts(History(c.world.log, call.from), env.ledger, RateOf(c.world.settings.rate).window);
    }
  }

  lemma PayChecked(env: Env, inv: Invocation, w: World)
    requires inv.call.Pay? && Basis(env, inv.call, w)
    requires inv.call.amount > 0 ==> Fees.ApplyDiscount(inv.call.amount, Discount(w.settings, inv.call.from)).Some?
    ensures PayAllowed(env, inv.auths, inv.call, w.log) ==> CheckPay(env, inv.auths, inv.call, w).None?
    ensures CheckPay(env, inv.auths, inv.call, w).None?
            && (inv.call.memo.Some? || |ActivePayments(env, inv.call.from, w)| == RecentPayments(w.log, inv.call.from, env.ledger))
            ==> PayAllowed(env, inv.auths, inv.call, w.log)
    ensures forall e :: CheckPay(env, inv.auths, inv.call, w) == Some(Fails(e)) ==> Reason(e, env, inv, w)
  {
    hide Replay, LoadConfig, RescuedOn, WithdrawnOn, ActivePayments, RecentPayments, Fees.ApplyDiscount, RateOf, RateIn;
    assert inv.call.asset == Usdc || inv.call.asset == Xlm;
  }

  lemma EscrowChecked(env: Env, inv: Invocation, w: World)
    requires Basis(env, inv.call, w) && (inv.call.DepositEscrow? || inv.call.ReleaseEscrow? || inv.call.RefundEscrow?)
    ensures var held := LiveRecord(w.vault, inv.call.key, env.ledger);
            Check(env, inv.auths, inv.call, w).None? <==> EscrowAllowed(env, inv.auths, inv.call, Replay(w.log), held)
    ensures forall e :: Check(env, inv.auths, inv.call, w) == Some(Fails(e)) ==> Reason(e, env, inv, w)
  {
    hide Replay, LoadConfig, RescuedOn, WithdrawnOn, ActivePayments, RecentPayments, RateOf, CheckPay, CheckRescue, CheckDecommission;
    assert inv.call.key.asset == Usdc || inv.call.key.asset == Xlm;
  }

  lemma RescueCheckedByLog(env: Env, inv: Invocation, w: World)
    requires Basis(env, inv.call, w) && inv.call.RescueTokens?
    ensures CheckRescue(env, inv.auths, inv.call, w).None? <==> RescueAllowed(env, inv.auths, inv.call, w.log)
    ensures forall e :: CheckRescue(env, inv.auths, inv.call, w) == Some(Fails(e)) ==> Reason(e, env, inv, w)
  {
    hide Replay, LoadConfig, RescuedOn, WithdrawnOn, ActivePayments, RecentPayments, RateOf;
  }

  lemma DiscountFits(c: Chain, call: Call)
    requires Known(c) && call.Pay? && 0 < call.amount <= Fees.I128_MAX
    ensures Fees.ApplyDiscount(call.amount, Discount(c.world.settings, call.from)).Some?
  {
    hide Fees.ApplyDiscount, SlotIsHistory, Past, Tracks, Legal, Replay, EscrowBacked;
    Fees.DiscountIsExact(call.amount, Discount(c.world.settings, call.from));
  }

  /** A call the log allows passes its checks, one that passes them the log allows, and one that fails them gives its reason. */
  lemma CheckedIffAllowed(c: Chain, env: Env, inv: Invocation)
    requires Known(c) && Guarded(inv.call) && env.ledger >= c.ledger && env.time >= c.time
    requires inv.call.Pay? ==> inv.call.amount <= Fees.I128_MAX
    ensures Allowed(env, inv.auths, inv.call, c.world) ==> Check(env, inv.auths, inv.call, c.world).None?
    ensures RateKnown(c, env, inv.call) && Check(env, inv.auths, inv.call, c.world).None? ==>
              Allowed(env, inv.auths, inv.call, c.world)
    ensures forall e :: Check(env, inv.auths, inv.call, c.world) == Some(Fails(e)) ==> Reason(e, env, inv, c.world)
  {
    var call := inv.call;
    BasisHolds(c, env, call);
    hide Known, Replay, PayAllowed, RescueAllowed, EscrowAllowed, LoadConfig, RescuedOn, WithdrawnOn, ActivePayments,
      RecentPayments, LiveRecord, Reason, Agree, Fees.ApplyDiscount, CheckPay, CheckRescue, CheckDeposit, CheckRelease, CheckRefund;
    if call.Pay? {
      if call.amount > 0 { DiscountFits(c, call); }
      PayChecked(env, inv, c.world);
    } else if call.RescueTokens? {
      RescueCheckedByLog(env, inv, c.world);
    } else if !call.Decommission? {
      EscrowChecked(env, inv, c.world);
    }
  }

  /** Whatever a token calls back, its transfer goes through exactly when it answers and the sender can cover it. */
  lemma TransferGoes(env: Env, externals: seq<Behaviour>, t: Transfer, w: World, u: World)
    requires u.vault.guard && u.vault.balances == w.vault.balances
    ensures CallTransfer(env, externals, 0, t, u).Some? <==>
              TokenAnswers(externals) && t.amount >= 0 && Balance(w.vault, t.token, t.from) >= t.amount
  {
    hide RunCalls, Fold;
    if CallToken(env, externals, 0, u).Some? {
      var ms := CallTokenFlatten(env, externals, 0, u);
    }
  }

  lemma AffordsExactly(env: Env, auths: set<Address>, c: Call, w: World)
    requires Sound(w, false) && Guarded(c) && !c.Decommission? && Check(env, auths, c, w).None?
    requires c.Pay? ==> c.amount <= 0x7fff_ffff_ffff_ffff_ffff_ffff_ffff_ffff
    ensures var t := TransferOf(env, auths, c, w);
            t.amount >= 0 && (Balance(w.vault, t.token, t.from) >= t.amount <==> Affords(Replay(w.log), w, c))
  {
    hide Replay, Legal, OpenDeposit, LoadConfig, HasAuthority, WithinBounds, ActivePayments, WithdrawnOn, RateOf,
      Fees.ApplyDiscount, Balance;
    if c.Pay? {
      Fees.DiscountIsExact(c.amount, Discount(w.settings, c.from));
    }
  }

  lemma CheckedTransfer(env: Env, inv: Invocation, w: World)
    requires Sound(w, false) && Guarded(inv.call) && !inv.call.Decommission? && Check(env, inv.auths, inv.call, w).None?
    requires inv.call.Pay? ==> inv.call.amount <= 0x7fff_ffff_ffff_ffff_ffff_ffff_ffff_ffff
    ensures CallTransfer(env, inv.externals, 0, TransferOf(env, inv.auths, inv.call, w),
                         SetGuard(Before(env, inv.auths, inv.call, w), true)).Some? <==>
              TokenAnswers(inv.externals) && Affords(Replay(w.log), w, inv.call)
  {
    hide Sound, Check, TransferOf, CallTransfer, Balance, Before, Affords, Replay;
    BeforeFrame(env, inv.auths, inv.call, w);
    AffordsExactly(env, inv.auths, inv.call, w);
    TransferGoes(env, inv.externals, TransferOf(env, inv.auths, inv.call, w), w,
                 SetGuard(Before(env, inv.auths, inv.call, w), true));
  }

  /**
   * At top level, and whatever its token calls back, a money call succeeds if and only if the log allows
   * it, the token called answers, and the sender of the transfer can cover it.
   */
  lemma AcceptedIffAllowed(c: Chain, env: Env, inv: Invocation)
    requires Known(c) && env.ledger >= c.ledger && env.time >= c.time
    requires Guarded(inv.call) && !inv.call.Decommission?
    requires RateKnown(c, env, inv.call) && (inv.call.Pay? ==> inv.call.amount <= 0x7fff_ffff_ffff_ffff_ffff_ffff_ffff_ffff)
    ensures Exec(env, inv, c.world).Ok? <==>
              && Allowed(env, inv.auths, inv.call, c.world)
              && TokenAnswers(inv.externals)
              && Affords(Replay(c.world.log), c.world, inv.call)
  {
    hide Sound, SlotIsHistory, Past, Tracks, RateKnown, Check, Allowed, After, TransferOf, CallTransfer, Before, Reason,
      Affords, Replay, TokenAnswers;
    CheckedIffAllowed(c, env, inv);
    if Check(env, inv.auths, inv.call, c.world).None? {
      CheckedTransfer(env, inv, c.world);
    }
  }

  /** With tokens that just do their job, decommission succeeds exactly once, for the stored admin. */
  lemma DecommissionIffAllowed(c: Chain, env: Env, inv: Invocation)
    requires Known(c) && env.ledger >= c.ledger && env.time >= c.time
    requires inv.call.Decommission? && inv.externals == []
    ensures Exec(env, inv, c.world).Ok? <==>
              var v := Replay(c.world.log);
              v.config.Some? && Signed(v.config.value.admin, inv.auths) && !v.decommissioned
  {
    hide Sound, SlotIsHistory, Past, Tracks, Check, After, Sweep, SweepList, Before, Reason, Replay;
    CheckedIffAllowed(c, env, inv);
    var w := c.world;
    if Check(env, inv.auths, inv.call, w).None? {
      DecommissionChecked(env, inv.auths, inv.call, w);
      PlainSweep(env, SweepList([w.settings.tokens[Usdc], w.settings.tokens[Xlm]], inv.call.extraTokens),
                 LoadConfig(w.settings.slots).value.treasury, SetGuard(Before(env, inv.auths, inv.call, w), true));
    }
  }

  lemma DecommissionChecked(env: Env, auths: set<Address>, c: Call, w: World)
    requires c.Decommission? && Check(env, auths, c, w).None?
    ensures Usdc in w.settings.tokens && Xlm in w.settings.tokens && LoadConfig(w.settings.slots).Some?
  {
  }

  // ---------------------------------------------------------------------------
  // Refusals
  // ---------------------------------------------------------------------------

  lemma AdministrationReason(c: Chain, env: Env, inv: Invocation, error: Error)
    requires !Guarded(inv.call) && Direct(env, inv.auths, inv.call, c.world) == Err(Fails(error))
    ensures Reason(error, env, inv, c.world)
  {
    hide Replay, LoadConfig, HasAuthority, ValidInit, ValidLimits, StoreRoles, StoreRole, RemoveRole, AdminGate;
  }

  /** Every error a call returns tells the truth: what its code claims holds of the call and the logged history. */
  lemma RefusalIsTrue(c: Chain, env: Env, inv: Invocation, error: Error)
    requires Known(c) && env.ledger >= c.ledger && env.time >= c.time
    requires inv.call.Pay? ==> inv.call.amount <= Fees.I128_MAX
    requires Exec(env, inv, c.world) == Err(Fails(error))
    ensures Reason(error, env, inv, c.world)
  {
    hide Sound, SlotIsHistory, Past, Tracks, Check, Direct, Before, TransferOf, CallTransfer, Sweep, LoadConfig, Replay, Reason;
    if !Guarded(inv.call) {
      UnguardedExec(env, inv, c.world);
      AdministrationReason(c, env, inv, error);
    } else if Check(env, inv.auths, inv.call, c.world).Some? {
      CheckedIffAllowed(c, env, inv);
    } else {
      TransferReason(env, inv, c.world, error);
    }
  }

  lemma TransferReason(env: Env, inv: Invocation, w: World, error: Error)
    requires Sound(w, false) && !w.vault.guard && (inv.call.Pay? ==> inv.call.amount <= Fees.I128_MAX)
    requires Guarded(inv.call) && Check(env, inv.auths, inv.call, w).None? && Exec(env, inv, w) == Err(Fails(error))
    ensures Reason(error, env, inv, w)
  {
    hide Sound, Check, Direct, Before, TransferOf, CallTransfer, Sweep, LoadConfig, Replay, Affords, TokenAnswers;
    if !inv.call.Decommission? {
      CheckedTransfer(env, inv, w);
    }
  }
}
