/**
 * What a successful money call does, whatever its token calls back: who pays whom how much, which escrow
 * record comes or goes, and what is published. All of it is given by the call's arguments, the stored
 * record under its key, and the replayed log.
 */
module ReceiverEffects {
  import opened Results
  import opened Receiver
  import opened ReceiverLog
  import opened ReceiverNesting
  import opened ReceiverHistory
  import opened ReceiverRate
  import opened ReceiverShutdown
  import opened ReceiverEscrow
  import Fees

  // ---------------------------------------------------------------------------
  // Balances
  // ---------------------------------------------------------------------------

  /** A covered `amount` of one token went from one holder to another, and nobody else's balance changed. */
  ghost predicate Moved(v: Vault, v1: Vault, token: Address, from: Address, to: Address, amount: int) {
    && 0 <= amount <= Balance(v, token, from)
    && Balance(v1, token, from) == Balance(v, token, from) - (if from == to then 0 else amount)
    && Balance(v1, token, to) == Balance(v, token, to) + (if from == to then 0 else amount)
    && (forall k, h :: k != token || (h != from && h != to) ==> Balance(v1, k, h) == Balance(v, k, h))
  }

  lemma MoveIsMoved(w: World, t: Transfer, v1: Vault)
    requires Move(w, t).Some? && v1.balances == Move(w, t).value.vault.balances
    ensures Moved(w.vault, v1, t.token, t.from, t.to, t.amount)
  {
  }

  /** Whom a money call pays, and how much. */
  ghost predicate Pays(v: View, w: World, w1: World, c: Call)
    requires Guarded(c) && !c.Decommission?
  {
    match c
    case Pay(asset, from, amount, _, _) =>
      && v.config.Some? && asset in v.tokens
      && Moved(w.vault, w1.vault, v.tokens[asset], from, v.config.value.treasury,
               amount - amount * Discount(w.settings, from) / 10_000)
    case DepositEscrow(from, amount, key) =>
      key.asset in v.tokens && Moved(w.vault, w1.vault, v.tokens[key.asset], from, 0, amount)
    case ReleaseEscrow(_, key) =>
      && v.config.Some? && key.asset in v.tokens && key in w.vault.escrow
      && Moved(w.vault, w1.vault, v.tokens[key.asset], 0, v.config.value.treasury, w.vault.escrow[key].value.amount)
    case RefundEscrow(_, key) =>
      && key.asset in v.tokens && key in w.vault.escrow
      && Moved(w.vault, w1.vault, v.tokens[key.asset], 0, w.vault.escrow[key].value.payer, w.vault.escrow[key].value.amount)
    case RescueTokens(_, token, to, amount) => to != 0 && Moved(w.vault, w1.vault, token, 0, to, amount)
  }

  lemma CallPays(env: Env, inv: Invocation, w: World)
    requires Sound(w, false) && Guarded(inv.call) && !inv.call.Decommission? && Exec(env, inv, w).Ok?
    requires inv.call.Pay? ==> inv.call.amount <= 0x7fff_ffff_ffff_ffff_ffff_ffff_ffff_ffff
    ensures Pays(Replay(w.log), w, Exec(env, inv, w).value, inv.call)
  {
    hide Exec, Move, Moved, Replay, Legal, EscrowBacked, Fees.ApplyDiscount, HasAuthority, WithinBounds, ActivePayments,
      WithdrawnOn, LoadConfig;
    OneTransfer(env, inv, w);
    var t, c := TransferOf(env, inv.auths, inv.call, w), inv.call;
    MoveIsMoved(w, t, Exec(env, inv, w).value.vault);
    if c.Pay? {
      Fees.DiscountIsExact(c.amount, Discount(w.settings, c.from));
    }
  }

  // ---------------------------------------------------------------------------
  // Records
  // ---------------------------------------------------------------------------

  predicate Holds(v: Vault, key: EscrowKey, ledger: nat) {
    key in v.escrow && ledger <= v.escrow[key].liveUntil
  }

  /** Which escrow record comes or goes, and whose payment vector is written. */
  ghost predicate Records(env: Env, w: World, w1: World, c: Call) {
    && (forall k :: (c.DepositEscrow? || c.ReleaseEscrow? || c.RefundEscrow? ==> k != c.key) ==>
          Get(w1.vault.escrow, k) == Get(w.vault.escrow, k))
    && (forall a :: (c.Pay? && c.memo.None? ==> a != c.from) ==> Get(w1.vault.paid, a) == Get(w.vault.paid, a))
    && (c.DepositEscrow? ==>
          && !Holds(w.vault, c.key, env.ledger)
          && Get(w1.vault.escrow, c.key) == Some(Temp(
               EscrowRecord(c.from, c.amount, env.time,
                            if env.time + 604_800 < 0xffff_ffff_ffff_ffff then env.time + 604_800 else 0xffff_ffff_ffff_ffff),
               env.ledger + if env.minTtl < 120_960 then 241_920 else env.minTtl)))
    && (c.ReleaseEscrow? || c.RefundEscrow? ==> Holds(w.vault, c.key, env.ledger) && c.key !in w1.vault.escrow)
    && (c.Pay? && c.memo.None? ==> c.from in w1.vault.paid && VectorGrows(env, w, w1.vault.paid[c.from], c.from))
    && (!c.RescueTokens? ==> w1.vault.daily == w.vault.daily)
    && w1.vault.decommissioned == (w.vault.decommissioned || c.Decommission?)
  }

  /** A vector that was live lives on, one that was not starts anew; either is kept for at least the window. */
  function LiveUntil(env: Env, w: World, payer: Address, window: nat): nat {
    var until :=
      if payer in w.vault.paid && env.ledger <= w.vault.paid[payer].liveUntil then w.vault.paid[payer].liveUntil
      else env.ledger + env.minTtl;
    if until < env.ledger + window then env.ledger + 2 * window else until
  }

  /** The payer's new vector: as many ledgers as the old one has in the window, and this one last. */
  predicate VectorGrows(env: Env, w: World, vector: Temp<seq<nat>>, payer: Address) {
    var window := if w.settings.rate.Some? then w.settings.rate.value.window else 100;
    var stored := if payer in w.vault.paid && env.ledger <= w.vault.paid[payer].liveUntil then w.vault.paid[payer].value else [];
    && |vector.value| == InWindow(stored, env.ledger, window) + 1
    && vector.value[|vector.value| - 1] == env.ledger
    && vector.liveUntil == LiveUntil(env, w, payer, window)
  }

  lemma EscrowKnown(env: Env, auths: set<Address>, c: Call, w: World)
    requires Guarded(c) && Check(env, auths, c, w).None?
    ensures c.DepositEscrow? ==> !Holds(w.vault, c.key, env.ledger)
    ensures c.ReleaseEscrow? || c.RefundEscrow? ==> Holds(w.vault, c.key, env.ledger)
  {
    hide LoadConfig, HasAuthority, CheckPay, CheckRescue, CheckDecommission;
  }

  lemma BeforeMarks(env: Env, auths: set<Address>, c: Call, w: World)
    requires Guarded(c) && Check(env, auths, c, w).None?
    ensures Before(env, auths, c, w).vault.decommissioned == (w.vault.decommissioned || c.Decommission?)
  {
    hide Check, LoadConfig, SetWithdrawn, WithdrawnOn;
  }

  lemma SlotsWritten(env: Env, inv: Invocation, w: World)
    requires Guarded(inv.call) && Exec(env, inv, w).Ok?
    ensures Check(env, inv.auths, inv.call, w).None?
    ensures var v, v1 := w.vault, Exec(env, inv, w).value.vault;
            && v1.paid == PaidAfter(env, inv.call, w, v.paid) && (!inv.call.RescueTokens? ==> v1.daily == v.daily)
            && v1.decommissioned == (v.decommissioned || inv.call.Decommission?)
  {
    hide Exec, Fold, Check, After, Before, Quietly, ClosingEvent, PaidAfter;
    var ms, locked, mid := GuardedOutline(env, inv, w);
    BeforeFrame(env, inv.auths, inv.call, w);
    BeforeMarks(env, inv.auths, inv.call, w);
  }

  lemma PaidVectorGrows(env: Env, c: Call, w: World)
    requires c.Pay? && c.memo.None?
    ensures c.from in PaidAfter(env, c, w, w.vault.paid)
    ensures VectorGrows(env, w, PaidAfter(env, c, w, w.vault.paid)[c.from], c.from)
  {
    hide Recent, InWindow;
    RecentCounts(Stored(w.vault, c.from, env.ledger), env.ledger, RateOf(w.settings.rate).window);
  }

  lemma CallRecords(env: Env, inv: Invocation, w: World)
    requires Guarded(inv.call) && Exec(env, inv, w).Ok?
    ensures Records(env, w, Exec(env, inv, w).value, inv.call)
  {
    hide Exec, Check, VectorGrows;
    SlotsWritten(env, inv, w);
    if inv.call.Pay? && inv.call.memo.None? {
      PaidVectorGrows(env, inv.call, w);
    }
    EscrowChange(env, inv, w);
    EscrowKnown(env, inv.auths, inv.call, w);
  }

  // ---------------------------------------------------------------------------
  // What is published
  // ---------------------------------------------------------------------------

  /** The event of a money call. */
  function Receipt(v: View, w: World, env: Env, c: Call): Event
    requires Guarded(c) && (c.ReleaseEscrow? || c.RefundEscrow? ==> c.key in w.vault.escrow)
    requires c.Decommission? ==> v.config.Some?
  {
    match c
    case Pay(asset, from, amount, orderId, memo) => Paid(asset, orderId, from, amount, memo)
    case DepositEscrow(from, amount, key) => Deposited(key, from, amount)
    case ReleaseEscrow(caller, key) => Released(key, caller, w.vault.escrow[key].value.payer, w.vault.escrow[key].value.amount)
    case RefundEscrow(caller, key) => Refunded(key, caller, w.vault.escrow[key].value.payer, w.vault.escrow[key].value.amount)
    case RescueTokens(caller, token, to, amount) => Rescued(token, to, caller, amount)
    case Decommission(_) => Decommissioned(v.config.value.admin, env.time)
  }

  /** `log` continues `past` with callbacks' administration and then this one money event. */
  predicate EndsWith(past: seq<Entry>, log: seq<Entry>, last: Entry) {
    && |past| < |log| && log[..|past|] == past && log[|log| - 1] == last
    && forall i :: |past| <= i < |log| - 1 ==>
         !MoneyEvent(log[i].event) && log[i].ledger == last.ledger && log[i].time == last.time
  }

  lemma ReceiptIsClosing(env: Env, auths: set<Address>, c: Call, w: World)
    requires Sound(w, false) && Guarded(c) && Check(env, auths, c, w).None?
    requires c.ReleaseEscrow? || c.RefundEscrow? ==> c.key in w.vault.escrow
    ensures c.Decommission? ==> Replay(w.log).config.Some?
    ensures ClosingEvent(env, auths, c, w) == Receipt(Replay(w.log), w, env, c)
  {
    hide Replay, Legal, EscrowBacked, DiscountsBounded, LoadConfig, HasAuthority, Fees.ApplyDiscount, WithinBounds,
      ActivePayments, WithdrawnOn;
  }

  lemma CallPublishes(env: Env, inv: Invocation, w: World)
    requires Sound(w, false) && Guarded(inv.call) && Exec(env, inv, w).Ok?
    ensures inv.call.ReleaseEscrow? || inv.call.RefundEscrow? ==> inv.call.key in w.vault.escrow
    ensures inv.call.Decommission? ==> Replay(w.log).config.Some?
    ensures EndsWith(w.log, Exec(env, inv, w).value.log,
                     Entry(Receipt(Replay(w.log), w, env, inv.call), env.ledger, env.time, inv.auths))
  {
    hide Exec, Fold, After, Before, MoneyEvent, Replay, Legal, EscrowBacked, DiscountsBounded, LoadConfig, HasAuthority,
      Check, ClosingEvent, Receipt;
    var ms, locked, mid := GuardedOutline(env, inv, w);
    EscrowKnown(env, inv.auths, inv.call, w);
    ReceiptIsClosing(env, inv.auths, inv.call, w);
    var w1 := Exec(env, inv, w).value;
    assert w1.log[..|mid.log|] == mid.log;
  }

  // ---------------------------------------------------------------------------
  // Main results
  // ---------------------------------------------------------------------------

  /**
   * In every reachable world, a successful payment, deposit, release, refund or rescue moves exactly the
   * stated amount of the stated token between the two stated holders; it and a decommission write exactly the
   * stated record and publish exactly one money event, whatever its token calls back.
   */
  lemma MoneyMovesExactly(c: Chain, steps: seq<Step>, env: Env, inv: Invocation)
    requires Deployed(c) && Run(c, steps).Some? && Guarded(inv.call)
    requires inv.call.Pay? ==> inv.call.amount <= 0x7fff_ffff_ffff_ffff_ffff_ffff_ffff_ffff
    requires Exec(env, inv, Run(c, steps).value.world).Ok?
    ensures var w, call := Run(c, steps).value.world, inv.call;
            var w1, v := Exec(env, inv, w).value, Replay(w.log);
            && (!call.Decommission? ==> Pays(v, w, w1, call))
            && Records(env, w, w1, call)
            && (call.ReleaseEscrow? || call.RefundEscrow? ==> call.key in w.vault.escrow)
            && (call.Decommission? ==> v.config.Some?)
            && EndsWith(w.log, w1.log, Entry(Receipt(v, w, env, call), env.ledger, env.time, inv.auths))
  {
    hide Run, Exec, Sound, Pays, Records, EndsWith, Replay;
    DeployedSound(c);
    RunSound(c, steps);
    var w := Run(c, steps).value.world;
    if !inv.call.Decommission? {
      CallPays(env, inv, w);
    }
    CallRecords(env, inv, w);
    CallPublishes(env, inv, w);
  }

  /** rescue_tokens: the amount goes from the contract to the recipient named, not to the caller, and nowhere else. */
  lemma RescueMoves(env: Env, inv: Invocation, w: World)
    requires inv.call.RescueTokens? && Exec(env, inv, w).Ok?
    ensures var call, v, v1 := inv.call, w.vault, Exec(env, inv, w).value.vault;
            && call.to != 0 && 0 < call.amount <= Balance(v, call.token, 0)
            && Balance(v1, call.token, 0) == Balance(v, call.token, 0) - call.amount
            && Balance(v1, call.token, call.to) == Balance(v, call.token, call.to) + call.amount
            && (forall k, h :: k != call.token || (h != 0 && h != call.to) ==> Balance(v1, k, h) == Balance(v, k, h))
  {
    OneTransfer(env, inv, w);
    MoveIsMoved(w, TransferOf(env, inv.auths, inv.call, w), Exec(env, inv, w).value.vault);
    hide Exec, Move, Balance, HasAuthority, LoadConfig, WithdrawnOn, CheckPay, CheckDeposit, CheckRelease, CheckRefund;
  }

  /** deposit_escrow: exactly the amount named goes from the depositor, who signed, to the contract. */
  lemma DepositMoves(env: Env, inv: Invocation, w: World)
    requires inv.call.DepositEscrow? && Exec(env, inv, w).Ok?
    ensures inv.call.key.asset in w.settings.tokens
    ensures var call, v, v1 := inv.call, w.vault, Exec(env, inv, w).value.vault;
            var token := w.settings.tokens[call.key.asset];
            && call.from in inv.auths && call.from != 0 && 0 < call.amount <= Balance(v, token, call.from)
            && Balance(v1, token, call.from) == Balance(v, token, call.from) - call.amount
            && Balance(v1, token, 0) == Balance(v, token, 0) + call.amount
            && (forall k, h :: k != token || (h != 0 && h != call.from) ==> Balance(v1, k, h) == Balance(v, k, h))
  {
    OneTransfer(env, inv, w);
    MoveIsMoved(w, TransferOf(env, inv.auths, inv.call, w), Exec(env, inv, w).value.vault);
    hide Exec, Move, Balance, LoadConfig, CheckPay, CheckRescue, CheckRelease, CheckRefund, LiveEscrow;
  }

  /** A payment takes the amount less its floored discount from the payer, who signed, to the treasury in force. */
  lemma PaymentMovesNet(env: Env, inv: Invocation, w: World)
    requires Sound(w, false) && inv.call.Pay? && Exec(env, inv, w).Ok?
    requires inv.call.amount <= 0x7fff_ffff_ffff_ffff_ffff_ffff_ffff_ffff
    ensures Replay(w.log).config.Some? && inv.call.asset in Replay(w.log).tokens
    ensures var call, v, bps := inv.call, Replay(w.log), Discount(w.settings, inv.call.from);
            var net := call.amount - call.amount * bps / 10_000;
            && call.from in inv.auths && call.from != 0 && 0 <= net <= call.amount
            && Moved(w.vault, Exec(env, inv, w).value.vault, v.tokens[call.asset], call.from, v.config.value.treasury, net)
  {
    hide Exec, Fees.ApplyDiscount, Move, Moved, ActivePayments, WithinBounds, LoadConfig, Replay, Legal, EscrowBacked,
      CheckDeposit, CheckRelease, CheckRefund, CheckRescue, CheckDecommission, TransferOf;
    CallPays(env, inv, w);
    OneTransfer(env, inv, w);
    Fees.DiscountIsExact(inv.call.amount, Discount(w.settings, inv.call.from));
  }

  lemma SettlementChecked(env: Env, auths: set<Address>, c: Call, w: World)
    requires (c.ReleaseEscrow? || c.RefundEscrow?) && Check(env, auths, c, w).None?
    ensures c.key in w.vault.escrow && c.caller in auths && c.caller != 0 && c.key.asset in w.settings.tokens
    ensures c.ReleaseEscrow? || env.time < w.vault.escrow[c.key].value.expiresAt ==>
              var cfg := LoadConfig(w.settings.slots);
              cfg.Some? && HasAuthority(cfg.value.admin, w.settings.roles, c.caller, if c.ReleaseEscrow? then Operator else Admin)
  {
    hide LoadConfig, HasAuthority, CheckPay, CheckDeposit, CheckRescue, CheckDecommission;
  }

  /**
   * A settlement pays out exactly the open deposit of its key: a release to the treasury in force when it
   * was called, a refund to the depositor. A release takes Operator authority and a refund before the
   * timelock of seven days is over takes Admin authority.
   */
  lemma SettlementIsExact(env: Env, inv: Invocation, w: World)
    requires Sound(w, false) && (inv.call.ReleaseEscrow? || inv.call.RefundEscrow?) && Exec(env, inv, w).Ok?
    ensures inv.call.key.asset in Replay(w.log).tokens && (inv.call.ReleaseEscrow? ==> Replay(w.log).config.Some?)
    ensures var c, v, open := inv.call, Replay(w.log), OpenDeposit(w.log, inv.call.key);
            && open.Some? && open.value.event.Deposited? && open.value.event.key == c.key
            && c.caller in inv.auths && c.caller != 0
            && Moved(w.vault, Exec(env, inv, w).value.vault, v.tokens[c.key.asset], 0,
                     if c.ReleaseEscrow? then v.config.value.treasury else open.value.event.from, open.value.event.amount)
            && (c.ReleaseEscrow? ==>
                  || c.caller == v.config.value.admin
                  || (c.caller in v.roles && (v.roles[c.caller] == Operator || v.roles[c.caller] == Admin)))
            && (c.RefundEscrow? && env.time < open.value.time + 604_800 && env.time < 0xffff_ffff_ffff_ffff ==>
                  && v.config.Some?
                  && (c.caller == v.config.value.admin || (c.caller in v.roles && v.roles[c.caller] == Admin)))
  {
    hide Exec, Check, Fold, Before, After, TransferOf, Move, Moved, Replay, Legal, OpenDeposit, DiscountsBounded, LoadConfig;
    CallPays(env, inv, w);
    var ms, mid := GuardedCall(env, inv, w);
    SettlementChecked(env, inv.auths, inv.call, w);
    assert Backed(OpenDeposit(w.log, inv.call.key), inv.call.key, w.vault.escrow[inv.call.key].value);
  }
}
