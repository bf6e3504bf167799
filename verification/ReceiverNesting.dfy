/** What a token can do while it runs: with the guard held, any callback tree is a run of unguarded entrypoints. */
module ReceiverNesting {
  import opened Results
  import opened Receiver

  predicate MoneyEvent(e: Event) {
    e.Paid? || e.Deposited? || e.Released? || e.Refunded? || e.Rescued? || e.Decommissioned?
  }

  /** `after` continues `before` with events of this ledger that moved no money. */
  predicate Quietly(env: Env, before: seq<Entry>, after: seq<Entry>) {
    && |before| <= |after| && after[..|before|] == before
    && forall i :: |before| <= i < |after| ==>
         !MoneyEvent(after[i].event) && after[i].ledger == env.ledger && after[i].time == env.time
  }

  /** One successful call of an unguarded entrypoint, or one token movement. */
  datatype Micro = Does(auths: set<Address>, call: Call) | Moves(transfer: Transfer)

  function MicroStep(env: Env, m: Micro, w: World): Option<World> {
    match m
    case Moves(t) => Move(w, t)
    case Does(auths, c) =>
      if Guarded(c) then None
      else
        match Direct(env, auths, c, w)
        case Ok(w1) => Some(w1)
        case Err(_) => None
  }

  function Fold(env: Env, ms: seq<Micro>, w: World): Option<World> {
    if ms == [] then Some(w)
    else
      match Fold(env, ms[..|ms| - 1], w)
      case None => None
      case Some(w1) => MicroStep(env, ms[|ms| - 1], w1)
  }

  predicate OnlyDoes(ms: seq<Micro>) {
    forall i :: 0 <= i < |ms| ==> ms[i].Does?
  }

  lemma {:induction false} FoldConcat(env: Env, a: seq<Micro>, b: seq<Micro>, w: World)
    requires Fold(env, a, w).Some?
    ensures Fold(env, a + b, w) == Fold(env, b, Fold(env, a, w).value)
  {
    hide MicroStep;
    if b == [] {
      assert a + b == a;
    } else {
      var n := |b| - 1;
      assert (a + b)[..|a + b| - 1] == a + b[..n];
      FoldConcat(env, a, b[..n], w);
    }
  }

  // ---------------------------------------------------------------------------
  // What an unguarded entrypoint leaves alone
  // ---------------------------------------------------------------------------

  lemma {:induction false} StoreRolesFrame(env: Env, auths: set<Address>, addresses: seq<Address>, role: Role, w: World)
    ensures StoreRoles(env, auths, addresses, role, w).vault == w.vault
    ensures Quietly(env, w.log, StoreRoles(env, auths, addresses, role, w).log)
  {
    if addresses != [] {
      StoreRolesFrame(env, auths, addresses[..|addresses| - 1], role, w);
    }
  }

  lemma TransferAdminFrame(env: Env, auths: set<Address>, to: Address, w: World)
    requires DoTransferAdmin(env, auths, to, w).Ok?
    ensures DoTransferAdmin(env, auths, to, w).value.vault == w.vault
    ensures Quietly(env, w.log, DoTransferAdmin(env, auths, to, w).value.log)
  {
    hide LoadConfig;
    var cfg := LoadConfig(w.settings.slots).value;
    var retired := if cfg.admin != to && Get(w.settings.roles, cfg.admin) == Some(Admin)
                   then RemoveRole(env, auths, cfg.admin, false, w) else w;
    assert Quietly(env, w.log, retired.log);
    var granted := StoreRole(env, auths, to, Admin, retired);
    assert Quietly(env, retired.log, granted.log);
    var done := DoTransferAdmin(env, auths, to, w).value;
    assert Quietly(env, granted.log, done.log);
    QuietlyTrans(env, w.log, retired.log, granted.log);
    QuietlyTrans(env, w.log, granted.log, done.log);
  }

  /** Administration never touches the vault and publishes no money event. */
  lemma DirectFrame(env: Env, auths: set<Address>, c: Call, w: World)
    requires !Guarded(c) && Direct(env, auths, c, w).Ok?
    ensures Direct(env, auths, c, w).value.vault == w.vault
    ensures Quietly(env, w.log, Direct(env, auths, c, w).value.log)
  {
    hide LoadConfig, ValidInit, HasAuthority, AdminGate, ValidLimits, ValidRate, StoreRoles, DoTransferAdmin;
    if c.GrantRoles? {
      StoreRolesFrame(env, auths, c.addresses, c.role, w);
    } else if c.TransferAdmin? {
      TransferAdminFrame(env, auths, c.newAdmin, w);
    }
  }

  lemma MicroFrame(env: Env, m: Micro, w: World)
    requires MicroStep(env, m, w).Some?
    ensures var w1 := MicroStep(env, m, w).value;
            && w1.vault == w.vault.(balances := w1.vault.balances)
            && (m.Does? ==> w1.vault == w.vault)
            && Quietly(env, w.log, w1.log)
            && (m.Moves? ==> w1.log == w.log && w1.settings == w.settings)
  {
    hide Direct, Quietly;
    if m.Does? {
      DirectFrame(env, m.auths, m.call, w);
    } else {
      QuietlyRefl(env, w.log);
    }
  }

  lemma QuietlyRefl(env: Env, a: seq<Entry>)
    ensures Quietly(env, a, a)
  {
  }

  lemma QuietlyTrans(env: Env, a: seq<Entry>, b: seq<Entry>, c: seq<Entry>)
    requires Quietly(env, a, b) && Quietly(env, b, c)
    ensures Quietly(env, a, c)
  {
    assert c[..|a|] == c[..|b|][..|a|];
    forall i | |a| <= i < |c|
      ensures !MoneyEvent(c[i].event) && c[i].ledger == env.ledger && c[i].time == env.time
    {
      if i < |b| { assert c[i] == c[..|b|][i]; }
    }
  }

  lemma {:induction false} FoldFrame(env: Env, ms: seq<Micro>, w: World)
    requires Fold(env, ms, w).Some?
    ensures var w1 := Fold(env, ms, w).value;
            && w1.vault == w.vault.(balances := w1.vault.balances)
            && (OnlyDoes(ms) ==> w1.vault == w.vault)
            && Quietly(env, w.log, w1.log)
  {
    hide MicroStep, Quietly;
    if ms == [] {
      QuietlyRefl(env, w.log);
    } else {
      var n := |ms| - 1;
      FoldFrame(env, ms[..n], w);
      var w1 := Fold(env, ms[..n], w).value;
      MicroFrame(env, ms[n], w1);
      QuietlyTrans(env, w.log, w1.log, MicroStep(env, ms[n], w1).value.log);
    }
  }

  // ---------------------------------------------------------------------------
  // The reentrancy guard
  // ---------------------------------------------------------------------------

  /** While the guard is held, no guarded entrypoint succeeds, whatever its tokens do. */
  lemma GuardRefuses(env: Env, inv: Invocation, w: World)
    requires w.vault.guard && Guarded(inv.call)
    ensures Exec(env, inv, w).Err?
  {
    hide Check, Direct;
  }

  /** While the guard is held, a callback tree amounts to the unguarded calls in it that succeeded. */
  lemma {:induction false} CallbacksFlatten(env: Env, calls: seq<Invocation>, w: World) returns (ms: seq<Micro>)
    requires w.vault.guard
    ensures OnlyDoes(ms) && Fold(env, ms, w) == Some(RunCalls(env, calls, w))
  {
    hide Check, Direct, Before, After, CallTransfer, Sweep;
    if calls == [] {
      ms := [];
    } else {
      var inv := calls[|calls| - 1];
      ms := CallbacksFlatten(env, calls[..|calls| - 1], w);
      FoldFrame(env, ms, w);
      var w1 := RunCalls(env, calls[..|calls| - 1], w);
      if Guarded(inv.call) {
        GuardRefuses(env, inv, w1);
      } else if Exec(env, inv, w1).Ok? {
        var m := Does(inv.auths, inv.call);
        assert (ms + [m])[..|ms|] == ms;
        ms := ms + [m];
      }
    }
  }

  /** Whatever a token calls back, the vault is as it was and no money event was published. */
  lemma CallbacksMoveNothing(env: Env, calls: seq<Invocation>, w: World)
    requires w.vault.guard
    ensures RunCalls(env, calls, w).vault == w.vault
    ensures Quietly(env, w.log, RunCalls(env, calls, w).log)
  {
    var ms := CallbacksFlatten(env, calls, w);
    FoldFrame(env, ms, w);
  }

  lemma CallTokenFlatten(env: Env, externals: seq<Behaviour>, i: nat, w: World) returns (ms: seq<Micro>)
    requires w.vault.guard && CallToken(env, externals, i, w).Some?
    ensures OnlyDoes(ms) && Fold(env, ms, w) == CallToken(env, externals, i, w)
    ensures CallToken(env, externals, i, w).value.vault == w.vault
  {
    hide RunCalls;
    ms := [];
    if i < |externals| {
      ms := CallbacksFlatten(env, externals[i].calls, w);
      CallbacksMoveNothing(env, externals[i].calls, w);
    }
  }

  lemma CallTransferFlatten(env: Env, externals: seq<Behaviour>, i: nat, t: Transfer, w: World) returns (ms: seq<Micro>)
    requires w.vault.guard && CallTransfer(env, externals, i, t, w).Some?
    ensures OnlyDoes(ms) && Fold(env, ms + [Moves(t)], w) == CallTransfer(env, externals, i, t, w)
    ensures Fold(env, ms, w).Some? && Fold(env, ms, w).value.vault == w.vault
  {
    hide CallToken, Move;
    ms := CallTokenFlatten(env, externals, i, w);
    assert (ms + [Moves(t)])[..|ms|] == ms;
  }

  lemma {:induction false} SweepFlatten(env: Env, externals: seq<Behaviour>, tokens: seq<Address>, to: Address,
      w: World)
    returns (ms: seq<Micro>)
    requires w.vault.guard && Sweep(env, externals, tokens, to, w).Some?
    ensures Fold(env, ms, w) == Sweep(env, externals, tokens, to, w)
  {
    hide SweepOne, MicroStep;
    ms := [];
    if tokens != [] {
      var n := |tokens| - 1;
      ms := SweepFlatten(env, externals, tokens[..n], to, w);
      FoldFrame(env, ms, w);
      var w1 := Sweep(env, externals, tokens[..n], to, w).value;
      var more := SweepOneFlatten(env, externals, n, tokens[n], to, w1);
      FoldConcat(env, ms, more, w);
      ms := ms + more;
    }
  }

  lemma SweepOneFlatten(env: Env, externals: seq<Behaviour>, n: nat, token: Address, to: Address, w: World)
    returns (ms: seq<Micro>)
    requires w.vault.guard && SweepOne(env, externals, n, token, to, w).Some?
    ensures Fold(env, ms, w) == SweepOne(env, externals, n, token, to, w)
  {
    hide CallToken, CallTransfer, Fold;
    ms := CallTokenFlatten(env, externals, 2 * n, w);
    var w1 := CallToken(env, externals, 2 * n, w).value;
    var held := Balance(w1.vault, token, SELF);
    if held > 0 {
      var t := Transfer(token, SELF, to, held);
      var more := CallTransferFlatten(env, externals, 2 * n + 1, t, w1);
      FoldConcat(env, ms, more + [Moves(t)], w);
      ms := ms + (more + [Moves(t)]);
    }
  }

  /**
   * Anatomy of a successful guarded call: its checks passed with the guard free, its early writes were
   * made, its token calls amount to `ms`, and then its late writes were made with the guard free again.
   */
  lemma GuardedCall(env: Env, inv: Invocation, w: World) returns (ms: seq<Micro>, mid: World)
    requires Guarded(inv.call) && Exec(env, inv, w).Ok?
    ensures !w.vault.guard && Check(env, inv.auths, inv.call, w).None?
    ensures Fold(env, ms, SetGuard(Before(env, inv.auths, inv.call, w), true)) == Some(mid)
    ensures Exec(env, inv, w).value == After(env, inv.auths, inv.call, w, SetGuard(mid, false))
    ensures !inv.call.Decommission? ==>
              |ms| > 0 && OnlyDoes(ms[..|ms| - 1]) && ms[|ms| - 1] == Moves(TransferOf(env, inv.auths, inv.call, w))
  {
    hide CheckPay, CheckDeposit, CheckRelease, CheckRefund, CheckRescue;
    hide Direct, Before, After, TransferOf, CallTransfer, Sweep, SweepList, Fold, SetGuard;
    var locked := SetGuard(Before(env, inv.auths, inv.call, w), true);
    assert locked.vault.guard by { LockedIsGuarded(Before(env, inv.auths, inv.call, w)); }
    if inv.call.Decommission? {
      var tokens := SweepList([w.settings.tokens[Usdc], w.settings.tokens[Xlm]], inv.call.extraTokens);
      var to := LoadConfig(w.settings.slots).value.treasury;
      ms := SweepFlatten(env, inv.externals, tokens, to, locked);
      mid := Sweep(env, inv.externals, tokens, to, locked).value;
    } else {
      var t := TransferOf(env, inv.auths, inv.call, w);
      var does := CallTransferFlatten(env, inv.externals, 0, t, locked);
      ms := does + [Moves(t)];
      assert ms[..|ms| - 1] == does;
      mid := CallTransfer(env, inv.externals, 0, t, locked).value;
    }
  }

  lemma LockedIsGuarded(w: World)
    ensures SetGuard(w, true).vault.guard
  {
  }

  /** Every call that succeeds leaves the guard as it found it. */
  lemma GuardReleased(env: Env, inv: Invocation, w: World)
    requires Exec(env, inv, w).Ok?
    ensures Exec(env, inv, w).value.vault.guard == w.vault.guard
  {
    hide Check, Direct, Before;
    if Guarded(inv.call) {
      var ms, mid := GuardedCall(env, inv, w);
    } else {
      DirectFrame(env, inv.auths, inv.call, w);
    }
  }

  // ---------------------------------------------------------------------------
  // Growth of the log
  // ---------------------------------------------------------------------------

  /** The event a guarded call publishes last. `w` is the world it was checked in. */
  function ClosingEvent(env: Env, auths: set<Address>, c: Call, w: World): Event
    requires Guarded(c) && Check(env, auths, c, w).None?
  {
    match c
    case Pay(asset, from, amount, orderId, memo) => Paid(asset, orderId, from, amount, memo)
    case DepositEscrow(from, amount, key) => Deposited(key, from, amount)
    case ReleaseEscrow(caller, key) =>
      var held := LiveEscrow(w.vault, key, env.ledger).value;
      Released(key, caller, held.payer, held.amount)
    case RefundEscrow(caller, key) =>
      var held := LiveEscrow(w.vault, key, env.ledger).value;
      Refunded(key, caller, held.payer, held.amount)
    case RescueTokens(caller, token, to, amount) => Rescued(token, to, caller, amount)
    case Decommission(_) => Decommissioned(LoadConfig(w.settings.slots).value.admin, env.time)
  }

  /** The payers' vectors after a call checked in `w0`. */
  function PaidAfter(env: Env, c: Call, w0: World, paid: map<Address, Temp<seq<nat>>>): map<Address, Temp<seq<nat>>> {
    if c.Pay? && c.memo.None? then
      var window := RateOf(w0.settings.rate).window;
      paid[c.from := Put(Get(paid, c.from), ActivePayments(env, c.from, w0) + [env.ledger], env, window, 2 * window)]
    else
      paid
  }

  lemma AfterFrame(env: Env, auths: set<Address>, c: Call, w0: World, w: World)
    requires Guarded(c) && Check(env, auths, c, w0).None?
    ensures var w1 := After(env, auths, c, w0, w);
            && w1.log == w.log + [Entry(ClosingEvent(env, auths, c, w0), env.ledger, env.time, auths)]
            && w1.settings == w.settings
            && w1.vault == w.vault.(paid := w1.vault.paid, escrow := w1.vault.escrow)
            && w1.vault.paid == PaidAfter(env, c, w0, w.vault.paid)
            && (!c.DepositEscrow? ==> w1.vault.escrow == w.vault.escrow)
  {
    hide Check, Put, ActivePayments, LoadConfig, LiveEscrow, RateOf;
  }

  lemma BeforeFrame(env: Env, auths: set<Address>, c: Call, w: World)
    requires Guarded(c) && Check(env, auths, c, w).None?
    ensures var w1 := Before(env, auths, c, w);
            && w1.log == w.log
            && w1.settings == w.settings.(slots := w1.settings.slots)
            && (!c.Decommission? ==> w1.settings == w.settings)
            && w1.vault == w.vault.(daily := w1.vault.daily, escrow := w1.vault.escrow,
                decommissioned := w1.vault.decommissioned)
            && (!c.RescueTokens? ==> w1.vault.daily == w.vault.daily)
            && (!c.ReleaseEscrow? && !c.RefundEscrow? ==> w1.vault.escrow == w.vault.escrow)
  {
    hide Check, SetWithdrawn, WithdrawnOn;
  }

  /**
   * A guarded call in outline: `locked` is its world when its tokens run, `mid` when they are done.
   * Only balances, settings and the log can have changed between the two.
   */
  lemma GuardedOutline(env: Env, inv: Invocation, w: World) returns (ms: seq<Micro>, locked: World, mid: World)
    requires Guarded(inv.call) && Exec(env, inv, w).Ok?
    ensures !w.vault.guard && Check(env, inv.auths, inv.call, w).None?
    ensures locked == SetGuard(Before(env, inv.auths, inv.call, w), true) && locked.log == w.log
    ensures Fold(env, ms, locked) == Some(mid)
    ensures mid.vault == locked.vault.(balances := mid.vault.balances) && Quietly(env, w.log, mid.log)
    ensures Exec(env, inv, w).value == After(env, inv.auths, inv.call, w, SetGuard(mid, false))
    ensures var w1 := Exec(env, inv, w).value;
            && w1.log == mid.log + [Entry(ClosingEvent(env, inv.auths, inv.call, w), env.ledger, env.time, inv.auths)]
            && w1.settings == mid.settings && w1.vault.daily == mid.vault.daily && w1.vault.balances == mid.vault.balances
            && w1.vault.decommissioned == mid.vault.decommissioned
            && w1.vault.paid == PaidAfter(env, inv.call, w, mid.vault.paid)
            && (!inv.call.DepositEscrow? ==> w1.vault.escrow == mid.vault.escrow)
  {
    ms, mid := GuardedCall(env, inv, w);
    hide Exec, Fold, Check, Quietly, Before, After;
    locked := SetGuard(Before(env, inv.auths, inv.call, w), true);
    BeforeFrame(env, inv.auths, inv.call, w);
    FoldFrame(env, ms, locked);
    AfterFrame(env, inv.auths, inv.call, w, SetGuard(mid, false));
  }

  predicate Prefix(a: seq<Entry>, b: seq<Entry>) {
    |a| <= |b| && b[..|a|] == a
  }

  /** `log` continues `past` without any event of the given kind. */
  predicate Lacks(past: seq<Entry>, log: seq<Entry>, kind: Event -> bool) {
    Prefix(past, log) && forall i :: |past| <= i < |log| ==> !kind(log[i].event)
  }

  lemma LacksSplit(a: seq<Entry>, b: seq<Entry>, c: seq<Entry>, kind: Event -> bool)
    requires Prefix(a, b) && Prefix(b, c) && Lacks(a, c, kind)
    ensures Lacks(a, b, kind) && Lacks(b, c, kind)
  {
    forall i | |a| <= i < |b| ensures !kind(b[i].event) {
      assert b[i] == c[..|b|][i];
    }
  }

  /** No entry is stamped later than the present. */
  predicate Past(log: seq<Entry>, ledger: nat, time: nat) {
    forall i :: 0 <= i < |log| ==> log[i].ledger <= ledger && log[i].time <= time
  }

  lemma ExecLog(env: Env, inv: Invocation, w: World)
    requires Exec(env, inv, w).Ok?
    ensures var log := Exec(env, inv, w).value.log;
            Prefix(w.log, log) && (Past(w.log, env.ledger, env.time) ==> Past(log, env.ledger, env.time))
  {
    hide Check, Direct;
    if Guarded(inv.call) {
      var ms, locked, mid := GuardedOutline(env, inv, w);
      hide Exec, After, Before, ClosingEvent;
    } else {
      DirectFrame(env, inv.auths, inv.call, w);
    }
  }

  lemma StepLog(c: Chain, s: Step)
    requires CanStep(c, s)
    ensures Prefix(c.world.log, Next(c, s).world.log)
    ensures Past(c.world.log, c.ledger, c.time) ==> Past(Next(c, s).world.log, Next(c, s).ledger, Next(c, s).time)
  {
    hide Exec;
    if s.Invoke? && Exec(s.env, s.invocation, c.world).Ok? {
      ExecLog(s.env, s.invocation, c.world);
    }
  }

  lemma {:induction false} RunLog(c: Chain, steps: seq<Step>)
    requires Run(c, steps).Some?
    ensures var d := Run(c, steps).value;
            Prefix(c.world.log, d.world.log)
            && (Past(c.world.log, c.ledger, c.time) ==> Past(d.world.log, d.ledger, d.time))
  {
    hide Next, CanStep, Past;
    if steps != [] {
      RunLog(c, steps[..|steps| - 1]);
      StepLog(Run(c, steps[..|steps| - 1]).value, steps[|steps| - 1]);
    }
  }
}
