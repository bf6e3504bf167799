/**
 * The contract as it runs: one object holding its storage, one method per entrypoint, each returning
 * early on the first check that fails. Invoke plays the host: it dispatches a call and undoes it when it
 * fails. Every method is proved to do what the functions of Receiver say.
 */
module ReceiverContract {
  import opened Results
  import opened Receiver
  import Fees

  type Reply = Result<(), Failure>

  /** A method's reply and final world agree with the result a function gives. */
  predicate Matches(r: Reply, after: World, spec: Result<World, Failure>) {
    match spec
    case Ok(w) => r == Ok(()) && after == w
    case Err(f) => r == Err(f)
  }

  class Contract {
    // instance storage
    var config: Option<Config>
    var legacyAdmin: Option<Address>
    var legacyTreasury: Option<Address>
    var legacyPaused: Option<bool>
    var tokens: map<Asset, Address>
    var rate: Option<Rate>
    var bounds: map<Asset, Bounds>
    var limits: Limits
    var daily: Option<Withdrawn>
    var decommissioned: bool
    // persistent storage
    var roles: map<Address, Role>
    var blacklist: set<Address>
    var discounts: map<Address, nat>
    // temporary storage
    var guard: bool
    var paid: map<Address, Temp<seq<nat>>>
    var escrow: map<EscrowKey, Temp<EscrowRecord>>
    // the host's and the token contracts'
    var log: seq<Entry>
    var balances: map<(Address, Address), int>

    function View(): World
      reads this
    {
      World(Settings(Slots(config, legacyAdmin, legacyTreasury, legacyPaused), tokens, roles, blacklist, discounts,
          rate, bounds, limits),
            Vault(guard, decommissioned, daily, paid, escrow, balances), log)
    }

    constructor (balances: map<(Address, Address), int>)
      ensures View() == World(Settings(Slots(None, None, None, None), map[], map[], {}, map[], None, map[],
          Limits(None, None)),
                              Vault(false, false, None, map[], map[], balances), [])
    {
      config, legacyAdmin, legacyTreasury, legacyPaused := None, None, None, None;
      tokens, rate, bounds, limits, daily, decommissioned := map[], None, map[], Limits(None, None), None, false;
      roles, blacklist, discounts := map[], {}, map[];
      guard, paid, escrow := false, map[], map[];
      log := [];
      this.balances := balances;
    }

    /** The host undoing a failed invocation. */
    method Restore(w: World)
      modifies this
      ensures View() == w
    {
      RestoreConfig(w.settings.slots);
      RestoreSettings(w.settings);
      RestoreVault(w.vault);
      log := w.log;
    }

    method RestoreConfig(s: Slots)
      modifies this`config, this`legacyAdmin, this`legacyTreasury, this`legacyPaused
      ensures Slots(config, legacyAdmin, legacyTreasury, legacyPaused) == s
    {
      config, legacyAdmin, legacyTreasury, legacyPaused := s.config, s.admin, s.treasury, s.paused;
    }

    method RestoreSettings(s: Settings)
      modifies this`tokens, this`roles, this`blacklist, this`discounts, this`rate, this`bounds, this`limits
      ensures s == Settings(s.slots, tokens, roles, blacklist, discounts, rate, bounds, limits)
    {
      tokens, rate, bounds, limits := s.tokens, s.rate, s.bounds, s.limits;
      roles, blacklist, discounts := s.roles, s.blacklist, s.discounts;
    }

    method RestoreVault(v: Vault)
      modifies this`guard, this`decommissioned, this`daily, this`paid, this`escrow, this`balances
      ensures v == Vault(guard, decommissioned, daily, paid, escrow, balances)
    {
      guard, decommissioned, daily := v.guard, v.decommissioned, v.daily;
      paid, escrow, balances := v.paid, v.escrow, v.balances;
    }

    // -------------------------------------------------------------------------
    // Helpers
    // -------------------------------------------------------------------------

    method Load() returns (cfg: Option<Config>)
      ensures cfg == LoadConfig(View().settings.slots)
    {
      if config.Some? { return config; }
      if legacyAdmin.None? || legacyTreasury.None? { return None; }
      return Some(Config(legacyAdmin.value, legacyTreasury.value, legacyPaused == Some(true)));
    }

    method Save(cfg: Config)
      modifies this`config, this`legacyAdmin, this`legacyTreasury, this`legacyPaused
      ensures View() == SaveConfig(old(View()), cfg)
    {
      config := Some(cfg);
      legacyAdmin, legacyTreasury, legacyPaused := None, None, None;
    }

    method Publish(env: Env, auths: set<Address>, event: Event)
      modifies this`log
      ensures View() == Emit(old(View()), env, auths, event)
    {
      log := log + [Entry(event, env.ledger, env.time, auths)];
    }

    method HasAtLeast(caller: Address, required: Role) returns (ok: bool)
      ensures var cfg := LoadConfig(View().settings.slots);
              ok == (cfg.Some? && HasAuthority(cfg.value.admin, roles, caller, required))
    {
      var cfg := Load();
      if cfg.None? { return false; }
      if caller == cfg.value.admin { return true; }
      return caller in roles && Rank(roles[caller]) >= Rank(required);
    }

    method PutRole(env: Env, auths: set<Address>, a: Address, role: Role)
      modifies this`roles, this`log
      ensures View() == StoreRole(env, auths, a, role, old(View()))
    {
      var previous := Get(roles, a);
      if previous != Some(role) {
        roles := roles[a := role];
        Publish(env, auths, RoleGranted(a, role));
      }
    }

    method DropRole(env: Env, auths: set<Address>, a: Address, renounced: bool)
      modifies this`roles, this`log
      ensures View() == RemoveRole(env, auths, a, renounced, old(View()))
    {
      if a !in roles { return; }
      var role := roles[a];
      roles := roles - {a};
      Publish(env, auths, if renounced then RoleRenounced(a, role) else RoleRevoked(a, role));
    }

    // -------------------------------------------------------------------------
    // Administration
    // -------------------------------------------------------------------------

    method Init(env: Env, auths: set<Address>, c: Call) returns (r: Reply)
      requires c.Init?
      modifies this
      ensures Matches(r, View(), DoInit(env, auths, c, old(View())))
    {
      if !Authorized(c.admin, auths) { return Err(Panic); }
      if config.Some? || legacyAdmin.Some? { return Err(Panic); }
      if !ValidInit(c) { return Err(Panic); }
      Save(Config(c.admin, c.treasury, false));
      tokens := tokens[Usdc := c.usdc][Xlm := c.xlm];
      roles := roles[c.admin := Admin];
      Publish(env, auths, Inited(c.admin, c.treasury, c.usdc, c.xlm));
      return Ok(());
    }

    method Pause(env: Env, auths: set<Address>, caller: Address) returns (r: Reply)
      modifies this
      ensures Matches(r, View(), DoPause(env, auths, caller, old(View())))
    {
      if !Authorized(caller, auths) || decommissioned { return Err(Panic); }
      var allowed := HasAtLeast(caller, Operator);
      if !allowed { return Err(Panic); }
      var cfg := Load();
      if cfg.value.paused { return Ok(()); }
      Save(cfg.value.(paused := true));
      Publish(env, auths, Paused(caller));
      return Ok(());
    }

    method Unpause(env: Env, auths: set<Address>) returns (r: Reply)
      modifies this
      ensures Matches(r, View(), DoUnpause(env, auths, old(View())))
    {
      var cfg := Load();
      if cfg.None? || !Authorized(cfg.value.admin, auths) || decommissioned { return Err(Panic); }
      if !cfg.value.paused { return Ok(()); }
      Save(cfg.value.(paused := false));
      Publish(env, auths, Unpaused(cfg.value.admin));
      return Ok(());
    }

    method UpdateTreasury(env: Env, auths: set<Address>, to: Address) returns (r: Reply)
      modifies this
      ensures Matches(r, View(), DoUpdateTreasury(env, auths, to, old(View())))
    {
      var cfg := Load();
      if cfg.None? || !Authorized(cfg.value.admin, auths) { return Err(Panic); }
      Save(cfg.value.(treasury := to));
      Publish(env, auths, TreasuryUpdated(cfg.value.treasury, to, cfg.value.admin));
      return Ok(());
    }

    method UpdateToken(env: Env, auths: set<Address>, asset: Asset, to: Address) returns (r: Reply)
      modifies this
      ensures Matches(r, View(), DoUpdateToken(env, auths, asset, to, old(View())))
    {
      var cfg := Load();
      if cfg.None? || !Authorized(cfg.value.admin, auths) || asset !in tokens { return Err(Panic); }
      var previous := tokens[asset];
      tokens := tokens[asset := to];
      Publish(env, auths, TokenUpdated(asset, previous, to, cfg.value.admin));
      return Ok(());
    }

    method GrantRoles(env: Env, auths: set<Address>, addresses: seq<Address>, role: Role) returns (r: Reply)
      modifies this
      ensures Matches(r, View(), DoGrantRoles(env, auths, addresses, role, old(View())))
    {
      var cfg := Load();
      if cfg.None? || !Authorized(cfg.value.admin, auths) || decommissioned { return Err(Panic); }
      for i := 0 to |addresses|
        invariant View() == StoreRoles(env, auths, addresses[..i], role, old(View()))
      {
        assert addresses[..i + 1][..i] == addresses[..i];
        PutRole(env, auths, addresses[i], role);
      }
      assert addresses[..|addresses|] == addresses;
      return Ok(());
    }

    method RevokeRole(env: Env, auths: set<Address>, a: Address) returns (r: Reply)
      modifies this
      ensures Matches(r, View(), DoRevokeRole(env, auths, a, old(View())))
    {
      var cfg := Load();
      if cfg.None? || !Authorized(cfg.value.admin, auths) || decommissioned { return Err(Panic); }
      DropRole(env, auths, a, false);
      return Ok(());
    }

    method RenounceRole(env: Env, auths: set<Address>, caller: Address) returns (r: Reply)
      modifies this
      ensures Matches(r, View(), DoRenounceRole(env, auths, caller, old(View())))
    {
      if !Authorized(caller, auths) { return Err(Panic); }
      DropRole(env, auths, caller, true);
      return Ok(());
    }

    method TransferAdmin(env: Env, auths: set<Address>, to: Address) returns (r: Reply)
      modifies this
      ensures Matches(r, View(), DoTransferAdmin(env, auths, to, old(View())))
    {
      hide HasAuthority;
      var cfg := Load();
      if cfg.None? || !Authorized(cfg.value.admin, auths) || !Authorized(to,
          auths) || decommissioned { return Err(Panic); }
      if cfg.value.admin != to && Get(roles, cfg.value.admin) == Some(Admin) {
        DropRole(env, auths, cfg.value.admin, false);
      }
      PutRole(env, auths, to, Admin);
      Save(cfg.value.(admin := to));
      Publish(env, auths, AdminTransferred(cfg.value.admin, to));
      return Ok(());
    }

    method SetBlacklisted(env: Env, auths: set<Address>, caller: Address, account: Address,
        status: bool) returns (r: Reply)
      modifies this
      ensures Matches(r, View(), DoSetBlacklisted(env, auths, caller, account, status, old(View())))
    {
      if !Authorized(caller, auths) { return Err(Panic); }
      var allowed := HasAtLeast(caller, Operator);
      if !allowed { return Err(Panic); }
      if (account in blacklist) == status { return Ok(()); }
      if status {
        blacklist := blacklist + {account};
        Publish(env, auths, Blacklisted(account, caller));
      } else {
        blacklist := blacklist - {account};
        Publish(env, auths, Unblacklisted(account, caller));
      }
      return Ok(());
    }

    method SetDiscount(auths: set<Address>, caller: Address, account: Address, bps: nat) returns (r: Reply)
      modifies this
      ensures Matches(r, View(), DoSetDiscount(auths, caller, account, bps, old(View())))
    {
      if !Authorized(caller, auths) { return Err(Panic); }
      var allowed := HasAtLeast(caller, Operator);
      if !allowed { return Err(Panic); }
      if bps > Fees.BPS { return Err(Fails(InvalidDiscount)); }
      if bps == 0 {
        discounts := discounts - {account};
      } else {
        discounts := discounts[account := bps];
      }
      return Ok(());
    }

    method SetRateLimit(env: Env, auths: set<Address>, caller: Address, r0: Rate) returns (r: Reply)
      modifies this
      ensures Matches(r, View(), DoSetRateLimit(env, auths, caller, r0, old(View())))
    {
      if !Authorized(caller, auths) || decommissioned { return Err(Panic); }
      var allowed := HasAtLeast(caller, Admin);
      if !allowed { return Err(Panic); }
      if r0.max == 0 || r0.max > MAX_PAYMENT_LIMIT || r0.window == 0 || r0.window > MAX_PAYMENT_WINDOW {
        return Err(Fails(InvalidRateLimit));
      }
      rate := Some(r0);
      Publish(env, auths, RateLimitSet(caller, r0));
      return Ok(());
    }

    method SetPaymentLimits(env: Env, auths: set<Address>, caller: Address, named: Option<Asset>,
        b: Bounds) returns (r: Reply)
      modifies this
      ensures Matches(r, View(), DoSetPaymentLimits(env, auths, caller, named, b, old(View())))
    {
      if !Authorized(caller, auths) || decommissioned { return Err(Panic); }
      var allowed := HasAtLeast(caller, Admin);
      if !allowed { return Err(Panic); }
      if b.min < 0 || b.max < 0 { return Err(Fails(AmountOutOfBounds)); }
      if b.min > 0 && b.max > 0 && b.min > b.max { return Err(Fails(AmountOutOfBounds)); }
      if named.None? { return Err(Panic); }
      bounds := bounds[named.value := b];
      Publish(env, auths, PaymentLimitsSet(caller, named.value, b));
      return Ok(());
    }

    method SetWithdrawLimits(env: Env, auths: set<Address>, caller: Address, l: Limits) returns (r: Reply)
      modifies this
      ensures Matches(r, View(), DoSetWithdrawLimits(env, auths, caller, l, old(View())))
    {
      if !Authorized(caller, auths) || decommissioned { return Err(Panic); }
      var allowed := HasAtLeast(caller, Admin);
      if !allowed { return Err(Panic); }
      if (l.perCall.Some? && l.perCall.value <= 0) || (l.perDay.Some? && l.perDay.value <= 0) { return Err(Panic); }
      if l.perCall.Some? && l.perDay.Some? && l.perCall.value > l.perDay.value { return Err(Panic); }
      limits := l;
      Publish(env, auths, WithdrawLimitsSet(caller, l));
      return Ok(());
    }

    method Administer(env: Env, auths: set<Address>, c: Call) returns (r: Reply)
      requires !Guarded(c)
      modifies this
      ensures Matches(r, View(), Direct(env, auths, c, old(View())))
    {
      hide DoInit, DoPause, DoUnpause, DoUpdateTreasury, DoUpdateToken, DoGrantRoles, DoRevokeRole, DoRenounceRole,
        DoTransferAdmin, DoSetBlacklisted, DoSetDiscount, DoSetRateLimit, DoSetPaymentLimits, DoSetWithdrawLimits, View;
      match c {
        case Init(_, _, _, _, _) => r := Init(env, auths, c);
        case Pause(caller) => r := Pause(env, auths, caller);
        case Unpause => r := Unpause(env, auths);
        case UpdateTreasury(to) => r := UpdateTreasury(env, auths, to);
        case UpdateToken(asset, to) => r := UpdateToken(env, auths, asset, to);
        case GrantRoles(addresses, role) => r := GrantRoles(env, auths, addresses, role);
        case RevokeRole(a) => r := RevokeRole(env, auths, a);
        case RenounceRole(caller) => r := RenounceRole(env, auths, caller);
        case TransferAdmin(to) => r := TransferAdmin(env, auths, to);
        case SetBlacklisted(caller, account, status) => r := SetBlacklisted(env, auths, caller, account, status);
        case SetDiscount(caller, account, bps) => r := SetDiscount(auths, caller, account, bps);
        case SetRateLimit(caller, r0) => r := SetRateLimit(env, auths, caller, r0);
        case SetPaymentLimits(caller, named, b) => r := SetPaymentLimits(env, auths, caller, named, b);
        case SetWithdrawLimits(caller, l) => r := SetWithdrawLimits(env, auths, caller, l);
      }
    }

    // -------------------------------------------------------------------------
    // Token calls
    // -------------------------------------------------------------------------

    /** A token's own bookkeeping of one transfer. */
    method MoveTokens(t: Transfer) returns (ok: bool)
      modifies this`balances
      ensures ok == Move(old(View()), t).Some?
      ensures View() == if ok then Move(old(View()), t).value else old(View())
    {
      var have := if (t.token, t.from) in balances then balances[(t.token, t.from)] else 0;
      if t.amount < 0 || have < t.amount { return false; }
      balances := balances[(t.token, t.from) := have - t.amount];
      var has := if (t.token, t.to) in balances then balances[(t.token, t.to)] else 0;
      balances := balances[(t.token, t.to) := has + t.amount];
      return true;
    }

    /** The i-th token call of an invocation: its callbacks run one by one, the failing ones leaving no trace. */
    method TokenCalled(env: Env, externals: seq<Behaviour>, i: nat) returns (ok: bool)
      modifies this
      ensures ok == CallToken(env, externals, i, old(View())).Some?
      ensures ok ==> View() == CallToken(env, externals, i, old(View())).value
      decreases externals, 0
    {
      if i >= |externals| { return true; }
      if !externals[i].ok { return false; }
      var calls := externals[i].calls;
      ghost var w0 := View();
      for k := 0 to |calls|
        invariant View() == RunCalls(env, calls[..k], w0)
      {
        CallbackStep(env, calls, k, w0);
        var _ := Dispatch(env, calls[k]);
      }
      assert calls[..|calls|] == calls;
      return true;
    }

    lemma CallbackStep(env: Env, calls: seq<Invocation>, k: nat, w: World)
      requires k < |calls|
      ensures var w1 := RunCalls(env, calls[..k], w);
              RunCalls(env, calls[..k + 1], w) ==
              match Exec(env, calls[k], w1)
              case Ok(w2) => w2
              case Err(_) => w1
    {
      hide Exec;
      assert calls[..k + 1][..k] == calls[..k];
    }

    /** try_transfer. */
    method TryTransfer(env: Env, externals: seq<Behaviour>, i: nat, t: Transfer) returns (ok: bool)
      modifies this
      ensures ok == CallTransfer(env, externals, i, t, old(View())).Some?
      ensures ok ==> View() == CallTransfer(env, externals, i, t, old(View())).value
      decreases externals, 1
    {
      hide CallToken, Move, View;
      ok := TokenCalled(env, externals, i);
      if ok {
        ok := MoveTokens(t);
      }
    }

    /** with_reentrancy_guard around one try_transfer; None when the guard is already held. */
    method GuardedTransfer(env: Env, externals: seq<Behaviour>, t: Transfer) returns (r: Option<bool>)
      modifies this
      ensures r.None? <==> old(guard)
      ensures r.Some? ==>
                var called := CallTransfer(env, externals, 0, t, SetGuard(old(View()), true));
                && r.value == called.Some?
                && (r.value ==> View() == SetGuard(called.value, false))
      decreases externals, 2
    {
      if guard { return None; }
      guard := true;
      assert View() == SetGuard(old(View()), true);
      var ok := TryTransfer(env, externals, 0, t);
      guard := false;
      return Some(ok);
    }

    // -------------------------------------------------------------------------
    // Payments
    // -------------------------------------------------------------------------

    /** next_payment_rate_limit: the payer's ledgers still in the window, then this one. */
    method NextPaymentRateLimit(env: Env, payer: Address) returns (r: Result<seq<nat>, Failure>)
      ensures var active := ActivePayments(env, payer, View());
              r == if |active| >= RateOf(View().settings.rate).max then Err(Fails(RateLimitExceeded)) else Ok(active + [env.ledger])
    {
      var policy := if rate.Some? then rate.value else DEFAULT_RATE;
      var previous := if payer in paid && paid[payer].liveUntil >= env.ledger then paid[payer].value else [];
      var active := [];
      for i := 0 to |previous|
        invariant active == Recent(previous[..i], env.ledger, policy.window)
      {
        assert previous[..i + 1][..i] == previous[..i];
        if previous[i] <= env.ledger && env.ledger - previous[i] < policy.window {
          active := active + [previous[i]];
        }
      }
      assert previous[..|previous|] == previous;
      if |active| >= policy.max { return Err(Fails(RateLimitExceeded)); }
      return Ok(active + [env.ledger]);
    }

    /** The checks pay_usdc, pay_xlm and their memo forms make, in order; on success what to record and to transfer. */
    method PaymentChecks(env: Env, auths: set<Address>, c: Call) returns (failure: Option<Failure>,
        ledgers: seq<nat>, t: Transfer)
      requires c.Pay?
      ensures failure == CheckPay(env, auths, c, View())
      ensures failure.None? ==> t == TransferOf(env, auths, c, View())
      ensures failure.None? && c.memo.None? ==> ledgers == ActivePayments(env, c.from, View()) + [env.ledger]
    {
      hide ActivePayments, Fees.ApplyDiscount;
      ledgers, t := [], Transfer(SELF, SELF, SELF, 0);
      if c.memo.Some? && |c.memo.value| > 64 { return Some(Fails(InvalidMetadata)), ledgers, t; }
      if decommissioned { return Some(Fails(ContractDecommissioned)), ledgers, t; }
      var cfg := Load();
      if cfg.None? { return Some(Panic), ledgers, t; }
      if cfg.value.paused { return Some(Fails(ContractPaused)), ledgers, t; }
      if c.amount <= 0 { return Some(Fails(InvalidAmount)), ledgers, t; }
      if c.asset in bounds {
        var b := bounds[c.asset];
        if b.min > 0 && c.amount < b.min { return Some(Fails(AmountOutOfBounds)), ledgers, t; }
        if b.max > 0 && c.amount > b.max { return Some(Fails(AmountOutOfBounds)), ledgers, t; }
      }
      if c.from in blacklist { return Some(Fails(AddressBlacklisted)), ledgers, t; }
      if !Authorized(c.from, auths) { return Some(Panic), ledgers, t; }
      if c.memo.None? {
        var next := NextPaymentRateLimit(env, c.from);
        if next.Err? { return Some(next.error), ledgers, t; }
        ledgers := next.value;
      }
      if c.asset !in tokens { return Some(Panic), ledgers, t; }
      var net := Fees.ApplyDiscount(c.amount, if c.from in discounts then discounts[c.from] else 0);
      if net.None? { return Some(Fails(ArithmeticOverflow)), ledgers, t; }
      t := Transfer(tokens[c.asset], c.from, cfg.value.treasury, net.value);
      return None, ledgers, t;
    }

    method Pay(env: Env, inv: Invocation) returns (r: Reply)
      requires inv.call.Pay?
      modifies this
      ensures Matches(r, View(), Exec(env, inv, old(View())))
      decreases inv, 0
    {
      hide CallTransfer, CheckPay, ActivePayments, Put, TransferOf;
      var c := inv.call;
      var failure, ledgers, t := PaymentChecks(env, inv.auths, c);
      if failure.Some? { return Err(failure.value); }
      var window := if rate.Some? then rate.value.window else DEFAULT_RATE.window;
      var called := GuardedTransfer(env, inv.externals, t);
      if called.None? { return Err(Panic); }
      if !called.value { return Err(Fails(TransferFailed)); }
      if c.memo.None? {
        paid := paid[c.from := Put(Get(paid, c.from), ledgers, env, window, 2 * window)];
      }
      Publish(env, inv.auths, Paid(c.asset, c.orderId, c.from, c.amount, c.memo));
      return Ok(());
    }

    // -------------------------------------------------------------------------
    // Escrow
    // -------------------------------------------------------------------------

    method GetEscrow(key: EscrowKey, ledger: nat) returns (held: Option<EscrowRecord>)
      ensures held == LiveEscrow(View().vault, key, ledger)
    {
      if key in escrow && escrow[key].liveUntil >= ledger { return Some(escrow[key].value); }
      return None;
    }

    method Deposit(env: Env, inv: Invocation) returns (r: Reply)
      requires inv.call.DepositEscrow?
      modifies this
      ensures Matches(r, View(), Exec(env, inv, old(View())))
      decreases inv, 0
    {
      hide CallTransfer, Put, LiveEscrow, LoadConfig;
      var c := inv.call;
      if decommissioned { return Err(Fails(ContractDecommissioned)); }
      var cfg := Load();
      if cfg.None? { return Err(Panic); }
      if cfg.value.paused { return Err(Fails(ContractPaused)); }
      if c.amount <= 0 { return Err(Fails(InvalidAmount)); }
      if c.from in blacklist { return Err(Fails(AddressBlacklisted)); }
      if !Authorized(c.from, inv.auths) { return Err(Panic); }
      var held := GetEscrow(c.key, env.ledger);
      if held.Some? { return Err(Fails(EscrowAlreadyExists)); }
      if c.key.asset !in tokens { return Err(Panic); }
      var called := GuardedTransfer(env, inv.externals, Transfer(tokens[c.key.asset], c.from, SELF, c.amount));
      if called.None? { return Err(Panic); }
      if !called.value { return Err(Fails(TransferFailed)); }
      var record := EscrowRecord(c.from, c.amount, env.time, ExpiryOf(env.time));
      escrow := escrow[c.key := Put(Get(escrow, c.key), record, env, ESCROW_LEDGERS, 2 * ESCROW_LEDGERS)];
      Publish(env, inv.auths, Deposited(c.key, c.from, c.amount));
      return Ok(());
    }

    method Release(env: Env, inv: Invocation) returns (r: Reply)
      requires inv.call.ReleaseEscrow?
      modifies this
      ensures Matches(r, View(), Exec(env, inv, old(View())))
      decreases inv, 0
    {
      hide CallTransfer, LiveEscrow, LoadConfig, HasAuthority;
      var c := inv.call;
      if !Authorized(c.caller, inv.auths) { return Err(Panic); }
      var allowed := HasAtLeast(c.caller, Operator);
      if !allowed { return Err(Panic); }
      var held := GetEscrow(c.key, env.ledger);
      if held.None? { return Err(Fails(EscrowNotFound)); }
      var cfg := Load();
      if c.key.asset !in tokens { return Err(Panic); }
      escrow := escrow - {c.key};
      var t := Transfer(tokens[c.key.asset], SELF, cfg.value.treasury, held.value.amount);
      var called := GuardedTransfer(env, inv.externals, t);
      if called.None? { return Err(Panic); }
      if !called.value { return Err(Fails(TransferFailed)); }
      Publish(env, inv.auths, Released(c.key, c.caller, held.value.payer, held.value.amount));
      return Ok(());
    }

    method Refund(env: Env, inv: Invocation) returns (r: Reply)
      requires inv.call.RefundEscrow?
      modifies this
      ensures Matches(r, View(), Exec(env, inv, old(View())))
      decreases inv, 0
    {
      hide CallTransfer, LiveEscrow, LoadConfig, HasAuthority;
      var c := inv.call;
      if !Authorized(c.caller, inv.auths) { return Err(Panic); }
      var held := GetEscrow(c.key, env.ledger);
      if held.None? { return Err(Fails(EscrowNotFound)); }
      if env.time < held.value.expiresAt {
        var cfg := Load();
        if cfg.None? { return Err(Panic); }
        var allowed := HasAtLeast(c.caller, Admin);
        if !allowed { return Err(Fails(EscrowNotExpired)); }
      }
      if c.key.asset !in tokens { return Err(Panic); }
      escrow := escrow - {c.key};
      var t := Transfer(tokens[c.key.asset], SELF, held.value.payer, held.value.amount);
      var called := GuardedTransfer(env, inv.externals, t);
      if called.None? { return Err(Panic); }
      if !called.value { return Err(Fails(TransferFailed)); }
      Publish(env, inv.auths, Refunded(c.key, c.caller, held.value.payer, held.value.amount));
      return Ok(());
    }

    // -------------------------------------------------------------------------
    // Rescue and decommission
    // -------------------------------------------------------------------------

    method RecordWithdrawn(day: nat, total: int)
      modifies this`daily
      ensures daily == SetWithdrawn(day, total)
    {
      if total == 0 { daily := None; } else { daily := Some(Withdrawn(day, total)); }
    }

    method Rescue(env: Env, inv: Invocation) returns (r: Reply)
      requires inv.call.RescueTokens?
      modifies this
      ensures Matches(r, View(), Exec(env, inv, old(View())))
      decreases inv, 0
    {
      hide CallTransfer, LoadConfig, HasAuthority, SetWithdrawn;
      var c := inv.call;
      if !Authorized(c.caller, inv.auths) || decommissioned { return Err(Panic); }
      var allowed := HasAtLeast(c.caller, Admin);
      if !allowed { return Err(Panic); }
      if c.amount <= 0 { return Err(Fails(InvalidAmount)); }
      if c.to == SELF { return Err(Fails(InvalidRecipient)); }
      if limits.perCall.Some? && c.amount > limits.perCall.value { return Err(Fails(WithdrawLimitExceeded)); }
      var day := Day(env.time);
      var withdrawn := WithdrawnOn(daily, day);
      var total := withdrawn + c.amount;
      if !Fees.InI128(total) { return Err(Fails(ArithmeticOverflow)); }
      if limits.perDay.Some? && total > limits.perDay.value { return Err(Fails(DailyWithdrawLimitExceeded)); }
      RecordWithdrawn(day, total);
      var called := GuardedTransfer(env, inv.externals, Transfer(c.token, SELF, c.to, c.amount));
      if called.None? { return Err(Panic); }
      if !called.value {
        RecordWithdrawn(day, withdrawn);
        return Err(Fails(TransferFailed));
      }
      Publish(env, inv.auths, Rescued(c.token, c.to, c.caller, c.amount));
      return Ok(());
    }

    method ListTokens(extra: seq<Address>) returns (listed: seq<Address>)
      requires Usdc in tokens && Xlm in tokens
      ensures listed == SweepList([tokens[Usdc], tokens[Xlm]], extra)
    {
      listed := [tokens[Usdc], tokens[Xlm]];
      for i := 0 to |extra|
        invariant listed == SweepList([tokens[Usdc], tokens[Xlm]], extra[..i])
      {
        assert extra[..i + 1][..i] == extra[..i];
        if extra[i] !in listed {
          listed := listed + [extra[i]];
        }
      }
      assert extra[..|extra|] == extra;
    }

    /** One round of the sweep loop. */
    method SweepToken(env: Env, externals: seq<Behaviour>, n: nat, token: Address, to: Address) returns (ok: bool)
      modifies this
      ensures ok == SweepOne(env, externals, n, token, to, old(View())).Some?
      ensures ok ==> View() == SweepOne(env, externals, n, token, to, old(View())).value
      decreases externals, 2
    {
      hide CallToken, CallTransfer;
      ok := TokenCalled(env, externals, 2 * n);
      if !ok { return; }
      var held := if (token, SELF) in balances then balances[(token, SELF)] else 0;
      if held > 0 {
        ok := TryTransfer(env, externals, 2 * n + 1, Transfer(token, SELF, to, held));
      }
    }

    method SweepAll(env: Env, externals: seq<Behaviour>, listed: seq<Address>, to: Address) returns (ok: bool)
      modifies this
      ensures ok == Sweep(env, externals, listed, to, old(View())).Some?
      ensures ok ==> View() == Sweep(env, externals, listed, to, old(View())).value
      decreases externals, 3
    {
      hide SweepOne, View;
      ghost var w0 := View();
      for n := 0 to |listed|
        invariant Sweep(env, externals, listed[..n], to, w0) == Some(View())
      {
        SweepRound(env, externals, listed, n, to, w0);
        ok := SweepToken(env, externals, n, listed[n], to);
        if !ok {
          SweepStuck(env, externals, listed, n + 1, to, w0);
          return false;
        }
      }
      assert listed[..|listed|] == listed;
      return true;
    }

    lemma SweepRound(env: Env, externals: seq<Behaviour>, listed: seq<Address>, n: nat, to: Address, w: World)
      requires n < |listed|
      ensures Sweep(env, externals, listed[..n + 1], to, w) ==
              match Sweep(env, externals, listed[..n], to, w)
              case None => None
              case Some(w1) => SweepOne(env, externals, n, listed[n], to, w1)
    {
      hide SweepOne;
      assert listed[..n + 1][..n] == listed[..n];
    }

    /** A sweep that failed on a token has failed. */
    lemma {:induction false} SweepStuck(env: Env, externals: seq<Behaviour>, listed: seq<Address>, n: nat,
        to: Address, w: World)
      requires n <= |listed| && Sweep(env, externals, listed[..n], to, w).None?
      ensures Sweep(env, externals, listed, to, w).None?
      decreases |listed| - n
    {
      if n < |listed| {
        SweepRound(env, externals, listed, n, to, w);
        SweepStuck(env, externals, listed, n + 1, to, w);
      } else {
        assert listed[..n] == listed;
      }
    }

    method Shut(env: Env, inv: Invocation) returns (r: Reply)
      requires inv.call.Decommission?
      modifies this
      ensures Matches(r, View(), Exec(env, inv, old(View())))
      decreases inv, 0
    {
      hide Sweep, LoadConfig, SweepList, CheckPay, CheckDeposit, CheckRelease, CheckRefund, CheckRescue, TransferOf, CallTransfer;
      var cfg := Load();
      if cfg.None? || !Authorized(cfg.value.admin, inv.auths) || decommissioned { return Err(Panic); }
      if Usdc !in tokens || Xlm !in tokens { return Err(Panic); }
      var listed := ListTokens(inv.call.extraTokens);
      decommissioned := true;
      Save(cfg.value.(paused := true));
      if guard { return Err(Panic); }
      guard := true;
      assert View() == SetGuard(Before(env, inv.auths, inv.call, old(View())), true);
      var swept := SweepAll(env, inv.externals, listed, cfg.value.treasury);
      if !swept { return Err(Panic); }
      guard := false;
      Publish(env, inv.auths, Decommissioned(cfg.value.admin, env.time));
      return Ok(());
    }

    // -------------------------------------------------------------------------
    // The host
    // -------------------------------------------------------------------------

    /** One invocation: it either takes effect as a whole or leaves no trace. */
    method Dispatch(env: Env, inv: Invocation) returns (r: Reply)
      modifies this
      ensures match Exec(env, inv, old(View()))
              case Ok(w) => r == Ok(()) && View() == w
              case Err(f) => r == Err(f) && View() == old(View())
      decreases inv, 1
    {
      hide Check, Direct, View;
      var before := View();
      match inv.call {
        case Pay(_, _, _, _, _) => r := Pay(env, inv);
        case DepositEscrow(_, _, _) => r := Deposit(env, inv);
        case ReleaseEscrow(_, _) => r := Release(env, inv);
        case RefundEscrow(_, _) => r := Refund(env, inv);
        case RescueTokens(_, _, _, _) => r := Rescue(env, inv);
        case Decommission(_) => r := Shut(env, inv);
        case _ => r := Administer(env, inv.auths, inv.call);
      }
      if r.Err? {
        Restore(before);
      }
    }
  }
}
