/** Escrow: the contract can always pay what it holds for others, and each deposit is settled once, exactly. */
module ReceiverEscrow {
  import opened Results
  import opened Receiver
  import opened ReceiverLog
  import opened ReceiverNesting
  import opened ReceiverHistory
  import opened ReceiverShutdown

  // ---------------------------------------------------------------------------
  // Token movements of one guarded call
  // ---------------------------------------------------------------------------

  lemma MoveByVault(w: World, u: World, t: Transfer)
    requires w.vault.balances == u.vault.balances
    ensures Move(w, t).Some? <==> Move(u, t).Some?
    ensures Move(w, t).Some? ==> Move(w, t).value.vault.balances == Move(u, t).value.vault.balances
  {
  }

  /** Whatever its token calls back, a successful call other than the sweep makes exactly its one transfer. */
  lemma OneTransfer(env: Env, inv: Invocation, w: World)
    requires Guarded(inv.call) && !inv.call.Decommission? && Exec(env, inv, w).Ok?
    ensures Check(env, inv.auths, inv.call, w).None?
    ensures var moved := Move(w, TransferOf(env, inv.auths, inv.call, w));
            moved.Some? && Exec(env, inv, w).value.vault.balances == moved.value.vault.balances
  {
    var c := inv.call;
    var ms, mid := GuardedCall(env, inv, w);
    hide Exec, Check, Move, Before, TransferOf, After, Quietly;
    var n := |ms| - 1;
    var locked := SetGuard(Before(env, inv.auths, c, w), true);
    BeforeFrame(env, inv.auths, c, w);
    FoldFrame(env, ms[..n], locked);
    var w1 := Fold(env, ms[..n], locked).value;
    MoveByVault(w1, w, TransferOf(env, inv.auths, c, w));
    AfterFrame(env, inv.auths, c, w, SetGuard(mid, false));
  }

  // ---------------------------------------------------------------------------
  // Sums over the escrow map
  // ---------------------------------------------------------------------------

  type Escrows = map<EscrowKey, Temp<EscrowRecord>>

  function AmountOf(m: Escrows, k: EscrowKey, asset: Asset): int
    requires k in m
  {
    if k.asset == asset then m[k].value.amount else 0
  }

  /** Sum of the amounts held in `asset`. */
  ghost function Held(m: Escrows, asset: Asset): int {
    if m == map[] then 0
    else
      var k :| k in m;
      AmountOf(m, k, asset) + Held(m - {k}, asset)
  }

  lemma {:induction false} HeldMinus(m: Escrows, k: EscrowKey, asset: Asset)
    requires k in m
    ensures Held(m, asset) == AmountOf(m, k, asset) + Held(m - {k}, asset)
    decreases |m|
  {
    var j :| j in m && Held(m, asset) == AmountOf(m, j, asset) + Held(m - {j}, asset);
    if j != k {
      HeldMinus(m - {j}, k, asset);
      HeldMinus(m - {k}, j, asset);
      assert m - {j} - {k} == m - {k} - {j};
      assert AmountOf(m - {j}, k, asset) == AmountOf(m, k, asset);
      assert AmountOf(m - {k}, j, asset) == AmountOf(m, j, asset);
    }
  }

  lemma HeldPut(m: Escrows, k: EscrowKey, v: Temp<EscrowRecord>, asset: Asset)
    ensures Held(m[k := v], asset) == Held(m - {k}, asset) + if k.asset == asset then v.value.amount else 0
  {
    HeldMinus(m[k := v], k, asset);
    assert m[k := v] - {k} == m - {k};
  }

  predicate Positive(m: Escrows) {
    forall k :: k in m ==> m[k].value.amount > 0
  }

  lemma HeldWithout(m: Escrows, k: EscrowKey, asset: Asset)
    requires Positive(m)
    ensures Held(m - {k}, asset) <= Held(m, asset)
  {
    if k in m {
      HeldMinus(m, k, asset);
    } else {
      assert m - {k} == m;
    }
  }

  /** The records still alive at `ledger`. */
  function Live(m: Escrows, ledger: nat): Escrows {
    map k | k in m && m[k].liveUntil >= ledger :: m[k]
  }

  lemma {:induction false} LiveHoldsNoMore(m: Escrows, ledger: nat, asset: Asset)
    requires Positive(m)
    ensures Held(Live(m, ledger), asset) <= Held(m, asset)
    decreases |m|
  {
    if m == map[] {
      assert Live(m, ledger) == m;
    } else {
      var k :| k in m;
      LiveHoldsNoMore(m - {k}, ledger, asset);
      HeldMinus(m, k, asset);
      assert Live(m - {k}, ledger) == Live(m, ledger) - {k};
      if k in Live(m, ledger) {
        HeldMinus(Live(m, ledger), k, asset);
      } else {
        assert Live(m, ledger) - {k} == Live(m, ledger);
      }
    }
  }

  // ---------------------------------------------------------------------------
  // Solvency
  // ---------------------------------------------------------------------------

  predicate TwoTokens(tokens: map<Asset, Address>) {
    Usdc in tokens && Xlm in tokens && tokens[Usdc] != tokens[Xlm]
  }

  /** Both tokens are configured, they differ, and the contract's balance of each covers what it holds. */
  ghost predicate Covers(v: Vault, tokens: map<Asset, Address>) {
    && TwoTokens(tokens)
    && Balance(v, tokens[Usdc], SELF) >= Held(v.escrow, Usdc)
    && Balance(v, tokens[Xlm], SELF) >= Held(v.escrow, Xlm)
  }

  ghost predicate Solvent(w: World) {
    && NonNegative(w.vault) && Positive(w.vault.escrow)
    && if LoadConfig(w.settings.slots).None? then w.settings.tokens == map[] && w.vault.escrow == map[]
       else Covers(w.vault, w.settings.tokens)
  }

  predicate ExitEvent(e: Event) {
    e.Rescued? || e.Decommissioned? || e.TokenUpdated?
  }

  /** An initialized contract keeps its tokens unless one is updated. */
  lemma DirectTokens(env: Env, auths: set<Address>, c: Call, w: World)
    requires LoadConfig(w.settings.slots).Some? && !Guarded(c) && Direct(env, auths, c, w).Ok?
    requires Lacks(w.log, Direct(env, auths, c, w).value.log, ExitEvent)
    ensures var w1 := Direct(env, auths, c, w).value;
            LoadConfig(w1.settings.slots).Some? && w1.settings.tokens == w.settings.tokens
  {
    hide HasAuthority, ValidInit, ValidRate, ValidLimits, AdminGate, StoreRoles, DoTransferAdmin;
    if c.GrantRoles? {
      StoreRolesTokens(env, auths, c.addresses, c.role, w);
    } else if c.TransferAdmin? {
      TransferAdminTokens(env, auths, c.newAdmin, w);
    } else if c.UpdateToken? {
      UpdateTokenShows(env, auths, c.asset, c.newToken, w);
    }
  }

  lemma TransferAdminTokens(env: Env, auths: set<Address>, to: Address, w: World)
    requires DoTransferAdmin(env, auths, to, w).Ok?
    ensures var w1 := DoTransferAdmin(env, auths, to, w).value;
            w1.settings.slots.config.Some? && w1.settings.tokens == w.settings.tokens
  {
    hide LoadConfig;
  }

  lemma UpdateTokenShows(env: Env, auths: set<Address>, asset: Asset, to: Address, w: World)
    requires DoUpdateToken(env, auths, asset, to, w).Ok?
    ensures !Lacks(w.log, DoUpdateToken(env, auths, asset, to, w).value.log, ExitEvent)
  {
    hide LoadConfig;
    assert DoUpdateToken(env, auths, asset, to, w).value.log[|w.log|].event.TokenUpdated?;
  }

  lemma {:induction false} StoreRolesTokens(env: Env, auths: set<Address>, addresses: seq<Address>, role: Role,
      w: World)
    ensures var w1 := StoreRoles(env, auths, addresses, role, w);
            w1.settings == w.settings.(roles := w1.settings.roles)
  {
    if addresses != [] {
      StoreRolesTokens(env, auths, addresses[..|addresses| - 1], role, w);
    }
  }

  lemma {:induction false} FoldTokens(env: Env, ms: seq<Micro>, w: World)
    requires LoadConfig(w.settings.slots).Some? && Fold(env, ms, w).Some?
    requires Lacks(w.log, Fold(env, ms, w).value.log, ExitEvent)
    ensures var w1 := Fold(env, ms, w).value;
            LoadConfig(w1.settings.slots).Some? && w1.settings.tokens == w.settings.tokens
  {
    hide Direct, Move, LoadConfig, Lacks;
    if ms != [] {
      var n := |ms| - 1;
      FoldFrame(env, ms[..n], w);
      var w1 := Fold(env, ms[..n], w).value;
      MicroFrame(env, ms[n], w1);
      LacksSplit(w.log, w1.log, MicroStep(env, ms[n], w1).value.log, ExitEvent);
      FoldTokens(env, ms[..n], w);
      if ms[n].Does? {
        DirectTokens(env, ms[n].auths, ms[n].call, w1);
      }
    }
  }

  /** Initialization and administration. */
  lemma DirectSolvent(env: Env, auths: set<Address>, c: Call, w: World)
    requires Solvent(w) && !Guarded(c) && Direct(env, auths, c, w).Ok?
    requires Lacks(w.log, Direct(env, auths, c, w).value.log, ExitEvent)
    ensures Solvent(Direct(env, auths, c, w).value)
  {
    var w1 := Direct(env, auths, c, w).value;
    DirectFrame(env, auths, c, w);
    hide Quietly, Lacks, Covers;
    if LoadConfig(w.settings.slots).Some? {
      DirectTokens(env, auths, c, w);
      hide Direct;
    } else if c.Init? {
      InitSolvent(env, auths, c, w);
    } else {
      UninitializedTokens(env, auths, c, w);
    }
  }

  lemma InitSolvent(env: Env, auths: set<Address>, c: Call, w: World)
    requires Solvent(w) && LoadConfig(w.settings.slots).None? && c.Init? && DoInit(env, auths, c, w).Ok?
    ensures Solvent(DoInit(env, auths, c, w).value)
  {
    var tokens := DoInit(env, auths, c, w).value.settings.tokens;
    assert tokens[Usdc] == c.usdc && tokens[Xlm] == c.xlm;
    assert Held(w.vault.escrow, Usdc) == 0 && Held(w.vault.escrow, Xlm) == 0;
  }

  /** Before initialization only `init` and an empty renouncement succeed. */
  lemma UninitializedTokens(env: Env, auths: set<Address>, c: Call, w: World)
    requires LoadConfig(w.settings.slots).None? && !Guarded(c) && !c.Init? && Direct(env, auths, c, w).Ok?
    ensures var w1 := Direct(env, auths, c, w).value;
            w1.settings.tokens == w.settings.tokens && w1.settings.slots == w.settings.slots
  {
    hide LoadConfig, HasAuthority, ValidRate, ValidLimits;
  }

  /** What each money call does to the contract's own balance of a token. */
  function OwnChange(env: Env, auths: set<Address>, c: Call, w: World, token: Address): int
    requires Guarded(c) && !c.Decommission? && Check(env, auths, c, w).None?
  {
    var t := TransferOf(env, auths, c, w);
    if t.token != token || t.from == t.to then 0
    else if t.to == SELF then t.amount
    else if t.from == SELF then -t.amount
    else 0
  }

  lemma OwnBalance(env: Env, inv: Invocation, w: World, token: Address)
    requires NonNegative(w.vault) && Guarded(inv.call) && !inv.call.Decommission? && Exec(env, inv, w).Ok?
    ensures Check(env, inv.auths, inv.call, w).None?
    ensures var w1 := Exec(env, inv, w).value;
            NonNegative(w1.vault)
            && Balance(w1.vault, token, SELF) == Balance(w.vault, token, SELF) + OwnChange(env, inv.auths, inv.call,
                w, token)
  {
    OneTransfer(env, inv, w);
    hide Exec, Check, TransferOf, Move;
    var t := TransferOf(env, inv.auths, inv.call, w);
    MoveBalances(w, t);
    SameOwn(Exec(env, inv, w).value.vault, Move(w, t).value.vault, token);
  }

  lemma SameOwn(v: Vault, u: Vault, token: Address)
    requires v.balances == u.balances && NonNegative(u)
    ensures Balance(v, token, SELF) == Balance(u, token, SELF) && NonNegative(v)
  {
  }

  /** The escrow map after a money call. */
  lemma EscrowChange(env: Env, inv: Invocation, w: World)
    requires Guarded(inv.call) && Exec(env, inv, w).Ok?
    ensures var c, m, m1 := inv.call, w.vault.escrow, Exec(env, inv, w).value.vault.escrow;
            if c.DepositEscrow? then
              m1 == m[c.key := Put(Get(m, c.key), EscrowRecord(c.from, c.amount, env.time, ExpiryOf(env.time)),
                                   env, ESCROW_LEDGERS, 2 * ESCROW_LEDGERS)]
            else if c.ReleaseEscrow? || c.RefundEscrow? then m1 == m - {c.key}
            else m1 == m
  {
    var ms, locked, mid := GuardedOutline(env, inv, w);
    hide Exec, Fold, Check, Quietly, ClosingEvent, Put, ExpiryOf, ActivePayments, SetWithdrawn, WithdrawnOn, LoadConfig;
  }

  lemma MoneyCallTokens(env: Env, inv: Invocation, w: World)
    requires Guarded(inv.call) && Exec(env, inv, w).Ok? && !inv.call.Decommission?
    requires LoadConfig(w.settings.slots).Some? && Lacks(w.log, Exec(env, inv, w).value.log, ExitEvent)
    ensures var w1 := Exec(env, inv, w).value;
            LoadConfig(w1.settings.slots).Some? && w1.settings.tokens == w.settings.tokens
  {
    var ms, locked, mid := GuardedOutline(env, inv, w);
    hide Exec, Fold, Check, After, ClosingEvent, LoadConfig, Before;
    BeforeFrame(env, inv.auths, inv.call, w);
    assert Prefix(w.log, mid.log);
    LacksSplit(w.log, mid.log, Exec(env, inv, w).value.log, ExitEvent);
    FoldTokens(env, ms, locked);
  }

  /** How the sum held in one asset moves with the contract's own balance of that asset's token. */
  lemma HeldFollowsBalance(env: Env, inv: Invocation, w: World, asset: Asset)
    requires Covers(w.vault, w.settings.tokens) && Positive(w.vault.escrow)
    requires Guarded(inv.call) && !inv.call.Decommission? && !inv.call.RescueTokens? && Exec(env, inv, w).Ok?
    ensures Check(env, inv.auths, inv.call, w).None?
    ensures var m1 := Exec(env, inv, w).value.vault.escrow;
            && Positive(m1)
            && Held(m1, asset) - Held(w.vault.escrow, asset) <= OwnChange(env, inv.auths, inv.call, w,
                w.settings.tokens[asset])
  {
    OneTransfer(env, inv, w);
    EscrowChange(env, inv, w);
    CoversTokens(w.vault, w.settings.tokens);
    hide Exec, Move, Covers, Held, Check, Positive, OwnChange, Put, TransferOf;
    if inv.call.DepositEscrow? {
      DepositHeld(env, inv.auths, inv.call, w, asset);
    } else if inv.call.Pay? {
      PayHeld(env, inv.auths, inv.call, w, asset);
    } else {
      SettleHeld(env, inv.auths, inv.call, w, asset);
    }
  }

  lemma PayHeld(env: Env, auths: set<Address>, c: Call, w: World, asset: Asset)
    requires c.Pay? && Check(env, auths, c, w).None? && TwoTokens(w.settings.tokens)
    requires Move(w, TransferOf(env, auths, c, w)).Some?
    ensures OwnChange(env, auths, c, w, w.settings.tokens[asset]) >= 0
  {
    hide CheckDeposit, CheckRelease, CheckRefund, CheckRescue, CheckDecommission, LoadConfig, WithinBounds, ActivePayments;
  }

  lemma DepositHeld(env: Env, auths: set<Address>, c: Call, w: World, asset: Asset)
    requires c.DepositEscrow? && Check(env, auths, c, w).None? && TwoTokens(w.settings.tokens) && Positive(w.vault.escrow)
    ensures var m, record := w.vault.escrow, EscrowRecord(c.from, c.amount, env.time, ExpiryOf(env.time));
            var m1 := m[c.key := Put(Get(m, c.key), record, env, ESCROW_LEDGERS, 2 * ESCROW_LEDGERS)];
            && Positive(m1)
            && Held(m1, asset) - Held(m, asset) <= OwnChange(env, auths, c, w, w.settings.tokens[asset])
  {
    hide CheckPay, CheckRelease, CheckRefund, CheckRescue, CheckDecommission, LoadConfig, Held, ExpiryOf;
    var m, record := w.vault.escrow, EscrowRecord(c.from, c.amount, env.time, ExpiryOf(env.time));
    var v := Put(Get(m, c.key), record, env, ESCROW_LEDGERS, 2 * ESCROW_LEDGERS);
    HeldPut(m, c.key, v, asset);
    HeldWithout(m, c.key, asset);
  }

  lemma SettleHeld(env: Env, auths: set<Address>, c: Call, w: World, asset: Asset)
    requires (c.ReleaseEscrow? || c.RefundEscrow?) && Check(env, auths, c, w).None?
    requires TwoTokens(w.settings.tokens) && Positive(w.vault.escrow)
    ensures var m1 := w.vault.escrow - {c.key};
            && Positive(m1)
            && Held(m1, asset) - Held(w.vault.escrow, asset) <= OwnChange(env, auths, c, w, w.settings.tokens[asset])
  {
    hide CheckPay, CheckDeposit, CheckRescue, CheckDecommission, LoadConfig, Held, HasAuthority;
    HeldMinus(w.vault.escrow, c.key, asset);
  }

  lemma CoversTokens(v: Vault, tokens: map<Asset, Address>)
    requires Covers(v, tokens)
    ensures TwoTokens(tokens)
  {
  }

  lemma MoneyCallSolvent(env: Env, inv: Invocation, w: World)
    requires Solvent(w) && Guarded(inv.call) && Exec(env, inv, w).Ok?
    requires Lacks(w.log, Exec(env, inv, w).value.log, ExitEvent)
    ensures Solvent(Exec(env, inv, w).value)
  {
    hide Exec, Held, OwnChange, Lacks, LoadConfig;
    var w1, c := Exec(env, inv, w).value, inv.call;
    ClosesWith(env, inv, w);
    InitializedForMoney(env, inv, w);
    hide Check;
    var tokens := w.settings.tokens;
    MoneyCallTokens(env, inv, w);
    OwnBalance(env, inv, w, tokens[Usdc]);
    OwnBalance(env, inv, w, tokens[Xlm]);
    HeldFollowsBalance(env, inv, w, Usdc);
    HeldFollowsBalance(env, inv, w, Xlm);
  }

  /** A rescue or a decommission shows in the log. */
  lemma ClosesWith(env: Env, inv: Invocation, w: World)
    requires Guarded(inv.call) && Exec(env, inv, w).Ok? && Lacks(w.log, Exec(env, inv, w).value.log, ExitEvent)
    ensures !inv.call.RescueTokens? && !inv.call.Decommission?
  {
    var ms, locked, mid := GuardedOutline(env, inv, w);
    hide Exec, Fold, Check, After, Before;
    assert Exec(env, inv, w).value.log[|mid.log|].event == ClosingEvent(env, inv.auths, inv.call, w);
  }

  lemma InitializedForMoney(env: Env, inv: Invocation, w: World)
    requires Solvent(w) && Guarded(inv.call) && Exec(env, inv, w).Ok?
    ensures LoadConfig(w.settings.slots).Some?
  {
    var ms, mid := GuardedCall(env, inv, w);
    hide Exec, Fold, Before, After, TransferOf, Covers, LoadConfig;
  }

  lemma StepSolvent(c: Chain, s: Step)
    requires Solvent(c.world) && CanStep(c, s) && Lacks(c.world.log, Next(c, s).world.log, ExitEvent)
    ensures Solvent(Next(c, s).world)
  {
    hide Exec, Direct, Held, Lacks, LoadConfig, Move;
    if s.Outside? {
      if Move(c.world, s.transfer).Some? { OutsideSolvent(c.world, s.transfer); }
    } else if Exec(s.env, s.invocation, c.world).Ok? {
      if Guarded(s.invocation.call) {
        MoneyCallSolvent(s.env, s.invocation, c.world);
      } else {
        UnguardedExec(s.env, s.invocation, c.world);
        DirectSolvent(s.env, s.invocation.auths, s.invocation.call, c.world);
      }
    }
  }

  lemma OutsideSolvent(w: World, t: Transfer)
    requires Solvent(w) && t.from != SELF && Move(w, t).Some?
    ensures Solvent(Move(w, t).value)
  {
    hide Held, LoadConfig;
    MoveBalances(w, t);
    assert Move(w, t).value.vault.escrow == w.vault.escrow && Move(w, t).value.settings == w.settings;
    assert t.amount >= 0;
    hide Move, Balance;
  }

  lemma {:induction false} RunSolvent(c: Chain, steps: seq<Step>)
    requires Solvent(c.world) && Run(c, steps).Some? && Lacks(c.world.log, Run(c, steps).value.world.log, ExitEvent)
    ensures Solvent(Run(c, steps).value.world)
  {
    hide Solvent, Next, CanStep, Lacks;
    if steps != [] {
      var n := |steps| - 1;
      var d := Run(c, steps[..n]).value;
      RunLog(c, steps[..n]);
      StepLog(d, steps[n]);
      LacksSplit(c.world.log, d.world.log, Next(d, steps[n]).world.log, ExitEvent);
      RunSolvent(c, steps[..n]);
      StepSolvent(d, steps[n]);
    }
  }

  /**
   * From deployment, as long as nothing was rescued, swept or repointed, the contract's balance of each
   * token covers the sum of all escrow records in that asset, and so of the live ones.
   */
  lemma EscrowIsSolvent(c: Chain, steps: seq<Step>, asset: Asset, ledger: nat)
    requires Deployed(c) && Run(c, steps).Some? && Lacks([], Run(c, steps).value.world.log, ExitEvent)
    ensures var w := Run(c, steps).value.world;
            LoadConfig(w.settings.slots).Some? ==>
              asset in w.settings.tokens
              && Balance(w.vault, w.settings.tokens[asset], SELF) >= Held(w.vault.escrow,
                  asset) >= Held(Live(w.vault.escrow, ledger), asset)
  {
    hide Run, LoadConfig, Held, Lacks, Live;
    assert Solvent(c.world) by { DeployedSolvent(c); }
    RunSolvent(c, steps);
    LiveHoldsNoMore(Run(c, steps).value.world.vault.escrow, ledger, asset);
  }

  lemma DeployedSolvent(c: Chain)
    requires Deployed(c)
    ensures Solvent(c.world)
  {
  }

  // ---------------------------------------------------------------------------
  // Nothing open is lost
  // ---------------------------------------------------------------------------

  /** An open deposit is still stored, and lives at least its timelock. */
  predicate Kept(v: Vault, open: Option<Entry>, key: EscrowKey) {
    open.Some? ==> key in v.escrow && v.escrow[key].liveUntil >= open.value.ledger + 120_960
  }

  ghost predicate AllKept(w: World) {
    forall key :: Kept(w.vault, OpenDeposit(w.log, key), key)
  }

  lemma ExecKept(env: Env, inv: Invocation, w: World, key: EscrowKey)
    requires Kept(w.vault, OpenDeposit(w.log, key), key) && Exec(env, inv, w).Ok?
    ensures Kept(Exec(env, inv, w).value.vault, OpenDeposit(Exec(env, inv, w).value.log, key), key)
  {
    var w1, c := Exec(env, inv, w).value, inv.call;
    if Guarded(c) {
      var ms, locked, mid := GuardedOutline(env, inv, w);
      EscrowChange(env, inv, w);
      hide Exec, Fold, Check, Quietly, Before, After, OpenDeposit, LoadConfig, LiveEscrow;
      QuietOpenDeposit(env, w.log, mid.log, key);
      OpenDepositAppend(mid.log, w1.log[|mid.log|], key);
    } else {
      UnguardedExec(env, inv, w);
      DirectFrame(env, inv.auths, c, w);
      QuietOpenDeposit(env, w.log, w1.log, key);
    }
  }

  lemma StepKept(c: Chain, s: Step)
    requires AllKept(c.world)
    ensures AllKept(Next(c, s).world)
  {
    hide Exec, OpenDeposit, Kept;
    if s.Invoke? && Exec(s.env, s.invocation, c.world).Ok? {
      forall key ensures Kept(Next(c, s).world.vault, OpenDeposit(Next(c, s).world.log, key), key) {
        ExecKept(s.env, s.invocation, c.world, key);
      }
    } else if s.Outside? && Move(c.world, s.transfer).Some? {
      forall key ensures Kept(Next(c, s).world.vault, OpenDeposit(Next(c, s).world.log, key), key) {
        MoveKept(c.world, s.transfer, key);
      }
    }
  }

  lemma MoveKept(w: World, t: Transfer, key: EscrowKey)
    requires Kept(w.vault, OpenDeposit(w.log, key), key) && Move(w, t).Some?
    ensures Kept(Move(w, t).value.vault, OpenDeposit(Move(w, t).value.log, key), key)
  {
    hide OpenDeposit;
  }

  lemma {:induction false} RunKept(c: Chain, steps: seq<Step>)
    requires AllKept(c.world) && Run(c, steps).Some?
    ensures AllKept(Run(c, steps).value.world)
  {
    hide AllKept, Next, CanStep;
    if steps != [] {
      RunKept(c, steps[..|steps| - 1]);
      StepKept(Run(c, steps[..|steps| - 1]).value, steps[|steps| - 1]);
    }
  }

  /**
   * Storage and log agree on escrow: within a deposit's timelock lifetime, a record is live under a key
   * exactly when the log shows an open deposit there, and the record is that deposit.
   */
  lemma LiveIffOpen(c: Chain, steps: seq<Step>, key: EscrowKey)
    requires Deployed(c) && Run(c, steps).Some?
    ensures var d := Run(c, steps).value;
            var open, live := OpenDeposit(d.world.log, key), LiveEscrow(d.world.vault, key, d.ledger);
            && (live.Some? ==> Backed(open, key, live.value))
            && (open.Some? && d.ledger <= open.value.ledger + 120_960 ==> live.Some?)
  {
    hide Run, OpenDeposit, ViewOf, Replay, Legal, DiscountsBounded, Backed;
    LogIsHistory(c, steps);
    assert AllKept(c.world) by { DeployedKept(c); }
    RunKept(c, steps);
    var w := Run(c, steps).value.world;
    assert Kept(w.vault, OpenDeposit(w.log, key), key);
  }

  lemma DeployedKept(c: Chain)
    requires Deployed(c)
    ensures AllKept(c.world)
  {
  }
}
