/** Every reachable world is described by its own log: the log is legal, and replaying it gives the configuration. */
module ReceiverHistory {
  import opened Results
  import opened Receiver
  import opened ReceiverLog
  import opened ReceiverNesting
  import Fees

  // ---------------------------------------------------------------------------
  // The invariant
  // ---------------------------------------------------------------------------

  /** While `decommission` sweeps, storage is one event ahead of the log. */
  function Shown(v: View, sweeping: bool): View {
    if sweeping then SetPaused(v, true).(decommissioned := true) else v
  }

  /** A stored escrow record is the open deposit the log shows under its key. */
  predicate Backed(open: Option<Entry>, key: EscrowKey, r: EscrowRecord) {
    && open.Some? && open.value.event == Deposited(key, r.payer, r.amount)
    && r.amount > 0 && r.payer != SELF
    && r.depositedAt == open.value.time
    && r.expiresAt == (if r.depositedAt + 604_800 < 0xffff_ffff_ffff_ffff then r.depositedAt + 604_800 else 0xffff_ffff_ffff_ffff)
  }

  predicate EscrowBacked(w: World) {
    forall k :: k in w.vault.escrow ==> Backed(OpenDeposit(w.log, k), k, w.vault.escrow[k].value)
  }

  predicate DiscountsBounded(w: World) {
    forall a :: a in w.settings.discounts ==> w.settings.discounts[a] <= Fees.BPS
  }

  predicate Sound(w: World, sweeping: bool) {
    && Legal(w.log)
    && ViewOf(w) == Shown(Replay(w.log), sweeping)
    && (sweeping ==> w.settings.slots.config.Some?)
    && EscrowBacked(w)
    && DiscountsBounded(w)
  }

  lemma DeployedSound(c: Chain)
    requires Deployed(c)
    ensures Sound(c.world, false)
  {
  }

  // ---------------------------------------------------------------------------
  // Unguarded entrypoints
  // ---------------------------------------------------------------------------

  /** Appending a permitted event whose effect on the view is the effect on storage keeps the invariant. */
  lemma Appended(w: World, w1: World, e: Entry, sweeping: bool)
    requires Sound(w, sweeping)
    requires w1.log == w.log + [e] && w1.vault.escrow == w.vault.escrow && w1.settings.discounts == w.settings.discounts
    requires Permitted(Replay(w.log), e) && !EscrowEvent(e.event)
    requires ViewOf(w1) == Shown(Apply(Replay(w.log), e.event), sweeping)
    requires sweeping ==> w1.settings.slots.config.Some?
    ensures Sound(w1, sweeping)
  {
    hide Legal, Replay, Apply, Permitted, ViewOf, Shown, OpenDeposit, Backed;
    ReplayAppend(w.log, e);
    forall k | k in w1.vault.escrow ensures OpenDeposit(w1.log, k) == OpenDeposit(w.log, k) {
      OpenDepositAppend(w.log, e, k);
    }
  }

  lemma InitSound(env: Env, auths: set<Address>, c: Call, w: World, sweeping: bool)
    requires Sound(w, sweeping) && c.Init? && DoInit(env, auths, c, w).Ok?
    ensures Sound(DoInit(env, auths, c, w).value, sweeping)
  {
    hide Legal, Replay, EscrowBacked, DiscountsBounded;
    Appended(w, DoInit(env, auths, c, w).value, Entry(Inited(c.admin, c.treasury, c.usdc, c.xlm), env.ledger,
        env.time, auths), sweeping);
  }

  lemma PauseSound(env: Env, auths: set<Address>, caller: Address, w: World, sweeping: bool)
    requires Sound(w, sweeping) && DoPause(env, auths, caller, w).Ok?
    ensures Sound(DoPause(env, auths, caller, w).value, sweeping)
  {
    hide Legal, Replay, EscrowBacked, DiscountsBounded;
    if !LoadConfig(w.settings.slots).value.paused {
      Appended(w, DoPause(env, auths, caller, w).value, Entry(Paused(caller), env.ledger, env.time, auths), sweeping);
    }
  }

  lemma UnpauseSound(env: Env, auths: set<Address>, w: World, sweeping: bool)
    requires Sound(w, sweeping) && DoUnpause(env, auths, w).Ok?
    ensures Sound(DoUnpause(env, auths, w).value, sweeping)
  {
    hide Legal, Replay, EscrowBacked, DiscountsBounded;
    var cfg := LoadConfig(w.settings.slots).value;
    if cfg.paused {
      Appended(w, DoUnpause(env, auths, w).value, Entry(Unpaused(cfg.admin), env.ledger, env.time, auths), sweeping);
    }
  }

  lemma UpdateTreasurySound(env: Env, auths: set<Address>, to: Address, w: World, sweeping: bool)
    requires Sound(w, sweeping) && DoUpdateTreasury(env, auths, to, w).Ok?
    ensures Sound(DoUpdateTreasury(env, auths, to, w).value, sweeping)
  {
    hide Legal, Replay, EscrowBacked, DiscountsBounded;
    var cfg := LoadConfig(w.settings.slots).value;
    var e := Entry(TreasuryUpdated(cfg.treasury, to, cfg.admin), env.ledger, env.time, auths);
    Appended(w, DoUpdateTreasury(env, auths, to, w).value, e, sweeping);
  }

  lemma UpdateTokenSound(env: Env, auths: set<Address>, asset: Asset, to: Address, w: World, sweeping: bool)
    requires Sound(w, sweeping) && DoUpdateToken(env, auths, asset, to, w).Ok?
    ensures Sound(DoUpdateToken(env, auths, asset, to, w).value, sweeping)
  {
    hide Legal, Replay, EscrowBacked, DiscountsBounded;
    var cfg := LoadConfig(w.settings.slots).value;
    var e := Entry(TokenUpdated(asset, w.settings.tokens[asset], to, cfg.admin), env.ledger, env.time, auths);
    Appended(w, DoUpdateToken(env, auths, asset, to, w).value, e, sweeping);
  }

  lemma StoreRoleSound(env: Env, auths: set<Address>, a: Address, role: Role, w: World, sweeping: bool)
    requires Sound(w, sweeping) && AdminActs(ViewOf(w), auths) && !w.vault.decommissioned
    ensures var w1 := StoreRole(env, auths, a, role, w);
            Sound(w1, sweeping) && w1.settings.slots == w.settings.slots && w1.vault == w.vault
            && w1.settings.roles == w.settings.roles[a := role]
  {
    hide Legal, Replay, EscrowBacked, DiscountsBounded;
    if Get(w.settings.roles, a) != Some(role) {
      Appended(w, StoreRole(env, auths, a, role, w), Entry(RoleGranted(a, role), env.ledger, env.time, auths),
          sweeping);
    } else {
      assert w.settings.roles == w.settings.roles[a := role];
    }
  }

  lemma {:induction false} StoreRolesSound(env: Env, auths: set<Address>, addresses: seq<Address>, role: Role,
      w: World, sweeping: bool)
    requires Sound(w, sweeping) && AdminActs(ViewOf(w), auths) && !w.vault.decommissioned
    ensures var w1 := StoreRoles(env, auths, addresses, role, w);
            Sound(w1, sweeping) && w1.settings.slots == w.settings.slots && w1.vault == w.vault
  {
    hide Sound, StoreRole;
    if addresses != [] {
      var n := |addresses| - 1;
      StoreRolesSound(env, auths, addresses[..n], role, w, sweeping);
      StoreRoleSound(env, auths, addresses[n], role, StoreRoles(env, auths, addresses[..n], role, w), sweeping);
    }
  }

  lemma RemoveRoleSound(env: Env, auths: set<Address>, a: Address, renounced: bool, w: World, sweeping: bool)
    requires Sound(w, sweeping)
    requires if renounced then Authorized(a, auths) else AdminActs(ViewOf(w), auths) && !w.vault.decommissioned
    ensures var w1 := RemoveRole(env, auths, a, renounced, w);
            Sound(w1, sweeping) && w1.settings.slots == w.settings.slots && w1.vault == w.vault
            && w1.settings.roles == w.settings.roles - {a}
  {
    hide Legal, Replay, EscrowBacked, DiscountsBounded;
    if a in w.settings.roles {
      var role := w.settings.roles[a];
      var event := if renounced then RoleRenounced(a, role) else RoleRevoked(a, role);
      Appended(w, RemoveRole(env, auths, a, renounced, w), Entry(event, env.ledger, env.time, auths), sweeping);
    } else {
      assert w.settings.roles == w.settings.roles - {a};
    }
  }

  lemma TransferAdminSound(env: Env, auths: set<Address>, to: Address, w: World, sweeping: bool)
    requires Sound(w, sweeping) && DoTransferAdmin(env, auths, to, w).Ok?
    ensures Sound(DoTransferAdmin(env, auths, to, w).value, sweeping)
  {
    hide Legal, Replay, EscrowBacked, DiscountsBounded, StoreRole, RemoveRole;
    var cfg := LoadConfig(w.settings.slots).value;
    var w1 := w;
    if cfg.admin != to && Get(w.settings.roles, cfg.admin) == Some(Admin) {
      RemoveRoleSound(env, auths, cfg.admin, false, w, sweeping);
      w1 := RemoveRole(env, auths, cfg.admin, false, w);
    }
    StoreRoleSound(env, auths, to, Admin, w1, sweeping);
    var w2 := StoreRole(env, auths, to, Admin, w1);
    var e := Entry(AdminTransferred(cfg.admin, to), env.ledger, env.time, auths);
    Appended(w2, DoTransferAdmin(env, auths, to, w).value, e, sweeping);
  }

  lemma SetBlacklistedSound(env: Env, auths: set<Address>, caller: Address, account: Address, status: bool, w: World,
      sweeping: bool)
    requires Sound(w, sweeping) && DoSetBlacklisted(env, auths, caller, account, status, w).Ok?
    ensures Sound(DoSetBlacklisted(env, auths, caller, account, status, w).value, sweeping)
  {
    hide Legal, Replay, EscrowBacked, DiscountsBounded;
    if (account in w.settings.blacklist) != status {
      var e := Entry(if status then Blacklisted(account, caller) else Unblacklisted(account, caller), env.ledger,
          env.time, auths);
      Appended(w, DoSetBlacklisted(env, auths, caller, account, status, w).value, e, sweeping);
    }
  }

  lemma SetDiscountSound(auths: set<Address>, caller: Address, account: Address, bps: nat, w: World, sweeping: bool)
    requires Sound(w, sweeping) && DoSetDiscount(auths, caller, account, bps, w).Ok?
    ensures Sound(DoSetDiscount(auths, caller, account, bps, w).value, sweeping)
  {
    hide Legal, Replay, OpenDeposit, Backed, HasAuthority;
  }

  lemma LimitsSound(env: Env, auths: set<Address>, c: Call, w: World, sweeping: bool)
    requires Sound(w, sweeping) && (c.SetRateLimit? || c.SetPaymentLimits? || c.SetWithdrawLimits?)
    requires Direct(env, auths, c, w).Ok?
    ensures Sound(Direct(env, auths, c, w).value, sweeping)
  {
    hide Legal, Replay, EscrowBacked, DiscountsBounded, ValidRate, ValidLimits, HasAuthority, SetPaused;
    var event :=
      if c.SetRateLimit? then RateLimitSet(c.caller, c.rate)
      else if c.SetPaymentLimits? then PaymentLimitsSet(c.caller, c.named.value, c.bounds)
      else WithdrawLimitsSet(c.caller, c.limits);
    Appended(w, Direct(env, auths, c, w).value, Entry(event, env.ledger, env.time, auths), sweeping);
  }

  lemma DirectSound(env: Env, auths: set<Address>, c: Call, w: World, sweeping: bool)
    requires Sound(w, sweeping) && !Guarded(c) && Direct(env, auths, c, w).Ok?
    ensures Sound(Direct(env, auths, c, w).value, sweeping)
  {
    hide Sound, DoInit, DoPause, DoUnpause, DoUpdateTreasury, DoUpdateToken, DoTransferAdmin, DoSetBlacklisted,
      DoSetDiscount, DoSetRateLimit, DoSetPaymentLimits, DoSetWithdrawLimits, StoreRoles, RemoveRole;
    match c {
      case Init(_, _, _, _, _) => InitSound(env, auths, c, w, sweeping);
      case Pause(caller) => PauseSound(env, auths, caller, w, sweeping);
      case Unpause => UnpauseSound(env, auths, w, sweeping);
      case UpdateTreasury(to) => UpdateTreasurySound(env, auths, to, w, sweeping);
      case UpdateToken(asset, to) => UpdateTokenSound(env, auths, asset, to, w, sweeping);
      case GrantRoles(addresses, role) => StoreRolesSound(env, auths, addresses, role, w, sweeping);
      case RevokeRole(a) => RemoveRoleSound(env, auths, a, false, w, sweeping);
      case RenounceRole(a) => RemoveRoleSound(env, auths, a, true, w, sweeping);
      case TransferAdmin(to) => TransferAdminSound(env, auths, to, w, sweeping);
      case SetBlacklisted(caller, account, status) => SetBlacklistedSound(env, auths, caller, account, status, w,
          sweeping);
      case SetDiscount(caller, account, bps) => SetDiscountSound(auths, caller, account, bps, w, sweeping);
      case _ => LimitsSound(env, auths, c, w, sweeping);
    }
  }

  lemma {:induction false} FoldSound(env: Env, ms: seq<Micro>, w: World, sweeping: bool)
    requires Sound(w, sweeping) && Fold(env, ms, w).Some?
    ensures Sound(Fold(env, ms, w).value, sweeping)
  {
    hide Sound, Direct, Move;
    if ms != [] {
      var n := |ms| - 1;
      FoldSound(env, ms[..n], w, sweeping);
      var w1 := Fold(env, ms[..n], w).value;
      if ms[n].Does? {
        DirectSound(env, ms[n].auths, ms[n].call, w1, sweeping);
      } else {
        MoveSound(w1, ms[n].transfer, sweeping);
      }
    }
  }

  lemma MoveSound(w: World, t: Transfer, sweeping: bool)
    requires Sound(w, sweeping) && Move(w, t).Some?
    ensures Sound(Move(w, t).value, sweeping)
  {
    hide Legal, Replay, OpenDeposit, Backed;
  }

  // ---------------------------------------------------------------------------
  // A decommissioned contract
  // ---------------------------------------------------------------------------

  predicate Dead(w: World) {
    && w.vault.decommissioned
    && LoadConfig(w.settings.slots).Some? && LoadConfig(w.settings.slots).value.paused
  }

  function AdminOf(w: World): Option<Address> {
    match LoadConfig(w.settings.slots)
    case Some(cfg) => Some(cfg.admin)
    case None => None
  }

  predicate RolesShrink(from: map<Address, Role>, to: map<Address, Role>) {
    forall a :: a in to ==> a in from && to[a] == from[a]
  }

  lemma DirectWhenDead(env: Env, auths: set<Address>, c: Call, w: World)
    requires Dead(w) && !Guarded(c) && Direct(env, auths, c, w).Ok?
    ensures var w1 := Direct(env, auths, c, w).value;
            Dead(w1) && AdminOf(w1) == AdminOf(w) && RolesShrink(w.settings.roles, w1.settings.roles)
  {
    hide HasAuthority, ValidInit, ValidRate, ValidLimits, StoreRoles;
  }

  lemma {:induction false} FoldWhenDead(env: Env, ms: seq<Micro>, w: World)
    requires Dead(w) && Fold(env, ms, w).Some?
    ensures var w1 := Fold(env, ms, w).value;
            Dead(w1) && AdminOf(w1) == AdminOf(w) && RolesShrink(w.settings.roles, w1.settings.roles)
  {
    hide Dead, AdminOf, Direct;
    if ms != [] {
      var n := |ms| - 1;
      FoldWhenDead(env, ms[..n], w);
      var w1 := Fold(env, ms[..n], w).value;
      if ms[n].Does? {
        DirectWhenDead(env, ms[n].auths, ms[n].call, w1);
      } else {
        MoveWhenDead(w1, ms[n].transfer);
      }
    }
  }

  lemma MoveWhenDead(w: World, t: Transfer)
    requires Dead(w) && Move(w, t).Some?
    ensures Dead(Move(w, t).value) && AdminOf(Move(w, t).value) == AdminOf(w)
    ensures Move(w, t).value.settings == w.settings
  {
  }

  // ---------------------------------------------------------------------------
  // Guarded entrypoints
  // ---------------------------------------------------------------------------

  lemma BeforeSound(env: Env, auths: set<Address>, c: Call, w: World)
    requires Sound(w, false) && Guarded(c) && Check(env, auths, c, w).None?
    ensures Sound(SetGuard(Before(env, auths, c, w), true), c.Decommission?)
  {
    hide Legal, Replay, OpenDeposit, Backed, CheckPay, CheckDeposit, CheckRelease, CheckRefund, CheckRescue;
  }

  /** Events that settle or open an escrow. */
  lemma EscrowAppended(w: World, w1: World, e: Entry)
    requires Sound(w, false)
    requires w1.log == w.log + [e] && w1.settings == w.settings && w1.vault.decommissioned == w.vault.decommissioned
    requires Permitted(Replay(w.log), e) && EscrowEvent(e.event)
    requires Settlement(e.event) ==> Settles(OpenDeposit(w.log, e.event.key), e.event)
    requires forall k :: k in w1.vault.escrow && k != e.event.key ==> k in w.vault.escrow && w1.vault.escrow[k] == w.vault.escrow[k]
    requires e.event.key in w1.vault.escrow ==>
               e.event.Deposited? && Backed(Some(e), e.event.key, w1.vault.escrow[e.event.key].value)
    ensures Sound(w1, false)
  {
    hide Legal, Permitted, Settles, OpenDeposit, Backed;
    ReplayAppend(w.log, e);
    hide Replay;
    forall k | k in w1.vault.escrow ensures Backed(OpenDeposit(w1.log, k), k, w1.vault.escrow[k].value) {
      OpenDepositAppend(w.log, e, k);
    }
  }

  lemma {:induction false} QuietOpenDeposit(env: Env, before: seq<Entry>, after: seq<Entry>, key: EscrowKey)
    requires Quietly(env, before, after)
    ensures OpenDeposit(after, key) == OpenDeposit(before, key)
    decreases |after|
  {
    if |after| == |before| {
      assert after == before;
    } else {
      var n := |after| - 1;
      assert after[..n][..|before|] == before;
      QuietOpenDeposit(env, before, after[..n], key);
    }
  }

  /** Late writes of payments, deposits and rescues. */
  lemma AfterPlainSound(env: Env, auths: set<Address>, c: Call, w0: World, w: World)
    requires Sound(w, false) && (c.Pay? || c.DepositEscrow? || c.RescueTokens?) && Check(env, auths, c, w0).None?
    ensures Sound(After(env, auths, c, w0, w), false)
  {
    hide Legal, Replay, EscrowBacked, OpenDeposit, DiscountsBounded, ActivePayments, LoadConfig, WithinBounds;
    var w1 := After(env, auths, c, w0, w);
    var e := w1.log[|w.log|];
    if c.DepositEscrow? {
      EscrowBackedHere(w);
      EscrowAppended(w, w1, e);
    } else {
      Appended(w, w1, e, false);
    }
  }

  lemma EscrowBackedHere(w: World)
    requires Sound(w, false)
    ensures EscrowBacked(w)
  {
  }

  lemma AfterSettleSound(env: Env, auths: set<Address>, c: Call, w0: World, w: World)
    requires Sound(w0, false) && Sound(w, false) && (c.ReleaseEscrow? || c.RefundEscrow?)
    requires Check(env, auths, c, w0).None? && Quietly(env, w0.log,
        w.log) && w.vault.escrow == w0.vault.escrow - {c.key}
    ensures Sound(After(env, auths, c, w0, w), false)
  {
    hide Legal, Replay, OpenDeposit, DiscountsBounded, HasAuthority, LoadConfig, Quietly;
    var w1 := After(env, auths, c, w0, w);
    QuietOpenDeposit(env, w0.log, w.log, c.key);
    assert Backed(OpenDeposit(w0.log, c.key), c.key, w0.vault.escrow[c.key].value);
    EscrowAppended(w, w1, w1.log[|w.log|]);
  }

  lemma ApplyKeepsAlive(v: View, e: Event)
    requires !e.Decommissioned?
    ensures Apply(v, e).decommissioned == v.decommissioned
  {
  }

  lemma {:induction false} QuietReplay(env: Env, before: seq<Entry>, after: seq<Entry>)
    requires Quietly(env, before, after)
    ensures Replay(after).decommissioned == Replay(before).decommissioned
    decreases |after|
  {
    if |after| == |before| {
      assert after == before;
    } else {
      var n := |after| - 1;
      assert after[..n][..|before|] == before;
      QuietReplay(env, before, after[..n]);
      ApplyKeepsAlive(Replay(after[..n]), after[n].event);
      hide Apply;
    }
  }

  lemma AfterDecommissionSound(env: Env, auths: set<Address>, c: Call, w0: World, w: World)
    requires Sound(w0, false) && Sound(w, true) && c.Decommission? && Check(env, auths, c, w0).None?
    requires Dead(w) && AdminOf(w) == AdminOf(w0) && Quietly(env, w0.log, w.log)
    ensures Sound(After(env, auths, c, w0, w), false)
  {
    hide Legal, Replay, EscrowBacked, DiscountsBounded, OpenDeposit, Quietly;
    var e := Entry(Decommissioned(LoadConfig(w0.settings.slots).value.admin, env.time), env.ledger, env.time, auths);
    assert After(env, auths, c, w0, w) == w.(log := w.log + [e]);
    QuietReplay(env, w0.log, w.log);
    ReplayAppend(w.log, e);
    BackedStays(w, e);
    DiscountsStay(w, w.(log := w.log + [e]));
  }

  lemma BackedStays(w: World, e: Entry)
    requires EscrowBacked(w) && !EscrowEvent(e.event)
    ensures EscrowBacked(w.(log := w.log + [e]))
  {
    hide OpenDeposit, Backed;
    forall k | k in w.vault.escrow ensures OpenDeposit(w.log + [e], k) == OpenDeposit(w.log, k) {
      OpenDepositAppend(w.log, e, k);
    }
  }

  lemma DiscountsStay(w: World, w1: World)
    requires DiscountsBounded(w) && w1.settings == w.settings
    ensures DiscountsBounded(w1)
  {
  }

  // ---------------------------------------------------------------------------
  // Calls and runs
  // ---------------------------------------------------------------------------

  lemma GuardedSound(env: Env, inv: Invocation, w: World)
    requires Sound(w, false) && Guarded(inv.call) && Exec(env, inv, w).Ok?
    ensures Sound(Exec(env, inv, w).value, false)
  {
    var c := inv.call;
    var ms, mid := GuardedCall(env, inv, w);
    hide Exec, Sound, Fold, After, Check, Quietly, Dead, AdminOf;
    var locked := SetGuard(Before(env, inv.auths, c, w), true);
    BeforeSound(env, inv.auths, c, w);
    FoldSound(env, ms, locked, c.Decommission?);
    FoldFrame(env, ms, locked);
    var w1 := SetGuard(mid, false);
    UnlockSound(mid, c.Decommission?);
    if c.Decommission? {
      BeforeDead(env, inv.auths, c, w);
      FoldWhenDead(env, ms, locked);
      UnlockDead(mid);
      AfterDecommissionSound(env, inv.auths, c, w, w1);
    } else if c.ReleaseEscrow? || c.RefundEscrow? {
      AfterSettleSound(env, inv.auths, c, w, w1);
    } else {
      AfterPlainSound(env, inv.auths, c, w, w1);
    }
  }

  lemma UnlockSound(w: World, sweeping: bool)
    requires Sound(w, sweeping)
    ensures Sound(SetGuard(w, false), sweeping)
  {
    hide Legal, Replay, OpenDeposit, Backed;
  }

  lemma UnlockDead(w: World)
    requires Dead(w)
    ensures Dead(SetGuard(w, false)) && AdminOf(SetGuard(w, false)) == AdminOf(w)
  {
  }

  lemma BeforeDead(env: Env, auths: set<Address>, c: Call, w: World)
    requires c.Decommission? && Check(env, auths, c, w).None?
    ensures var w1 := SetGuard(Before(env, auths, c, w), true);
            Dead(w1) && AdminOf(w1) == AdminOf(w)
  {
  }

  /** Every reachable world is sound and unlocked. */
  lemma {:induction false} RunSound(c: Chain, steps: seq<Step>)
    requires Sound(c.world, false) && !c.world.vault.guard && Run(c, steps).Some?
    ensures Sound(Run(c, steps).value.world, false) && !Run(c, steps).value.world.vault.guard
  {
    hide Sound, Exec, Move;
    if steps != [] {
      var n := |steps| - 1;
      RunSound(c, steps[..n]);
      StepSound(Run(c, steps[..n]).value, steps[n]);
    }
  }

  lemma StepSound(c: Chain, s: Step)
    requires Sound(c.world, false) && !c.world.vault.guard
    ensures Sound(Next(c, s).world, false) && !Next(c, s).world.vault.guard
  {
    hide Sound, Exec, Direct;
    if s.Outside? {
      if Move(c.world, s.transfer).Some? {
        MoveSound(c.world, s.transfer, false);
      }
    } else if Exec(s.env, s.invocation, c.world).Ok? {
      GuardReleased(s.env, s.invocation, c.world);
      if Guarded(s.invocation.call) {
        GuardedSound(s.env, s.invocation, c.world);
      } else {
        UnguardedExec(s.env, s.invocation, c.world);
        DirectSound(s.env, s.invocation.auths, s.invocation.call, c.world, false);
      }
    }
  }

  lemma UnguardedExec(env: Env, inv: Invocation, w: World)
    requires !Guarded(inv.call)
    ensures Exec(env, inv, w) == Direct(env, inv.auths, inv.call, w)
  {
    hide Direct;
  }

  /**
   * From deployment on, whatever calls are made, with whatever callbacks: replaying the event log gives
   * the contract's configuration, the log is legal, and no call leaves the reentrancy guard set.
   */
  lemma LogIsHistory(c: Chain, steps: seq<Step>)
    requires Deployed(c) && Run(c, steps).Some?
    ensures var w := Run(c, steps).value.world;
            Replay(w.log) == ViewOf(w) && Legal(w.log) && !w.vault.guard && EscrowBacked(w) && DiscountsBounded(w)
  {
    hide Run, Replay, Legal, ViewOf, EscrowBacked, DiscountsBounded;
    DeployedSound(c);
    RunSound(c, steps);
  }
}
