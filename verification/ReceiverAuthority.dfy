/** Who may do what over whole runs. */
module ReceiverAuthority {
  import opened Results
  import opened Receiver
  import opened ReceiverLog
  import opened ReceiverNesting
  import opened ReceiverHistory
  import opened ReceiverShutdown
  import Fees

  // ---------------------------------------------------------------------------
  // Admin authority
  // ---------------------------------------------------------------------------

  /** `a` passes the contract's Admin check. */
  predicate PassesAdmin(w: World, a: Address) {
    HoldsAdmin(ViewOf(w), a)
  }

  /** In every reachable world, Admin authority is the stored admin's or was granted by a stored admin and not lost since. */
  lemma AdminComesFromAdmin(c: Chain, steps: seq<Step>, a: Address)
    requires Deployed(c) && Run(c, steps).Some?
    requires PassesAdmin(Run(c, steps).value.world, a)
    ensures var w := Run(c, steps).value.world;
            a == LoadConfig(w.settings.slots).value.admin || GrantedByAdmin(w.log, a)
  {
    hide Run, Legal, Replay, EscrowBacked, DiscountsBounded, LastRoleChange, AdminActs, LoadConfig;
    LogIsHistory(c, steps);
    AdminProvenance(Run(c, steps).value.world.log, a);
  }

  lemma ViewAdmin(w: World, a: Address)
    requires Replay(w.log) == ViewOf(w)
    ensures HoldsAdmin(Replay(w.log), a) <==> PassesAdmin(w, a)
    ensures Replay(w.log).config == LoadConfig(w.settings.slots)
  {
    hide Replay, LoadConfig;
  }

  lemma TransferDemotes(env: Env, auths: set<Address>, to: Address, w: World)
    requires DoTransferAdmin(env, auths, to, w).Ok? && AdminOf(w) != Some(to)
    ensures AdminOf(w).Some? && !PassesAdmin(DoTransferAdmin(env, auths, to, w).value, AdminOf(w).value)
    ensures LoadConfig(DoTransferAdmin(env, auths, to, w).value.settings.slots).Some?
  {
  }

  /**
   * After `transfer_admin` from a to b, b not a, the old admin passes no Admin check in any later world
   * until an event of the log grants it Admin again.
   */
  lemma OldAdminIsOut(c: Chain, steps: seq<Step>, env: Env, inv: Invocation, later: seq<Step>)
    requires Deployed(c) && Run(c, steps).Some? && inv.call.TransferAdmin?
    requires CanStep(Run(c, steps).value, Invoke(env, inv)) && Exec(env, inv, Run(c, steps).value.world).Ok?
    requires AdminOf(Run(c, steps).value.world) != Some(inv.call.newAdmin)
    requires Run(Next(Run(c, steps).value, Invoke(env, inv)), later).Some?
    ensures AdminOf(Run(c, steps).value.world).Some?
    ensures var before, after := Run(c, steps).value, Next(Run(c, steps).value, Invoke(env, inv));
            var end, a := Run(after, later).value.world, AdminOf(before.world).value;
            PassesAdmin(end, a) ==>
              exists i :: |after.world.log| <= i < |end.log| && Grants(end.log[i].event, a)
  {
    hide Run, Sound, AdminOf, PassesAdmin, Exec, Grants, CanStep;
    var before := Run(c, steps).value;
    var after := Next(before, Invoke(env, inv));
    DeployedSound(c);
    RunSound(c, steps);
    StepSound(before, Invoke(env, inv));
    RunSound(after, later);
    RunLog(after, later);
    AfterTransfer(env, inv, before.world);
    OutUntilGranted(after.world, Run(after, later).value.world, AdminOf(before.world).value);
  }

  lemma OutUntilGranted(w: World, end: World, a: Address)
    requires Sound(w, false) && Sound(end, false) && Prefix(w.log, end.log)
    requires LoadConfig(w.settings.slots).Some? && !PassesAdmin(w, a)
    ensures PassesAdmin(end, a) ==> exists i :: |w.log| <= i < |end.log| && Grants(end.log[i].event, a)
  {
    hide Sound, PassesAdmin, Replay, Legal, Grants, HoldsAdmin, LoadConfig;
    var suffix := end.log[|w.log|..];
    assert w.log + suffix == end.log;
    SoundView(w);
    SoundView(end);
    ViewAdmin(w, a);
    ViewAdmin(end, a);
    if forall i :: 0 <= i < |suffix| ==> !Grants(suffix[i].event, a) {
      NoAdminUntilGranted(w.log, suffix, a);
    } else {
      var i :| 0 <= i < |suffix| && Grants(suffix[i].event, a);
      assert end.log[|w.log| + i] == suffix[i];
    }
  }

  lemma AfterTransfer(env: Env, inv: Invocation, w: World)
    requires inv.call.TransferAdmin? && Exec(env, inv, w).Ok? && AdminOf(w) != Some(inv.call.newAdmin)
    ensures AdminOf(w).Some? && !PassesAdmin(Exec(env, inv, w).value, AdminOf(w).value)
    ensures LoadConfig(Exec(env, inv, w).value.settings.slots).Some?
  {
    hide DoTransferAdmin;
    TransferDemotes(env, inv.auths, inv.call.newAdmin, w);
  }

  lemma SoundView(w: World)
    requires Sound(w, false)
    ensures Replay(w.log) == ViewOf(w) && Legal(w.log)
  {
  }

  lemma {:induction false} AdminCanSign(log: seq<Entry>)
    requires Legal(log)
    ensures Replay(log).config.Some? ==> Replay(log).config.value.admin != SELF
  {
    if log != [] {
      var n := |log| - 1;
      AdminCanSign(log[..n]);
      StillSigns(Replay(log[..n]), log[n]);
      hide Apply, Permitted;
    }
  }

  lemma StillSigns(v: View, e: Entry)
    requires Permitted(v, e) && (v.config.Some? ==> v.config.value.admin != SELF)
    ensures Apply(v, e.event).config.Some? ==> Apply(v, e.event).config.value.admin != SELF
  {
    hide Apply, RoleActs, AdminActs, ValidRate, ValidLimits, Get;
    AdminAfter(v, e.event);
  }

  lemma AdminAfter(v: View, e: Event)
    ensures var after := Apply(v, e);
            && (e.Inited? ==> after.config.Some? && after.config.value.admin == e.admin)
            && (!e.Inited? && v.config.None? ==> after.config.None?)
            && (!e.Inited? && v.config.Some? ==>
                  after.config.Some?
                  && after.config.value.admin == if e.AdminTransferred? then e.newAdmin else v.config.value.admin)
  {
  }

  /** A call gated on the stored admin or on a role, made by the admin with arguments the entrypoint takes. */
  predicate GatedCallOf(c: Call, admin: Address, auths: set<Address>) {
    match c
    case Pause(caller) => caller == admin
    case SetBlacklisted(caller, _, _) => caller == admin
    case SetDiscount(caller, _, bps) => caller == admin && bps <= Fees.BPS
    case SetRateLimit(caller, rate) => caller == admin && ValidRate(rate)
    case SetPaymentLimits(caller, named, b) =>
      && caller == admin && named.Some? && b.min >= 0 && b.max >= 0
      && (b.min > 0 && b.max > 0 ==> b.min <= b.max)
    case SetWithdrawLimits(caller, l) => caller == admin && ValidLimits(l)
    case ReleaseEscrow(caller, _) => caller == admin
    case RefundEscrow(caller, _) => caller == admin
    case RescueTokens(caller, _, _, _) => caller == admin
    case TransferAdmin(to) => Authorized(to, auths)
    case Unpause => true
    case UpdateTreasury(_) => true
    case UpdateToken(_, _) => true
    case GrantRoles(_, _) => true
    case RevokeRole(_) => true
    case Decommission(_) => true
    case Init(_, _, _, _, _) => false
    case RenounceRole(_) => false
    case Pay(_, _, _, _, _) => false
    case DepositEscrow(_, _, _) => false
  }

  /** What every reachable initialized contract offers its admin. */
  lemma AdminFacts(c: Chain, steps: seq<Step>)
    requires Deployed(c) && Run(c, steps).Some? && AdminOf(Run(c, steps).value.world).Some?
    ensures var w := Run(c, steps).value.world;
            && AdminOf(w).value != SELF && !w.vault.guard
            && LoadConfig(w.settings.slots).Some? && LoadConfig(w.settings.slots).value.admin == AdminOf(w).value
            && Usdc in w.settings.tokens && Xlm in w.settings.tokens
  {
    hide Run, Legal, Replay, EscrowBacked, DiscountsBounded, LoadConfig;
    LogIsHistory(c, steps);
    var w := Run(c, steps).value.world;
    AdminCanSign(w.log);
    TokensConfigured(w.log);
  }

  lemma AdminDirect(env: Env, auths: set<Address>, c: Call, w: World)
    requires LoadConfig(w.settings.slots).Some? && !w.vault.decommissioned && Usdc in w.settings.tokens
    requires Xlm in w.settings.tokens
    requires Authorized(LoadConfig(w.settings.slots).value.admin, auths)
    requires GatedCallOf(c, LoadConfig(w.settings.slots).value.admin, auths) && !Guarded(c)
    ensures Direct(env, auths, c, w).Ok?
  {
    hide LoadConfig, StoreRoles, StoreRole, RemoveRole, ValidRate, ValidLimits;
    if c.UpdateToken? {
      assert c.asset == Usdc || c.asset == Xlm;
    }
  }

  lemma AdminMoney(env: Env, auths: set<Address>, c: Call, w: World)
    requires LoadConfig(w.settings.slots).Some? && !w.vault.decommissioned && Usdc in w.settings.tokens
    requires Xlm in w.settings.tokens
    requires Authorized(LoadConfig(w.settings.slots).value.admin, auths)
    requires GatedCallOf(c, LoadConfig(w.settings.slots).value.admin, auths) && Guarded(c)
    ensures Check(env, auths, c, w) != Some(Panic)
    ensures c.Decommission? ==> Check(env, auths, c, w).None?
  {
    hide LoadConfig, LiveEscrow, WithdrawnOn, CheckPay, CheckDeposit;
    if c.ReleaseEscrow? || c.RefundEscrow? {
      assert c.key.asset == Usdc || c.key.asset == Xlm;
    }
  }

  /**
   * No run locks the stored admin out. While the contract lives, its signature carries every gated call:
   * administration succeeds, a money call is never refused for want of authority (which is a panic, not an
   * error), and `decommission` goes through with tokens that just do their job.
   */
  lemma AdminNeverLockedOut(c: Chain, steps: seq<Step>, env: Env, inv: Invocation)
    requires Deployed(c) && Run(c, steps).Some?
    requires AdminOf(Run(c, steps).value.world).Some? && !Run(c, steps).value.world.vault.decommissioned
    requires var admin := AdminOf(Run(c, steps).value.world).value;
             admin in inv.auths && GatedCallOf(inv.call, admin, inv.auths)
    ensures var result := Exec(env, inv, Run(c, steps).value.world);
            && (!Guarded(inv.call) ==> result.Ok?)
            && (Guarded(inv.call) && !inv.call.Decommission? ==> result != Err(Panic))
            && (inv.call.Decommission? && inv.externals == [] ==> result.Ok?)
  {
    hide Run, LoadConfig, GatedCallOf, Direct, Before, After, TransferOf, CallTransfer, Sweep, SweepList,
      CheckPay, CheckDeposit, CheckRelease, CheckRefund, CheckRescue;
    AdminFacts(c, steps);
    var w := Run(c, steps).value.world;
    if !Guarded(inv.call) {
      UnguardedExec(env, inv, w);
      AdminDirect(env, inv.auths, inv.call, w);
    } else {
      AdminMoney(env, inv.auths, inv.call, w);
      if inv.call.Decommission? && inv.externals == [] {
        PlainSweep(env, SweepList([w.settings.tokens[Usdc], w.settings.tokens[Xlm]], inv.call.extraTokens),
                   LoadConfig(w.settings.slots).value.treasury, SetGuard(Before(env, inv.auths, inv.call, w), true));
      }
    }
  }

  // ---------------------------------------------------------------------------
  // Arithmetic of payments
  // ---------------------------------------------------------------------------

  /** No payment of a 128-bit amount ever fails for arithmetic, in any reachable world. */
  lemma PaymentsNeverOverflow(env: Env, inv: Invocation, w: World)
    requires DiscountsBounded(w) && inv.call.Pay? && inv.call.amount <= Fees.I128_MAX
    ensures Exec(env, inv, w) != Err(Fails(ArithmeticOverflow))
  {
    hide Fees.ApplyDiscount, CallTransfer, Before, After, ActivePayments, WithinBounds, LoadConfig;
    if inv.call.amount > 0 {
      Fees.DiscountIsExact(inv.call.amount, Discount(w.settings, inv.call.from));
    }
  }
}
