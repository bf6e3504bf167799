/**
 * Every entrypoint that calls no token, as the log has it: exactly when it succeeds, what it then changes
 * and what it publishes, all given by the call's arguments and the replayed configuration.
 */
module ReceiverAdministration {
  import opened Results
  import opened Receiver
  import opened ReceiverLog
  import opened ReceiverNesting
  import opened ReceiverHistory
  import opened ReceiverLayout

  // ---------------------------------------------------------------------------
  // Who may call
  // ---------------------------------------------------------------------------

  predicate Signed(a: Address, auths: set<Address>) {
    a in auths && a != 0
  }

  /** The stored admin signed. */
  predicate AdminSigns(v: View, auths: set<Address>) {
    v.config.Some? && Signed(v.config.value.admin, auths)
  }

  /** `a` signed and is the stored admin or holds Operator or Admin. */
  predicate MayOperate(v: View, auths: set<Address>, a: Address) {
    && v.config.Some? && Signed(a, auths)
    && (a == v.config.value.admin || (a in v.roles && (v.roles[a] == Operator || v.roles[a] == Admin)))
  }

  /** `a` signed and is the stored admin or holds Admin, and the contract lives. */
  predicate MayAdminister(v: View, auths: set<Address>, a: Address) {
    && v.config.Some? && Signed(a, auths) && !v.decommissioned
    && (a == v.config.value.admin || (a in v.roles && v.roles[a] == Admin))
  }

  predicate InitAllowed(v: View, c: Call, auths: set<Address>)
    requires c.Init?
  {
    && v.config == None && Signed(c.admin, auths)
    && c.treasury != 0 && c.usdc != 0 && c.xlm != 0
    && c.usdc != c.xlm && c.admin !in {c.usdc, c.xlm} && c.treasury !in {c.usdc, c.xlm}
    && c.probes.usdcDecimals == Some(7) && c.probes.xlmDecimals == Some(7) && !c.probes.usdcIsNative
  }

  predicate Permits(v: View, c: Call, auths: set<Address>)
    requires !Guarded(c)
  {
    match c
    case Init(_, _, _, _, _) => InitAllowed(v, c, auths)
    case Pause(a) => MayOperate(v, auths, a) && !v.decommissioned
    case Unpause => AdminSigns(v, auths) && !v.decommissioned
    case UpdateTreasury(_) => AdminSigns(v, auths)
    case UpdateToken(_, _) => AdminSigns(v, auths)
    case GrantRoles(_, _) => AdminSigns(v, auths) && !v.decommissioned
    case RevokeRole(_) => AdminSigns(v, auths) && !v.decommissioned
    case RenounceRole(a) => Signed(a, auths)
    case TransferAdmin(to) => AdminSigns(v, auths) && Signed(to, auths) && !v.decommissioned
    case SetBlacklisted(a, _, _) => MayOperate(v, auths, a)
    case SetDiscount(a, _, bps) => MayOperate(v, auths, a) && bps <= 10_000
    case SetRateLimit(a, rate) => MayAdminister(v, auths, a) && 1 <= rate.max <= 1_000 && 1 <= rate.window <= 8_640_000
    case SetPaymentLimits(a, named, b) =>
      && MayAdminister(v, auths, a) && named.Some? && b.min >= 0 && b.max >= 0
      && (b.min == 0 || b.max == 0 || b.min <= b.max)
    case SetWithdrawLimits(a, l) =>
      && MayAdminister(v, auths, a)
      && (l.perCall == None || l.perCall.value > 0) && (l.perDay == None || l.perDay.value > 0)
      && (l.perCall == None || l.perDay == None || l.perCall.value <= l.perDay.value)
  }

  // ---------------------------------------------------------------------------
  // What changes and what is published
  // ---------------------------------------------------------------------------

  function RolesAfterTransfer(v: View, to: Address): map<Address, Role>
    requires v.config.Some?
  {
    var admin := v.config.value.admin;
    (if admin != to && Get(v.roles, admin) == Some(Admin) then v.roles - {admin} else v.roles)[to := Admin]
  }

  /** The configuration after a successful call. */
  function Configured(v: View, c: Call, auths: set<Address>): View
    requires !Guarded(c) && Permits(v, c, auths)
  {
    match c
    case Init(admin, treasury, usdc, xlm, _) =>
      v.(config := Some(Config(admin, treasury, false)), tokens := v.tokens[Usdc := usdc][Xlm := xlm],
         roles := v.roles[admin := Admin])
    case Pause(_) => v.(config := Some(v.config.value.(paused := true)))
    case Unpause => v.(config := Some(v.config.value.(paused := false)))
    case UpdateTreasury(to) => v.(config := Some(v.config.value.(treasury := to)))
    case UpdateToken(asset, to) => v.(tokens := v.tokens[asset := to])
    case GrantRoles(addresses, role) => v.(roles := v.roles + (map a | a in addresses :: role))
    case RevokeRole(a) => v.(roles := v.roles - {a})
    case RenounceRole(a) => v.(roles := v.roles - {a})
    case TransferAdmin(to) =>
      v.(config := Some(v.config.value.(admin := to)), roles := RolesAfterTransfer(v, to))
    case SetBlacklisted(_, a, on) => v.(blacklist := if on then v.blacklist + {a} else v.blacklist - {a})
    case SetDiscount(_, _, _) => v
    case SetRateLimit(_, rate) => v.(rate := Some(rate))
    case SetPaymentLimits(_, named, b) => v.(bounds := v.bounds[named.value := b])
    case SetWithdrawLimits(_, l) => v.(limits := l)
  }

  /** The discount of `a` after a successful call. */
  function DiscountAfter(before: nat, a: Address, c: Call): nat {
    if c.SetDiscount? && c.account == a then c.bps else before
  }

  /** A batch grant publishes, in order, the first mention of each address that does not hold the role already. */
  function Granted(roles: map<Address, Role>, addresses: seq<Address>, role: Role): seq<Event> {
    if addresses == [] then []
    else
      var n := |addresses| - 1;
      var a := addresses[n];
      Granted(roles, addresses[..n], role)
      + if a in addresses[..n] || (a in roles && roles[a] == role) then [] else [RoleGranted(a, role)]
  }

  /** The events of a successful call, in order; a call that changes nothing publishes nothing. */
  function Announced(v: View, c: Call, auths: set<Address>): seq<Event>
    requires !Guarded(c) && Permits(v, c, auths)
    requires c.UpdateToken? ==> c.asset in v.tokens
  {
    match c
    case Init(admin, treasury, usdc, xlm, _) => [Inited(admin, treasury, usdc, xlm)]
    case Pause(a) => if v.config.value.paused then [] else [Paused(a)]
    case Unpause => if v.config.value.paused then [Unpaused(v.config.value.admin)] else []
    case UpdateTreasury(to) => [TreasuryUpdated(v.config.value.treasury, to, v.config.value.admin)]
    case UpdateToken(asset, to) => [TokenUpdated(asset, v.tokens[asset], to, v.config.value.admin)]
    case GrantRoles(addresses, role) => Granted(v.roles, addresses, role)
    case RevokeRole(a) => if a in v.roles then [RoleRevoked(a, v.roles[a])] else []
    case RenounceRole(a) => if a in v.roles then [RoleRenounced(a, v.roles[a])] else []
    case TransferAdmin(to) =>
      var admin := v.config.value.admin;
      (if admin != to && Get(v.roles, admin) == Some(Admin) then [RoleRevoked(admin, Admin)] else [])
      + (if Get(v.roles, to) == Some(Admin) then [] else [RoleGranted(to, Admin)])
      + [AdminTransferred(admin, to)]
    case SetBlacklisted(caller, a, on) =>
      if (a in v.blacklist) == on then [] else if on then [Blacklisted(a, caller)] else [Unblacklisted(a, caller)]
    case SetDiscount(_, _, _) => []
    case SetRateLimit(caller, rate) => [RateLimitSet(caller, rate)]
    case SetPaymentLimits(caller, named, b) => [PaymentLimitsSet(caller, named.value, b)]
    case SetWithdrawLimits(caller, l) => [WithdrawLimitsSet(caller, l)]
  }

  /** `log` continues `past` with exactly `events`, stamped by this call. */
  predicate Continues(past: seq<Entry>, log: seq<Entry>, events: seq<Event>, env: Env, auths: set<Address>) {
    && |log| == |past| + |events| && log[..|past|] == past
    && forall i :: 0 <= i < |events| ==> log[|past| + i] == Entry(events[i], env.ledger, env.time, auths)
  }

  lemma NothingPublished(past: seq<Entry>, env: Env, auths: set<Address>)
    ensures Continues(past, past, [], env, auths)
  {
  }

  lemma OnePublished(past: seq<Entry>, e: Event, env: Env, auths: set<Address>)
    ensures Continues(past, past + [Entry(e, env.ledger, env.time, auths)], [e], env, auths)
  {
  }

  lemma MorePublished(past: seq<Entry>, log: seq<Entry>, events: seq<Event>, e: Event, env: Env, auths: set<Address>)
    requires Continues(past, log, events, env, auths)
    ensures Continues(past, log + [Entry(e, env.ledger, env.time, auths)], events + [e], env, auths)
  {
  }

  // ---------------------------------------------------------------------------
  // Call by call
  // ---------------------------------------------------------------------------

  /** Slots as every contract deployed with this code has them, and both tokens configured once initialized. */
  predicate WellKept(w: World) {
    && (w.settings.slots == Slots(None, None, None, None) || Packed(w.settings.slots))
    && (w.settings.slots.config.Some? ==> Usdc in w.settings.tokens && Xlm in w.settings.tokens)
  }

  /** Success exactly when permitted; then this configuration, these discounts, this vault. */
  ghost predicate DoneAs(env: Env, auths: set<Address>, c: Call, w: World, result: Result<World, Failure>)
    requires !Guarded(c)
  {
    && (result.Ok? <==> Permits(ViewOf(w), c, auths))
    && (result.Ok? ==>
          && ViewOf(result.value) == Configured(ViewOf(w), c, auths)
          && result.value.vault == w.vault
          && (forall a :: Discount(result.value.settings, a) == DiscountAfter(Discount(w.settings, a), a, c))
          && (c.UpdateToken? ==> c.asset in w.settings.tokens)
          && Continues(w.log, result.value.log, Announced(ViewOf(w), c, auths), env, auths))
  }

  lemma InitDone(env: Env, auths: set<Address>, c: Call, w: World)
    requires WellKept(w) && c.Init?
    ensures DoneAs(env, auths, c, w, DoInit(env, auths, c, w))
  {
    OnePublished(w.log, Inited(c.admin, c.treasury, c.usdc, c.xlm), env, auths);
    hide Continues;
  }

  lemma FlagsDone(env: Env, auths: set<Address>, c: Call, w: World)
    requires WellKept(w) && (c.Pause? || c.Unpause? || c.UpdateTreasury?)
    ensures DoneAs(env, auths, c, w, Direct(env, auths, c, w))
  {
    NothingPublished(w.log, env, auths);
    if Permits(ViewOf(w), c, auths) && Announced(ViewOf(w), c, auths) != [] {
      OnePublished(w.log, Announced(ViewOf(w), c, auths)[0], env, auths);
    }
    hide Continues;
  }

  lemma TokenDone(env: Env, auths: set<Address>, c: Call, w: World)
    requires WellKept(w) && c.UpdateToken?
    ensures DoneAs(env, auths, c, w, Direct(env, auths, c, w))
  {
    assert c.asset == Usdc || c.asset == Xlm;
    if Permits(ViewOf(w), c, auths) {
      OnePublished(w.log, Announced(ViewOf(w), c, auths)[0], env, auths);
    }
    hide Continues;
  }

  lemma BlacklistDone(env: Env, auths: set<Address>, c: Call, w: World)
    requires WellKept(w) && c.SetBlacklisted?
    ensures DoneAs(env, auths, c, w, Direct(env, auths, c, w))
  {
    NothingPublished(w.log, env, auths);
    if Permits(ViewOf(w), c, auths) && Announced(ViewOf(w), c, auths) != [] {
      OnePublished(w.log, Announced(ViewOf(w), c, auths)[0], env, auths);
    }
    hide Continues, LoadConfig;
  }

  lemma DiscountDone(env: Env, auths: set<Address>, c: Call, w: World)
    requires WellKept(w) && c.SetDiscount?
    ensures DoneAs(env, auths, c, w, Direct(env, auths, c, w))
  {
    NothingPublished(w.log, env, auths);
    hide Continues, LoadConfig;
  }

  lemma LimitsDone(env: Env, auths: set<Address>, c: Call, w: World)
    requires WellKept(w) && (c.SetRateLimit? || c.SetPaymentLimits? || c.SetWithdrawLimits?)
    ensures DoneAs(env, auths, c, w, Direct(env, auths, c, w))
  {
    if Permits(ViewOf(w), c, auths) {
      OnePublished(w.log, Announced(ViewOf(w), c, auths)[0], env, auths);
    }
    hide Continues, LoadConfig;
  }

  lemma RemoveRoleEffect(env: Env, auths: set<Address>, a: Address, renounced: bool, w: World)
    ensures var w1 := RemoveRole(env, auths, a, renounced, w);
            && w1.vault == w.vault && w1.settings == w.settings.(roles := w.settings.roles - {a})
            && Continues(w.log, w1.log,
                         if a !in w.settings.roles then []
                         else [if renounced then RoleRenounced(a, w.settings.roles[a]) else RoleRevoked(a, w.settings.roles[a])],
                         env, auths)
  {
    NothingPublished(w.log, env, auths);
    if a in w.settings.roles {
      OnePublished(w.log, if renounced then RoleRenounced(a, w.settings.roles[a]) else RoleRevoked(a, w.settings.roles[a]),
                   env, auths);
    } else {
      assert w.settings.roles - {a} == w.settings.roles;
    }
    hide Continues;
  }

  lemma RemovalDone(env: Env, auths: set<Address>, c: Call, w: World)
    requires WellKept(w) && (c.RevokeRole? || c.RenounceRole?)
    ensures DoneAs(env, auths, c, w, Direct(env, auths, c, w))
  {
    RemoveRoleEffect(env, auths, if c.RevokeRole? then c.address else c.caller, c.RenounceRole?, w);
    hide Continues, RemoveRole;
  }

  lemma StoreRoleEffect(env: Env, auths: set<Address>, a: Address, role: Role, w: World)
    ensures var w1 := StoreRole(env, auths, a, role, w);
            && w1.vault == w.vault && w1.settings == w.settings.(roles := w.settings.roles[a := role])
            && Continues(w.log, w1.log, if Get(w.settings.roles, a) == Some(role) then [] else [RoleGranted(a, role)], env, auths)
  {
    NothingPublished(w.log, env, auths);
    OnePublished(w.log, RoleGranted(a, role), env, auths);
    if Get(w.settings.roles, a) == Some(role) {
      assert w.settings.roles[a := role] == w.settings.roles;
    }
    hide Continues;
  }

  lemma {:induction false} StoreRolesEffect(env: Env, auths: set<Address>, addresses: seq<Address>, role: Role, w: World)
    ensures var w1 := StoreRoles(env, auths, addresses, role, w);
            && w1.vault == w.vault
            && w1.settings == w.settings.(roles := w.settings.roles + (map a | a in addresses :: role))
            && Continues(w.log, w1.log, Granted(w.settings.roles, addresses, role), env, auths)
  {
    hide StoreRole, Continues;
    if addresses == [] {
      assert w.settings.roles + (map a | a in addresses :: role) == w.settings.roles;
      NothingPublished(w.log, env, auths);
    } else {
      var n := |addresses| - 1;
      var w1 := StoreRoles(env, auths, addresses[..n], role, w);
      StoreRolesEffect(env, auths, addresses[..n], role, w);
      StoreRoleEffect(env, auths, addresses[n], role, w1);
      LastGrant(w.settings.roles, addresses, role);
      var w2 := StoreRole(env, auths, addresses[n], role, w1);
      var events := Granted(w.settings.roles, addresses[..n], role);
      if Get(w1.settings.roles, addresses[n]) == Some(role) {
        SamePublished(w1.log, w2.log, env, auths);
        assert events + [] == events;
      } else {
        GrantPublished(w.log, w1.log, w2.log, events, RoleGranted(addresses[n], role), env, auths);
      }
    }
  }

  lemma LastGrant(roles: map<Address, Role>, addresses: seq<Address>, role: Role)
    requires addresses != []
    ensures var n := |addresses| - 1;
            (roles + (map a | a in addresses[..n] :: role))[addresses[n] := role] == roles + (map a | a in addresses :: role)
  {
    var n := |addresses| - 1;
    assert forall a :: a in addresses <==> a in addresses[..n] || a == addresses[n];
  }

  lemma GrantDone(env: Env, auths: set<Address>, c: Call, w: World)
    requires WellKept(w) && c.GrantRoles?
    ensures DoneAs(env, auths, c, w, Direct(env, auths, c, w))
  {
    StoreRolesEffect(env, auths, c.addresses, c.role, w);
    hide StoreRoles, Continues;
  }

  lemma TransferDone(env: Env, auths: set<Address>, c: Call, w: World)
    requires WellKept(w) && c.TransferAdmin?
    ensures DoneAs(env, auths, c, w, Direct(env, auths, c, w))
  {
    hide Continues, StoreRole, RemoveRole;
    var v, to := ViewOf(w), c.newAdmin;
    if Permits(v, c, auths) {
      var admin := v.config.value.admin;
      var retire := admin != to && Get(w.settings.roles, admin) == Some(Admin);
      var w1 := if retire then RemoveRole(env, auths, admin, false, w) else w;
      RemoveRoleEffect(env, auths, admin, false, w);
      NothingPublished(w.log, env, auths);
      StoreRoleEffect(env, auths, to, Admin, w1);
      var w2 := StoreRole(env, auths, to, Admin, w1);
      var first: seq<Event> := if retire then [RoleRevoked(admin, Admin)] else [];
      assert Continues(w.log, w1.log, first, env, auths);
      assert Get(w1.settings.roles, to) == Get(w.settings.roles, to);
      if Get(w.settings.roles, to) == Some(Admin) {
        SamePublished(w1.log, w2.log, env, auths);
        MorePublished(w.log, w2.log, first, AdminTransferred(admin, to), env, auths);
        assert first + [] + [AdminTransferred(admin, to)] == first + [AdminTransferred(admin, to)];
      } else {
        GrantPublished(w.log, w1.log, w2.log, first, RoleGranted(to, Admin), env, auths);
        MorePublished(w.log, w2.log, first + [RoleGranted(to, Admin)], AdminTransferred(admin, to), env, auths);
      }
    }
  }

  lemma SamePublished(past: seq<Entry>, log: seq<Entry>, env: Env, auths: set<Address>)
    requires Continues(past, log, [], env, auths)
    ensures log == past
  {
  }

  lemma GrantPublished(past: seq<Entry>, mid: seq<Entry>, log: seq<Entry>, events: seq<Event>, e: Event, env: Env, auths: set<Address>)
    requires Continues(past, mid, events, env, auths) && Continues(mid, log, [e], env, auths)
    ensures Continues(past, log, events + [e], env, auths)
  {
    assert log[|mid| + 0] == Entry([e][0], env.ledger, env.time, auths);
    assert log == mid + [Entry(e, env.ledger, env.time, auths)];
    MorePublished(past, mid, events, e, env, auths);
  }

  lemma DirectDone(env: Env, auths: set<Address>, c: Call, w: World)
    requires WellKept(w) && !Guarded(c)
    ensures DoneAs(env, auths, c, w, Direct(env, auths, c, w))
  {
    hide DoneAs, WellKept;
    match c {
      case Init(_, _, _, _, _) => InitDone(env, auths, c, w);
      case Pause(_) => FlagsDone(env, auths, c, w);
      case Unpause => FlagsDone(env, auths, c, w);
      case UpdateTreasury(_) => FlagsDone(env, auths, c, w);
      case UpdateToken(_, _) => TokenDone(env, auths, c, w);
      case GrantRoles(_, _) => GrantDone(env, auths, c, w);
      case RevokeRole(_) => RemovalDone(env, auths, c, w);
      case RenounceRole(_) => RemovalDone(env, auths, c, w);
      case TransferAdmin(_) => TransferDone(env, auths, c, w);
      case SetBlacklisted(_, _, _) => BlacklistDone(env, auths, c, w);
      case SetDiscount(_, _, _) => DiscountDone(env, auths, c, w);
      case _ => LimitsDone(env, auths, c, w);
    }
  }

  // ---------------------------------------------------------------------------
  // Over every run
  // ---------------------------------------------------------------------------

  lemma StepShape(c: Chain, s: Step)
    requires c.world.settings.slots == Slots(None, None, None, None) || Packed(c.world.settings.slots)
    ensures var slots := Next(c, s).world.settings.slots;
            slots == Slots(None, None, None, None) || Packed(slots)
  {
    hide Exec, Packed;
    if s.Invoke? && Exec(s.env, s.invocation, c.world).Ok? {
      FirstSaveRetires(s.env, s.invocation, c.world);
    }
  }

  lemma {:induction false} RunShape(c: Chain, steps: seq<Step>)
    requires c.world.settings.slots == Slots(None, None, None, None) || Packed(c.world.settings.slots)
    requires Run(c, steps).Some?
    ensures var slots := Run(c, steps).value.world.settings.slots;
            slots == Slots(None, None, None, None) || Packed(slots)
  {
    hide Next, CanStep, Packed;
    if steps != [] {
      RunShape(c, steps[..|steps| - 1]);
      StepShape(Run(c, steps[..|steps| - 1]).value, steps[|steps| - 1]);
    }
  }

  lemma ReachableWellKept(c: Chain, steps: seq<Step>)
    requires Deployed(c) && Run(c, steps).Some?
    ensures WellKept(Run(c, steps).value.world) && ViewOf(Run(c, steps).value.world) == Replay(Run(c, steps).value.world.log)
  {
    hide Run, Replay, Legal, EscrowBacked, DiscountsBounded;
    LogIsHistory(c, steps);
    RunShape(c, steps);
    TokensConfigured(Run(c, steps).value.world.log);
  }

  /**
   * In every reachable world, each entrypoint that calls no token succeeds if and only if the replayed log
   * permits it to those who signed; it then leaves exactly this configuration and these discounts, moves no
   * money, and publishes exactly these events.
   */
  lemma AdministrationExactly(c: Chain, steps: seq<Step>, env: Env, inv: Invocation)
    requires Deployed(c) && Run(c, steps).Some? && !Guarded(inv.call)
    ensures var w := Run(c, steps).value.world;
            var v, result := Replay(w.log), Exec(env, inv, w);
            && (result.Ok? <==> Permits(v, inv.call, inv.auths))
            && (result.Ok? ==>
                  && ViewOf(result.value) == Configured(v, inv.call, inv.auths)
                  && result.value.vault == w.vault
                  && (forall a :: Discount(result.value.settings, a) == DiscountAfter(Discount(w.settings, a), a, inv.call))
                  && (inv.call.UpdateToken? ==> inv.call.asset in v.tokens)
                  && Continues(w.log, result.value.log, Announced(v, inv.call, inv.auths), env, inv.auths))
  {
    hide Run, Replay, Direct, Continues, Permits, Configured, Announced;
    ReachableWellKept(c, steps);
    var w := Run(c, steps).value.world;
    UnguardedExec(env, inv, w);
    DirectDone(env, inv.auths, inv.call, w);
  }

  /**
   * What a token calls back takes effect as if called by itself, if it is administration that the state reached
   * by the callbacks before it permits; otherwise it changes nothing.
   */
  lemma CallbackTakesEffect(env: Env, calls: seq<Invocation>, inv: Invocation, w: World)
    requires w.vault.guard && WellKept(RunCalls(env, calls, w))
    ensures var before, after := RunCalls(env, calls, w), RunCalls(env, calls + [inv], w);
            if Guarded(inv.call) || !Permits(ViewOf(before), inv.call, inv.auths) then
              after == before
            else
              && ViewOf(after) == Configured(ViewOf(before), inv.call, inv.auths)
              && (inv.call.UpdateToken? ==> inv.call.asset in before.settings.tokens)
              && Continues(before.log, after.log, Announced(ViewOf(before), inv.call, inv.auths), env, inv.auths)
  {
    hide Permits, Configured, Announced, Continues, ViewOf, WellKept, Direct, Check;
    var before := RunCalls(env, calls, w);
    assert (calls + [inv])[..|calls|] == calls;
    if Guarded(inv.call) {
      CallbacksMoveNothing(env, calls, w);
      GuardRefuses(env, inv, before);
    } else {
      UnguardedExec(env, inv, before);
      DirectDone(env, inv.auths, inv.call, before);
    }
  }

  /** set_discount: exactly for the signing admin or an operator, up to 100 %, and for the named account alone. */
  lemma DiscountExactly(c: Chain, steps: seq<Step>, env: Env, inv: Invocation)
    requires Deployed(c) && Run(c, steps).Some? && inv.call.SetDiscount?
    ensures var w, call := Run(c, steps).value.world, inv.call;
            var v, result := Replay(w.log), Exec(env, inv, w);
            && (result.Ok? <==>
                  && v.config.Some? && call.caller in inv.auths && call.caller != 0 && call.bps <= 10_000
                  && (|| call.caller == v.config.value.admin
                      || (call.caller in v.roles && v.roles[call.caller] in {Operator, Admin})))
            && (result.Ok? ==>
                  && result.value.log == w.log && result.value.vault == w.vault && ViewOf(result.value) == v
                  && forall a :: Discount(result.value.settings, a)
                                 == if a == call.account then call.bps else Discount(w.settings, a))
  {
    hide Run, Replay, Exec;
    AdministrationExactly(c, steps, env, inv);
  }
}
