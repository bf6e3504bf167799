/** The packed configuration slot and the older three-slot layout cannot be told apart by any call. */
module ReceiverLayout {
  import opened Results
  import opened Receiver
  import opened ReceiverNesting
  import opened ReceiverHistory

  /** Initialized worlds that differ at most in how the configuration is laid out. */
  predicate Same(w: World, u: World) {
    && LoadConfig(w.settings.slots).Some?
    && LoadConfig(w.settings.slots) == LoadConfig(u.settings.slots)
    && u == w.(settings := w.settings.(slots := u.settings.slots))
  }

  predicate SameOption(w: Option<World>, u: Option<World>) {
    if w.Some? then u.Some? && Same(w.value, u.value) else u.None?
  }

  predicate SameResult(w: Result<World, Failure>, u: Result<World, Failure>) {
    if w.Ok? then u.Ok? && Same(w.value, u.value) else u == w
  }

  // ---------------------------------------------------------------------------
  // The pieces of a call
  // ---------------------------------------------------------------------------

  lemma RolesSame(env: Env, auths: set<Address>, a: Address, role: Role, renounced: bool, w: World, u: World)
    requires Same(w, u)
    ensures Same(StoreRole(env, auths, a, role, w), StoreRole(env, auths, a, role, u))
    ensures Same(RemoveRole(env, auths, a, renounced, w), RemoveRole(env, auths, a, renounced, u))
    ensures StoreRole(env, auths, a, role, w).settings.slots == w.settings.slots
    ensures RemoveRole(env, auths, a, renounced, w).settings.slots == w.settings.slots
  {
    hide LoadConfig;
  }

  lemma {:induction false} StoreRolesSame(env: Env, auths: set<Address>, addresses: seq<Address>, role: Role,
      w: World, u: World)
    requires Same(w, u)
    ensures Same(StoreRoles(env, auths, addresses, role, w), StoreRoles(env, auths, addresses, role, u))
  {
    hide Same, StoreRole;
    if addresses != [] {
      var n := |addresses| - 1;
      StoreRolesSame(env, auths, addresses[..n], role, w, u);
      RolesSame(env, auths, addresses[n], role, false,
                StoreRoles(env, auths, addresses[..n], role, w), StoreRoles(env, auths, addresses[..n], role, u));
    }
  }

  lemma SaveSame(w: World, u: World, cfg: Config)
    requires Same(w, u)
    ensures Same(SaveConfig(w, cfg), SaveConfig(u, cfg))
  {
  }

  lemma EmitSame(w: World, u: World, env: Env, auths: set<Address>, event: Event)
    requires Same(w, u)
    ensures Same(Emit(w, env, auths, event), Emit(u, env, auths, event))
  {
    hide LoadConfig;
  }

  lemma TransferAdminSame(env: Env, auths: set<Address>, to: Address, w: World, u: World)
    requires Same(w, u)
    ensures SameResult(DoTransferAdmin(env, auths, to, w), DoTransferAdmin(env, auths, to, u))
  {
    var cfg := LoadConfig(w.settings.slots).value;
    RolesSame(env, auths, cfg.admin, Admin, false, w, u);
    var retire := cfg.admin != to && Get(w.settings.roles, cfg.admin) == Some(Admin);
    var w1 := if retire then RemoveRole(env, auths, cfg.admin, false, w) else w;
    var u1 := if retire then RemoveRole(env, auths, cfg.admin, false, u) else u;
    assert Same(w1, u1);
    RolesSame(env, auths, to, Admin, false, w1, u1);
    var w2, u2 := StoreRole(env, auths, to, Admin, w1), StoreRole(env, auths, to, Admin, u1);
    SaveSame(w2, u2, cfg.(admin := to));
    EmitSame(SaveConfig(w2, cfg.(admin := to)), SaveConfig(u2, cfg.(admin := to)), env, auths,
        AdminTransferred(cfg.admin, to));
    hide StoreRole, RemoveRole, LoadConfig, SaveConfig, Emit;
  }

  /** Calls that save the configuration. */
  lemma SavingSame(env: Env, auths: set<Address>, c: Call, w: World, u: World)
    requires Same(w, u) && (c.Pause? || c.Unpause? || c.UpdateTreasury?)
    ensures SameResult(Direct(env, auths, c, w), Direct(env, auths, c, u))
  {
    hide HasAuthority;
  }

  lemma DirectSame(env: Env, auths: set<Address>, c: Call, w: World, u: World)
    requires Same(w, u) && !Guarded(c)
    ensures SameResult(Direct(env, auths, c, w), Direct(env, auths, c, u))
  {
    if c.Pause? || c.Unpause? || c.UpdateTreasury? {
      SavingSame(env, auths, c, w, u);
    } else if c.TransferAdmin? {
      TransferAdminSame(env, auths, c.newAdmin, w, u);
    } else if c.GrantRoles? {
      StoreRolesSame(env, auths, c.addresses, c.role, w, u);
      hide StoreRoles, LoadConfig;
    } else if c.Init? {
      InitRefused(env, auths, c, w);
      InitRefused(env, auths, c, u);
    } else {
      hide LoadConfig, HasAuthority, ValidRate, ValidLimits, DoTransferAdmin, DoInit, StoreRoles;
    }
  }

  /** An initialized contract refuses `init`, whichever layout it has. */
  lemma InitRefused(env: Env, auths: set<Address>, c: Call, w: World)
    requires c.Init? && LoadConfig(w.settings.slots).Some?
    ensures DoInit(env, auths, c, w) == Err(Panic)
  {
  }

  lemma CheckSame(env: Env, auths: set<Address>, c: Call, w: World, u: World)
    requires Same(w, u) && Guarded(c)
    ensures Check(env, auths, c, w) == Check(env, auths, c, u)
  {
    hide LoadConfig, HasAuthority, LiveEscrow;
  }

  lemma AroundSame(env: Env, auths: set<Address>, c: Call, w: World, u: World)
    requires Same(w, u) && Guarded(c) && Check(env, auths, c, w).None? && Check(env, auths, c, u).None?
    ensures Same(SetGuard(Before(env, auths, c, w), true), SetGuard(Before(env, auths, c, u), true))
    ensures !c.Decommission? ==> TransferOf(env, auths, c, w) == TransferOf(env, auths, c, u)
  {
    hide Check, HasAuthority, LiveEscrow, SetWithdrawn, WithdrawnOn;
  }

  lemma AfterSame(env: Env, auths: set<Address>, c: Call, w0: World, u0: World, w: World, u: World)
    requires Same(w0, u0) && Same(w, u) && Guarded(c) && Check(env, auths, c, w0).None? && Check(env, auths, c,
        u0).None?
    ensures Same(After(env, auths, c, w0, w), After(env, auths, c, u0, u))
  {
    hide Check, LoadConfig, LiveEscrow, Put, ActivePayments;
    SameActive(env, c, w0, u0);
  }

  lemma SameActive(env: Env, c: Call, w: World, u: World)
    requires Same(w, u)
    ensures c.Pay? ==> ActivePayments(env, c.from, w) == ActivePayments(env, c.from, u)
  {
    hide LoadConfig;
  }

  lemma MoveSame(w: World, u: World, t: Transfer)
    requires Same(w, u)
    ensures SameOption(Move(w, t), Move(u, t))
  {
    hide LoadConfig;
  }

  lemma UnlockSame(w: World, u: World)
    requires Same(w, u)
    ensures Same(SetGuard(w, false), SetGuard(u, false))
  {
    hide LoadConfig;
  }

  // ---------------------------------------------------------------------------
  // Whole calls, callbacks included
  // ---------------------------------------------------------------------------

  /** Every call has the same result in both layouts: the same failure, or worlds that are again the same. */
  lemma {:induction false} ExecSame(env: Env, inv: Invocation, w: World, u: World)
    requires Same(w, u)
    ensures SameResult(Exec(env, inv, w), Exec(env, inv, u))
    decreases inv
  {
    hide Same, Check, Direct, Before, After, TransferOf, SetGuard, CallTransfer, Sweep, LoadConfig;
    var c := inv.call;
    if !Guarded(c) {
      DirectSame(env, inv.auths, c, w, u);
    } else {
      CheckSame(env, inv.auths, c, w, u);
      SameParts(w, u);
      if Check(env, inv.auths, c, w).None? && !w.vault.guard {
        AroundSame(env, inv.auths, c, w, u);
        var w1, u1 := SetGuard(Before(env, inv.auths, c, w), true), SetGuard(Before(env, inv.auths, c, u), true);
        if c.Decommission? {
          DecommissionSame(env, inv, w, u);
        } else {
          var t := TransferOf(env, inv.auths, c, w);
          CallTransferSame(env, inv.externals, 0, t, w1, u1);
          if CallTransfer(env, inv.externals, 0, t, w1).Some? {
            CloseSame(env, inv.auths, c, w, u, CallTransfer(env, inv.externals, 0, t, w1).value,
                      CallTransfer(env, inv.externals, 0, t, u1).value);
          }
        }
      }
    }
  }

  lemma SameParts(w: World, u: World)
    requires Same(w, u)
    ensures w.vault == u.vault && w.settings.tokens == u.settings.tokens
    ensures LoadConfig(w.settings.slots) == LoadConfig(u.settings.slots)
  {
  }

  lemma CloseSame(env: Env, auths: set<Address>, c: Call, w0: World, u0: World, w: World, u: World)
    requires Same(w0, u0) && Same(w, u) && Guarded(c) && Check(env, auths, c, w0).None? && Check(env, auths, c,
        u0).None?
    ensures Same(After(env, auths, c, w0, SetGuard(w, false)), After(env, auths, c, u0, SetGuard(u, false)))
  {
    hide Same, Check, After, SetGuard;
    UnlockSame(w, u);
    AfterSame(env, auths, c, w0, u0, SetGuard(w, false), SetGuard(u, false));
  }

  lemma {:induction false} DecommissionSame(env: Env, inv: Invocation, w: World, u: World)
    requires Same(w, u) && inv.call.Decommission? && !w.vault.guard
    requires Check(env, inv.auths, inv.call, w).None? && Check(env, inv.auths, inv.call, u).None?
    ensures SameResult(Exec(env, inv, w), Exec(env, inv, u))
    decreases inv, 0
  {
    hide Same, Direct, Before, After, TransferOf, SetGuard, CallTransfer, Sweep, SweepList, LoadConfig,
      CheckPay, CheckDeposit, CheckRelease, CheckRefund, CheckRescue;
    var c := inv.call;
    SameParts(w, u);
    AroundSame(env, inv.auths, c, w, u);
    var w1, u1 := SetGuard(Before(env, inv.auths, c, w), true), SetGuard(Before(env, inv.auths, c, u), true);
    var tokens := SweepList([w.settings.tokens[Usdc], w.settings.tokens[Xlm]], c.extraTokens);
    var to := LoadConfig(w.settings.slots).value.treasury;
    SweepSame(env, inv.externals, tokens, to, w1, u1);
    if Sweep(env, inv.externals, tokens, to, w1).Some? {
      CloseSame(env, inv.auths, c, w, u, Sweep(env, inv.externals, tokens, to, w1).value,
                Sweep(env, inv.externals, tokens, to, u1).value);
    }
  }

  lemma {:induction false} RunCallsSame(env: Env, calls: seq<Invocation>, w: World, u: World)
    requires Same(w, u)
    ensures Same(RunCalls(env, calls, w), RunCalls(env, calls, u))
    decreases calls
  {
    hide Same, Exec;
    if calls != [] {
      var n := |calls| - 1;
      RunCallsSame(env, calls[..n], w, u);
      ExecSame(env, calls[n], RunCalls(env, calls[..n], w), RunCalls(env, calls[..n], u));
    }
  }

  lemma {:induction false} CallTokenSame(env: Env, externals: seq<Behaviour>, i: nat, w: World, u: World)
    requires Same(w, u)
    ensures SameOption(CallToken(env, externals, i, w), CallToken(env, externals, i, u))
    decreases externals, 0
  {
    hide Same, RunCalls;
    if i < |externals| {
      RunCallsSame(env, externals[i].calls, w, u);
    }
  }

  lemma {:induction false} CallTransferSame(env: Env, externals: seq<Behaviour>, i: nat, t: Transfer, w: World,
      u: World)
    requires Same(w, u)
    ensures SameOption(CallTransfer(env, externals, i, t, w), CallTransfer(env, externals, i, t, u))
    decreases externals, 1
  {
    hide Same, CallToken, Move;
    CallTokenSame(env, externals, i, w, u);
    if CallToken(env, externals, i, w).Some? {
      MoveSame(CallToken(env, externals, i, w).value, CallToken(env, externals, i, u).value, t);
    }
  }

  lemma {:induction false} SweepSame(env: Env, externals: seq<Behaviour>, tokens: seq<Address>, to: Address,
      w: World, u: World)
    requires Same(w, u)
    ensures SameOption(Sweep(env, externals, tokens, to, w), Sweep(env, externals, tokens, to, u))
    decreases externals, 2, |tokens|
  {
    hide Same, SweepOne;
    if tokens != [] {
      var n := |tokens| - 1;
      SweepSame(env, externals, tokens[..n], to, w, u);
      if Sweep(env, externals, tokens[..n], to, w).Some? {
        SweepOneSame(env, externals, n, tokens[n], to,
                     Sweep(env, externals, tokens[..n], to, w).value, Sweep(env, externals, tokens[..n], to, u).value);
      }
    }
  }

  lemma {:induction false} SweepOneSame(env: Env, externals: seq<Behaviour>, n: nat, token: Address, to: Address,
      w: World, u: World)
    requires Same(w, u)
    ensures SameOption(SweepOne(env, externals, n, token, to, w), SweepOne(env, externals, n, token, to, u))
    decreases externals, 2, 0
  {
    hide Same, CallToken, CallTransfer, Balance;
    CallTokenSame(env, externals, 2 * n, w, u);
    if CallToken(env, externals, 2 * n, w).Some? {
      var w1, u1 := CallToken(env, externals, 2 * n, w).value, CallToken(env, externals, 2 * n, u).value;
      SameParts(w1, u1);
      CallTransferSame(env, externals, 2 * n + 1, Transfer(token, SELF, to, Balance(w1.vault, token, SELF)), w1, u1);
    }
  }

  /** Two runs of the same steps, one from each layout, stay the same throughout. */
  lemma {:induction false} LayoutsAgree(c: Chain, d: Chain, steps: seq<Step>)
    requires Same(c.world, d.world) && c.ledger == d.ledger && c.time == d.time
    ensures Run(c, steps).Some? <==> Run(d, steps).Some?
    ensures Run(c, steps).Some? ==>
              var c1, d1 := Run(c, steps).value, Run(d, steps).value;
              Same(c1.world, d1.world) && c1.ledger == d1.ledger && c1.time == d1.time
  {
    hide Same, Exec, Move;
    if steps != [] {
      var n := |steps| - 1;
      LayoutsAgree(c, d, steps[..n]);
      if Run(c, steps[..n]).Some? {
        var c1, d1 := Run(c, steps[..n]).value, Run(d, steps[..n]).value;
        match steps[n] {
          case Invoke(env, inv) => ExecSame(env, inv, c1.world, d1.world);
          case Outside(t) => MoveSame(c1.world, d1.world, t);
        }
      }
    }
  }

  // ---------------------------------------------------------------------------
  // Retiring the old slots
  // ---------------------------------------------------------------------------

  predicate Packed(s: Slots) {
    s.config.Some? && s.admin.None? && s.treasury.None? && s.paused.None?
  }

  lemma {:induction false} StoreRolesSlots(env: Env, auths: set<Address>, addresses: seq<Address>, role: Role, w: World)
    ensures StoreRoles(env, auths, addresses, role, w).settings.slots == w.settings.slots
  {
    if addresses != [] {
      StoreRolesSlots(env, auths, addresses[..|addresses| - 1], role, w);
    }
  }

  lemma DirectSlots(env: Env, auths: set<Address>, c: Call, w: World)
    requires !Guarded(c) && Direct(env, auths, c, w).Ok?
    ensures var s := Direct(env, auths, c, w).value.settings.slots;
            s == w.settings.slots || Packed(s)
  {
    hide LoadConfig, HasAuthority, ValidInit, ValidRate, ValidLimits, AdminGate, StoreRoles;
    if c.GrantRoles? {
      StoreRolesSlots(env, auths, c.addresses, c.role, w);
    }
  }

  lemma {:induction false} FoldSlots(env: Env, ms: seq<Micro>, w: World)
    requires Fold(env, ms, w).Some?
    ensures var s := Fold(env, ms, w).value.settings.slots;
            s == w.settings.slots || Packed(s)
  {
    hide Direct, Move, Packed, Quietly;
    if ms != [] {
      var n := |ms| - 1;
      FoldSlots(env, ms[..n], w);
      var w1 := Fold(env, ms[..n], w).value;
      MicroFrame(env, ms[n], w1);
      if ms[n].Does? {
        DirectSlots(env, ms[n].auths, ms[n].call, w1);
      }
    }
  }

  /** The first call that writes the configuration, whichever it is, leaves only the packed slot behind. */
  lemma FirstSaveRetires(env: Env, inv: Invocation, w: World)
    requires Exec(env, inv, w).Ok?
    ensures var s := Exec(env, inv, w).value.settings.slots;
            s == w.settings.slots || Packed(s)
  {
    hide Exec, Direct, Fold, Check, After, Quietly, LoadConfig;
    if Guarded(inv.call) {
      var ms, locked, mid := GuardedOutline(env, inv, w);
      BeforeFrame(env, inv.auths, inv.call, w);
      FoldSlots(env, ms, locked);
    } else {
      UnguardedExec(env, inv, w);
      DirectSlots(env, inv.auths, inv.call, w);
    }
  }

  /**
   * A contract still in the three-slot layout answers every call as the contract whose packed slot holds the same
   * admin, treasury and flag: the same error, or worlds that are equal once either has saved its configuration
   * and until then differ in nothing but the slots.
   */
  lemma MigrationIsInvisible(env: Env, inv: Invocation, w: World, admin: Address, treasury: Address, paused: Option<bool>)
    requires w.settings.slots == Slots(None, Some(admin), Some(treasury), paused)
    ensures var packed := Slots(Some(Config(admin, treasury, paused == Some(true))), None, None, None);
            var before, after := Exec(env, inv, w), Exec(env, inv, w.(settings := w.settings.(slots := packed)));
            if before.Err? then after == before
            else
              && after.Ok?
              && (|| after.value == before.value
                  || (before.value.settings.slots == w.settings.slots && after.value.settings.slots == packed
                      && after.value == before.value.(settings := before.value.settings.(slots := packed))))
  {
    hide Exec;
    var u := w.(settings := w.settings.(slots := Slots(Some(Config(admin, treasury, paused == Some(true))), None, None, None)));
    assert Same(w, u);
    ExecSame(env, inv, w, u);
    if Exec(env, inv, w).Ok? {
      FirstSaveRetires(env, inv, w);
      FirstSaveRetires(env, inv, u);
    }
  }
}
