/** Decommissioning: the sweep empties the contract into the treasury, and nothing ever reopens it. */
module ReceiverShutdown {
  import opened Results
  import opened Receiver
  import opened ReceiverNesting
  import opened ReceiverHistory

  // ---------------------------------------------------------------------------
  // Balances
  // ---------------------------------------------------------------------------

  predicate NonNegative(v: Vault) {
    forall k :: k in v.balances ==> v.balances[k] >= 0
  }

  lemma MoveBalances(w: World, t: Transfer)
    requires NonNegative(w.vault) && Move(w, t).Some?
    ensures var w1 := Move(w, t).value;
            && NonNegative(w1.vault)
            && (forall u, h :: u != t.token || (h != t.from && h != t.to) ==>
                  Balance(w1.vault, u, h) == Balance(w.vault, u, h))
            && (t.from != t.to ==>
                  && Balance(w1.vault, t.token, t.from) == Balance(w.vault, t.token, t.from) - t.amount
                  && Balance(w1.vault, t.token, t.to) == Balance(w.vault, t.token, t.to) + t.amount)
            && (t.from == t.to ==> Balance(w1.vault, t.token, t.to) == Balance(w.vault, t.token, t.to))
  {
  }

  lemma {:induction false} FoldNonNegative(env: Env, ms: seq<Micro>, w: World)
    requires NonNegative(w.vault) && Fold(env, ms, w).Some?
    ensures NonNegative(Fold(env, ms, w).value.vault)
  {
    hide Direct, Move, Quietly;
    if ms != [] {
      var n := |ms| - 1;
      FoldNonNegative(env, ms[..n], w);
      MicroFrame(env, ms[n], Fold(env, ms[..n], w).value);
      if ms[n].Moves? {
        MoveBalances(Fold(env, ms[..n], w).value, ms[n].transfer);
      }
    }
  }

  lemma StepNonNegative(c: Chain, s: Step)
    requires NonNegative(c.world.vault)
    ensures NonNegative(Next(c, s).world.vault)
  {
    hide Exec, Direct, Move, Check, Quietly, NonNegative;
    if s.Outside? {
      if Move(c.world, s.transfer).Some? { MoveBalances(c.world, s.transfer); }
    } else if Exec(s.env, s.invocation, c.world).Ok? {
      var inv := s.invocation;
      if Guarded(inv.call) {
        GuardedNonNegative(s.env, inv, c.world);
      } else {
        UnguardedExec(s.env, inv, c.world);
        DirectFrame(s.env, inv.auths, inv.call, c.world);
      }
    }
  }

  lemma GuardedNonNegative(env: Env, inv: Invocation, w: World)
    requires NonNegative(w.vault) && Guarded(inv.call) && Exec(env, inv, w).Ok?
    ensures NonNegative(Exec(env, inv, w).value.vault)
  {
    var ms, mid := GuardedCall(env, inv, w);
    hide Exec, Check, Fold;
    FoldNonNegative(env, ms, SetGuard(Before(env, inv.auths, inv.call, w), true));
  }

  lemma {:induction false} RunNonNegative(c: Chain, steps: seq<Step>)
    requires NonNegative(c.world.vault) && Run(c, steps).Some?
    ensures NonNegative(Run(c, steps).value.world.vault)
  {
    hide NonNegative, Next, CanStep;
    if steps != [] {
      RunNonNegative(c, steps[..|steps| - 1]);
      StepNonNegative(Run(c, steps[..|steps| - 1]).value, steps[|steps| - 1]);
    }
  }

  // ---------------------------------------------------------------------------
  // The sweep
  // ---------------------------------------------------------------------------

  /** Between `v` and `v1`, tokens moved only from the contract to `to`. */
  ghost predicate OnlySwept(v: Vault, v1: Vault, to: Address) {
    && NonNegative(v1)
    && (forall t :: Balance(v1, t, SELF) + Balance(v1, t, to) == Balance(v, t, SELF) + Balance(v, t, to))
    && (forall t :: Balance(v1, t, SELF) <= Balance(v, t, SELF))
    && (forall t, h :: h != SELF && h != to ==> Balance(v1, t, h) == Balance(v, t, h))
  }

  lemma SweepOneEffect(env: Env, externals: seq<Behaviour>, n: nat, token: Address, to: Address, w: World)
    requires w.vault.guard && to != SELF && NonNegative(w.vault) && SweepOne(env, externals, n, token, to, w).Some?
    ensures var w1 := SweepOne(env, externals, n, token, to, w).value;
            w1.vault.guard && OnlySwept(w.vault, w1.vault, to) && Balance(w1.vault, token, SELF) == 0
            && forall u, h :: u != token ==> Balance(w1.vault, u, h) == Balance(w.vault, u, h)
  {
    hide CallToken, Fold, Move;
    var quiet := CallTokenFlatten(env, externals, 2 * n, w);
    var w1 := CallToken(env, externals, 2 * n, w).value;
    var held := Balance(w1.vault, token, SELF);
    if held > 0 {
      var more := CallTokenFlatten(env, externals, 2 * n + 1, w1);
      var w2 := CallToken(env, externals, 2 * n + 1, w1).value;
      MoveBalances(w2, Transfer(token, SELF, to, held));
      MicroFrame(env, Moves(Transfer(token, SELF, to, held)), w2);
      hide Balance;
    }
  }

  lemma {:induction false} SweepEffect(env: Env, externals: seq<Behaviour>, tokens: seq<Address>, to: Address, w: World)
    requires w.vault.guard && to != SELF && NonNegative(w.vault) && Sweep(env, externals, tokens, to, w).Some?
    ensures var w1 := Sweep(env, externals, tokens, to, w).value;
            w1.vault.guard && OnlySwept(w.vault, w1.vault, to)
            && (forall i :: 0 <= i < |tokens| ==> Balance(w1.vault, tokens[i], SELF) == 0)
            && (forall u, h :: u !in tokens ==> Balance(w1.vault, u, h) == Balance(w.vault, u, h))
  {
    hide SweepOne, Balance;
    if tokens != [] {
      var n := |tokens| - 1;
      SweepEffect(env, externals, tokens[..n], to, w);
      var w1 := Sweep(env, externals, tokens[..n], to, w).value;
      SweepOneEffect(env, externals, n, tokens[n], to, w1);
      var w2 := SweepOne(env, externals, n, tokens[n], to, w1).value;
      forall i | 0 <= i < |tokens| ensures Balance(w2.vault, tokens[i], SELF) == 0 {
        if i < n {
          assert tokens[..n][i] == tokens[i];
          SelfIsHeld(w2.vault, tokens[i]);
        }
      }
    }
  }

  lemma SelfIsHeld(v: Vault, token: Address)
    requires NonNegative(v)
    ensures Balance(v, token, SELF) >= 0
  {
  }

  /** With tokens that just do their job, the sweep does not fail. */
  lemma {:induction false} PlainSweep(env: Env, tokens: seq<Address>, to: Address, w: World)
    ensures Sweep(env, [], tokens, to, w).Some?
  {
    if tokens != [] {
      PlainSweep(env, tokens[..|tokens| - 1], to, w);
    }
  }

  /** Nothing is listed twice by the extras, and nothing is forgotten. */
  lemma {:induction false} SweepListCovers(tokens: seq<Address>, extra: seq<Address>, t: Address)
    ensures t in SweepList(tokens, extra) <==> t in tokens || t in extra
  {
    if extra != [] {
      SweepListCovers(tokens, extra[..|extra| - 1], t);
    }
  }

  /**
   * A successful decommission leaves no USDC, no XLM and none of the extra tokens in the contract; the
   * treasury's balance of each has grown by exactly what the contract held; no other balance is touched.
   */
  lemma DecommissionSweeps(env: Env, inv: Invocation, w: World, t: Address)
    requires inv.call.Decommission? && Exec(env, inv, w).Ok? && NonNegative(w.vault)
    requires LoadConfig(w.settings.slots).Some? && LoadConfig(w.settings.slots).value.treasury != SELF
    ensures var w1, to := Exec(env, inv, w).value, LoadConfig(w.settings.slots).value.treasury;
            if t in w.settings.tokens.Values || t in inv.call.extraTokens then
              && Balance(w1.vault, t, SELF) == 0
              && Balance(w1.vault, t, to) == Balance(w.vault, t, to) + Balance(w.vault, t, SELF)
              && forall h :: h != SELF && h != to ==> Balance(w1.vault, t, h) == Balance(w.vault, t, h)
            else
              forall h :: Balance(w1.vault, t, h) == Balance(w.vault, t, h)
  {
    hide Direct, Sweep, SweepList, LoadConfig, Balance, CheckPay, CheckDeposit, CheckRelease, CheckRefund, CheckRescue, OnlySwept;
    var to := LoadConfig(w.settings.slots).value.treasury;
    assert CheckDecommission(inv.auths, w).None?;
    var pair := [w.settings.tokens[Usdc], w.settings.tokens[Xlm]];
    var tokens := SweepList(pair, inv.call.extraTokens);
    var locked := SetGuard(Before(env, inv.auths, inv.call, w), true);
    SweepEffect(env, inv.externals, tokens, to, locked);
    SweepListCovers(pair, inv.call.extraTokens, t);
    TokensArePair(w.settings.tokens, t);
    var swept := Sweep(env, inv.externals, tokens, to, locked).value;
    var v1 := Exec(env, inv, w).value.vault;
    SameBalances(locked.vault, w.vault, swept.vault, v1);
    if t in tokens {
      var i :| 0 <= i < |tokens| && tokens[i] == t;
      SweptOut(locked.vault, swept.vault, t, to);
    }
  }

  lemma SweptOut(v: Vault, v1: Vault, t: Address, to: Address)
    requires OnlySwept(v, v1, to) && Balance(v1, t, SELF) == 0
    ensures Balance(v1, t, to) == Balance(v, t, to) + Balance(v, t, SELF)
    ensures forall h :: h != SELF && h != to ==> Balance(v1, t, h) == Balance(v, t, h)
  {
    hide Balance;
  }

  lemma SameBalances(u: Vault, v: Vault, u1: Vault, v1: Vault)
    requires v.balances == u.balances && v1.balances == u1.balances
    ensures forall t, h :: Balance(v, t, h) == Balance(u, t, h)
    ensures forall t, h :: Balance(v1, t, h) == Balance(u1, t, h)
  {
  }

  lemma TokensArePair(tokens: map<Asset, Address>, t: Address)
    requires Usdc in tokens && Xlm in tokens
    ensures t in [tokens[Usdc], tokens[Xlm]] <==> t in tokens.Values
  {
    if t in tokens.Values {
      TokenIsPaired(tokens, t);
    }
  }

  lemma TokenIsPaired(tokens: map<Asset, Address>, t: Address)
    requires Usdc in tokens && Xlm in tokens && t in tokens.Values
    ensures t in [tokens[Usdc], tokens[Xlm]]
  {
    var a :| a in tokens && tokens[a] == t;
    if a == Xlm { assert [tokens[Usdc], tokens[Xlm]][1] == t; }
  }

  // ---------------------------------------------------------------------------
  // Afterwards
  // ---------------------------------------------------------------------------

  /** On a decommissioned contract only escrows already held can still move: released or refunded. */
  lemma DeadRefuses(env: Env, inv: Invocation, w: World)
    requires w.vault.decommissioned && Guarded(inv.call) && !inv.call.ReleaseEscrow? && !inv.call.RefundEscrow?
    ensures Exec(env, inv, w).Err?
  {
    hide CheckRelease, CheckRefund, Before, After, Sweep, CallTransfer, HasAuthority;
  }

  /** How a decommissioned world may change: still dead, same admin, no role gained. */
  predicate StaysDead(w: World, w1: World) {
    Dead(w1) && AdminOf(w1) == AdminOf(w) && RolesShrink(w.settings.roles, w1.settings.roles)
  }

  lemma GuardedStaysDead(env: Env, inv: Invocation, w: World)
    requires Dead(w) && Guarded(inv.call) && Exec(env, inv, w).Ok?
    ensures StaysDead(w, Exec(env, inv, w).value)
  {
    if !inv.call.ReleaseEscrow? && !inv.call.RefundEscrow? {
      DeadRefuses(env, inv, w);
    }
    var ms, mid := GuardedCall(env, inv, w);
    hide Exec, Fold, Check, LoadConfig;
    FoldWhenDead(env, ms, SetGuard(Before(env, inv.auths, inv.call, w), true));
  }

  lemma StepStaysDead(c: Chain, s: Step)
    requires Dead(c.world)
    ensures StaysDead(c.world, Next(c, s).world)
  {
    hide Exec, Direct, Move, LoadConfig;
    if s.Outside? {
      if Move(c.world, s.transfer).Some? { MoveWhenDead(c.world, s.transfer); }
    } else if Exec(s.env, s.invocation, c.world).Ok? {
      if Guarded(s.invocation.call) {
        GuardedStaysDead(s.env, s.invocation, c.world);
      } else {
        UnguardedExec(s.env, s.invocation, c.world);
        DirectWhenDead(s.env, s.invocation.auths, s.invocation.call, c.world);
      }
    }
  }

  /** Decommissioned is forever: paused, same admin, and the role map can only shrink. */
  lemma {:induction false} DeadForever(c: Chain, steps: seq<Step>)
    requires Dead(c.world) && Run(c, steps).Some?
    ensures StaysDead(c.world, Run(c, steps).value.world)
  {
    hide Dead, AdminOf, Next, CanStep;
    if steps != [] {
      DeadForever(c, steps[..|steps| - 1]);
      StepStaysDead(Run(c, steps[..|steps| - 1]).value, steps[|steps| - 1]);
    }
  }

  /** A successful decommission makes the world dead, without changing the admin or any role. */
  lemma DecommissionKills(env: Env, inv: Invocation, w: World)
    requires inv.call.Decommission? && Exec(env, inv, w).Ok?
    ensures StaysDead(w, Exec(env, inv, w).value)
  {
    var ms, mid := GuardedCall(env, inv, w);
    hide Exec, Fold, CheckPay, CheckDeposit, CheckRelease, CheckRefund, CheckRescue;
    BeforeDead(env, inv.auths, inv.call, w);
    FoldWhenDead(env, ms, SetGuard(Before(env, inv.auths, inv.call, w), true));
    hide LoadConfig;
  }
}
