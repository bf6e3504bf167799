/** Why the exact condition matters: on every deployed contract, lengthening the window can let through one payment too many. */
module ReceiverWidening {
  import opened Results
  import opened Receiver
  import opened ReceiverNesting
  import opened ReceiverHistory
  import opened ReceiverRate
  import opened ReceiverShutdown

  /** Who is who. */
  datatype Cast = Cast(admin: Address, treasury: Address, usdc: Address, xlm: Address, payer: Address)

  predicate Distinct(k: Cast) {
    && k.admin != SELF && k.treasury != SELF && k.usdc != SELF && k.xlm != SELF && k.payer != SELF
    && k.admin != k.usdc && k.admin != k.xlm && k.usdc != k.xlm
    && k.treasury != k.usdc && k.treasury != k.xlm && k.payer != k.treasury
  }

  /** An initialized, open contract nobody has configured further. */
  predicate Ready(w: World, k: Cast, funds: nat) {
    && w.settings.slots.config == Some(Config(k.admin, k.treasury, false))
    && Usdc in w.settings.tokens && w.settings.tokens[Usdc] == k.usdc
    && w.settings.blacklist == {} && w.settings.bounds == map[] && w.settings.discounts == map[]
    && !w.vault.guard && !w.vault.decommissioned && NonNegative(w.vault)
    && Balance(w.vault, k.usdc, k.payer) >= funds
  }

  function InitAt(c: Chain, k: Cast): Step {
    var probes := Probes(Some(TOKEN_DECIMALS), Some(TOKEN_DECIMALS), false);
    Invoke(Env(c.ledger, c.time, 0), Invocation(Call.Init(k.admin, k.treasury, k.usdc, k.xlm, probes), {k.admin}, []))
  }

  /** The payer pays one stroop of USDC. */
  function PayAt(c: Chain, k: Cast, ledger: nat): Step {
    Invoke(Env(ledger, c.time, 0), Invocation(Pay(Usdc, k.payer, 1, [], None), {k.payer}, []))
  }

  function WidenAt(c: Chain, k: Cast, ledger: nat, rate: Rate): Step {
    Invoke(Env(ledger, c.time, 0), Invocation(SetRateLimit(k.admin, rate), {k.admin}, []))
  }

  lemma InitStep(c: Chain, k: Cast)
    requires Deployed(c) && Distinct(k) && Balance(c.world.vault, k.usdc, k.payer) >= 3
    ensures var d := Next(c, InitAt(c, k));
            && d.ledger == c.ledger && d.time == c.time && Ready(d.world, k, 3)
            && d.world.settings.rate == None && d.world.vault.paid == map[]
            && History(d.world.log, k.payer) == []
  {
    var s, d := InitAt(c, k), Next(c, InitAt(c, k));
    UnguardedExec(s.env, s.invocation, c.world);
    hide Exec, History, NonNegative;
    assert NonNegative(c.world.vault) by { DeployedNonNegative(c); }
    EmptyHistory(k.payer);
    HistoryAppend(c.world.log, d.world.log[0], k.payer);
  }

  lemma DeployedNonNegative(c: Chain)
    requires Deployed(c)
    ensures NonNegative(c.world.vault)
  {
  }

  lemma EmptyHistory(payer: Address)
    ensures History([], payer) == []
  {
  }

  lemma PayStep(c: Chain, k: Cast, ledger: nat, funds: nat)
    requires Distinct(k) && Ready(c.world, k, funds) && funds > 0 && ledger >= c.ledger
    requires |ActivePayments(Env(ledger, c.time, 0), k.payer, c.world)| < RateOf(c.world.settings.rate).max
    ensures CanStep(c, PayAt(c, k, ledger)) && Exec(PayAt(c, k, ledger).env, PayAt(c, k, ledger).invocation, c.world).Ok?
    ensures var d, s := Next(c, PayAt(c, k, ledger)), PayAt(c, k, ledger);
            && d.ledger == ledger && d.time == c.time && Ready(d.world, k, funds - 1)
            && d.world.settings == c.world.settings
            && d.world.vault.paid == PaidAfter(s.env, s.invocation.call, c.world, c.world.vault.paid)
            && History(d.world.log, k.payer) == History(c.world.log, k.payer) + [ledger]
  {
    var s := PayAt(c, k, ledger);
    var env, inv, w := s.env, s.invocation, c.world;
    hide ActivePayments, History, RateOf, Put;
    assert CheckPay(env, inv.auths, inv.call, w).None?;
    var t := TransferOf(env, inv.auths, inv.call, w);
    assert t == Transfer(k.usdc, k.payer, k.treasury, 1);
    PlainPay(env, inv, w, t);
    var moved := Move(SetGuard(w, true), t).value;
    MoveBalances(SetGuard(w, true), t);
    AfterFrame(env, inv.auths, inv.call, w, SetGuard(moved, false));
    HistoryAppend(w.log, Exec(env, inv, w).value.log[|w.log|], k.payer);
  }

  lemma PlainPay(env: Env, inv: Invocation, w: World, t: Transfer)
    requires inv.call.Pay? && inv.externals == [] && !w.vault.guard
    requires Check(env, inv.auths, inv.call, w).None? && t == TransferOf(env, inv.auths, inv.call, w)
    requires Move(SetGuard(w, true), t).Some?
    ensures Exec(env, inv, w)
         == Ok(After(env, inv.auths, inv.call, w, SetGuard(Move(SetGuard(w, true), t).value, false)))
  {
    hide Check, TransferOf, Move, After;
    assert CallToken(env, inv.externals, 0, SetGuard(w, true)) == Some(SetGuard(w, true));
    assert CallTransfer(env, inv.externals, 0, t, SetGuard(w, true)) == Move(SetGuard(w, true), t);
  }

  lemma WidenStep(c: Chain, k: Cast, ledger: nat, funds: nat, rate: Rate)
    requires Distinct(k) && Ready(c.world, k, funds) && ledger >= c.ledger && ValidRate(rate)
    ensures CanStep(c, WidenAt(c, k, ledger, rate))
    ensures var d := Next(c, WidenAt(c, k, ledger, rate));
            && d.ledger == ledger && d.time == c.time && Ready(d.world, k, funds)
            && d.world.settings.rate == Some(rate) && d.world.vault == c.world.vault
            && History(d.world.log, k.payer) == History(c.world.log, k.payer)
  {
    var s := WidenAt(c, k, ledger, rate);
    UnguardedExec(s.env, s.invocation, c.world);
    hide Exec, History;
    HistoryAppend(c.world.log, Next(c, s).world.log[|c.world.log|], k.payer);
  }

  lemma Extend(c: Chain, steps: seq<Step>, d: Chain, s: Step)
    requires Run(c, steps) == Some(d) && CanStep(d, s)
    ensures Run(c, steps + [s]) == Some(Next(d, s))
  {
    hide Next, CanStep;
    assert (steps + [s])[..|steps|] == steps;
  }

  /** A first payment is stored, and is out of the default window 100 ledgers later. */
  lemma OnlyTheLatest(c: Chain, k: Cast, d: Chain, first: nat)
    requires c.world.settings.rate == None && d.world.settings.rate == None && c.world.vault.paid == map[]
    requires d.world.vault.paid == PaidAfter(Env(first, c.time, 0), PayAt(c, k, first).invocation.call, c.world, map[])
    ensures k.payer in d.world.vault.paid && d.world.vault.paid[k.payer].value == [first]
    ensures ActivePayments(Env(first, c.time, 0), k.payer, c.world) == []
    ensures ActivePayments(Env(first + 100, d.time, 0), k.payer, d.world) == []
  {
    RecentGone([], first, 100);
    RecentGone([first], first + 100, 100);
    RecentGone([], first + 100, 100);
    assert [] + [first] == [first];
  }

  /**
   * Every deployed contract whose payer holds three stroops has a run (initialize, pay, pay 100 ledgers later,
   * widen to two payments in 1000 ledgers) after which the vectors no longer decide as the histories: a third
   * payment goes through although the history already holds two in the window.
   */
  lemma WideningLetsThrough(c: Chain, k: Cast) returns (steps: seq<Step>, pay: Step)
    requires Deployed(c) && Distinct(k) && Balance(c.world.vault, k.usdc, k.payer) >= 3
    ensures Run(c, steps).Some?
    ensures var d := Run(c, steps).value;
            && !VectorIsHistory(d)
            && pay.Invoke? && CanStep(d, pay) && pay.invocation.call == Pay(Usdc, k.payer, 1, [], None)
            && |Recent(History(d.world.log, k.payer), pay.env.ledger, RateOf(d.world.settings.rate).window)|
               >= RateOf(d.world.settings.rate).max
            && Exec(pay.env, pay.invocation, d.world).Ok?
  {
    hide Next, CanStep, Exec, Ready, Deployed, Run;
    var l := c.ledger;
    InitStep(c, k);
    var c1 := Next(c, InitAt(c, k));
    FirstStep(c, InitAt(c, k));
    steps := [InitAt(c, k)];
    var c2, c3, c4 := Middle(c1, k);
    Extend(c, steps, c1, PayAt(c1, k, l));
    steps := steps + [PayAt(c1, k, l)];
    Extend(c, steps, c2, PayAt(c2, k, l + 100));
    steps := steps + [PayAt(c2, k, l + 100)];
    Extend(c, steps, c3, WidenAt(c3, k, l + 101, Rate(2, 1000)));
    steps := steps + [WidenAt(c3, k, l + 101, Rate(2, 1000))];
    pay := PayAt(c4, k, l + 101);
    PayStep(c4, k, l + 101, 1);
  }

  lemma FirstStep(c: Chain, s: Step)
    requires Deployed(c) && s.Invoke? && s.env.ledger == c.ledger && s.env.time == c.time
    ensures Run(c, [s]) == Some(Next(c, s))
  {
    hide Next, Deployed;
    assert [s][..0] == [];
    assert Run(c, []) == Some(c);
  }

  /** The two payments and the widening. */
  lemma Middle(c1: Chain, k: Cast) returns (c2: Chain, c3: Chain, c4: Chain)
    requires Distinct(k) && Ready(c1.world, k, 3) && c1.world.settings.rate == None && c1.world.vault.paid == map[]
    requires History(c1.world.log, k.payer) == []
    ensures var l := c1.ledger;
            && CanStep(c1, PayAt(c1, k, l)) && c2 == Next(c1, PayAt(c1, k, l))
            && CanStep(c2, PayAt(c2, k, l + 100)) && c3 == Next(c2, PayAt(c2, k, l + 100))
            && CanStep(c3, WidenAt(c3, k, l + 101, Rate(2, 1000))) && c4 == Next(c3, WidenAt(c3, k, l + 101, Rate(2, 1000)))
            && c4.ledger == l + 101 && Ready(c4.world, k, 1) && c4.world.settings.rate == Some(Rate(2, 1000))
            && |Recent(History(c4.world.log, k.payer), l + 101, 1000)| == 2
            && |ActivePayments(Env(l + 101, c4.time, 0), k.payer, c4.world)| == 1
            && !VectorIsHistory(c4)
  {
    hide Next, CanStep, Exec, Ready, Recent, History, ActivePayments, VectorIsHistory, PaidAfter, Distinct;
    var l := c1.ledger;
    NoneYet(c1, k);
    PayStep(c1, k, l, 3);
    c2 := Next(c1, PayAt(c1, k, l));
    OnlyTheLatest(c1, k, c2, l);
    PayStep(c2, k, l + 100, 2);
    c3 := Next(c2, PayAt(c2, k, l + 100));
    WidenStep(c3, k, l + 101, 1, Rate(2, 1000));
    c4 := Next(c3, WidenAt(c3, k, l + 101, Rate(2, 1000)));
    TwoAgainstOne(c2, c4, k, l);
  }

  lemma NoneYet(c: Chain, k: Cast)
    requires c.world.vault.paid == map[]
    ensures ActivePayments(Env(c.ledger, c.time, 0), k.payer, c.world) == []
  {
  }

  lemma TwoAgainstOne(c2: Chain, c4: Chain, k: Cast, l: nat)
    requires ActivePayments(Env(l + 100, c2.time, 0), k.payer, c2.world) == [] && c2.world.settings.rate == None
    requires c4.world.vault.paid
          == PaidAfter(Env(l + 100, c2.time, 0), PayAt(c2, k, l + 100).invocation.call, c2.world, c2.world.vault.paid)
    requires c4.ledger == l + 101 && c4.world.settings.rate == Some(Rate(2, 1000))
    requires History(c4.world.log, k.payer) == [l] + [l + 100]
    ensures |Recent(History(c4.world.log, k.payer), l + 101, 1000)| == 2
    ensures |ActivePayments(Env(l + 101, c4.time, 0), k.payer, c4.world)| == 1
    ensures !VectorIsHistory(c4)
  {
    hide ActivePayments, History, Recent, PaidAfter;
    TwoRecent(l);
    LatestIsStored(c2, c4, k, l);
    OneActive(c4, k, l);
    assert !Agree(c4.world, k.payer, l + 101);
  }

  lemma TwoRecent(l: nat)
    ensures Recent([l] + [l + 100], l + 101, 1000) == [l] + [l + 100]
    ensures Recent([l + 100], l + 101, 1000) == [l + 100]
  {
    hide Recent;
    RecentGone([], l + 101, 1000);
    RecentAppend([], l, l + 101, 1000);
    RecentAppend([l], l + 100, l + 101, 1000);
    RecentAppend([], l + 100, l + 101, 1000);
    assert [] + [l] == [l] && [] + [l + 100] == [l + 100];
  }

  lemma LatestIsStored(c2: Chain, c4: Chain, k: Cast, l: nat)
    requires ActivePayments(Env(l + 100, c2.time, 0), k.payer, c2.world) == [] && c2.world.settings.rate == None
    requires c4.world.vault.paid
          == PaidAfter(Env(l + 100, c2.time, 0), PayAt(c2, k, l + 100).invocation.call, c2.world, c2.world.vault.paid)
    ensures Stored(c4.world.vault, k.payer, l + 101) == [l + 100]
  {
    hide ActivePayments;
    assert [] + [l + 100] == [l + 100];
  }

  lemma OneActive(c: Chain, k: Cast, l: nat)
    requires Stored(c.world.vault, k.payer, l + 101) == [l + 100] && c.world.settings.rate == Some(Rate(2, 1000))
    requires Recent([l + 100], l + 101, 1000) == [l + 100]
    ensures ActivePayments(Env(l + 101, c.time, 0), k.payer, c.world) == [l + 100]
  {
  }
}
