/** The daily rescue limit: one reused storage slot agrees with the full history of rescues. */
module ReceiverRescue {
  import opened Results
  import opened Receiver
  import opened ReceiverLog
  import opened ReceiverNesting
  import opened ReceiverHistory

  /** Everything rescued on `day`, by the event log. */
  function RescuedOn(log: seq<Entry>, day: nat): int {
    if log == [] then
      0
    else
      var e := log[|log| - 1];
      RescuedOn(log[..|log| - 1], day) + if e.event.Rescued? && e.time / 86_400 == day then e.event.amount else 0
  }

  /** The slot gives the history's total for today and every later day. */
  ghost predicate SlotIsHistory(w: World, time: nat) {
    forall d :: d >= time / 86_400 ==> WithdrawnOn(w.vault.daily, d) == RescuedOn(w.log, d)
  }

  lemma RescuedAppend(log: seq<Entry>, e: Entry, day: nat)
    ensures RescuedOn(log + [e], day) ==
            RescuedOn(log, day) + if e.event.Rescued? && e.time / 86_400 == day then e.event.amount else 0
  {
    assert (log + [e])[..|log|] == log;
  }

  lemma {:induction false} QuietRescued(env: Env, before: seq<Entry>, after: seq<Entry>, day: nat)
    requires Quietly(env, before, after)
    ensures RescuedOn(after, day) == RescuedOn(before, day)
    decreases |after|
  {
    if |after| == |before| {
      assert after == before;
    } else {
      var n := |after| - 1;
      assert after[..n][..|before|] == before;
      QuietRescued(env, before, after[..n], day);
    }
  }

  lemma {:induction false} NothingRescuedYet(log: seq<Entry>, ledger: nat, time: nat, day: nat)
    requires Past(log, ledger, time) && day > time / 86_400
    ensures RescuedOn(log, day) == 0
  {
    if log != [] {
      NothingRescuedYet(log[..|log| - 1], ledger, time, day);
    }
  }

  /** A legal log rescues positive amounts only. */
  lemma {:induction false} RescuedNonNegative(log: seq<Entry>, day: nat)
    requires Legal(log)
    ensures RescuedOn(log, day) >= 0
  {
    hide Replay;
    if log != [] {
      RescuedNonNegative(log[..|log| - 1], day);
    }
  }

  /** What a guarded call does to the slot and to the history. */
  lemma GuardedSlot(env: Env, inv: Invocation, w: World, day: nat)
    requires Guarded(inv.call) && Exec(env, inv, w).Ok?
    ensures var w1, rescue := Exec(env, inv, w).value, inv.call.RescueTokens?;
            && w1.vault.daily == (if rescue then SetWithdrawn(env.time / 86_400, WithdrawnOn(w.vault.daily,
                env.time / 86_400) + inv.call.amount)
                                  else w.vault.daily)
            && RescuedOn(w1.log, day) == RescuedOn(w.log, day) + if rescue && day == env.time / 86_400 then inv.call.amount else 0
  {
    var ms, locked, mid := GuardedOutline(env, inv, w);
    hide Exec, Fold, Check, Quietly, RescuedOn, SetWithdrawn, WithdrawnOn, After;
    QuietRescued(env, w.log, mid.log, day);
    RescuedAppend(mid.log, Exec(env, inv, w).value.log[|mid.log|], day);
  }

  lemma StepSlot(c: Chain, s: Step)
    requires CanStep(c, s) && SlotIsHistory(c.world, c.time) && Past(c.world.log, c.ledger, c.time)
    ensures SlotIsHistory(Next(c, s).world, Next(c, s).time)
  {
    hide Exec, Direct, Past, RescuedOn;
    if s.Invoke? && Exec(s.env, s.invocation, c.world).Ok? {
      var w1 := Exec(s.env, s.invocation, c.world).value;
      forall d | d >= s.env.time / 86_400 ensures WithdrawnOn(w1.vault.daily, d) == RescuedOn(w1.log, d) {
        assert d >= c.time / 86_400;
        ExecSlot(s.env, s.invocation, c.world, c.ledger, c.time, d);
      }
    }
  }

  lemma ExecSlot(env: Env, inv: Invocation, w: World, ledger: nat, time: nat, d: nat)
    requires Exec(env, inv, w).Ok? && d >= env.time / 86_400 && env.ledger >= ledger && env.time >= time
    requires WithdrawnOn(w.vault.daily, d) == RescuedOn(w.log, d) && Past(w.log, ledger, time)
    ensures WithdrawnOn(Exec(env, inv, w).value.vault.daily, d) == RescuedOn(Exec(env, inv, w).value.log, d)
  {
    hide Exec, Direct, RescuedOn, Quietly;
    if Guarded(inv.call) {
      GuardedSlot(env, inv, w, d);
      if d > env.time / 86_400 {
        NothingRescuedYet(w.log, env.ledger, env.time, d);
      }
    } else {
      UnguardedExec(env, inv, w);
      DirectFrame(env, inv.auths, inv.call, w);
      QuietRescued(env, w.log, Exec(env, inv, w).value.log, d);
    }
  }

  lemma {:induction false} SlotAgrees(c: Chain, steps: seq<Step>)
    requires SlotIsHistory(c.world, c.time) && Past(c.world.log, c.ledger, c.time) && Run(c, steps).Some?
    ensures SlotIsHistory(Run(c, steps).value.world, Run(c, steps).value.time)
  {
    hide Next, CanStep, Past, SlotIsHistory;
    if steps != [] {
      SlotAgrees(c, steps[..|steps| - 1]);
      RunLog(c, steps[..|steps| - 1]);
      StepSlot(Run(c, steps[..|steps| - 1]).value, steps[|steps| - 1]);
    }
  }

  /** From deployment on, the one slot gives the history's total for today and every later day. */
  lemma SlotIsAlwaysHistory(c: Chain, steps: seq<Step>)
    requires Deployed(c) && Run(c, steps).Some?
    ensures SlotIsHistory(Run(c, steps).value.world, Run(c, steps).value.time)
    ensures Past(Run(c, steps).value.world.log, Run(c, steps).value.ledger, Run(c, steps).value.time)
  {
    hide Run;
    SlotAgrees(c, steps);
    RunLog(c, steps);
  }

  /**
   * A rescue that succeeds adds its amount to the day's history, and the new total is within the daily
   * limit as it stood when the call was checked, whatever its token changed meanwhile.
   */
  lemma RescueWithinLimits(c: Chain, env: Env, inv: Invocation)
    requires SlotIsHistory(c.world, c.time) && env.time >= c.time
    requires inv.call.RescueTokens? && Exec(env, inv, c.world).Ok?
    ensures var limits, log := c.world.settings.limits, Exec(env, inv, c.world).value.log;
            && RescuedOn(log, env.time / 86_400) == RescuedOn(c.world.log, env.time / 86_400) + inv.call.amount
            && (limits.perDay.Some? ==> RescuedOn(log, env.time / 86_400) <= limits.perDay.value)
            && (limits.perCall.Some? ==> inv.call.amount <= limits.perCall.value)
  {
    GuardedSlot(env, inv, c.world, env.time / 86_400);
    var ms, mid := GuardedCall(env, inv, c.world);
    hide Exec, Fold, Before, After, TransferOf, RescuedOn, AdminGate, Check, SetWithdrawn, SlotIsHistory;
    RescueChecked(env, inv.auths, inv.call, c.world);
    SlotToday(c, env);
  }

  lemma RescueChecked(env: Env, auths: set<Address>, c: Call, w: World)
    requires c.RescueTokens? && Check(env, auths, c, w).None?
    ensures var total := WithdrawnOn(w.vault.daily, env.time / 86_400) + c.amount;
            && (w.settings.limits.perDay.Some? ==> total <= w.settings.limits.perDay.value)
            && (w.settings.limits.perCall.Some? ==> c.amount <= w.settings.limits.perCall.value)
  {
    hide AdminGate, WithdrawnOn;
  }

  lemma SlotToday(c: Chain, env: Env)
    requires SlotIsHistory(c.world, c.time) && env.time >= c.time
    ensures WithdrawnOn(c.world.vault.daily, env.time / 86_400) == RescuedOn(c.world.log, env.time / 86_400)
  {
    hide WithdrawnOn, RescuedOn;
  }

  predicate SetsLimits(e: Event) {
    e.WithdrawLimitsSet?
  }

  lemma {:induction false} LimitsFromLog(past: seq<Entry>, log: seq<Entry>)
    requires Lacks(past, log, SetsLimits)
    ensures Replay(log).limits == Replay(past).limits
    decreases |log|
  {
    if |log| == |past| {
      assert log == past;
    } else {
      var n := |log| - 1;
      assert log[..n][..|past|] == past;
      LimitsFromLog(past, log[..n]);
      ApplyKeepsLimits(Replay(log[..n]), log[n].event);
      hide Apply;
    }
  }

  lemma ApplyKeepsLimits(v: View, e: Event)
    requires !e.WithdrawLimitsSet?
    ensures Apply(v, e).limits == v.limits
  {
  }

  /** As long as a daily limit stays in force, over any run, no day's rescues exceed it unless they did before. */
  lemma {:induction false} DailyLimitHolds(c: Chain, steps: seq<Step>, day: nat)
    requires Sound(c.world, false) && !c.world.vault.guard
    requires SlotIsHistory(c.world, c.time) && Past(c.world.log, c.ledger, c.time)
    requires c.world.settings.limits.perDay.Some?
    requires Run(c, steps).Some? && Lacks(c.world.log, Run(c, steps).value.world.log, SetsLimits)
    ensures var log := Run(c, steps).value.world.log;
            RescuedOn(log, day) <= c.world.settings.limits.perDay.value || RescuedOn(log,
                day) == RescuedOn(c.world.log, day)
  {
    hide Sound, SlotIsHistory, Past, RescuedOn, Next, CanStep;
    if steps != [] {
      var n := |steps| - 1;
      var d := Run(c, steps[..n]).value;
      StepLog(d, steps[n]);
      RunLog(c, steps[..n]);
      LacksSplit(c.world.log, d.world.log, Next(d, steps[n]).world.log, SetsLimits);
      DailyLimitHolds(c, steps[..n], day);
      RunSound(c, steps[..n]);
      SlotAgrees(c, steps[..n]);
      LimitsUnchanged(c.world, d.world);
      StepWithinLimit(d, steps[n], day);
    }
  }

  lemma LimitsUnchanged(w: World, w1: World)
    requires Sound(w, false) && Sound(w1, false) && Lacks(w.log, w1.log, SetsLimits)
    ensures w1.settings.limits == w.settings.limits
  {
    hide Replay, Legal, EscrowBacked, DiscountsBounded, Lacks, LoadConfig;
    LimitsFromLog(w.log, w1.log);
  }

  lemma StepWithinLimit(c: Chain, s: Step, day: nat)
    requires CanStep(c, s) && SlotIsHistory(c.world, c.time) && c.world.settings.limits.perDay.Some?
    ensures var log := Next(c, s).world.log;
            RescuedOn(log, day) <= c.world.settings.limits.perDay.value || RescuedOn(log,
                day) == RescuedOn(c.world.log, day)
  {
    hide Exec, Direct, RescuedOn, SlotIsHistory, Quietly;
    if s.Invoke? && Exec(s.env, s.invocation, c.world).Ok? {
      var w1 := Exec(s.env, s.invocation, c.world).value;
      if Guarded(s.invocation.call) {
        GuardedSlot(s.env, s.invocation, c.world, day);
        if s.invocation.call.RescueTokens? && day == s.env.time / 86_400 {
          RescueWithinLimits(c, s.env, s.invocation);
        }
      } else {
        UnguardedExec(s.env, s.invocation, c.world);
        DirectFrame(s.env, s.invocation.auths, s.invocation.call, c.world);
        QuietRescued(s.env, c.world.log, w1.log, day);
      }
    }
  }

  /** The write a failed transfer makes to undo the record reads, from today on, as if nothing was recorded. */
  lemma RestoreUndoesRecord(daily: Option<Withdrawn>, today: nat, amount: int, day: nat)
    requires daily.Some? ==> daily.value.day <= today
    requires day >= today
    ensures var recorded := SetWithdrawn(today, WithdrawnOn(daily, today) + amount);
            var restored := SetWithdrawn(today, WithdrawnOn(daily, today));
            && WithdrawnOn(restored, day) == WithdrawnOn(daily, day)
            && WithdrawnOn(recorded, day) == WithdrawnOn(daily, day) + if day == today then amount else 0
  {
  }
}
