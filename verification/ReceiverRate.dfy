/** The payment rate limit: the pruned, expiring per-payer vector decides as the payer's full history would. */
module ReceiverRate {
  import opened Results
  import opened Receiver
  import opened ReceiverLog
  import opened ReceiverNesting
  import opened ReceiverHistory

  predicate RateLimited(e: Entry, payer: Address) {
    e.event.Paid? && e.event.memo.None? && e.event.from == payer
  }

  /** Ledgers of all accepted `pay_usdc` and `pay_xlm` calls of a payer, by the event log. */
  function History(log: seq<Entry>, payer: Address): seq<nat> {
    if log == [] then
      []
    else
      var e := log[|log| - 1];
      History(log[..|log| - 1], payer) + if RateLimited(e, payer) then [e.ledger] else []
  }

  /** The window in force after `log`. */
  function WindowAt(log: seq<Entry>): nat {
    if log == [] then 100
    else if log[|log| - 1].event.RateLimitSet? then log[|log| - 1].event.rate.window
    else WindowAt(log[..|log| - 1])
  }

  /** No configuration change after `past` lengthened the window. */
  predicate NeverWidenedSince(past: seq<Entry>, log: seq<Entry>) {
    Prefix(past, log)
    && forall i :: |past| <= i < |log| && log[i].event.RateLimitSet? ==> log[i].event.rate.window <= WindowAt(log[..i])
  }

  /** Stored vector and full history agree on the window ending at `ledger`. */
  predicate Agree(w: World, payer: Address, ledger: nat) {
    var window := RateOf(w.settings.rate).window;
    Recent(Stored(w.vault, payer, ledger), ledger, window) == Recent(History(w.log, payer), ledger, window)
  }

  ghost predicate VectorIsHistory(c: Chain) {
    forall payer, ledger :: ledger >= c.ledger ==> Agree(c.world, payer, ledger)
  }

  // ---------------------------------------------------------------------------
  // Filtering by a window
  // ---------------------------------------------------------------------------

  lemma RecentAppend(s: seq<nat>, p: nat, ledger: nat, window: nat)
    ensures Recent(s + [p], ledger, window) ==
            Recent(s, ledger, window) + if p <= ledger && ledger - p < window then [p] else []
  {
    assert (s + [p])[..|s|] == s;
  }

  /** Pruning by a window cannot be noticed later by a window that is no longer. */
  lemma {:induction false} RecentRecent(s: seq<nat>, ledger: nat, window: nat, later: nat, shorter: nat)
    requires ledger <= later && shorter <= window
    requires ledger == later || forall i :: 0 <= i < |s| ==> s[i] <= ledger
    ensures Recent(Recent(s, ledger, window), later, shorter) == Recent(s, later, shorter)
  {
    if s != [] {
      var n := |s| - 1;
      RecentRecent(s[..n], ledger, window, later, shorter);
      var kept := Recent(s[..n], ledger, window);
      if s[n] <= ledger && ledger - s[n] < window {
        RecentAppend(kept, s[n], later, shorter);
      } else {
        assert kept + [] == kept;
      }
    }
  }

  lemma {:induction false} RecentGone(s: seq<nat>, ledger: nat, window: nat)
    requires forall i :: 0 <= i < |s| ==> s[i] + window <= ledger
    ensures Recent(s, ledger, window) == []
  {
    if s != [] {
      RecentGone(s[..|s| - 1], ledger, window);
    }
  }

  lemma {:induction false} RecentConcat(s: seq<nat>, t: seq<nat>, ledger: nat, window: nat)
    ensures Recent(s + t, ledger, window) == Recent(s, ledger, window) + Recent(t, ledger, window)
  {
    if t == [] {
      assert s + t == s;
    } else {
      var n := |t| - 1;
      assert s + t == (s + t[..n]) + [t[n]] && t == t[..n] + [t[n]];
      RecentConcat(s, t[..n], ledger, window);
      RecentAppend(s + t[..n], t[n], ledger, window);
      RecentAppend(t[..n], t[n], ledger, window);
    }
  }

  lemma {:induction false} RecentHas(s: seq<nat>, i: nat, ledger: nat, window: nat)
    requires i < |s| && s[i] <= ledger < s[i] + window
    ensures Recent(s, ledger, window) != []
  {
    if i < |s| - 1 {
      RecentHas(s[..|s| - 1], i, ledger, window);
    }
  }

  /** Payments with ledger in [a, b). */
  function CountIn(s: seq<nat>, a: nat, b: nat): nat {
    if s == [] then 0
    else CountIn(s[..|s| - 1], a, b) + if a <= s[|s| - 1] < b then 1 else 0
  }

  /** Payments in the last `window` ledgers up to and including `ledger`. */
  function InWindow(s: seq<nat>, ledger: nat, window: nat): nat {
    CountIn(s, if ledger < window then 0 else ledger + 1 - window, ledger + 1)
  }

  /** The filter keeps as many ledgers as a count finds in the window. */
  lemma {:induction false} RecentCounts(s: seq<nat>, ledger: nat, window: nat)
    ensures |Recent(s, ledger, window)| == InWindow(s, ledger, window)
  {
    if s != [] {
      RecentCounts(s[..|s| - 1], ledger, window);
    }
  }

  predicate Sorted(s: seq<nat>) {
    forall i, j :: 0 <= i < j < |s| ==> s[i] <= s[j]
  }

  predicate Suffix(s: seq<nat>, t: seq<nat>) {
    |s| <= |t| && t[|t| - |s|..] == s
  }

  /** On ledgers in order, the window filter drops a prefix and nothing else. */
  lemma {:induction false} RecentIsSuffix(s: seq<nat>, ledger: nat, window: nat)
    requires Sorted(s) && forall i :: 0 <= i < |s| ==> s[i] <= ledger
    ensures Suffix(Recent(s, ledger, window), s)
  {
    if s != [] {
      var n := |s| - 1;
      if ledger - s[n] < window {
        RecentIsSuffix(s[..n], ledger, window);
        var kept := Recent(s[..n], ledger, window);
        assert s[|s| - |kept| - 1..] == s[..n][n - |kept|..] + [s[n]];
      } else {
        RecentGone(s, ledger, window);
      }
    }
  }

  lemma SuffixTrans(s: seq<nat>, t: seq<nat>, u: seq<nat>, p: nat)
    requires Suffix(s, t) && Suffix(t, u)
    ensures Suffix(s + [p], u + [p])
  {
    assert u[|u| - |s|..] == u[|u| - |t|..][|t| - |s|..];
    assert (u + [p])[|u| - |s|..] == u[|u| - |s|..] + [p];
  }

  // ---------------------------------------------------------------------------
  // The log
  // ---------------------------------------------------------------------------

  lemma HistoryAppend(log: seq<Entry>, e: Entry, payer: Address)
    ensures History(log + [e], payer) == History(log, payer) + if RateLimited(e, payer) then [e.ledger] else []
  {
    assert (log + [e])[..|log|] == log;
  }

  lemma {:induction false} QuietHistory(env: Env, before: seq<Entry>, after: seq<Entry>, payer: Address)
    requires Quietly(env, before, after)
    ensures History(after, payer) == History(before, payer)
    decreases |after|
  {
    if |after| == |before| {
      assert after == before;
    } else {
      var n := |after| - 1;
      assert after[..n][..|before|] == before;
      QuietHistory(env, before, after[..n], payer);
    }
  }

  lemma {:induction false} HistoryPast(log: seq<Entry>, payer: Address, ledger: nat, time: nat)
    requires Past(log, ledger, time)
    ensures forall i :: 0 <= i < |History(log, payer)| ==> History(log, payer)[i] <= ledger
  {
    if log != [] {
      HistoryPast(log[..|log| - 1], payer, ledger, time);
    }
  }

  lemma {:induction false} WindowNarrows(past: seq<Entry>, log: seq<Entry>)
    requires NeverWidenedSince(past, log)
    ensures WindowAt(log) <= WindowAt(past)
    decreases |log|
  {
    if |log| == |past| {
      assert log == past;
    } else {
      var n := |log| - 1;
      assert log[..n][..|past|] == past;
      forall i | |past| <= i < n && log[i].event.RateLimitSet?
        ensures log[i].event.rate.window <= WindowAt(log[..n][..i])
      {
        assert log[..n][..i] == log[..i];
      }
      WindowNarrows(past, log[..n]);
    }
  }

  lemma WidenedSplit(a: seq<Entry>, b: seq<Entry>, c: seq<Entry>)
    requires Prefix(a, b) && Prefix(b, c) && NeverWidenedSince(a, c)
    ensures NeverWidenedSince(a, b) && NeverWidenedSince(b, c)
  {
    forall i | |a| <= i < |b| && b[i].event.RateLimitSet? ensures b[i].event.rate.window <= WindowAt(b[..i]) {
      assert b[i] == c[i] && b[..i] == c[..i];
    }
  }

  lemma {:induction false} RateFromLog(log: seq<Entry>)
    ensures WindowAt(log) == RateOf(Replay(log).rate).window
  {
    hide Apply;
    if log != [] {
      RateFromLog(log[..|log| - 1]);
      ApplyRate(Replay(log[..|log| - 1]), log[|log| - 1].event);
    }
  }

  lemma ApplyRate(v: View, e: Event)
    ensures Apply(v, e).rate == if e.RateLimitSet? then Some(e.rate) else v.rate
  {
  }

  lemma WindowOfSound(w: World)
    requires Sound(w, false)
    ensures RateOf(w.settings.rate).window == WindowAt(w.log)
  {
    hide Replay, Legal, EscrowBacked, DiscountsBounded;
    RateFromLog(w.log);
  }

  // ---------------------------------------------------------------------------
  // One step
  // ---------------------------------------------------------------------------

  lemma RateChecked(env: Env, auths: set<Address>, c: Call, w: World)
    requires c.Pay? && c.memo.None? && Check(env, auths, c, w).None?
    ensures |ActivePayments(env, c.from, w)| < RateOf(w.settings.rate).max
  {
    hide ActivePayments, RateOf, LoadConfig, WithinBounds;
  }

  /** What a guarded call does to one payer's vector and history. */
  lemma GuardedVector(env: Env, inv: Invocation, w: World, payer: Address)
    requires Guarded(inv.call) && Exec(env, inv, w).Ok?
    ensures var w1, c, rate := Exec(env, inv, w).value, inv.call, RateOf(w.settings.rate);
            if c.Pay? && c.memo.None? && c.from == payer then
              && |Recent(Stored(w.vault, payer, env.ledger), env.ledger, rate.window)| < rate.max
              && History(w1.log, payer) == History(w.log, payer) + [env.ledger]
              && Get(w1.vault.paid, payer) == Some(Put(Get(w.vault.paid, payer),
                   Recent(Stored(w.vault, payer, env.ledger), env.ledger, rate.window) + [env.ledger],
                   env, rate.window, 2 * rate.window))
            else
              && History(w1.log, payer) == History(w.log, payer)
              && Get(w1.vault.paid, payer) == Get(w.vault.paid, payer)
  {
    var ms, locked, mid := GuardedOutline(env, inv, w);
    var w1 := Exec(env, inv, w).value;
    hide Exec, Fold, Quietly, History, Recent, Stored, Put, RateOf, Before, After, Check;
    if inv.call.Pay? && inv.call.memo.None? { RateChecked(env, inv.auths, inv.call, w); }
    BeforeFrame(env, inv.auths, inv.call, w);
    QuietHistory(env, w.log, mid.log, payer);
    HistoryAppend(mid.log, w1.log[|mid.log|], payer);
  }

  /** The vector of a payer nobody recorded for still agrees, in a window that is no longer. */
  lemma UntouchedAgrees(w: World, w1: World, payer: Address, ledger: nat)
    requires Agree(w, payer, ledger) && RateOf(w1.settings.rate).window <= RateOf(w.settings.rate).window
    requires Get(w1.vault.paid, payer) == Get(w.vault.paid, payer) && History(w1.log, payer) == History(w.log, payer)
    ensures Agree(w1, payer, ledger)
  {
    hide Recent, History;
    var window, shorter := RateOf(w.settings.rate).window, RateOf(w1.settings.rate).window;
    RecentRecent(Stored(w.vault, payer, ledger), ledger, window, ledger, shorter);
    RecentRecent(History(w.log, payer), ledger, window, ledger, shorter);
  }

  /** A freshly recorded vector agrees at every later ledger, live or expired. */
  lemma RecordedAgrees(w: World, w1: World, env: Env, payer: Address, ledger: nat)
    requires Agree(w, payer, env.ledger) && ledger >= env.ledger
    requires RateOf(w1.settings.rate).window <= RateOf(w.settings.rate).window
    requires forall i :: 0 <= i < |History(w.log, payer)| ==> History(w.log, payer)[i] <= env.ledger
    requires History(w1.log, payer) == History(w.log, payer) + [env.ledger]
    requires var window := RateOf(w.settings.rate).window;
             Get(w1.vault.paid, payer) == Some(Put(Get(w.vault.paid, payer),
               Recent(Stored(w.vault, payer, env.ledger), env.ledger, window) + [env.ledger], env, window, 2 * window))
    ensures Agree(w1, payer, ledger)
  {
    hide Recent, History, RateOf;
    var window, shorter, past := RateOf(w.settings.rate).window, RateOf(w1.settings.rate).window, History(w.log, payer);
    var kept := Recent(past, env.ledger, window);
    if w1.vault.paid[payer].liveUntil >= ledger {
      assert Stored(w1.vault, payer, ledger) == kept + [env.ledger];
      RecentAppend(kept, env.ledger, ledger, shorter);
      RecentAppend(past, env.ledger, ledger, shorter);
      RecentRecent(past, env.ledger, window, ledger, shorter);
    } else {
      assert Stored(w1.vault, payer, ledger) == [];
      RecentGone([], ledger, shorter);
      RecentGone(past + [env.ledger], ledger, shorter);
    }
  }

  lemma ExecAgrees(env: Env, inv: Invocation, w: World, payer: Address, ledger: nat)
    requires Exec(env, inv, w).Ok? && ledger >= env.ledger
    requires Agree(w, payer, env.ledger) && Agree(w, payer, ledger) && Past(w.log, env.ledger, env.time)
    requires RateOf(Exec(env, inv, w).value.settings.rate).window <= RateOf(w.settings.rate).window
    ensures Agree(Exec(env, inv, w).value, payer, ledger)
  {
    hide Exec, Agree, History, Recent, Past, RateOf, Direct, Quietly, Put;
    var w1, c := Exec(env, inv, w).value, inv.call;
    HistoryPast(w.log, payer, env.ledger, env.time);
    if Guarded(c) {
      GuardedVector(env, inv, w, payer);
      if c.Pay? && c.memo.None? && c.from == payer {
        RecordedAgrees(w, w1, env, payer, ledger);
      } else {
        UntouchedAgrees(w, w1, payer, ledger);
      }
    } else {
      UnguardedExec(env, inv, w);
      DirectFrame(env, inv.auths, c, w);
      QuietHistory(env, w.log, w1.log, payer);
      UntouchedAgrees(w, w1, payer, ledger);
    }
  }

  lemma StepAgrees(c: Chain, s: Step)
    requires CanStep(c, s) && VectorIsHistory(c) && Past(c.world.log, c.ledger, c.time)
    requires RateOf(Next(c, s).world.settings.rate).window <= RateOf(c.world.settings.rate).window
    ensures VectorIsHistory(Next(c, s))
  {
    hide Exec, Agree, RateOf;
    if s.Invoke? && Exec(s.env, s.invocation, c.world).Ok? {
      forall payer, ledger | ledger >= s.env.ledger ensures Agree(Next(c, s).world, payer, ledger) {
        ExecAgrees(s.env, s.invocation, c.world, payer, ledger);
      }
    } else if s.Outside? && Move(c.world, s.transfer).Some? {
      forall payer, ledger | ledger >= c.ledger ensures Agree(Next(c, s).world, payer, ledger) {
        UntouchedAgrees(c.world, Next(c, s).world, payer, ledger);
      }
    }
  }

  // ---------------------------------------------------------------------------
  // The stored vector is the end of the history
  // ---------------------------------------------------------------------------

  /** The payments of `payer` in order, and a stored vector, live or expired, that is the latest of them. */
  predicate Tracked(w: World, payer: Address) {
    && Sorted(History(w.log, payer))
    && (payer in w.vault.paid ==> Suffix(w.vault.paid[payer].value, History(w.log, payer)))
  }

  ghost predicate Tracks(w: World) {
    forall payer :: Tracked(w, payer)
  }

  lemma StoredIsSuffix(w: World, payer: Address, ledger: nat)
    requires Tracked(w, payer)
    ensures Suffix(Stored(w.vault, payer, ledger), History(w.log, payer))
  {
  }

  lemma SortedSuffix(s: seq<nat>, h: seq<nat>, ledger: nat)
    requires Suffix(s, h) && Sorted(h) && forall i :: 0 <= i < |h| ==> h[i] <= ledger
    ensures Sorted(s) && forall i :: 0 <= i < |s| ==> s[i] <= ledger
  {
    assert forall i :: 0 <= i < |s| ==> s[i] == h[|h| - |s| + i];
  }

  lemma RecordedTracks(w: World, w1: World, env: Env, payer: Address, window: nat)
    requires Tracked(w, payer) && forall i :: 0 <= i < |History(w.log, payer)| ==> History(w.log, payer)[i] <= env.ledger
    requires History(w1.log, payer) == History(w.log, payer) + [env.ledger]
    requires Get(w1.vault.paid, payer) == Some(Put(Get(w.vault.paid, payer),
               Recent(Stored(w.vault, payer, env.ledger), env.ledger, window) + [env.ledger], env, window, 2 * window))
    ensures Tracked(w1, payer)
  {
    hide Recent, History;
    var stored, h := Stored(w.vault, payer, env.ledger), History(w.log, payer);
    StoredIsSuffix(w, payer, env.ledger);
    SortedSuffix(stored, h, env.ledger);
    RecentIsSuffix(stored, env.ledger, window);
    SuffixTrans(Recent(stored, env.ledger, window), stored, h, env.ledger);
  }

  lemma ExecTracks(env: Env, inv: Invocation, w: World, payer: Address)
    requires Exec(env, inv, w).Ok? && Tracked(w, payer) && Past(w.log, env.ledger, env.time)
    ensures Tracked(Exec(env, inv, w).value, payer)
  {
    var w1, c := Exec(env, inv, w).value, inv.call;
    hide Exec, History, Recent, Past, RateOf, Direct, Quietly, Put;
    HistoryPast(w.log, payer, env.ledger, env.time);
    if Guarded(c) {
      GuardedVector(env, inv, w, payer);
      if c.Pay? && c.memo.None? && c.from == payer {
        hide Tracked;
        RecordedTracks(w, w1, env, payer, RateOf(w.settings.rate).window);
      }
    } else {
      UnguardedExec(env, inv, w);
      DirectFrame(env, inv.auths, c, w);
      QuietHistory(env, w.log, w1.log, payer);
    }
  }

  lemma StepTracks(c: Chain, s: Step)
    requires CanStep(c, s) && Tracks(c.world) && Past(c.world.log, c.ledger, c.time)
    ensures Tracks(Next(c, s).world)
  {
    hide Exec, Tracked;
    if s.Invoke? && Exec(s.env, s.invocation, c.world).Ok? {
      forall payer ensures Tracked(Next(c, s).world, payer) {
        PastLater(c.world.log, c.ledger, c.time, s.env.ledger, s.env.time);
        ExecTracks(s.env, s.invocation, c.world, payer);
      }
    } else if s.Outside? && Move(c.world, s.transfer).Some? {
      forall payer ensures Tracked(Next(c, s).world, payer) {
        MoveTracks(c.world, s.transfer, payer);
      }
    }
  }

  lemma MoveTracks(w: World, t: Transfer, payer: Address)
    requires Move(w, t).Some? && Tracked(w, payer)
    ensures Tracked(Move(w, t).value, payer)
  {
    hide History;
  }

  lemma PastLater(log: seq<Entry>, ledger: nat, time: nat, ledger1: nat, time1: nat)
    requires Past(log, ledger, time) && ledger <= ledger1 && time <= time1
    ensures Past(log, ledger1, time1)
  {
  }

  /** What the rate results need of a starting point; every chain reached from deployment satisfies it. */
  ghost predicate Start(c: Chain) {
    Sound(c.world, false) && !c.world.vault.guard && Past(c.world.log, c.ledger, c.time) && Tracks(c.world)
  }

  lemma {:induction false} RunStart(c: Chain, steps: seq<Step>)
    requires Start(c) && Run(c, steps).Some?
    ensures Start(Run(c, steps).value)
  {
    hide Sound, Past, Tracks, Next, CanStep;
    RunSound(c, steps);
    RunLog(c, steps);
    if steps != [] {
      var n := |steps| - 1;
      RunStart(c, steps[..n]);
      StepTracks(Run(c, steps[..n]).value, steps[n]);
    }
  }

  lemma ReachableStart(c: Chain, steps: seq<Step>)
    requires Deployed(c) && Run(c, steps).Some?
    ensures Start(Run(c, steps).value)
  {
    hide Run;
    DeployedStart(c);
    RunStart(c, steps);
  }

  lemma DeployedStart(c: Chain)
    requires Deployed(c)
    ensures Start(c) && VectorIsHistory(c)
  {
    DeployedSound(c);
  }

  // ---------------------------------------------------------------------------
  // When the vector decides as the history
  // ---------------------------------------------------------------------------

  /**
   * At ledger `now`, every accepted payment of `payer` that is missing from its live vector has left the
   * window, and a live vector outlives the window of every payment.
   */
  predicate Remembers(v: Vault, payer: Address, history: seq<nat>, now: nat, window: nat) {
    && (forall i :: 0 <= i < |history| - |Stored(v, payer, now)| ==> history[i] + window <= now)
    && (payer in v.paid && v.paid[payer].liveUntil >= now ==>
          forall i :: 0 <= i < |history| ==> history[i] + window <= v.paid[payer].liveUntil + 1)
  }

  /** No payer's vector has forgotten a payment of the window. */
  ghost predicate NoneForgot(w: World, now: nat, window: nat) {
    forall payer :: Remembers(w.vault, payer, History(w.log, payer), now, window)
  }

  lemma SplitAtSuffix(s: seq<nat>, h: seq<nat>, ledger: nat, window: nat)
    requires Suffix(s, h)
    ensures Recent(h, ledger, window) == Recent(h[..|h| - |s|], ledger, window) + Recent(s, ledger, window)
  {
    assert h == h[..|h| - |s|] + s;
    RecentConcat(h[..|h| - |s|], s, ledger, window);
  }

  lemma RememberedAgrees(w: World, payer: Address, now: nat, ledger: nat)
    requires Tracked(w, payer) && ledger >= now
    requires Remembers(w.vault, payer, History(w.log, payer), now, RateOf(w.settings.rate).window)
    ensures Agree(w, payer, ledger)
  {
    hide Recent, History, RateOf;
    var h, window, stored := History(w.log, payer), RateOf(w.settings.rate).window, Stored(w.vault, payer, ledger);
    if stored != [] {
      SplitAtSuffix(stored, h, ledger, window);
      RecentGone(h[..|h| - |stored|], ledger, window);
    } else {
      RecentGone(h, ledger, window);
      RecentGone(stored, ledger, window);
    }
  }

  lemma AgreedRemembers(w: World, payer: Address, now: nat)
    requires Tracked(w, payer) && forall i :: 0 <= i < |History(w.log, payer)| ==> History(w.log, payer)[i] <= now
    requires forall ledger :: ledger >= now ==> Agree(w, payer, ledger)
    ensures Remembers(w.vault, payer, History(w.log, payer), now, RateOf(w.settings.rate).window)
  {
    hide Recent, History, RateOf;
    var h, window, stored := History(w.log, payer), RateOf(w.settings.rate).window, Stored(w.vault, payer, now);
    StoredIsSuffix(w, payer, now);
    SplitAtSuffix(stored, h, now, window);
    assert Agree(w, payer, now);
    forall i | 0 <= i < |h| - |stored| ensures h[i] + window <= now {
      if h[i] + window > now {
        RecentHas(h[..|h| - |stored|], i, now, window);
      }
    }
    if payer in w.vault.paid && w.vault.paid[payer].liveUntil >= now {
      var gone := w.vault.paid[payer].liveUntil + 1;
      assert Agree(w, payer, gone) && Stored(w.vault, payer, gone) == [];
      RecentGone([], gone, window);
      forall i | 0 <= i < |h| ensures h[i] + window <= gone {
        if h[i] + window > gone {
          RecentHas(h, i, gone, window);
        }
      }
    }
  }

  /** In every reachable chain: the vectors decide as the histories, now and later, if and only if none has forgotten. */
  lemma AgreementExactly(c: Chain)
    requires Start(c)
    ensures VectorIsHistory(c) <==> NoneForgot(c.world, c.ledger, RateOf(c.world.settings.rate).window)
  {
    hide Sound, Past, Tracked, Remembers, Agree, History;
    var window := RateOf(c.world.settings.rate).window;
    if VectorIsHistory(c) {
      forall payer ensures Remembers(c.world.vault, payer, History(c.world.log, payer), c.ledger, window) {
        HistoryPast(c.world.log, payer, c.ledger, c.time);
        AgreedRemembers(c.world, payer, c.ledger);
      }
    }
    if NoneForgot(c.world, c.ledger, window) {
      forall payer, ledger | ledger >= c.ledger ensures Agree(c.world, payer, ledger) {
        RememberedAgrees(c.world, payer, c.ledger, ledger);
      }
    }
  }

  lemma SetRateEffect(env: Env, inv: Invocation, w: World)
    requires inv.call.SetRateLimit? && Exec(env, inv, w).Ok?
    ensures var w1 := Exec(env, inv, w).value;
            w1.vault == w.vault && RateOf(w1.settings.rate) == inv.call.rate
            && forall payer :: History(w1.log, payer) == History(w.log, payer)
  {
    hide AdminGate, ValidRate, History;
    var w1 := Exec(env, inv, w).value;
    forall payer ensures History(w1.log, payer) == History(w.log, payer) {
      HistoryAppend(w.log, w1.log[|w.log|], payer);
    }
  }

  lemma SameForgetting(w: World, w1: World, now: nat, window: nat)
    requires w1.vault == w.vault && forall payer :: History(w1.log, payer) == History(w.log, payer)
    ensures NoneForgot(w, now, window) <==> NoneForgot(w1, now, window)
  {
    hide History, Remembers;
    forall payer ensures Remembers(w.vault, payer, History(w.log, payer), now, window)
                    <==> Remembers(w1.vault, payer, History(w1.log, payer), now, window) {
    }
  }

  /**
   * One accepted set_payment_rate_limit, from any reachable chain: the vectors decide as the histories
   * afterwards if and only if, before the call, none had forgotten a payment of the new window.
   */
  lemma SetRateExactly(c: Chain, env: Env, inv: Invocation)
    requires Start(c) && CanStep(c, Invoke(env, inv))
    requires inv.call.SetRateLimit? && Exec(env, inv, c.world).Ok?
    ensures VectorIsHistory(Next(c, Invoke(env, inv))) <==> NoneForgot(c.world, env.ledger, inv.call.rate.window)
  {
    hide Sound, Past, Tracks, Remembers, VectorIsHistory, History, Exec, RateOf;
    var s := Invoke(env, inv);
    StepSound(c, s);
    StepLog(c, s);
    StepTracks(c, s);
    AgreementExactly(Next(c, s));
    SetRateEffect(env, inv, c.world);
    SameForgetting(c.world, Exec(env, inv, c.world).value, env.ledger, inv.call.rate.window);
  }

  /**
   * Over every stretch of a run that does not lengthen the window, agreement persists: stored vector and
   * full history decide alike, now and at every later ledger.
   */
  lemma {:induction false} VectorAgrees(c: Chain, steps: seq<Step>)
    requires Start(c) && VectorIsHistory(c) && Run(c, steps).Some?
    requires NeverWidenedSince(c.world.log, Run(c, steps).value.world.log)
    ensures VectorIsHistory(Run(c, steps).value)
  {
    hide Sound, Past, VectorIsHistory, Tracks, NeverWidenedSince, Next, CanStep;
    if steps != [] {
      var n := |steps| - 1;
      var d := Run(c, steps[..n]).value;
      RunStart(c, steps[..n]);
      RunStart(c, steps);
      RunLog(c, steps[..n]);
      StepLog(d, steps[n]);
      WidenedSplit(c.world.log, d.world.log, Next(d, steps[n]).world.log);
      WindowNarrows(d.world.log, Next(d, steps[n]).world.log);
      VectorAgrees(c, steps[..n]);
      WindowOfSound(d.world);
      WindowOfSound(Next(d, steps[n]).world);
      StepAgrees(d, steps[n]);
    }
  }

  /** The vector never shows a payment the history does not have. */
  lemma VectorShowsNoMore(w: World, payer: Address, ledger: nat)
    requires Tracked(w, payer)
    ensures var window := RateOf(w.settings.rate).window;
            |Recent(Stored(w.vault, payer, ledger), ledger, window)| <= |Recent(History(w.log, payer), ledger, window)|
  {
    hide Recent, History, RateOf;
    StoredIsSuffix(w, payer, ledger);
    SplitAtSuffix(Stored(w.vault, payer, ledger), History(w.log, payer), ledger, RateOf(w.settings.rate).window);
  }

  /**
   * A payment refused for its rate would be refused on the whole history too, in every reachable chain; one
   * let through would be let through on the whole history as well, as long as the payer's vector agrees.
   */
  lemma HistoryDecides(c: Chain, env: Env, inv: Invocation)
    requires Start(c) && env.ledger >= c.ledger && inv.call.Pay? && inv.call.memo.None?
    ensures var rate, result := RateOf(c.world.settings.rate), Exec(env, inv, c.world);
            var recent := InWindow(History(c.world.log, inv.call.from), env.ledger, rate.window);
            && (result == Err(Fails(RateLimitExceeded)) ==> recent >= rate.max)
            && (result.Ok? && Agree(c.world, inv.call.from, env.ledger) ==> recent < rate.max)
  {
    hide Sound, Past, Tracked, History, Recent, RateOf, CallTransfer, Before, After, InWindow;
    VectorShowsNoMore(c.world, inv.call.from, env.ledger);
    RecentCounts(History(c.world.log, inv.call.from), env.ledger, RateOf(c.world.settings.rate).window);
  }

  // ---------------------------------------------------------------------------
  // The limit itself
  // ---------------------------------------------------------------------------

  lemma {:induction false} WindowHolds(s: seq<nat>, a: nat, ledger: nat, window: nat)
    requires a <= ledger < a + window
    requires forall i :: 0 <= i < |s| ==> s[i] <= ledger
    ensures CountIn(s, a, a + window) <= |Recent(s, ledger, window)|
  {
    if s != [] {
      WindowHolds(s[..|s| - 1], a, ledger, window);
    }
  }

  lemma AcceptedCount(h: seq<nat>, a: nat, ledger: nat, rate: Rate)
    requires |Recent(h, ledger, rate.window)| < rate.max
    requires forall i :: 0 <= i < |h| ==> h[i] <= ledger
    ensures var count := CountIn(h + [ledger], a, a + rate.window);
            count <= rate.max || count == CountIn(h, a, a + rate.window)
  {
    assert (h + [ledger])[..|h|] == h;
    if a <= ledger < a + rate.window {
      WindowHolds(h, a, ledger, rate.window);
    }
  }

  predicate SetsRate(e: Event) {
    e.RateLimitSet?
  }

  lemma {:induction false} RateKept(past: seq<Entry>, log: seq<Entry>)
    requires Lacks(past, log, SetsRate)
    ensures Replay(log).rate == Replay(past).rate
    decreases |log|
  {
    if |log| == |past| {
      assert log == past;
    } else {
      var n := |log| - 1;
      assert log[..n][..|past|] == past;
      RateKept(past, log[..n]);
      ApplyRate(Replay(log[..n]), log[n].event);
      hide Apply;
    }
  }

  lemma SameRate(w: World, w1: World)
    requires Sound(w, false) && Sound(w1, false) && Lacks(w.log, w1.log, SetsRate)
    ensures RateOf(w1.settings.rate) == RateOf(w.settings.rate)
  {
    hide Replay, Legal, EscrowBacked, DiscountsBounded, Lacks, LoadConfig;
    RateKept(w.log, w1.log);
  }

  /** The payments of `payer` after the first `n`. */
  function Since(w: World, payer: Address, n: nat): seq<nat> {
    var h := History(w.log, payer);
    if n <= |h| then h[n..] else []
  }

  /** The vector shows at least as many payments in the window ending at `ledger` as were made after the first `n`. */
  predicate Covers(w: World, payer: Address, n: nat, ledger: nat, window: nat) {
    |Recent(Since(w, payer, n), ledger, window)| <= |Recent(Stored(w.vault, payer, ledger), ledger, window)|
  }

  lemma RecordedCovers(w: World, w1: World, env: Env, payer: Address, n: nat, ledger: nat, window: nat)
    requires Covers(w, payer, n, ledger, window) && Tracked(w, payer) && ledger >= env.ledger
    requires n <= |History(w.log, payer)|
    requires forall i :: 0 <= i < |History(w.log, payer)| ==> History(w.log, payer)[i] <= env.ledger
    requires History(w1.log, payer) == History(w.log, payer) + [env.ledger]
    requires Get(w1.vault.paid, payer) == Some(Put(Get(w.vault.paid, payer),
               Recent(Stored(w.vault, payer, env.ledger), env.ledger, window) + [env.ledger], env, window, 2 * window))
    ensures Covers(w1, payer, n, ledger, window)
  {
    hide Recent, History;
    var stored, h, since := Stored(w.vault, payer, env.ledger), History(w.log, payer), Since(w, payer, n);
    assert Since(w1, payer, n) == since + [env.ledger];
    if w1.vault.paid[payer].liveUntil >= ledger {
      StoredIsSuffix(w, payer, env.ledger);
      SortedSuffix(stored, h, env.ledger);
      var kept := Recent(stored, env.ledger, window);
      assert Stored(w1.vault, payer, ledger) == kept + [env.ledger];
      RecentAppend(kept, env.ledger, ledger, window);
      RecentAppend(since, env.ledger, ledger, window);
      RecentRecent(stored, env.ledger, window, ledger, window);
      RecentGone([], ledger, window);
      assert Stored(w.vault, payer, ledger) == stored || Stored(w.vault, payer, ledger) == [];
    } else {
      RecentGone(since + [env.ledger], ledger, window);
    }
  }

  lemma ExecCovers(env: Env, inv: Invocation, w: World, payer: Address, n: nat, ledger: nat)
    requires Exec(env, inv, w).Ok? && ledger >= env.ledger && Past(w.log, env.ledger, env.time)
    requires Tracked(w, payer) && n <= |History(w.log, payer)|
    requires Covers(w, payer, n, ledger, RateOf(w.settings.rate).window)
    ensures Covers(Exec(env, inv, w).value, payer, n, ledger, RateOf(w.settings.rate).window)
    ensures n <= |History(Exec(env, inv, w).value.log, payer)|
  {
    var w1, c := Exec(env, inv, w).value, inv.call;
    hide Exec, Tracked, History, Recent, Past, RateOf, Direct, Quietly, Put;
    HistoryPast(w.log, payer, env.ledger, env.time);
    if Guarded(c) {
      GuardedVector(env, inv, w, payer);
      if c.Pay? && c.memo.None? && c.from == payer {
        hide Covers;
        RecordedCovers(w, w1, env, payer, n, ledger, RateOf(w.settings.rate).window);
      }
    } else {
      UnguardedExec(env, inv, w);
      DirectFrame(env, inv.auths, c, w);
      QuietHistory(env, w.log, w1.log, payer);
    }
  }

  ghost predicate StillCovers(c: Chain, payer: Address, n: nat, window: nat) {
    n <= |History(c.world.log, payer)| && forall ledger :: ledger >= c.ledger ==> Covers(c.world, payer, n, ledger, window)
  }

  lemma StepCovers(c: Chain, s: Step, payer: Address, n: nat)
    requires CanStep(c, s) && Past(c.world.log, c.ledger, c.time) && Tracks(c.world)
    requires StillCovers(c, payer, n, RateOf(c.world.settings.rate).window)
    ensures StillCovers(Next(c, s), payer, n, RateOf(c.world.settings.rate).window)
  {
    hide Exec, Tracked, Covers, History, RateOf;
    assert Tracked(c.world, payer);
    if s.Invoke? && Exec(s.env, s.invocation, c.world).Ok? {
      PastLater(c.world.log, c.ledger, c.time, s.env.ledger, s.env.time);
      assert Covers(c.world, payer, n, s.env.ledger, RateOf(c.world.settings.rate).window);
      ExecCovers(s.env, s.invocation, c.world, payer, n, s.env.ledger);
      forall ledger | ledger >= s.env.ledger
        ensures Covers(Next(c, s).world, payer, n, ledger, RateOf(c.world.settings.rate).window)
      {
        ExecCovers(s.env, s.invocation, c.world, payer, n, ledger);
      }
    } else if s.Outside? && Move(c.world, s.transfer).Some? {
      forall ledger | ledger >= c.ledger
        ensures Covers(Next(c, s).world, payer, n, ledger, RateOf(c.world.settings.rate).window)
      {
        MoveCovers(c.world, s.transfer, payer, n, ledger, RateOf(c.world.settings.rate).window);
      }
    }
  }

  lemma MoveCovers(w: World, t: Transfer, payer: Address, n: nat, ledger: nat, window: nat)
    requires Move(w, t).Some? && Covers(w, payer, n, ledger, window)
    ensures Covers(Move(w, t).value, payer, n, ledger, window)
  {
    hide History, Recent;
  }

  lemma StepSince(c: Chain, s: Step, payer: Address, n: nat, a: nat)
    requires CanStep(c, s) && Past(c.world.log, c.ledger, c.time)
    requires StillCovers(c, payer, n, RateOf(c.world.settings.rate).window)
    requires var rate := RateOf(c.world.settings.rate); CountIn(Since(c.world, payer, n), a, a + rate.window) <= rate.max
    ensures var rate := RateOf(c.world.settings.rate); CountIn(Since(Next(c, s).world, payer, n), a, a + rate.window) <= rate.max
  {
    hide Exec, History, Recent, RateOf, Direct, Quietly, CountIn, Past, Stored, Put;
    if s.Invoke? && Exec(s.env, s.invocation, c.world).Ok? {
      var env, inv, w1, call := s.env, s.invocation, Exec(s.env, s.invocation, c.world).value, s.invocation.call;
      if Guarded(call) {
        GuardedVector(env, inv, c.world, payer);
        if call.Pay? && call.memo.None? && call.from == payer {
          assert Covers(c.world, payer, n, env.ledger, RateOf(c.world.settings.rate).window);
          PastLater(c.world.log, c.ledger, c.time, env.ledger, env.time);
          HistoryPast(c.world.log, payer, env.ledger, env.time);
          assert Since(w1, payer, n) == Since(c.world, payer, n) + [env.ledger];
          AcceptedCount(Since(c.world, payer, n), a, env.ledger, RateOf(c.world.settings.rate));
        }
      } else {
        UnguardedExec(env, inv, c.world);
        DirectFrame(env, inv.auths, call, c.world);
        QuietHistory(env, c.world.log, w1.log, payer);
      }
    }
  }

  /**
   * From any reachable chain, as long as the rate configuration stays as it is: over any run, any `window`
   * consecutive ledgers hold at most `max` of the payments of one payer accepted from there on, counting
   * both assets, whatever was configured, pruned or forgotten before.
   */
  lemma {:induction false} WindowNeverExceeded(c: Chain, steps: seq<Step>, payer: Address, a: nat)
    requires Start(c) && Run(c, steps).Some? && Lacks(c.world.log, Run(c, steps).value.world.log, SetsRate)
    ensures var rate, n, d := RateOf(c.world.settings.rate), |History(c.world.log, payer)|, Run(c, steps).value;
            && n <= |History(d.world.log, payer)|
            && CountIn(History(d.world.log, payer)[n..], a, a + rate.window) <= rate.max
            && StillCovers(d, payer, n, rate.window)
  {
    hide Sound, Past, Tracks, Next, CanStep, History, CountIn, RateOf, Covers;
    var rate, n := RateOf(c.world.settings.rate), |History(c.world.log, payer)|;
    if steps == [] {
      NothingSince(c, payer, a, rate);
    } else {
      var m := |steps| - 1;
      var d := Run(c, steps[..m]).value;
      RunLog(c, steps[..m]);
      RunStart(c, steps[..m]);
      StepLog(d, steps[m]);
      LacksSplit(c.world.log, d.world.log, Next(d, steps[m]).world.log, SetsRate);
      SameRate(c.world, d.world);
      WindowNeverExceeded(c, steps[..m], payer, a);
      StepCovers(d, steps[m], payer, n);
      StepSince(d, steps[m], payer, n, a);
    }
  }

  lemma NothingSince(c: Chain, payer: Address, a: nat, rate: Rate)
    ensures var n := |History(c.world.log, payer)|;
            StillCovers(c, payer, n, rate.window) && CountIn(History(c.world.log, payer)[n..], a, a + rate.window) == 0
  {
    hide History;
    forall ledger ensures Recent(Since(c.world, payer, |History(c.world.log, payer)|), ledger, rate.window) == [] {
    }
  }

  /** Where the vectors also agree with the history at the start, the bound is on all payments ever accepted. */
  lemma {:induction false} WholeHistoryBounded(c: Chain, steps: seq<Step>, payer: Address, a: nat)
    requires Start(c) && VectorIsHistory(c)
    requires Run(c, steps).Some? && Lacks(c.world.log, Run(c, steps).value.world.log, SetsRate)
    ensures var rate, log := RateOf(c.world.settings.rate), Run(c, steps).value.world.log;
            || CountIn(History(log, payer), a, a + rate.window) <= rate.max
            || CountIn(History(log, payer), a, a + rate.window)
               == CountIn(History(c.world.log, payer), a, a + rate.window)
  {
    hide Sound, Past, VectorIsHistory, Tracks, Next, CanStep, History, CountIn, RateOf;
    if steps != [] {
      var n := |steps| - 1;
      var d := Run(c, steps[..n]).value;
      RunLog(c, steps[..n]);
      RunStart(c, steps[..n]);
      StepLog(d, steps[n]);
      LacksSplit(c.world.log, d.world.log, Next(d, steps[n]).world.log, SetsRate);
      SameRate(c.world, d.world);
      LacksIsNarrow(c.world.log, d.world.log);
      VectorAgrees(c, steps[..n]);
      WholeHistoryBounded(c, steps[..n], payer, a);
      StepCount(d, steps[n], payer, a);
    }
  }

  lemma LacksIsNarrow(past: seq<Entry>, log: seq<Entry>)
    requires Lacks(past, log, SetsRate)
    ensures NeverWidenedSince(past, log)
  {
    assert forall i :: |past| <= i < |log| ==> !SetsRate(log[i].event);
  }

  lemma StepCount(c: Chain, s: Step, payer: Address, a: nat)
    requires CanStep(c, s) && VectorIsHistory(c) && Past(c.world.log, c.ledger, c.time)
    ensures var rate := RateOf(c.world.settings.rate);
            var before := CountIn(History(c.world.log, payer), a, a + rate.window);
            var after := CountIn(History(Next(c, s).world.log, payer), a, a + rate.window);
            after <= rate.max || after == before
  {
    hide Exec, History, Recent, RateOf, Direct, Quietly, CountIn, Past, Stored, Put;
    if s.Invoke? && Exec(s.env, s.invocation, c.world).Ok? {
      var env, inv, w1, call := s.env, s.invocation, Exec(s.env, s.invocation, c.world).value, s.invocation.call;
      if Guarded(call) {
        GuardedVector(env, inv, c.world, payer);
        if call.Pay? && call.memo.None? && call.from == payer {
          assert Agree(c.world, payer, env.ledger);
          PastLater(c.world.log, c.ledger, c.time, env.ledger, env.time);
          HistoryPast(c.world.log, payer, env.ledger, env.time);
          AcceptedCount(History(c.world.log, payer), a, env.ledger, RateOf(c.world.settings.rate));
        }
      } else {
        UnguardedExec(env, inv, c.world);
        DirectFrame(env, inv.auths, call, c.world);
        QuietHistory(env, c.world.log, w1.log, payer);
      }
    }
  }
}
