/**
 * The two circuit breakers. Their fields are shown to be a digest of the history of outcomes: when
 * they trip, and until when the gate stays shut, is stated on the history alone.
 */
module Breakers {
  import opened Results

  datatype Outcome = Failure(at: int) | Success(at: int)

  /** Outcomes in the order they are recorded: the clock starts at the epoch and does not run backwards. */
  predicate InOrder(h: seq<Outcome>) {
    && (forall i :: 0 <= i < |h| ==> 0 <= h[i].at)
    && (forall i, j :: 0 <= i < j < |h| ==> h[i].at <= h[j].at)
  }

  /** `t` is not before anything recorded. */
  predicate NotBefore(h: seq<Outcome>, t: int) {
    0 <= t && forall i :: 0 <= i < |h| ==> h[i].at <= t
  }

  // ---------------------------------------------------------------------------
  // VCC breaker (vcc-client.js)
  // ---------------------------------------------------------------------------

  const VCC_THRESHOLD := 3
  const VCC_COOLDOWN_MS := 30_000
  const VCC_WINDOW_MS := 60_000

  datatype VccFields = VccFields(failures: nat, openedUntil: int, lastFailureAt: int)

  const VCC_START := VccFields(0, 0, 0)

  function VccFailure(s: VccFields, now: int): VccFields {
    var failures := if now - s.lastFailureAt > VCC_WINDOW_MS then 1 else s.failures + 1;
    if failures >= VCC_THRESHOLD then VccFields(0, now + VCC_COOLDOWN_MS, now)
    else VccFields(failures, s.openedUntil, now)
  }

  function VccSuccess(s: VccFields, now: int): VccFields {
    if now >= s.openedUntil then VccFields(0, 0, 0) else s.(failures := 0)
  }

  function VccAfter(h: seq<Outcome>): VccFields {
    if h == [] then
      VCC_START
    else
      var s := VccAfter(h[..|h| - 1]);
      match h[|h| - 1]
      case Failure(at) => VccFailure(s, at)
      case Success(at) => VccSuccess(s, at)
  }

  /** The history ends in two failures at most a minute apart. */
  predicate Linked(h: seq<Outcome>) {
    var n := |h|;
    n >= 2 && h[n - 2].Failure? && h[n - 1].Failure? && h[n - 1].at - h[n - 2].at <= 60_000
  }

  /** The last outcome is a trip: it ends three linked failures, and neither of the two before it was a trip. */
  predicate VccTrip(h: seq<Outcome>) {
    var n := |h|;
    n >= 3 && Linked(h) && Linked(h[..n - 1]) && !VccTrip(h[..n - 1]) && !VccTrip(h[..n - 2])
  }

  /** Length of the chain of linked failures the history ends in, counted since the last success or trip. */
  function Streak(h: seq<Outcome>): nat {
    var n := |h|;
    if n == 0 || h[n - 1].Success? || VccTrip(h) then 0
    else if Linked(h) && !VccTrip(h[..n - 1]) then 1 + Streak(h[..n - 1])
    else 1
  }

  lemma Shorten(h: seq<Outcome>)
    requires |h| >= 2
    ensures h[..|h| - 1][..|h| - 2] == h[..|h| - 2]
  {
  }

  /** The counter is the streak, and it never shows the threshold: reaching it is the trip. */
  lemma {:induction false} VccCounter(h: seq<Outcome>)
    requires InOrder(h)
    ensures VccAfter(h).failures == Streak(h) < 3
    ensures h != [] && h[|h| - 1].Failure? ==> VccAfter(h).lastFailureAt == h[|h| - 1].at
  {
    if h != [] {
      VccCounter(h[..|h| - 1]);
      if |h| >= 2 {
        Shorten(h);
        ThirdLink(h);
      }
    }
  }

  /** A streak of two before a linked failure is what a trip needs. */
  lemma ThirdLink(h: seq<Outcome>)
    requires |h| >= 2 && Streak(h[..|h| - 1]) < 3
    ensures Linked(h) ==> (VccTrip(h) <==> Streak(h[..|h| - 1]) == 2)
  {
    Shorten(h);
    if |h| >= 3 {
      Shorten(h[..|h| - 1]);
    }
  }

  /** The counter reaches the threshold at an outcome if and only if the history says "trip" there. */
  lemma VccTripsExactly(h: seq<Outcome>)
    requires InOrder(h) && h != [] && h[|h| - 1].Failure?
    ensures var now := h[|h| - 1].at;
            VccTrip(h) <==> VccAfter(h) == VccFields(0, now + 30_000, now)
    ensures !VccTrip(h) ==> VccAfter(h).failures > 0
                            && VccAfter(h).openedUntil == VccAfter(h[..|h| - 1]).openedUntil
  {
    VccCounter(h);
    VccCounter(h[..|h| - 1]);
  }

  /** Outcome `i` of the history was a trip whose cooldown is still running. */
  predicate VccCoolsFrom(h: seq<Outcome>, t: int, i: nat) {
    i < |h| && VccTrip(h[..i + 1]) && t < h[i].at + 30_000
  }

  ghost predicate VccCooling(h: seq<Outcome>, t: int) {
    exists i :: VccCoolsFrom(h, t, i)
  }

  lemma VccCoolingStep(h: seq<Outcome>, t: int)
    requires h != []
    ensures VccCooling(h, t)
       <==> VccCooling(h[..|h| - 1], t) || (VccTrip(h) && t < h[|h| - 1].at + 30_000)
  {
    hide VccTrip;
    var n := |h| - 1;
    assert h[..n + 1] == h;
    forall i: nat | i < n ensures VccCoolsFrom(h[..n], t, i) == VccCoolsFrom(h, t, i) {
      assert h[..n][..i + 1] == h[..i + 1];
    }
    assert VccCoolsFrom(h, t, n) == (VccTrip(h) && t < h[n].at + 30_000);
  }

  /**
   * The gate is shut if and only if the cooldown of some trip in the history is running: nothing
   * recorded in between, success or failure, opens it early or keeps it shut longer.
   */
  lemma {:induction false} VccGate(h: seq<Outcome>, t: int)
    requires InOrder(h) && NotBefore(h, t)
    ensures t < VccAfter(h).openedUntil <==> VccCooling(h, t)
  {
    hide VccTrip, VccCooling;
    if h == [] {
      NothingCools(t);
    } else {
      var n := |h| - 1;
      var g := h[..n];
      VccCoolingStep(h, t);
      VccGate(g, t);
      VccGate(g, h[n].at);
      CoolingFades(g, h[n].at, t);
      if h[n].Failure? {
        VccTripsExactly(h);
      } else {
        NoTripOnSuccess(h);
      }
    }
  }

  lemma NothingCools(t: int)
    ensures !VccCooling([], t) && !WebhookCooling([], t)
  {
  }

  lemma NoTripOnSuccess(h: seq<Outcome>)
    requires h != [] && h[|h| - 1].Success?
    ensures !VccTrip(h) && !WebhookTrip(h)
  {
  }

  /** A cooldown running at `later` was running before, and one started by `now` ends within a cooldown of it. */
  lemma CoolingFades(h: seq<Outcome>, now: int, later: int)
    requires NotBefore(h, now) && now <= later
    ensures VccCooling(h, later) ==> VccCooling(h, now) && later < now + 30_000
    ensures WebhookCooling(h, later) ==> WebhookCooling(h, now) && later < now + 300_000
  {
    hide VccTrip, WebhookTrip;
    if i :| VccCoolsFrom(h, later, i) {
      assert VccCoolsFrom(h, now, i);
    }
    if i :| WebhookCoolsFrom(h, later, i) {
      assert WebhookCoolsFrom(h, now, i);
    }
  }

  lemma VccRecords(h: seq<Outcome>, o: Outcome)
    requires NotBefore(h, o.at) && InOrder(h)
    ensures InOrder(h + [o])
    ensures VccAfter(h + [o]) == if o.Failure? then VccFailure(VccAfter(h), o.at) else VccSuccess(VccAfter(h), o.at)
  {
    hide VccFailure, VccSuccess;
    assert (h + [o])[..|h|] == h;
  }

  class VccCircuit {
    var failures: nat
    var openedUntil: int
    var lastFailureAt: int
    ghost var history: seq<Outcome>

    ghost predicate Valid()
      reads this
    {
      InOrder(history) && VccFields(failures, openedUntil, lastFailureAt) == VccAfter(history)
    }

    constructor ()
      ensures Valid() && history == []
    {
      failures, openedUntil, lastFailureAt, history := 0, 0, 0, [];
    }

    /** vccCircuitGuard: `shut` is the throw. */
    method Guard(now: int) returns (shut: bool)
      requires Valid() && NotBefore(history, now)
      ensures shut <==> VccCooling(history, now)
    {
      VccGate(history, now);
      shut := now < openedUntil;
    }

    method RecordFailure(now: int)
      requires Valid() && NotBefore(history, now)
      modifies this
      ensures Valid() && history == old(history) + [Failure(now)]
    {
      hide InOrder, NotBefore, VccAfter;
      VccRecords(history, Failure(now));
      if now - lastFailureAt > VCC_WINDOW_MS {
        failures := 1;
      } else {
        failures := failures + 1;
      }
      lastFailureAt := now;
      if failures >= VCC_THRESHOLD {
        openedUntil := now + VCC_COOLDOWN_MS;
        failures := 0;
      }
      history := history + [Failure(now)];
    }

    method RecordSuccess(now: int)
      requires Valid() && NotBefore(history, now)
      modifies this
      ensures Valid() && history == old(history) + [Success(now)]
    {
      hide InOrder, NotBefore, VccAfter;
      VccRecords(history, Success(now));
      failures := 0;
      if now >= openedUntil {
        openedUntil := 0;
        lastFailureAt := 0;
      }
      history := history + [Success(now)];
    }
  }

  // ---------------------------------------------------------------------------
  // Webhook breaker (fulfillment.js), one per origin
  // ---------------------------------------------------------------------------

  const CB_THRESHOLD := 5
  const CB_WINDOW_MS := 60_000
  const CB_COOLDOWN_MS := 300_000

  datatype WebhookFields = WebhookFields(failures: seq<int>, openedUntil: int)

  const WEBHOOK_START := WebhookFields([], 0)

  /** `failures.filter((ts) => now - ts < CB_WINDOW_MS)` */
  function Recent(failures: seq<int>, now: int): seq<int> {
    if failures == [] then []
    else
      var rest := Recent(failures[..|failures| - 1], now);
      var ts := failures[|failures| - 1];
      if now - ts < CB_WINDOW_MS then rest + [ts] else rest
  }

  function WebhookFailure(s: WebhookFields, now: int): WebhookFields {
    var failures := Recent(s.failures, now) + [now];
    if |failures| >= CB_THRESHOLD then WebhookFields([], now + CB_COOLDOWN_MS) else s.(failures := failures)
  }

  function WebhookSuccess(s: WebhookFields, now: int): WebhookFields {
    WebhookFields([], if now >= s.openedUntil then 0 else s.openedUntil)
  }

  function WebhookAfter(h: seq<Outcome>): WebhookFields {
    if h == [] then
      WEBHOOK_START
    else
      var s := WebhookAfter(h[..|h| - 1]);
      match h[|h| - 1]
      case Failure(at) => WebhookFailure(s, at)
      case Success(at) => WebhookSuccess(s, at)
  }

  /** Times of all failures since the last success or trip, none forgotten. */
  function Outstanding(h: seq<Outcome>): seq<int>
    decreases h, 1
  {
    if h == [] || h[|h| - 1].Success? || WebhookTrip(h) then []
    else Outstanding(h[..|h| - 1]) + [h[|h| - 1].at]
  }

  /** How many of the times lie less than a minute before `now`. */
  function LastMinute(times: seq<int>, now: int): nat {
    if times == [] then 0
    else LastMinute(times[..|times| - 1], now) + if now < times[|times| - 1] + 60_000 then 1 else 0
  }

  lemma {:induction false} RecentIsLastMinute(times: seq<int>, now: int)
    ensures |Recent(times, now)| == LastMinute(times, now)
  {
    if times != [] {
      RecentIsLastMinute(times[..|times| - 1], now);
    }
  }

  /** The last outcome is a trip: with it, five outstanding failures fall inside the last minute. */
  predicate WebhookTrip(h: seq<Outcome>)
    decreases h, 0
  {
    && h != [] && h[|h| - 1].Failure?
    && LastMinute(Outstanding(h[..|h| - 1]), h[|h| - 1].at) + 1 >= 5
  }

  /** What an earlier filter dropped, a later one would drop too. */
  lemma {:induction false} RecentTwice(s: seq<int>, earlier: int, later: int)
    requires earlier <= later
    ensures Recent(Recent(s, earlier), later) == Recent(s, later)
  {
    if s != [] {
      var n := |s| - 1;
      RecentTwice(s[..n], earlier, later);
      var kept := Recent(s[..n], earlier);
      assert (kept + [s[n]])[..|kept|] == kept;
    }
  }

  /** Forgetting expired failures loses nothing: the stored list filtered at any later time is the full one filtered. */
  lemma {:induction false} WebhookList(h: seq<Outcome>, t: int)
    requires InOrder(h) && NotBefore(h, t)
    ensures Recent(WebhookAfter(h).failures, t) == Recent(Outstanding(h), t)
  {
    if h != [] && h[|h| - 1].Failure? {
      var g, now := h[..|h| - 1], h[|h| - 1].at;
      WebhookList(g, now);
      RecentIsLastMinute(Outstanding(g), now);
      var kept := Recent(Outstanding(g), now);
      if !WebhookTrip(h) {
        RecentTwice(Outstanding(g), now, t);
        RecentAppend(kept, now, t);
        RecentAppend(Outstanding(g), now, t);
      }
    }
  }

  lemma RecentAppend(s: seq<int>, ts: int, t: int)
    ensures Recent(s + [ts], t) == Recent(s, t) + if t - ts < CB_WINDOW_MS then [ts] else []
  {
    assert (s + [ts])[..|s|] == s;
  }

  /** The webhook breaker trips at a failure if and only if it is the fifth outstanding one inside the window. */
  lemma WebhookTripsExactly(h: seq<Outcome>)
    requires InOrder(h) && h != [] && h[|h| - 1].Failure?
    ensures var now := h[|h| - 1].at;
            WebhookTrip(h) <==> WebhookAfter(h) == WebhookFields([], now + 300_000)
    ensures !WebhookTrip(h) ==> WebhookAfter(h).failures != []
                                && WebhookAfter(h).openedUntil == WebhookAfter(h[..|h| - 1]).openedUntil
  {
    WebhookList(h[..|h| - 1], h[|h| - 1].at);
    RecentIsLastMinute(Outstanding(h[..|h| - 1]), h[|h| - 1].at);
  }

  predicate WebhookCoolsFrom(h: seq<Outcome>, t: int, i: nat) {
    i < |h| && WebhookTrip(h[..i + 1]) && t < h[i].at + 300_000
  }

  ghost predicate WebhookCooling(h: seq<Outcome>, t: int) {
    exists i :: WebhookCoolsFrom(h, t, i)
  }

  lemma WebhookCoolingStep(h: seq<Outcome>, t: int)
    requires h != []
    ensures WebhookCooling(h, t)
       <==> WebhookCooling(h[..|h| - 1], t) || (WebhookTrip(h) && t < h[|h| - 1].at + 300_000)
  {
    hide WebhookTrip;
    var n := |h| - 1;
    assert h[..n + 1] == h;
    forall i: nat | i < n ensures WebhookCoolsFrom(h[..n], t, i) == WebhookCoolsFrom(h, t, i) {
      assert h[..n][..i + 1] == h[..i + 1];
    }
    assert WebhookCoolsFrom(h, t, n) == (WebhookTrip(h) && t < h[n].at + 300_000);
  }

  /** As for the VCC gate: shut exactly while some trip's cooldown is running. */
  lemma {:induction false} WebhookGate(h: seq<Outcome>, t: int)
    requires InOrder(h) && NotBefore(h, t)
    ensures t < WebhookAfter(h).openedUntil <==> WebhookCooling(h, t)
  {
    hide WebhookTrip, WebhookCooling, Recent;
    if h == [] {
      NothingCools(t);
    } else {
      var n := |h| - 1;
      var g := h[..n];
      WebhookCoolingStep(h, t);
      WebhookGate(g, t);
      WebhookGate(g, h[n].at);
      CoolingFades(g, h[n].at, t);
      if h[n].Failure? {
        WebhookTripsExactly(h);
      } else {
        NoTripOnSuccess(h);
      }
    }
  }

  lemma WebhookRecords(h: seq<Outcome>, o: Outcome)
    requires NotBefore(h, o.at) && (h == [] || InOrder(h))
    ensures InOrder(h + [o])
    ensures WebhookAfter(h + [o]) ==
            if o.Failure? then WebhookFailure(WebhookAfter(h), o.at) else WebhookSuccess(WebhookAfter(h), o.at)
  {
    hide WebhookFailure, WebhookSuccess;
    assert (h + [o])[..|h|] == h;
  }

  /** circuitBreakerState; an absent origin has an empty history. */
  class WebhookCircuits {
    var state: map<string, WebhookFields>
    ghost var history: map<string, seq<Outcome>>

    ghost predicate Valid()
      reads this
    {
      && history.Keys == state.Keys
      && forall o :: o in state ==> InOrder(history[o]) && state[o] == WebhookAfter(history[o])
    }

    /** The unparsable URL's null origin is "" here; it never gets a state. */
    ghost function History(origin: string): seq<Outcome>
      reads this
    {
      if origin in history then history[origin] else []
    }

    constructor ()
      ensures Valid() && forall o :: History(o) == []
    {
      state, history := map[], map[];
    }

    method IsOpen(origin: string, now: int) returns (open: bool)
      requires Valid() && NotBefore(History(origin), now)
      ensures open <==> WebhookCooling(History(origin), now)
    {
      if origin !in state { return false; }
      WebhookGate(history[origin], now);
      open := now < state[origin].openedUntil;
    }

    method RecordFailure(origin: string, now: int)
      requires Valid() && NotBefore(History(origin), now)
      modifies this
      ensures Valid()
      ensures History(origin) == old(History(origin)) + if origin != "" then [Failure(now)] else []
      ensures forall o :: o != origin ==> History(o) == old(History(o))
    {
      if origin == "" { return; }
      var s := if origin in state then state[origin] else WEBHOOK_START;
      var failures := Filter(s.failures, now);
      failures := failures + [now];
      s := s.(failures := failures);
      if |failures| >= CB_THRESHOLD {
        s := WebhookFields([], now + CB_COOLDOWN_MS);
      }
      Store(origin, s, Failure(now));
    }

    /** An origin with no state yet gets none: its history stays empty. */
    method RecordSuccess(origin: string, now: int)
      requires Valid() && NotBefore(History(origin), now)
      modifies this
      ensures Valid()
      ensures History(origin) == old(History(origin)) + if old(origin in state) then [Success(now)] else []
      ensures forall o :: o != origin ==> History(o) == old(History(o))
    {
      if origin !in state { return; }
      var s := state[origin].(failures := []);
      if now >= s.openedUntil {
        s := s.(openedUntil := 0);
      }
      Store(origin, s, Success(now));
    }

    method Store(origin: string, s: WebhookFields, ghost o: Outcome)
      requires Valid() && NotBefore(History(origin), o.at)
      requires s == if o.Failure? then WebhookFailure(WebhookAfter(History(origin)), o.at)
                    else WebhookSuccess(WebhookAfter(History(origin)), o.at)
      modifies this
      ensures Valid() && state == old(state)[origin := s]
      ensures history == old(history)[origin := old(History(origin)) + [o]]
    {
      hide InOrder, NotBefore, WebhookAfter, WebhookFailure, WebhookSuccess;
      ghost var h := History(origin);
      WebhookRecords(h, o);
      state := state[origin := s];
      history := history[origin := h + [o]];
    }
  }

  method Filter(failures: seq<int>, now: int) returns (kept: seq<int>)
    ensures kept == Recent(failures, now)
  {
    kept := [];
    for i := 0 to |failures|
      invariant kept == Recent(failures[..i], now)
    {
      assert failures[..i + 1][..i] == failures[..i];
      if now - failures[i] < CB_WINDOW_MS {
        kept := kept + [failures[i]];
      }
    }
    assert failures[..|failures|] == failures;
  }
}
