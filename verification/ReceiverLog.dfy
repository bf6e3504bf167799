/**
 * The event log as the contract's history: replaying it rebuilds the visible configuration, and a
 * legal log holds only events that a holder of the right authority caused and that changed something.
 */
module ReceiverLog {
  import opened Results
  import opened Receiver

  /** Everything an indexer reads off the contract; discounts emit no event and are not part of it. */
  datatype View = View(
    config: Option<Config>,
    tokens: map<Asset, Address>,
    roles: map<Address, Role>,
    blacklist: set<Address>,
    rate: Option<Rate>,
    bounds: map<Asset, Bounds>,
    limits: Limits,
    decommissioned: bool)

  const BLANK := View(None, map[], map[], {}, None, map[], Limits(None, None), false)

  function ViewOf(w: World): View {
    var s := w.settings;
    View(LoadConfig(s.slots), s.tokens, s.roles, s.blacklist, s.rate, s.bounds, s.limits, w.vault.decommissioned)
  }

  // ---------------------------------------------------------------------------
  // Replay
  // ---------------------------------------------------------------------------

  function SetPaused(v: View, on: bool): View {
    if v.config.None? then v else v.(config := Some(v.config.value.(paused := on)))
  }

  function Apply(v: View, event: Event): View {
    match event
    case Inited(admin, treasury, usdc, xlm) =>
      v.(config := Some(Config(admin, treasury, false)), tokens := v.tokens[Usdc := usdc][Xlm := xlm],
         roles := v.roles[admin := Admin])
    case Paused(_) => SetPaused(v, true)
    case Unpaused(_) => SetPaused(v, false)
    case TreasuryUpdated(_, to, _) => if v.config.None? then v else v.(config := Some(v.config.value.(treasury := to)))
    case TokenUpdated(asset, _, to, _) => v.(tokens := v.tokens[asset := to])
    case AdminTransferred(_, to) => if v.config.None? then v else v.(config := Some(v.config.value.(admin := to)))
    case RoleGranted(a, role) => v.(roles := v.roles[a := role])
    case RoleRevoked(a, _) => v.(roles := v.roles - {a})
    case RoleRenounced(a, _) => v.(roles := v.roles - {a})
    case Blacklisted(a, _) => v.(blacklist := v.blacklist + {a})
    case Unblacklisted(a, _) => v.(blacklist := v.blacklist - {a})
    case RateLimitSet(_, rate) => v.(rate := Some(rate))
    case PaymentLimitsSet(_, asset, b) => v.(bounds := v.bounds[asset := b])
    case WithdrawLimitsSet(_, l) => v.(limits := l)
    case Decommissioned(_, _) => SetPaused(v, true).(decommissioned := true)
    case _ => v
  }

  function Replay(log: seq<Entry>): View {
    if log == [] then BLANK else Apply(Replay(log[..|log| - 1]), log[|log| - 1].event)
  }

  /** The latest deposit under `key` that has not been released or refunded since. */
  function OpenDeposit(log: seq<Entry>, key: EscrowKey): Option<Entry> {
    if log == [] then
      None
    else
      var e := log[|log| - 1];
      match e.event
      case Deposited(k, _, _) => if k == key then Some(e) else OpenDeposit(log[..|log| - 1], key)
      case Released(k, _, _, _) => if k == key then None else OpenDeposit(log[..|log| - 1], key)
      case Refunded(k, _, _, _) => if k == key then None else OpenDeposit(log[..|log| - 1], key)
      case _ => OpenDeposit(log[..|log| - 1], key)
  }

  // ---------------------------------------------------------------------------
  // Legal logs
  // ---------------------------------------------------------------------------

  predicate AdminActs(v: View, auths: set<Address>) {
    v.config.Some? && Authorized(v.config.value.admin, auths)
  }

  predicate RoleActs(v: View, auths: set<Address>, a: Address, required: Role) {
    v.config.Some? && Authorized(a, auths) && HasAuthority(v.config.value.admin, v.roles, a, required)
  }

  predicate Settlement(event: Event) {
    event.Released? || event.Refunded?
  }

  /** A settlement names the payer and the amount of the deposit it closes. */
  predicate Settles(open: Option<Entry>, event: Event)
    requires Settlement(event)
  {
    open.Some? && open.value.event == Deposited(event.key, event.payer, event.amount)
  }

  /** What the replayed view must satisfy for `e` to be the next event. */
  predicate Permitted(v: View, e: Entry) {
    match e.event
    case Inited(a, _, usdc, xlm) => v.config.None? && Authorized(a, e.auths) && usdc != xlm
    case Paid(_, _, from, amount, _) => Authorized(from, e.auths) && amount > 0
    case Deposited(_, from, amount) => Authorized(from, e.auths) && amount > 0
    case Released(_, caller, _, _) => Authorized(caller, e.auths)
    case Refunded(_, caller, _, _) => Authorized(caller, e.auths)
    case Paused(a) => RoleActs(v, e.auths, a, Operator) && !v.config.value.paused && !v.decommissioned
    case Unpaused(a) =>
      AdminActs(v, e.auths) && a == v.config.value.admin && v.config.value.paused && !v.decommissioned
    case TreasuryUpdated(from, _, a) =>
      AdminActs(v, e.auths) && a == v.config.value.admin && from == v.config.value.treasury
    case TokenUpdated(asset, from, _, a) =>
      AdminActs(v, e.auths) && a == v.config.value.admin && Get(v.tokens, asset) == Some(from)
    case AdminTransferred(from, to) =>
      && AdminActs(v, e.auths) && Authorized(to, e.auths) && !v.decommissioned
      && from == v.config.value.admin && Get(v.roles, to) == Some(Admin)
      && (from != to ==> Get(v.roles, from) != Some(Admin))
    case RoleGranted(a, role) => AdminActs(v, e.auths) && Get(v.roles, a) != Some(role) && !v.decommissioned
    case RoleRevoked(a, role) => AdminActs(v, e.auths) && Get(v.roles, a) == Some(role) && !v.decommissioned
    case RoleRenounced(a, role) => Authorized(a, e.auths) && Get(v.roles, a) == Some(role)
    case Blacklisted(a, caller) => RoleActs(v, e.auths, caller, Operator) && a !in v.blacklist
    case Unblacklisted(a, caller) => RoleActs(v, e.auths, caller, Operator) && a in v.blacklist
    case RateLimitSet(caller, rate) => RoleActs(v, e.auths, caller, Admin) && ValidRate(rate) && !v.decommissioned
    case PaymentLimitsSet(caller, _, _) => RoleActs(v, e.auths, caller, Admin) && !v.decommissioned
    case WithdrawLimitsSet(caller, l) => RoleActs(v, e.auths, caller, Admin) && ValidLimits(l) && !v.decommissioned
    case Rescued(_, to, caller, amount) => Authorized(caller, e.auths) && to != SELF && amount > 0
    case Decommissioned(a, time) =>
      AdminActs(v, e.auths) && a == v.config.value.admin && time == e.time && !v.decommissioned
  }

  /** What must hold of the history so far for `e` to be the next event. */
  predicate Justified(past: seq<Entry>, e: Entry) {
    && Permitted(Replay(past), e)
    && (Settlement(e.event) ==> Settles(OpenDeposit(past, e.event.key), e.event))
  }

  predicate Legal(log: seq<Entry>) {
    log == [] || (Legal(log[..|log| - 1]) && Justified(log[..|log| - 1], log[|log| - 1]))
  }

  lemma ReplayAppend(log: seq<Entry>, e: Entry)
    ensures Replay(log + [e]) == Apply(Replay(log), e.event)
    ensures Legal(log + [e]) <==> Legal(log) && Justified(log, e)
  {
    hide Apply, Justified;
    assert (log + [e])[..|log|] == log;
  }

  predicate EscrowEvent(event: Event) {
    event.Deposited? || event.Released? || event.Refunded?
  }

  lemma OpenDepositAppend(log: seq<Entry>, e: Entry, key: EscrowKey)
    ensures OpenDeposit(log + [e], key) ==
            match e.event
            case Deposited(k, _, _) => (if k == key then Some(e) else OpenDeposit(log, key))
            case Released(k, _, _, _) => (if k == key then None else OpenDeposit(log, key))
            case Refunded(k, _, _, _) => (if k == key then None else OpenDeposit(log, key))
            case _ => OpenDeposit(log, key)
  {
    assert (log + [e])[..|log|] == log;
  }

  lemma {:induction false} LegalPrefix(log: seq<Entry>, i: nat)
    requires Legal(log) && i <= |log|
    ensures Legal(log[..i])
    ensures i < |log| ==> Justified(log[..i], log[i])
  {
    hide Justified;
    var n := |log| - 1;
    if i < n {
      LegalPrefix(log[..n], i);
      assert log[..n][..i] == log[..i];
    } else if i == |log| {
      assert log[..i] == log;
    }
  }

  // ---------------------------------------------------------------------------
  // What a legal log tells
  // ---------------------------------------------------------------------------

  predicate TransitionEvent(event: Event) {
    event.RoleGranted? || event.RoleRevoked? || event.RoleRenounced? || event.Paused? || event.Unpaused?
    || event.Blacklisted? || event.Unblacklisted? || event.Decommissioned? || event.Inited?
  }

  /** Every role, pause, blacklist, decommission and init event changes the replayed view. */
  lemma EventsAreTransitions(log: seq<Entry>, i: nat)
    requires Legal(log) && i < |log| && TransitionEvent(log[i].event)
    ensures Replay(log[..i + 1]) != Replay(log[..i])
  {
    hide Apply, Permitted, Legal, Replay;
    LegalPrefix(log, i);
    assert log[..i + 1] == log[..i] + [log[i]];
    ReplayAppend(log[..i], log[i]);
    TransitionChanges(Replay(log[..i]), log[i]);
  }

  lemma TransitionChanges(v: View, e: Entry)
    requires Permitted(v, e) && TransitionEvent(e.event)
    ensures Apply(v, e.event) != v
  {
    hide HasAuthority, Authorized, ValidRate, ValidLimits;
    var after := Apply(v, e.event);
    match e.event {
      case RoleGranted(a, role) => assert Get(after.roles, a) == Some(role);
      case RoleRevoked(a, role) => assert Get(after.roles, a) == None;
      case RoleRenounced(a, role) => assert Get(after.roles, a) == None;
      case Blacklisted(a, _) => assert a in after.blacklist;
      case Unblacklisted(a, _) => assert a !in after.blacklist;
      case _ =>
    }
  }

  /** Index of the latest event that set or removed `a`'s role. */
  function LastRoleChange(log: seq<Entry>, a: Address): (i: int)
    ensures -1 <= i < |log|
  {
    if log == [] then -1
    else
      var e := log[|log| - 1].event;
      if ChangesRole(e, a) then |log| - 1
      else LastRoleChange(log[..|log| - 1], a)
  }

  /** A held role is exactly what the latest role event about its holder granted. */
  lemma {:induction false} RoleIsLastGrant(log: seq<Entry>, a: Address, role: Role)
    requires Legal(log)
    ensures Get(Replay(log).roles, a) == Some(role) <==>
            var i := LastRoleChange(log, a);
            i >= 0 && (log[i].event == RoleGranted(a, role) || (log[i].event.Inited? && role == Admin))
  {
    if log != [] {
      var n := |log| - 1;
      RoleIsLastGrant(log[..n], a, role);
      RoleAfter(Replay(log[..n]), log[n].event, a);
      hide Justified, Apply;
    }
  }

  predicate ChangesRole(e: Event, a: Address) {
    (e.Inited? && e.admin == a) || ((e.RoleGranted? || e.RoleRevoked? || e.RoleRenounced?) && e.address == a)
  }

  lemma RoleAfter(v: View, e: Event, a: Address)
    ensures Get(Apply(v, e).roles, a) ==
            if !ChangesRole(e, a) then Get(v.roles, a)
            else if e.Inited? then Some(Admin)
            else if e.RoleGranted? then Some(e.role)
            else None
  {
  }

  /** The latest role change of `a` made it Admin, by `init` or by a grant authorized by the admin of that moment. */
  predicate GrantedByAdmin(log: seq<Entry>, a: Address) {
    var i := LastRoleChange(log, a);
    && i >= 0
    && (|| (log[i].event.Inited? && log[i].event.admin == a && Authorized(a, log[i].auths))
        || (log[i].event == RoleGranted(a, Admin) && AdminActs(Replay(log[..i]), log[i].auths)))
  }

  /** Provenance of Admin authority: whoever holds it is the stored admin or was made Admin by one, and not demoted since. */
  lemma AdminProvenance(log: seq<Entry>, a: Address)
    requires Legal(log) && HoldsAdmin(Replay(log), a)
    ensures a == Replay(log).config.value.admin || GrantedByAdmin(log, a)
  {
    if a != Replay(log).config.value.admin {
      RoleIsLastGrant(log, a, Admin);
      var i := LastRoleChange(log, a);
      LegalPrefix(log, i);
      LastRoleChangeIsAbout(log, a);
      hide Replay, Legal, LastRoleChange;
    }
  }

  lemma {:induction false} LastRoleChangeIsAbout(log: seq<Entry>, a: Address)
    ensures var i := LastRoleChange(log, a);
            i >= 0 && log[i].event.Inited? ==> log[i].event.admin == a
  {
    if log != [] {
      LastRoleChangeIsAbout(log[..|log| - 1], a);
    }
  }

  predicate Grants(e: Event, a: Address) {
    e == RoleGranted(a, Admin) || (e.Inited? && e.admin == a)
  }

  predicate HoldsAdmin(v: View, a: Address) {
    v.config.Some? && HasAuthority(v.config.value.admin, v.roles, a, Admin)
  }

  lemma StaysWithoutAdmin(v: View, e: Entry, a: Address)
    requires Permitted(v, e) && v.config.Some? && !HoldsAdmin(v, a) && !Grants(e.event, a)
    ensures Apply(v, e.event).config.Some? && !HoldsAdmin(Apply(v, e.event), a)
  {
    RoleAfter(v, e.event, a);
  }

  /** An address without Admin authority has none until a later event grants it Admin. */
  lemma {:induction false} NoAdminUntilGranted(past: seq<Entry>, later: seq<Entry>, a: Address)
    requires Legal(past + later) && Replay(past).config.Some?
    requires !HoldsAdmin(Replay(past), a)
    requires forall i :: 0 <= i < |later| ==> !Grants(later[i].event, a)
    ensures Replay(past + later).config.Some? && !HoldsAdmin(Replay(past + later), a)
  {
    hide Replay, Apply, Permitted, HoldsAdmin, Legal;
    if later == [] {
      assert past + later == past;
    } else {
      var n := |later| - 1;
      assert past + later == (past + later[..n]) + [later[n]];
      ReplayAppend(past + later[..n], later[n]);
      NoAdminUntilGranted(past, later[..n], a);
      StaysWithoutAdmin(Replay(past + later[..n]), later[n], a);
    }
  }

  /**
   * Each settlement is for exactly the latest deposit under its key, and settles it for good: between a
   * settlement and the next one under the same key there is another deposit.
   */
  lemma SettledOnce(log: seq<Entry>, i: nat, j: nat, key: EscrowKey)
    requires Legal(log) && i < j < |log|
    requires SettlesKey(log[i].event, key) && SettlesKey(log[j].event, key)
    ensures exists d :: i < d < j && log[d].event == Deposited(key, log[j].event.payer, log[j].event.amount)
  {
    LegalPrefix(log, j);
    OpenAfter(log[..j], i, key);
    var d := OpenIndex(log[..j], key);
    assert log[..j][d] == log[d];
  }

  predicate SettlesKey(event: Event, key: EscrowKey) {
    (event.Released? || event.Refunded?) && event.key == key
  }

  function OpenIndex(log: seq<Entry>, key: EscrowKey): (i: int)
    requires OpenDeposit(log, key).Some?
    ensures 0 <= i < |log| && log[i] == OpenDeposit(log, key).value
  {
    var n := |log| - 1;
    if log[n].event.Deposited? && log[n].event.key == key then n else OpenIndex(log[..n], key)
  }

  lemma {:induction false} OpenAfter(log: seq<Entry>, i: nat, key: EscrowKey)
    requires i < |log| && SettlesKey(log[i].event, key) && OpenDeposit(log, key).Some?
    ensures OpenIndex(log, key) > i
  {
    var n := |log| - 1;
    if log[n].event.Deposited? && log[n].event.key == key {
    } else if i < n {
      OpenAfter(log[..n], i, key);
    }
  }

  /** An initialized contract has both tokens configured. */
  lemma {:induction false} TokensConfigured(log: seq<Entry>)
    ensures Replay(log).config.Some? ==> Usdc in Replay(log).tokens && Xlm in Replay(log).tokens
  {
    hide Apply;
    if log != [] {
      TokensConfigured(log[..|log| - 1]);
      TokensAfter(Replay(log[..|log| - 1]), log[|log| - 1].event);
    }
  }

  lemma TokensAfter(v: View, e: Event)
    ensures Apply(v, e).config.Some? ==> v.config.Some? || (Usdc in Apply(v, e).tokens && Xlm in Apply(v, e).tokens)
    ensures v.tokens.Keys <= Apply(v, e).tokens.Keys
  {
  }
}
