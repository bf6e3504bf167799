/**
 * The Soroban receiver contract: storage, events, entrypoints, and the token contracts it calls.
 * A token is an adversary: while it runs it may call back any entrypoint, with any authorization,
 * to any depth. A failing invocation rolls back everything it did, so it has no resulting world.
 */
module Receiver {
  import opened Results
  import Fees

  // ---------------------------------------------------------------------------
  // Storage
  // ---------------------------------------------------------------------------

  type Address = nat
  newtype byte = x: int | 0 <= x < 256
  type Bytes = seq<byte>

  /** The receiver contract's own address. */
  const SELF: Address := 0

  datatype Role = Viewer | Operator | Admin
  datatype Asset = Usdc | Xlm

  datatype Error =
    | InvalidAmount | TransferFailed | ContractPaused | WithdrawLimitExceeded | DailyWithdrawLimitExceeded
    | InvalidRecipient | InvalidMetadata | ArithmeticOverflow | RateLimitExceeded | InvalidRateLimit
    | AddressBlacklisted | ContractDecommissioned | InvalidDiscount | EscrowNotFound | EscrowNotExpired
    | EscrowAlreadyExists | AmountOutOfBounds

  datatype Failure = Panic | Fails(error: Error)

  datatype Config = Config(admin: Address, treasury: Address, paused: bool)

  /** The packed configuration slot beside the three slots of the older layout. */
  datatype Slots = Slots(
    config: Option<Config>, admin: Option<Address>, treasury: Option<Address>, paused: Option<bool>)

  datatype Rate = Rate(max: nat, window: nat)
  datatype Bounds = Bounds(min: int, max: int)
  datatype Limits = Limits(perCall: Option<int>, perDay: Option<int>)

  /** What administration writes. */
  datatype Settings = Settings(
    slots: Slots,
    tokens: map<Asset, Address>,
    roles: map<Address, Role>,
    blacklist: set<Address>,
    discounts: map<Address, nat>,
    rate: Option<Rate>,
    bounds: map<Asset, Bounds>,
    limits: Limits)

  /** A temporary-storage entry: present up to and including ledger `liveUntil`. */
  datatype Temp<+T> = Temp(value: T, liveUntil: nat)

  datatype EscrowKey = EscrowKey(asset: Asset, orderId: Bytes)
  datatype EscrowRecord = EscrowRecord(payer: Address, amount: int, depositedAt: nat, expiresAt: nat)
  datatype Withdrawn = Withdrawn(day: nat, total: int)

  /** What moving money writes; `balances` is the token contracts' own storage, by token and holder. */
  datatype Vault = Vault(
    guard: bool,
    decommissioned: bool,
    daily: Option<Withdrawn>,
    paid: map<Address, Temp<seq<nat>>>,
    escrow: map<EscrowKey, Temp<EscrowRecord>>,
    balances: map<(Address, Address), int>)

  datatype Event =
    | Inited(admin: Address, treasury: Address, usdc: Address, xlm: Address)
    | Paid(asset: Asset, orderId: Bytes, from: Address, amount: int, memo: Option<Bytes>)
    | Deposited(key: EscrowKey, from: Address, amount: int)
    | Released(key: EscrowKey, caller: Address, payer: Address, amount: int)
    | Refunded(key: EscrowKey, caller: Address, payer: Address, amount: int)
    | Paused(caller: Address)
    | Unpaused(admin: Address)
    | TreasuryUpdated(oldTreasury: Address, newTreasury: Address, admin: Address)
    | TokenUpdated(asset: Asset, oldToken: Address, newToken: Address, admin: Address)
    | AdminTransferred(oldAdmin: Address, newAdmin: Address)
    | RoleGranted(address: Address, role: Role)
    | RoleRevoked(address: Address, role: Role)
    | RoleRenounced(address: Address, role: Role)
    | Blacklisted(account: Address, caller: Address)
    | Unblacklisted(account: Address, caller: Address)
    | RateLimitSet(caller: Address, rate: Rate)
    | PaymentLimitsSet(caller: Address, asset: Asset, bounds: Bounds)
    | WithdrawLimitsSet(caller: Address, limits: Limits)
    | Rescued(token: Address, to: Address, caller: Address, amount: int)
    | Decommissioned(admin: Address, time: nat)

  /** A published event, with the ledger and timestamp it was published at and who authorized the call. */
  datatype Entry = Entry(event: Event, ledger: nat, time: nat, auths: set<Address>)

  datatype World = World(settings: Settings, vault: Vault, log: seq<Entry>)

  /** The host's view of one transaction; `minTtl` is the network's least lifetime of a temporary entry. */
  datatype Env = Env(ledger: nat, time: nat, minTtl: nat)

  // ---------------------------------------------------------------------------
  // Calls
  // ---------------------------------------------------------------------------

  /** What the two token contracts answer when `init` probes them. */
  datatype Probes = Probes(usdcDecimals: Option<nat>, xlmDecimals: Option<nat>, usdcIsNative: bool)

  datatype Call =
    | Init(admin: Address, treasury: Address, usdc: Address, xlm: Address, probes: Probes)
    | Pay(asset: Asset, from: Address, amount: int, orderId: Bytes, memo: Option<Bytes>)
    | DepositEscrow(from: Address, amount: int, key: EscrowKey)
    | ReleaseEscrow(caller: Address, key: EscrowKey)
    | RefundEscrow(caller: Address, key: EscrowKey)
    | Pause(caller: Address)
    | Unpause
    | UpdateTreasury(newTreasury: Address)
    | UpdateToken(asset: Asset, newToken: Address)
    | GrantRoles(addresses: seq<Address>, role: Role)
    | RevokeRole(address: Address)
    | RenounceRole(caller: Address)
    | TransferAdmin(newAdmin: Address)
    | SetBlacklisted(caller: Address, account: Address, status: bool)
    | SetDiscount(caller: Address, account: Address, bps: nat)
    | SetRateLimit(caller: Address, rate: Rate)
    | SetPaymentLimits(caller: Address, named: Option<Asset>, bounds: Bounds)
    | SetWithdrawLimits(caller: Address, limits: Limits)
    | RescueTokens(caller: Address, token: Address, to: Address, amount: int)
    | Decommission(extraTokens: seq<Address>)

  /** A call with the addresses that authorized it and what each token call made on the way will do. */
  datatype Invocation = Invocation(call: Call, auths: set<Address>, externals: seq<Behaviour>)

  /** A token call: the callbacks it makes, and whether it returns or fails. */
  datatype Behaviour = Behaviour(calls: seq<Invocation>, ok: bool)

  // ---------------------------------------------------------------------------
  // Storage access
  // ---------------------------------------------------------------------------

  const TOKEN_DECIMALS := 7
  const DEFAULT_RATE := Rate(10, 100)
  const MAX_PAYMENT_LIMIT := 1_000
  const MAX_PAYMENT_WINDOW := 8_640_000
  const ESCROW_TIMELOCK_SECS := 604_800
  const U64_MAX := 0xffff_ffff_ffff_ffff
  const SECONDS_PER_DAY := 86_400

  function LoadConfig(s: Slots): Option<Config> {
    if s.config.Some? then s.config
    else if s.admin.None? || s.treasury.None? then None
    else Some(Config(s.admin.value, s.treasury.value, s.paused == Some(true)))
  }

  function SaveConfig(w: World, cfg: Config): World {
    w.(settings := w.settings.(slots := Slots(Some(cfg), None, None, None)))
  }

  function Emit(w: World, env: Env, auths: set<Address>, event: Event): World {
    w.(log := w.log + [Entry(event, env.ledger, env.time, auths)])
  }

  /** require_auth: the contract never authorizes anything on its own behalf. */
  predicate Authorized(a: Address, auths: set<Address>) {
    a in auths && a != SELF
  }

  function Rank(r: Role): nat {
    match r
    case Viewer => 1
    case Operator => 2
    case Admin => 3
  }

  predicate HasAuthority(admin: Address, roles: map<Address, Role>, a: Address, required: Role) {
    a == admin || (a in roles && Rank(roles[a]) >= Rank(required))
  }

  function RateOf(configured: Option<Rate>): Rate {
    match configured
    case Some(r) => r
    case None => DEFAULT_RATE
  }

  function Discount(s: Settings, a: Address): nat {
    if a in s.discounts then s.discounts[a] else 0
  }

  /** A zero bound means unbounded on that side. */
  predicate WithinBounds(s: Settings, asset: Asset, amount: int) {
    asset in s.bounds ==>
      (s.bounds[asset].min > 0 ==> amount >= s.bounds[asset].min)
      && (s.bounds[asset].max > 0 ==> amount <= s.bounds[asset].max)
  }

  /** set followed by extend_ttl: lifetimes below `threshold` are raised to `extendTo`. */
  function Put<T>(m: Option<Temp<T>>, value: T, env: Env, threshold: nat, extendTo: nat): Temp<T> {
    var live := if m.Some? && m.value.liveUntil >= env.ledger then m.value.liveUntil else env.ledger + env.minTtl;
    Temp(value, if live - env.ledger < threshold then env.ledger + extendTo else live)
  }

  function Get<K, V>(m: map<K, V>, k: K): Option<V> {
    if k in m then Some(m[k]) else None
  }

  /** Payment ledgers stored for a payer; an expired entry reads as absent. */
  function Stored(v: Vault, payer: Address, ledger: nat): seq<nat> {
    if payer in v.paid && v.paid[payer].liveUntil >= ledger then v.paid[payer].value else []
  }

  /** The ledgers in `s` that lie in the window ending at `ledger`. */
  function Recent(s: seq<nat>, ledger: nat, window: nat): (r: seq<nat>) {
    if s == [] then
      []
    else
      var p := s[|s| - 1];
      Recent(s[..|s| - 1], ledger, window) + if p <= ledger && ledger - p < window then [p] else []
  }

  function LiveEscrow(v: Vault, key: EscrowKey, ledger: nat): Option<EscrowRecord> {
    if key in v.escrow && v.escrow[key].liveUntil >= ledger then Some(v.escrow[key].value) else None
  }

  function ExpiryOf(time: nat): nat {
    if time + ESCROW_TIMELOCK_SECS > U64_MAX then U64_MAX else time + ESCROW_TIMELOCK_SECS
  }

  function Day(time: nat): nat {
    time / SECONDS_PER_DAY
  }

  function WithdrawnOn(daily: Option<Withdrawn>, day: nat): int {
    if daily.Some? && daily.value.day == day then daily.value.total else 0
  }

  function SetWithdrawn(day: nat, total: int): Option<Withdrawn> {
    if total == 0 then None else Some(Withdrawn(day, total))
  }

  function Balance(v: Vault, token: Address, holder: Address): int {
    if (token, holder) in v.balances then v.balances[(token, holder)] else 0
  }

  // ---------------------------------------------------------------------------
  // Token transfers
  // ---------------------------------------------------------------------------

  datatype Transfer = Transfer(token: Address, from: Address, to: Address, amount: int)

  /** A token's bookkeeping; None when the amount is negative or not covered. */
  function Move(w: World, t: Transfer): Option<World> {
    if t.amount < 0 || Balance(w.vault, t.token, t.from) < t.amount then
      None
    else
      var debited := w.vault.(balances := w.vault.balances[(t.token, t.from) := Balance(w.vault, t.token,
          t.from) - t.amount]);
      Some(w.(vault := debited.(balances := debited.balances[(t.token, t.to) := Balance(debited, t.token,
          t.to) + t.amount])))
  }

  // ---------------------------------------------------------------------------
  // Entrypoints that call no token
  // ---------------------------------------------------------------------------

  predicate ValidInit(c: Call)
    requires c.Init?
  {
    && c.admin != SELF && c.treasury != SELF && c.usdc != SELF && c.xlm != SELF
    && c.admin != c.usdc && c.admin != c.xlm
    && c.usdc != c.xlm
    && c.treasury != c.usdc && c.treasury != c.xlm
    && c.probes.usdcDecimals == Some(TOKEN_DECIMALS) && c.probes.xlmDecimals == Some(TOKEN_DECIMALS)
    && !c.probes.usdcIsNative
  }

  function DoInit(env: Env, auths: set<Address>, c: Call, w: World): Result<World, Failure>
    requires c.Init?
  {
    if !Authorized(c.admin, auths) || w.settings.slots.config.Some? || w.settings.slots.admin.Some? || !ValidInit(c) then
      Err(Panic)
    else
      var saved := SaveConfig(w, Config(c.admin, c.treasury, false));
      var ready := saved.(settings := saved.settings.(
        tokens := saved.settings.tokens[Usdc := c.usdc][Xlm := c.xlm],
        roles := saved.settings.roles[c.admin := Admin]));
      Ok(Emit(ready, env, auths, Inited(c.admin, c.treasury, c.usdc, c.xlm)))
  }

  function DoPause(env: Env, auths: set<Address>, caller: Address, w: World): Result<World, Failure> {
    match LoadConfig(w.settings.slots)
    case None => Err(Panic)
    case Some(cfg) =>
      if !Authorized(caller, auths) || w.vault.decommissioned
         || !HasAuthority(cfg.admin, w.settings.roles, caller, Operator) then Err(Panic)
      else if cfg.paused then Ok(w)
      else Ok(Emit(SaveConfig(w, cfg.(paused := true)), env, auths, Paused(caller)))
  }

  function DoUnpause(env: Env, auths: set<Address>, w: World): Result<World, Failure> {
    match LoadConfig(w.settings.slots)
    case None => Err(Panic)
    case Some(cfg) =>
      if !Authorized(cfg.admin, auths) || w.vault.decommissioned then Err(Panic)
      else if !cfg.paused then Ok(w)
      else Ok(Emit(SaveConfig(w, cfg.(paused := false)), env, auths, Unpaused(cfg.admin)))
  }

  function DoUpdateTreasury(env: Env, auths: set<Address>, to: Address, w: World): Result<World, Failure> {
    match LoadConfig(w.settings.slots)
    case None => Err(Panic)
    case Some(cfg) =>
      if !Authorized(cfg.admin, auths) then Err(Panic)
      else Ok(Emit(SaveConfig(w, cfg.(treasury := to)), env, auths, TreasuryUpdated(cfg.treasury, to, cfg.admin)))
  }

  function DoUpdateToken(env: Env, auths: set<Address>, asset: Asset, to: Address, w: World): Result<World, Failure> {
    match LoadConfig(w.settings.slots)
    case None => Err(Panic)
    case Some(cfg) =>
      if !Authorized(cfg.admin, auths) || asset !in w.settings.tokens then Err(Panic)
      else
        var previous := w.settings.tokens[asset];
        var updated := w.(settings := w.settings.(tokens := w.settings.tokens[asset := to]));
        Ok(Emit(updated, env, auths, TokenUpdated(asset, previous, to, cfg.admin)))
  }

  function StoreRole(env: Env, auths: set<Address>, a: Address, role: Role, w: World): World {
    if Get(w.settings.roles, a) == Some(role) then w
    else Emit(w.(settings := w.settings.(roles := w.settings.roles[a := role])), env, auths, RoleGranted(a, role))
  }

  function StoreRoles(env: Env, auths: set<Address>, addresses: seq<Address>, role: Role, w: World): World {
    if addresses == [] then w
    else
      var n := |addresses| - 1;
      StoreRole(env, auths, addresses[n], role, StoreRoles(env, auths, addresses[..n], role, w))
  }

  function RemoveRole(env: Env, auths: set<Address>, a: Address, renounced: bool, w: World): World {
    if a !in w.settings.roles then w
    else
      var role := w.settings.roles[a];
      Emit(w.(settings := w.settings.(roles := w.settings.roles - {a})), env, auths,
           if renounced then RoleRenounced(a, role) else RoleRevoked(a, role))
  }

  function DoGrantRoles(env: Env, auths: set<Address>, addresses: seq<Address>, role: Role,
      w: World): Result<World, Failure> {
    match LoadConfig(w.settings.slots)
    case None => Err(Panic)
    case Some(cfg) =>
      if !Authorized(cfg.admin, auths) || w.vault.decommissioned then Err(Panic)
      else Ok(StoreRoles(env, auths, addresses, role, w))
  }

  function DoRevokeRole(env: Env, auths: set<Address>, a: Address, w: World): Result<World, Failure> {
    match LoadConfig(w.settings.slots)
    case None => Err(Panic)
    case Some(cfg) =>
      if !Authorized(cfg.admin, auths) || w.vault.decommissioned then Err(Panic)
      else Ok(RemoveRole(env, auths, a, false, w))
  }

  function DoRenounceRole(env: Env, auths: set<Address>, caller: Address, w: World): Result<World, Failure> {
    if !Authorized(caller, auths) then Err(Panic)
    else Ok(RemoveRole(env, auths, caller, true, w))
  }

  function DoTransferAdmin(env: Env, auths: set<Address>, to: Address, w: World): Result<World, Failure> {
    match LoadConfig(w.settings.slots)
    case None => Err(Panic)
    case Some(cfg) =>
      if !Authorized(cfg.admin, auths) || !Authorized(to, auths) || w.vault.decommissioned then Err(Panic)
      else
        var retired := if cfg.admin != to && Get(w.settings.roles, cfg.admin) == Some(Admin)
                       then RemoveRole(env, auths, cfg.admin, false, w) else w;
        var granted := StoreRole(env, auths, to, Admin, retired);
        Ok(Emit(SaveConfig(granted, cfg.(admin := to)), env, auths, AdminTransferred(cfg.admin, to)))
  }

  function DoSetBlacklisted(env: Env, auths: set<Address>, caller: Address, account: Address, status: bool,
      w: World): Result<World, Failure> {
    match LoadConfig(w.settings.slots)
    case None => Err(Panic)
    case Some(cfg) =>
      if !Authorized(caller, auths) || !HasAuthority(cfg.admin, w.settings.roles, caller, Operator) then Err(Panic)
      else if (account in w.settings.blacklist) == status then Ok(w)
      else if status then
        Ok(Emit(w.(settings := w.settings.(blacklist := w.settings.blacklist + {account})), env, auths,
            Blacklisted(account, caller)))
      else
        Ok(Emit(w.(settings := w.settings.(blacklist := w.settings.blacklist - {account})), env, auths,
            Unblacklisted(account, caller)))
  }

  function DoSetDiscount(auths: set<Address>, caller: Address, account: Address, bps: nat,
      w: World): Result<World, Failure> {
    match LoadConfig(w.settings.slots)
    case None => Err(Panic)
    case Some(cfg) =>
      if !Authorized(caller, auths) || !HasAuthority(cfg.admin, w.settings.roles, caller, Operator) then Err(Panic)
      else if bps > Fees.BPS then Err(Fails(InvalidDiscount))
      else
        var discounts := w.settings.discounts;
        Ok(w.(settings := w.settings.(discounts := if bps == 0 then discounts - {account} else discounts[account := bps])))
  }

  /** The check the Admin-role entrypoints share; None when the contract is not initialized. */
  predicate AdminGate(auths: set<Address>, caller: Address, w: World) {
    var cfg := LoadConfig(w.settings.slots);
    cfg.Some? && Authorized(caller, auths) && !w.vault.decommissioned
    && HasAuthority(cfg.value.admin, w.settings.roles, caller, Admin)
  }

  predicate ValidRate(r: Rate) {
    0 < r.max <= MAX_PAYMENT_LIMIT && 0 < r.window <= MAX_PAYMENT_WINDOW
  }

  function DoSetRateLimit(env: Env, auths: set<Address>, caller: Address, rate: Rate,
      w: World): Result<World, Failure> {
    if !AdminGate(auths, caller, w) then Err(Panic)
    else if !ValidRate(rate) then Err(Fails(InvalidRateLimit))
    else Ok(Emit(w.(settings := w.settings.(rate := Some(rate))), env, auths, RateLimitSet(caller, rate)))
  }

  function DoSetPaymentLimits(env: Env, auths: set<Address>, caller: Address, named: Option<Asset>, b: Bounds,
      w: World): Result<World, Failure> {
    if !AdminGate(auths, caller, w) then Err(Panic)
    else if b.min < 0 || b.max < 0 || (b.min > 0 && b.max > 0 && b.min > b.max) then Err(Fails(AmountOutOfBounds))
    else if named.None? then Err(Panic)
    else
      Ok(Emit(w.(settings := w.settings.(bounds := w.settings.bounds[named.value := b])), env, auths,
              PaymentLimitsSet(caller, named.value, b)))
  }

  predicate ValidLimits(l: Limits) {
    && (l.perCall.Some? ==> l.perCall.value > 0)
    && (l.perDay.Some? ==> l.perDay.value > 0)
    && (l.perCall.Some? && l.perDay.Some? ==> l.perCall.value <= l.perDay.value)
  }

  function DoSetWithdrawLimits(env: Env, auths: set<Address>, caller: Address, l: Limits,
      w: World): Result<World, Failure> {
    if !AdminGate(auths, caller, w) || !ValidLimits(l) then Err(Panic)
    else Ok(Emit(w.(settings := w.settings.(limits := l)), env, auths, WithdrawLimitsSet(caller, l)))
  }

  predicate Guarded(c: Call) {
    c.Pay? || c.DepositEscrow? || c.ReleaseEscrow? || c.RefundEscrow? || c.RescueTokens? || c.Decommission?
  }

  function Direct(env: Env, auths: set<Address>, c: Call, w: World): Result<World, Failure>
    requires !Guarded(c)
  {
    match c
    case Init(_, _, _, _, _) => DoInit(env, auths, c, w)
    case Pause(caller) => DoPause(env, auths, caller, w)
    case Unpause => DoUnpause(env, auths, w)
    case UpdateTreasury(to) => DoUpdateTreasury(env, auths, to, w)
    case UpdateToken(asset, to) => DoUpdateToken(env, auths, asset, to, w)
    case GrantRoles(addresses, role) => DoGrantRoles(env, auths, addresses, role, w)
    case RevokeRole(a) => DoRevokeRole(env, auths, a, w)
    case RenounceRole(caller) => DoRenounceRole(env, auths, caller, w)
    case TransferAdmin(to) => DoTransferAdmin(env, auths, to, w)
    case SetBlacklisted(caller, account, status) => DoSetBlacklisted(env, auths, caller, account, status, w)
    case SetDiscount(caller, account, bps) => DoSetDiscount(auths, caller, account, bps, w)
    case SetRateLimit(caller, rate) => DoSetRateLimit(env, auths, caller, rate, w)
    case SetPaymentLimits(caller, named, b) => DoSetPaymentLimits(env, auths, caller, named, b, w)
    case SetWithdrawLimits(caller, l) => DoSetWithdrawLimits(env, auths, caller, l, w)
  }

  // ---------------------------------------------------------------------------
  // Entrypoints that call a token: checks, writes before the call, writes after it
  // ---------------------------------------------------------------------------

  /** The payment ledgers of `from` still inside the window. */
  function ActivePayments(env: Env, from: Address, w: World): seq<nat> {
    Recent(Stored(w.vault, from, env.ledger), env.ledger, RateOf(w.settings.rate).window)
  }

  function CheckPay(env: Env, auths: set<Address>, c: Call, w: World): Option<Failure>
    requires c.Pay?
  {
    var cfg := LoadConfig(w.settings.slots);
    if c.memo.Some? && |c.memo.value| > 64 then Some(Fails(InvalidMetadata))
    else if w.vault.decommissioned then Some(Fails(ContractDecommissioned))
    else if cfg.None? then Some(Panic)
    else if cfg.value.paused then Some(Fails(ContractPaused))
    else if c.amount <= 0 then Some(Fails(InvalidAmount))
    else if !WithinBounds(w.settings, c.asset, c.amount) then Some(Fails(AmountOutOfBounds))
    else if c.from in w.settings.blacklist then Some(Fails(AddressBlacklisted))
    else if !Authorized(c.from, auths) then Some(Panic)
    else if c.memo.None? && |ActivePayments(env, c.from, w)| >= RateOf(w.settings.rate).max then Some(Fails(RateLimitExceeded))
    else if c.asset !in w.settings.tokens then Some(Panic)
    else if Fees.ApplyDiscount(c.amount, Discount(w.settings, c.from)).None? then Some(Fails(ArithmeticOverflow))
    else None
  }

  function CheckDeposit(env: Env, auths: set<Address>, c: Call, w: World): Option<Failure>
    requires c.DepositEscrow?
  {
    var cfg := LoadConfig(w.settings.slots);
    if w.vault.decommissioned then Some(Fails(ContractDecommissioned))
    else if cfg.None? then Some(Panic)
    else if cfg.value.paused then Some(Fails(ContractPaused))
    else if c.amount <= 0 then Some(Fails(InvalidAmount))
    else if c.from in w.settings.blacklist then Some(Fails(AddressBlacklisted))
    else if !Authorized(c.from, auths) then Some(Panic)
    else if LiveEscrow(w.vault, c.key, env.ledger).Some? then Some(Fails(EscrowAlreadyExists))
    else if c.key.asset !in w.settings.tokens then Some(Panic)
    else None
  }

  function CheckRelease(env: Env, auths: set<Address>, c: Call, w: World): Option<Failure>
    requires c.ReleaseEscrow?
  {
    var cfg := LoadConfig(w.settings.slots);
    if cfg.None? || !Authorized(c.caller, auths) || !HasAuthority(cfg.value.admin, w.settings.roles, c.caller, Operator)
    then Some(Panic)
    else if LiveEscrow(w.vault, c.key, env.ledger).None? then Some(Fails(EscrowNotFound))
    else if c.key.asset !in w.settings.tokens then Some(Panic)
    else None
  }

  function CheckRefund(env: Env, auths: set<Address>, c: Call, w: World): Option<Failure>
    requires c.RefundEscrow?
  {
    var cfg := LoadConfig(w.settings.slots);
    var held := LiveEscrow(w.vault, c.key, env.ledger);
    if !Authorized(c.caller, auths) then Some(Panic)
    else if held.None? then Some(Fails(EscrowNotFound))
    else if env.time < held.value.expiresAt && cfg.None? then Some(Panic)
    else if env.time < held.value.expiresAt && !HasAuthority(cfg.value.admin, w.settings.roles, c.caller, Admin)
    then Some(Fails(EscrowNotExpired))
    else if c.key.asset !in w.settings.tokens then Some(Panic)
    else None
  }

  function CheckRescue(env: Env, auths: set<Address>, c: Call, w: World): Option<Failure>
    requires c.RescueTokens?
  {
    var limits := w.settings.limits;
    var total := WithdrawnOn(w.vault.daily, Day(env.time)) + c.amount;
    if !AdminGate(auths, c.caller, w) then Some(Panic)
    else if c.amount <= 0 then Some(Fails(InvalidAmount))
    else if c.to == SELF then Some(Fails(InvalidRecipient))
    else if limits.perCall.Some? && c.amount > limits.perCall.value then Some(Fails(WithdrawLimitExceeded))
    else if !Fees.InI128(total) then Some(Fails(ArithmeticOverflow))
    else if limits.perDay.Some? && total > limits.perDay.value then Some(Fails(DailyWithdrawLimitExceeded))
    else None
  }

  function CheckDecommission(auths: set<Address>, w: World): Option<Failure> {
    var cfg := LoadConfig(w.settings.slots);
    if cfg.None? || !Authorized(cfg.value.admin, auths) || w.vault.decommissioned
       || Usdc !in w.settings.tokens || Xlm !in w.settings.tokens
    then Some(Panic)
    else None
  }

  function Check(env: Env, auths: set<Address>, c: Call, w: World): Option<Failure>
    requires Guarded(c)
  {
    match c
    case Pay(_, _, _, _, _) => CheckPay(env, auths, c, w)
    case DepositEscrow(_, _, _) => CheckDeposit(env, auths, c, w)
    case ReleaseEscrow(_, _) => CheckRelease(env, auths, c, w)
    case RefundEscrow(_, _) => CheckRefund(env, auths, c, w)
    case RescueTokens(_, _, _, _) => CheckRescue(env, auths, c, w)
    case Decommission(_) => CheckDecommission(auths, w)
  }

  /** What is written before the token is called. */
  function Before(env: Env, auths: set<Address>, c: Call, w: World): World
    requires Guarded(c) && Check(env, auths, c, w).None?
  {
    match c
    case Pay(_, _, _, _, _) => w
    case DepositEscrow(_, _, _) => w
    case ReleaseEscrow(_, key) => w.(vault := w.vault.(escrow := w.vault.escrow - {key}))
    case RefundEscrow(_, key) => w.(vault := w.vault.(escrow := w.vault.escrow - {key}))
    case RescueTokens(_, _, _, amount) =>
      var day := Day(env.time);
      w.(vault := w.vault.(daily := SetWithdrawn(day, WithdrawnOn(w.vault.daily, day) + amount)))
    case Decommission(_) =>
      var cfg := LoadConfig(w.settings.slots).value;
      SaveConfig(w.(vault := w.vault.(decommissioned := true)), cfg.(paused := true))
  }

  /** The one transfer a guarded call other than the sweep makes. */
  function TransferOf(env: Env, auths: set<Address>, c: Call, w: World): Transfer
    requires Guarded(c) && !c.Decommission? && Check(env, auths, c, w).None?
  {
    match c
    case Pay(asset, from, amount, _, _) =>
      Transfer(w.settings.tokens[asset], from, LoadConfig(w.settings.slots).value.treasury,
               Fees.ApplyDiscount(amount, Discount(w.settings, from)).value)
    case DepositEscrow(from, amount, key) => Transfer(w.settings.tokens[key.asset], from, SELF, amount)
    case ReleaseEscrow(_, key) =>
      Transfer(w.settings.tokens[key.asset], SELF, LoadConfig(w.settings.slots).value.treasury,
               LiveEscrow(w.vault, key, env.ledger).value.amount)
    case RefundEscrow(_, key) =>
      var held := LiveEscrow(w.vault, key, env.ledger).value;
      Transfer(w.settings.tokens[key.asset], SELF, held.payer, held.amount)
    case RescueTokens(_, token, to, amount) => Transfer(token, SELF, to, amount)
  }

  /** USDC, XLM, and each extra token not already listed. */
  function SweepList(tokens: seq<Address>, extra: seq<Address>): seq<Address> {
    if extra == [] then tokens
    else
      var n := |extra| - 1;
      var listed := SweepList(tokens, extra[..n]);
      if extra[n] in listed then listed else listed + [extra[n]]
  }

  /** Lifetime in ledgers of an escrow record at five seconds a ledger. */
  const ESCROW_LEDGERS := ESCROW_TIMELOCK_SECS / 5

  /** What is written after the token call. `w0` is the world the call was checked in, `w` the present one. */
  function After(env: Env, auths: set<Address>, c: Call, w0: World, w: World): World
    requires Guarded(c) && Check(env, auths, c, w0).None?
  {
    match c
    case Pay(asset, from, amount, orderId, memo) =>
      var rate := RateOf(w0.settings.rate);
      var recorded :=
        if memo.Some? then w
        else w.(vault := w.vault.(paid := w.vault.paid[from :=
          Put(Get(w.vault.paid, from), ActivePayments(env, from, w0) + [env.ledger], env, rate.window,
              2 * rate.window)]));
      Emit(recorded, env, auths, Paid(asset, orderId, from, amount, memo))
    case DepositEscrow(from, amount, key) =>
      var record := EscrowRecord(from, amount, env.time, ExpiryOf(env.time));
      var held := Put(Get(w.vault.escrow, key), record, env, ESCROW_LEDGERS, 2 * ESCROW_LEDGERS);
      Emit(w.(vault := w.vault.(escrow := w.vault.escrow[key := held])), env, auths, Deposited(key, from, amount))
    case ReleaseEscrow(caller, key) =>
      var held := LiveEscrow(w0.vault, key, env.ledger).value;
      Emit(w, env, auths, Released(key, caller, held.payer, held.amount))
    case RefundEscrow(caller, key) =>
      var held := LiveEscrow(w0.vault, key, env.ledger).value;
      Emit(w, env, auths, Refunded(key, caller, held.payer, held.amount))
    case RescueTokens(caller, token, to, amount) => Emit(w, env, auths, Rescued(token, to, caller, amount))
    case Decommission(_) =>
      Emit(w, env, auths, Decommissioned(LoadConfig(w0.settings.slots).value.admin, env.time))
  }

  function SetGuard(w: World, on: bool): World {
    w.(vault := w.vault.(guard := on))
  }

  // ---------------------------------------------------------------------------
  // Invocation
  // ---------------------------------------------------------------------------

  /** Runs one invocation and everything its tokens call back; Err leaves the world as it was. */
  function Exec(env: Env, inv: Invocation, w: World): Result<World, Failure>
    decreases inv
  {
    var c := inv.call;
    if !Guarded(c) then
      Direct(env, inv.auths, c, w)
    else
      match Check(env, inv.auths, c, w)
      case Some(f) => Err(f)
      case None =>
        if w.vault.guard then
          Err(Panic)
        else
          var locked := SetGuard(Before(env, inv.auths, c, w), true);
          var called :=
            if c.Decommission? then
              Sweep(env, inv.externals, SweepList([w.settings.tokens[Usdc], w.settings.tokens[Xlm]], c.extraTokens),
                    LoadConfig(w.settings.slots).value.treasury, locked)
            else
              CallTransfer(env, inv.externals, 0, TransferOf(env, inv.auths, c, w), locked);
          match called
          case None => Err(if c.Decommission? then Panic else Fails(TransferFailed))
          case Some(w1) => Ok(After(env, inv.auths, c, w, SetGuard(w1, false)))
  }

  /** Runs a token's callbacks in order; a failing one changes nothing. */
  function RunCalls(env: Env, calls: seq<Invocation>, w: World): World
    decreases calls
  {
    if calls == [] then
      w
    else
      var w1 := RunCalls(env, calls[..|calls| - 1], w);
      match Exec(env, calls[|calls| - 1], w1)
      case Ok(w2) => w2
      case Err(_) => w1
  }

  /** The i-th token call of an invocation; tokens beyond the list behave plainly. */
  function CallToken(env: Env, externals: seq<Behaviour>, i: nat, w: World): Option<World>
    decreases externals, 0
  {
    if i >= |externals| then Some(w)
    else if !externals[i].ok then None
    else Some(RunCalls(env, externals[i].calls, w))
  }

  function CallTransfer(env: Env, externals: seq<Behaviour>, i: nat, t: Transfer, w: World): Option<World>
    decreases externals, 1
  {
    match CallToken(env, externals, i, w)
    case None => None
    case Some(w1) => Move(w1, t)
  }

  /** The sweep loop: for each token one `balance` call and, when something is left, one `transfer`. */
  function Sweep(env: Env, externals: seq<Behaviour>, tokens: seq<Address>, to: Address, w: World): Option<World>
    decreases externals, 2, |tokens|
  {
    if tokens == [] then
      Some(w)
    else
      var n := |tokens| - 1;
      match Sweep(env, externals, tokens[..n], to, w)
      case None => None
      case Some(w1) => SweepOne(env, externals, n, tokens[n], to, w1)
  }

  function SweepOne(env: Env, externals: seq<Behaviour>, n: nat, token: Address, to: Address, w: World): Option<World>
    decreases externals, 2, 0
  {
    match CallToken(env, externals, 2 * n, w)
    case None => None
    case Some(w1) =>
      var held := Balance(w1.vault, token, SELF);
      if held <= 0 then Some(w1)
      else CallTransfer(env, externals, 2 * n + 1, Transfer(token, SELF, to, held), w1)
  }

  // ---------------------------------------------------------------------------
  // Runs
  // ---------------------------------------------------------------------------

  datatype Chain = Chain(world: World, ledger: nat, time: nat)

  /** A transaction on the contract, or a transfer between outsiders (possibly to the contract). */
  datatype Step =
    | Invoke(env: Env, invocation: Invocation)
    | Outside(transfer: Transfer)

  /** Ledger and timestamp never decrease, and nobody else moves the contract's own tokens. */
  predicate CanStep(c: Chain, s: Step) {
    match s
    case Invoke(env, _) => env.ledger >= c.ledger && env.time >= c.time
    case Outside(t) => t.from != SELF
  }

  function Next(c: Chain, s: Step): Chain {
    match s
    case Invoke(env, inv) =>
      (match Exec(env, inv, c.world)
       case Ok(w) => Chain(w, env.ledger, env.time)
       case Err(_) => Chain(c.world, env.ledger, env.time))
    case Outside(t) =>
      match Move(c.world, t)
      case Some(w) => c.(world := w)
      case None => c
  }

  function Run(c: Chain, steps: seq<Step>): Option<Chain> {
    if steps == [] then
      Some(c)
    else
      match Run(c, steps[..|steps| - 1])
      case None => None
      case Some(d) => if CanStep(d, steps[|steps| - 1]) then Some(Next(d, steps[|steps| - 1])) else None
  }

  /** A contract just deployed: empty storage, and token balances that are nobody's debts. */
  ghost predicate Deployed(c: Chain) {
    && c.world.settings == Settings(Slots(None, None, None, None), map[], map[], {}, map[], None, map[], Limits(None,
        None))
    && c.world.vault == Vault(false, false, None, map[], map[], c.world.vault.balances)
    && (forall k :: k in c.world.vault.balances ==> c.world.vault.balances[k] >= 0)
    && c.world.log == []
  }
}
