/** Payment events against the whole orders table: every stroop received is claimed, unmatched or rejected, once. */
module PaymentIntake {
  import opened Results
  import opened Decimals
  import opened Orders

  /** `unmatched_payments`: the order the payer named is not the one the money went to. */
  datatype IntakeReason = NoSuchOrder | Judged(reason: Reason)
  datatype UnmatchedRow = UnmatchedRow(payment: PaymentEvent, reason: IntakeReason)

  datatype Claimed = Claimed(orderId: string, event: ChainEvent)

  /** `rejected` holds payments that did not parse or whose handling threw: they end in the dead-letter table. */
  datatype Books = Books(
    orders: map<string, Row>,
    unmatched: seq<UnmatchedRow>,
    rejected: seq<ChainEvent>,
    claims: seq<Claimed>,
    received: seq<ChainEvent>
  )

  // ---------------------------------------------------------------------------
  // Steps
  // ---------------------------------------------------------------------------

  function HandleEvent(b: Books, c: ChainEvent, now: int): Books {
    match ParsePaymentEvent(c)
    case None => if IsPayment(c) then b.(received := b.received + [c], rejected := b.rejected + [c]) else b
    case Some(e) =>
      var r := b.(received := b.received + [c]);
      if e.orderId !in b.orders then
        r.(unmatched := r.unmatched + [UnmatchedRow(e, NoSuchOrder)])
      else
        match Judge(b.orders[e.orderId], e)
        case Throws => r.(rejected := r.rejected + [c])
        case Unmatched(reason) => r.(unmatched := r.unmatched + [UnmatchedRow(e, Judged(reason))])
        case Claim(excess) =>
          r.(orders := r.orders[e.orderId := ClaimRow(b.orders[e.orderId], e, excess, now)],
             claims := r.claims + [Claimed(e.orderId, c)])
  }

  /** What fulfilment, expiry and the callback may do to a row: see Protocol, where each of their steps is shown to be one. */
  predicate Background(before: Row, after: Row) {
    && (before.status != PendingPayment ==> after.status !in {PendingPayment, Expired} || after.status == before.status)
    && (before.status == PendingPayment ==> after.status in {PendingPayment, Expired})
    && after.money == before.money
  }

  datatype Step =
    | Insert(id: string, row: Row)
    | Fulfil(id: string, row: Row)
    | Event(c: ChainEvent, now: int)

  predicate StepEnabled(b: Books, step: Step) {
    match step
    case Insert(id, row) => id !in b.orders && row.status == PendingPayment && row.money.excessUsdc.None?
    case Fulfil(id, row) => id in b.orders && Background(b.orders[id], row)
    case Event(_, _) => true
  }

  function Advance(b: Books, step: Step): Books {
    match step
    case Insert(id, row) => b.(orders := b.orders[id := row])
    case Fulfil(id, row) => b.(orders := b.orders[id := row])
    case Event(c, now) => HandleEvent(b, c, now)
  }

  function Run(steps: seq<Step>): Option<Books> {
    if steps == [] then
      Some(Books(map[], [], [], [], []))
    else
      match Run(steps[..|steps| - 1])
      case None => None
      case Some(b) =>
        var step := steps[|steps| - 1];
        if StepEnabled(b, step) then Some(Advance(b, step)) else None
  }

  // ---------------------------------------------------------------------------
  // Reading the books
  // ---------------------------------------------------------------------------

  function Token(asset: PaymentAsset): Orders.Token {
    if asset == UsdcSoroban then Usdc else Xlm
  }

  function TokenOf(c: ChainEvent): Orders.Token {
    if c.symbol == PayUsdc then Usdc else Xlm
  }

  function Only(n: int, yes: bool): int {
    if yes then n else 0
  }

  /** On-chain stroops of one token. */
  function Received(events: seq<ChainEvent>, token: Orders.Token): int {
    if events == [] then 0
    else
      var c := events[|events| - 1];
      Received(events[..|events| - 1], token) + Only(c.stroops, TokenOf(c) == token)
  }

  /** The amount text of an unmatched row, read back; unreadable text counts as zero. */
  function UnmatchedStroops(u: UnmatchedRow): int {
    match ToStroops(AmountField(u.payment))
    case Some(n) => n
    case None => 0
  }

  function TotalUnmatched(rows: seq<UnmatchedRow>, token: Orders.Token): int {
    if rows == [] then 0
    else
      var u := rows[|rows| - 1];
      TotalUnmatched(rows[..|rows| - 1], token) + Only(UnmatchedStroops(u), Token(u.payment.paymentAsset) == token)
  }

  /** What the columns of a claimed order say was paid: the XLM amount, or quote plus excess for USDC. */
  function PaidPer(m: Money): int {
    if m.paymentAsset == Some(UsdcSoroban) then ToStroopsOrZero(Some(m.amountUsdc)) + ToStroopsOrZero(m.excessUsdc)
    else
      match ToStroops(m.paymentXlmAmount)
      case Some(n) => n
      case None => 0
  }

  function TotalClaimed(orders: map<string, Row>, claims: seq<Claimed>, token: Orders.Token): int {
    if claims == [] then 0
    else
      var k := claims[|claims| - 1];
      TotalClaimed(orders, claims[..|claims| - 1], token)
      + Only(if k.orderId in orders then PaidPer(orders[k.orderId].money) else 0,
             k.orderId in orders && orders[k.orderId].money.paymentAsset.Some?
             && Token(orders[k.orderId].money.paymentAsset.value) == token)
  }

  // ---------------------------------------------------------------------------
  // Invariant
  // ---------------------------------------------------------------------------

  predicate ClaimOk(row: Row, c: ChainEvent) {
    && row.status !in {PendingPayment, Expired}
    && ParsePaymentEvent(c).Some?
    && PaidPer(row.money) == c.stroops
    && (var e := ParsePaymentEvent(c).value;
        && row.money.paymentAsset == Some(e.paymentAsset)
        && ToStroops(QuoteField(row.money, e)).Some? && ToStroops(QuoteField(row.money, e)).value <= c.stroops)
  }

  predicate ClaimsOk(b: Books) {
    && (forall i :: 0 <= i < |b.claims| ==>
          b.claims[i].orderId in b.orders && ClaimOk(b.orders[b.claims[i].orderId], b.claims[i].event))
    && (forall i, j :: 0 <= i < j < |b.claims| ==> b.claims[i].orderId != b.claims[j].orderId)
    && (forall id :: id in b.orders && b.orders[id].status == PendingPayment ==> b.orders[id].money.excessUsdc.None?)
  }

  predicate Balanced(b: Books) {
    forall token ::
      Received(b.received, token)
      == TotalClaimed(b.orders, b.claims, token) + TotalUnmatched(b.unmatched, token) + Received(b.rejected, token)
  }

  predicate Inv(b: Books) {
    ClaimsOk(b) && Balanced(b) && |b.received| == |b.claims| + |b.unmatched| + |b.rejected|
  }

  lemma {:induction false} ClaimedIsStable(before: map<string, Row>, after: map<string, Row>, claims: seq<Claimed>,
                                           token: Orders.Token)
    requires forall i :: 0 <= i < |claims| ==>
               claims[i].orderId in before && claims[i].orderId in after
               && after[claims[i].orderId].money == before[claims[i].orderId].money
    ensures TotalClaimed(after, claims, token) == TotalClaimed(before, claims, token)
  {
    hide PaidPer;
    if claims != [] {
      ClaimedIsStable(before, after, claims[..|claims| - 1], token);
    }
  }

  /** A row a claim has just written carries the event's amount and covers the quote. */
  lemma FreshClaimOk(row: Row, c: ChainEvent, now: int)
    requires ParsePaymentEvent(c).Some? && row.money.excessUsdc.None?
    requires Judge(row, ParsePaymentEvent(c).value).Claim?
    ensures var e := ParsePaymentEvent(c).value;
            ClaimOk(ClaimRow(row, e, Judge(row, e).excessUsdc, now), c)
  {
    hide ToStroops, StroopsToDecimal, ParseStrictPositiveStroops, ToStroopsOrZero, CompareDecimal;
    var e := ParsePaymentEvent(c).value;
    ParsedAmount(c);
    ClaimCoversQuote(row.money, c);
    if c.symbol == PayUsdc {
      UsdcSum(row.money, e, c.stroops);
    }
  }

  lemma {:induction false} AppendTotals(b: Books, c: ChainEvent, u: UnmatchedRow, token: Orders.Token)
    ensures Received(b.received + [c], token) == Received(b.received, token) + Only(c.stroops, TokenOf(c) == token)
    ensures Received(b.rejected + [c], token) == Received(b.rejected, token) + Only(c.stroops, TokenOf(c) == token)
    ensures TotalUnmatched(b.unmatched + [u], token)
         == TotalUnmatched(b.unmatched, token) + Only(UnmatchedStroops(u), Token(u.payment.paymentAsset) == token)
  {
    hide UnmatchedStroops;
    AppendReceived(b.received, c, token);
    AppendReceived(b.rejected, c, token);
    assert (b.unmatched + [u])[..|b.unmatched|] == b.unmatched;
  }

  lemma AppendClaim(orders: map<string, Row>, claims: seq<Claimed>, k: Claimed, token: Orders.Token)
    requires k.orderId in orders && ClaimOk(orders[k.orderId], k.event)
    ensures TotalClaimed(orders, claims + [k], token)
         == TotalClaimed(orders, claims, token) + Only(k.event.stroops, TokenOf(k.event) == token)
  {
    hide PaidPer, ToStroops, StroopsToDecimal;
    assert (claims + [k])[..|claims|] == claims;
  }

  lemma EventInv(b: Books, c: ChainEvent, now: int)
    requires Inv(b)
    ensures Inv(HandleEvent(b, c, now))
  {
    hide PaidPer, ToStroops, StroopsToDecimal, Judge, ClaimOk, UnmatchedStroops, ParsePaymentEvent, Received,
         TotalUnmatched, TotalClaimed;
    if ParsePaymentEvent(c).Some? {
      var e := ParsePaymentEvent(c).value;
      var after := HandleEvent(b, c, now);
      UnmatchedReadsBack(c);
      forall token ensures Received(after.received, token)
        == TotalClaimed(after.orders, after.claims, token) + TotalUnmatched(after.unmatched, token)
           + Received(after.rejected, token)
      {
        AppendTotals(b, c, UnmatchedRow(e, NoSuchOrder), token);
        if e.orderId in b.orders {
          match Judge(b.orders[e.orderId], e)
          case Throws =>
          case Unmatched(reason) => AppendTotals(b, c, UnmatchedRow(e, Judged(reason)), token);
          case Claim(excess) =>
            PendingIsUnclaimed(b, e);
            FreshClaimOk(b.orders[e.orderId], c, now);
            ClaimedIsStable(b.orders, after.orders, b.claims, token);
            AppendClaim(after.orders, b.claims, Claimed(e.orderId, c), token);
        }
      }
      if e.orderId in b.orders && Judge(b.orders[e.orderId], e).Claim? {
        PendingIsUnclaimed(b, e);
        FreshClaimOk(b.orders[e.orderId], c, now);
        ClaimedRowLeavesPending(b.orders[e.orderId], e, now);
      }
    } else {
      RejectedInv(b, c);
    }
  }

  lemma RejectedInv(b: Books, c: ChainEvent)
    requires Inv(b)
    ensures Inv(b.(received := b.received + [c], rejected := b.rejected + [c]))
  {
    hide PaidPer, ToStroops, StroopsToDecimal, ClaimOk, ParsePaymentEvent, Received, TotalUnmatched, TotalClaimed;
    forall token ensures Received(b.received + [c], token) - Received(b.rejected + [c], token)
                      == Received(b.received, token) - Received(b.rejected, token)
    {
      AppendReceived(b.received, c, token);
      AppendReceived(b.rejected, c, token);
    }
  }

  lemma AppendReceived(events: seq<ChainEvent>, c: ChainEvent, token: Orders.Token)
    ensures Received(events + [c], token) == Received(events, token) + Only(c.stroops, TokenOf(c) == token)
  {
    assert (events + [c])[..|events|] == events;
  }

  lemma ClaimedRowLeavesPending(row: Row, e: PaymentEvent, now: int)
    requires Judge(row, e).Claim?
    ensures ClaimRow(row, e, Judge(row, e).excessUsdc, now).status == Ordering
  {
  }

  /** An order that can be claimed has not been claimed before. */
  lemma PendingIsUnclaimed(b: Books, e: PaymentEvent)
    requires ClaimsOk(b) && e.orderId in b.orders && Judge(b.orders[e.orderId], e).Claim?
    ensures b.orders[e.orderId].status == PendingPayment && b.orders[e.orderId].money.excessUsdc.None?
    ensures forall i :: 0 <= i < |b.claims| ==> b.claims[i].orderId != e.orderId
  {
    hide PaidPer, ToStroops, JudgeUsdc, JudgeXlm, QuoteField, ParsePaymentEvent;
  }

  /** The text stored for an unmatched payment reads back as the amount on the ledger, of the same token. */
  lemma UnmatchedReadsBack(c: ChainEvent)
    requires ParsePaymentEvent(c).Some?
    ensures forall reason ::
              UnmatchedStroops(UnmatchedRow(ParsePaymentEvent(c).value, reason)) == c.stroops
    ensures Token(ParsePaymentEvent(c).value.paymentAsset) == TokenOf(c)
    ensures ParsePaymentEvent(c).value.orderId == c.orderId
  {
    hide ToStroops, StroopsToDecimal;
    ParsedAmount(c);
  }

  lemma RowStepInv(b: Books, id: string, row: Row)
    requires Inv(b)
    requires StepEnabled(b, Insert(id, row)) || StepEnabled(b, Fulfil(id, row))
    ensures Inv(b.(orders := b.orders[id := row]))
  {
    hide ToStroops, StroopsToDecimal, ToStroopsOrZero, UnmatchedStroops, ParsePaymentEvent, Received, TotalUnmatched,
         TotalClaimed;
    forall token ensures TotalClaimed(b.orders[id := row], b.claims, token) == TotalClaimed(b.orders, b.claims, token) {
      ClaimedIsStable(b.orders, b.orders[id := row], b.claims, token);
    }
  }

  lemma {:induction false} RunInv(steps: seq<Step>)
    requires Run(steps).Some?
    ensures Inv(Run(steps).value)
  {
    hide Inv, HandleEvent, StepEnabled;
    if steps == [] {
      EmptyInv();
    } else {
      var b := Run(steps[..|steps| - 1]).value;
      RunInv(steps[..|steps| - 1]);
      match steps[|steps| - 1]
      case Event(c, now) => EventInv(b, c, now);
      case Insert(id, row) => RowStepInv(b, id, row);
      case Fulfil(id, row) => RowStepInv(b, id, row);
    }
  }

  lemma EmptyInv()
    ensures Inv(Books(map[], [], [], [], []))
  {
  }

  // ---------------------------------------------------------------------------
  // Main results
  // ---------------------------------------------------------------------------

  /** The payments among the events of a run. */
  function Payments(steps: seq<Step>): seq<ChainEvent> {
    if steps == [] then []
    else
      var s := steps[|steps| - 1];
      Payments(steps[..|steps| - 1]) + if s.Event? && IsPayment(s.c) then [s.c] else []
  }

  lemma {:induction false} ReceivedIsPayments(steps: seq<Step>)
    requires Run(steps).Some?
    ensures Run(steps).value.received == Payments(steps)
  {
    hide Judge, StepEnabled;
    if steps != [] {
      ReceivedIsPayments(steps[..|steps| - 1]);
    }
  }

  /**
   * Over every run, the payments the receiver contract reported, memo payments included, are exactly
   * accounted for: quote plus excess of the claimed orders, the text columns of the unmatched rows, and
   * the dead-lettered events, token by token.
   */
  lemma NothingIsLost(steps: seq<Step>, token: Orders.Token)
    requires Run(steps).Some?
    ensures var b := Run(steps).value;
            Received(Payments(steps), token)
            == TotalClaimed(b.orders, b.claims, token) + TotalUnmatched(b.unmatched, token) + Received(b.rejected,
                token)
    ensures var b := Run(steps).value;
            |Payments(steps)| == |b.claims| + |b.unmatched| + |b.rejected|
  {
    hide Run, ClaimsOk, Payments;
    RunInv(steps);
    ReceivedIsPayments(steps);
  }

  /** Where an event must end up, by the event and the orders table alone. */
  datatype Fate = Ignored | DeadLettered | LeftUnmatched(reason: IntakeReason) | Claims

  function FateOf(orders: map<string, Row>, c: ChainEvent): Fate {
    if (c.symbol != PayUsdc && c.symbol != PayXlm) || c.stroops <= 0 then Ignored
    else if c.tuple || |c.orderId| == 0 || |c.orderId| > 64 || exists i :: 0 <= i < |c.orderId| && !(' ' <= c.orderId[i] <= '~')
    then DeadLettered
    else if c.orderId !in orders then LeftUnmatched(NoSuchOrder)
    else
      match Ruling(orders[c.orderId], c)
      case Throws => DeadLettered
      case Unmatched(reason) => LeftUnmatched(Judged(reason))
      case Claim(_) => Claims
  }

  /** What an unmatched row records of the event. */
  function Payload(c: ChainEvent): PaymentEvent {
    var amount := Some(StroopsToDecimal(c.stroops));
    if c.symbol == PayUsdc then PaymentEvent(c.txid, UsdcSoroban, amount, None, c.from, c.orderId)
    else PaymentEvent(c.txid, XlmSoroban, None, amount, c.from, c.orderId)
  }

  /** Every event ends up in exactly the one place its fate names, and nothing else in the books changes. */
  lemma IntakeExactly(b: Books, c: ChainEvent, now: int)
    ensures var after := HandleEvent(b, c, now);
            match FateOf(b.orders, c)
            case Ignored => after == b
            case DeadLettered => after == b.(received := b.received + [c], rejected := b.rejected + [c])
            case LeftUnmatched(reason) =>
              after == b.(received := b.received + [c], unmatched := b.unmatched + [UnmatchedRow(Payload(c), reason)])
            case Claims =>
              && c.orderId in b.orders
              && after == b.(received := b.received + [c], claims := b.claims + [Claimed(c.orderId, c)],
                             orders := b.orders[c.orderId := RowClaimedBy(b.orders[c.orderId], c, now)])
  {
    ParsesExactly(c);
    hide ParsePaymentEvent, Judge, Ruling, RowClaimedBy, ClaimRow, StroopsToDecimal;
    if ParsePaymentEvent(c).Some? && c.orderId in b.orders {
      JudgedInStroops(b.orders[c.orderId], c, now);
    }
  }

  /**
   * An event claims an order if and only if it is a payment the parser dispatches, the order exists and is
   * pending, and there is a usable quote in that token which the amount on the ledger covers.
   */
  lemma ClaimsIff(b: Books, c: ChainEvent, now: int)
    ensures HandleEvent(b, c, now).claims != b.claims <==>
            && (c.symbol == PayUsdc || c.symbol == PayXlm) && c.stroops > 0 && !c.tuple
            && 1 <= |c.orderId| <= 64 && (forall i :: 0 <= i < |c.orderId| ==> ' ' <= c.orderId[i] <= '~')
            && c.orderId in b.orders && b.orders[c.orderId].status == PendingPayment
            && Quoted(b.orders[c.orderId].money, c).Some? && Quoted(b.orders[c.orderId].money, c).value <= c.stroops
  {
    IntakeExactly(b, c, now);
    hide HandleEvent, ToStroops, StroopsToDecimal, ParseStrictPositiveStroops, RowClaimedBy, Payload;
  }

  /** No order is claimed twice, none is both claimed and expired, and each claim covers its order's quote. */
  lemma ClaimsAreSound(steps: seq<Step>, i: nat, j: nat)
    requires Run(steps).Some? && i < |Run(steps).value.claims| && j < |Run(steps).value.claims|
    ensures var b := Run(steps).value;
            i != j ==> b.claims[i].orderId != b.claims[j].orderId
    ensures var b := Run(steps).value;
            b.claims[i].orderId in b.orders && ClaimOk(b.orders[b.claims[i].orderId], b.claims[i].event)
  {
    hide Run, ClaimOk, Balanced;
    RunInv(steps);
  }

  /** Handling throws exactly when a pending order carries an XLM quote that is not a number. */
  lemma ThrowsExactlyOnBadXlmQuote(row: Row, c: ChainEvent)
    requires ParsePaymentEvent(c).Some?
    ensures Judge(row, ParsePaymentEvent(c).value).Throws?
       <==> row.status == PendingPayment && c.symbol == PayXlm && Truthy(row.money.expectedXlm) && ToStroops(row.money.expectedXlm).None?
  {
    hide ToStroops, StroopsToDecimal, ParseStrictPositiveStroops;
    ParsedAmount(c);
    if c.symbol == PayUsdc && ParseStrictPositiveStroops(Some(row.money.amountUsdc)).Some? {
      ParsersAgree(Some(row.money.amountUsdc));
    }
  }

  // ---------------------------------------------------------------------------
  // The handler's first stretch, as the program runs it
  // ---------------------------------------------------------------------------

  class PaymentHandler {
    var orders: map<string, Row>
    var unmatched: seq<UnmatchedRow>
    ghost var rejected: seq<ChainEvent>
    ghost var claims: seq<Claimed>
    ghost var received: seq<ChainEvent>

    ghost function View(): Books
      reads this
    {
      Books(orders, unmatched, rejected, claims, received)
    }

    constructor ()
      ensures View() == Books(map[], [], [], [], [])
    {
      orders, unmatched, rejected, claims, received := map[], [], [], [], [];
    }

    method RecordUnmatchedPayment(e: PaymentEvent, reason: IntakeReason)
      modifies this`unmatched
      ensures unmatched == old(unmatched) + [UnmatchedRow(e, reason)]
    {
      unmatched := unmatched + [UnmatchedRow(e, reason)];
    }

    /** The watcher's treatment of one event: dead-letter what does not parse, handle the rest up to the claim. */
    method HandlePayment(c: ChainEvent, now: int) returns (deadLettered: bool)
      modifies this
      ensures View() == HandleEvent(old(View()), c, now)
      ensures deadLettered <==> rejected != old(rejected)
    {
      hide Judge, ParsePaymentEvent;
      deadLettered := false;
      var parsed := ParsePaymentEvent(c);
      if parsed.None? {
        if IsPayment(c) {
          received, rejected, deadLettered := received + [c], rejected + [c], true;
        }
        return;
      }
      var e := parsed.value;
      received := received + [c];
      if e.orderId !in orders {
        RecordUnmatchedPayment(e, NoSuchOrder);
        return;
      }
      var verdict := Classify(orders[e.orderId], e);
      match verdict {
        case Throws => rejected, deadLettered := rejected + [c], true;
        case Unmatched(reason) => RecordUnmatchedPayment(e, Judged(reason));
        case Claim(excessUsdc) =>
          orders := orders[e.orderId := ClaimRow(orders[e.orderId], e, excessUsdc, now)];
          claims := claims + [Claimed(e.orderId, c)];
      }
    }
  }
}
