/** The order row, the payment events, and the money decisions taken on them. */
module Orders {
  import opened Results
  import opened Decimals

  datatype Status =
    | PendingPayment
    | Ordering
    | Delivered
    | Failed
    | Expired
    | RefundPending
    | Refunded
    | PendingManualRecovery

  /** Values of `payment_asset`; the short names are the legacy ones scheduleRefund still accepts. */
  datatype PaymentAsset = UsdcSoroban | XlmSoroban | LegacyUsdc | LegacyXlm | OtherAsset(name: string)

  /** What was quoted, and what the claiming payment left behind. */
  datatype Money = Money(
    amountUsdc: string,
    expectedXlm: Option<string>,
    paymentAsset: Option<PaymentAsset>,
    paymentXlmAmount: Option<string>,
    excessUsdc: Option<string>,
    senderAddress: Option<string>
  )

  /** The columns of `orders` that fulfilment reads or writes. `hasJob` is `vcc_job_id IS NOT NULL`. */
  datatype Row = Row(
    status: Status,
    money: Money,
    hasJob: bool,
    xlmSent: bool,
    ctxTxid: Option<string>,
    notified: bool,
    attempt: nat,
    createdAt: int,
    updatedAt: int
  )

  /** JavaScript truthiness of a nullable text column. */
  predicate Truthy(s: Option<string>) {
    s.Some? && s.value != ""
  }

  // ---------------------------------------------------------------------------
  // Payment events
  // ---------------------------------------------------------------------------

  datatype ChainSymbol = PayUsdc | PayXlm | OtherSymbol

  /**
   * A receiver-contract event as it sits on the ledger. `orderId` is the topic's bytes, one character each;
   * `tuple` is whether the value is (amount, metadata), as the memo entrypoints publish it, not the amount alone.
   */
  datatype ChainEvent =
    ChainEvent(txid: string, symbol: ChainSymbol, orderId: string, from: string, stroops: int, tuple: bool)

  /** The event moved money to the treasury. */
  predicate IsPayment(e: ChainEvent) {
    e.symbol in {PayUsdc, PayXlm} && e.stroops > 0
  }

  /** `/^[\x20-\x7e]+$/` on at most 64 bytes. */
  predicate ReadableId(id: string) {
    0 < |id| <= 64 && forall i :: 0 <= i < |id| ==> ' ' <= id[i] <= '~'
  }

  /** The payload handed to handlePayment. */
  datatype PaymentEvent = PaymentEvent(
    txid: string,
    paymentAsset: PaymentAsset,
    amountUsdc: Option<string>,
    amountXlm: Option<string>,
    senderAddress: string,
    orderId: string
  )

  /** `parsePaymentEvent`; None covers dead-lettered and unknown events. BigInt of a tuple throws. */
  function ParsePaymentEvent(e: ChainEvent): Option<PaymentEvent> {
    if e.stroops <= 0 || e.tuple || !ReadableId(e.orderId) then
      None
    else
      match e.symbol
      case PayUsdc =>
        Some(PaymentEvent(e.txid, UsdcSoroban, Some(StroopsToDecimal(e.stroops)), None, e.from, e.orderId))
      case PayXlm =>
        Some(PaymentEvent(e.txid, XlmSoroban, None, Some(StroopsToDecimal(e.stroops)), e.from, e.orderId))
      case OtherSymbol => None
  }

  datatype Reason =
    | UnknownOrder
    | OrderStatus(status: Status)
    | CorruptOrder
    | UnderpaidUsdc
    | XlmNotQuoted
    | UnderpaidXlm
    | UnknownAsset

  /** Outcome of the checks handlePayment makes before it claims a row. */
  datatype Verdict =
    | Claim(excessUsdc: Option<string>)
    | Unmatched(reason: Reason)
    | Throws

  function JudgeUsdc(m: Money, e: PaymentEvent): Verdict {
    var expected := Some(m.amountUsdc);
    if ParseStrictPositiveStroops(expected).None? then
      Unmatched(CorruptOrder)
    else
      match CompareDecimal(e.amountUsdc, expected)
      case None => Throws
      case Some(cmp) =>
        if cmp < 0 then Unmatched(UnderpaidUsdc)
        else if cmp == 0 then Claim(None)
        else
          match (ToStroops(e.amountUsdc), ToStroops(expected))
          case (Some(paid), Some(quoted)) => Claim(Some(StroopsToDecimal(paid - quoted)))
          case _ => Throws
  }

  function JudgeXlm(m: Money, e: PaymentEvent): Verdict {
    if !Truthy(m.expectedXlm) then
      Unmatched(XlmNotQuoted)
    else
      match CompareDecimal(e.amountXlm, m.expectedXlm)
      case None => Throws
      case Some(cmp) => if cmp < 0 then Unmatched(UnderpaidXlm) else Claim(None)
  }

  function JudgeAmount(m: Money, e: PaymentEvent): Verdict {
    match e.paymentAsset
    case UsdcSoroban => JudgeUsdc(m, e)
    case XlmSoroban => JudgeXlm(m, e)
    case _ => Unmatched(UnknownAsset)
  }

  function Judge(row: Row, e: PaymentEvent): Verdict {
    if row.status != PendingPayment then Unmatched(OrderStatus(row.status)) else JudgeAmount(row.money, e)
  }

  /** handlePayment's checks on a known order, in order. */
  method Classify(order: Row, e: PaymentEvent) returns (v: Verdict)
    ensures v == Judge(order, e)
  {
    hide CompareDecimal, ParseStrictPositiveStroops, ToStroops, StroopsToDecimal;
    if order.status != PendingPayment { return Unmatched(OrderStatus(order.status)); }
    var excessUsdc := None;
    match e.paymentAsset {
      case UsdcSoroban =>
        var expected := Some(order.money.amountUsdc);
        if ParseStrictPositiveStroops(expected).None? { return Unmatched(CorruptOrder); }
        var cmp := CompareDecimal(e.amountUsdc, expected);
        if cmp.None? { return Throws; }
        if cmp.value < 0 { return Unmatched(UnderpaidUsdc); }
        if cmp.value > 0 {
          var paid, quoted := ToStroops(e.amountUsdc), ToStroops(expected);
          if paid.None? || quoted.None? { return Throws; }
          excessUsdc := Some(StroopsToDecimal(paid.value - quoted.value));
        }
      case XlmSoroban =>
        if !Truthy(order.money.expectedXlm) { return Unmatched(XlmNotQuoted); }
        var cmp := CompareDecimal(e.amountXlm, order.money.expectedXlm);
        if cmp.None? { return Throws; }
        if cmp.value < 0 { return Unmatched(UnderpaidXlm); }
      case _ =>
        return Unmatched(UnknownAsset);
    }
    return Claim(excessUsdc);
  }

  /** The money columns of the claiming UPDATE; `excess_usdc = COALESCE(?, excess_usdc)`. */
  function ClaimMoney(m: Money, e: PaymentEvent, excess: Option<string>): Money {
    m.(paymentAsset := Some(e.paymentAsset),
       senderAddress := Some(e.senderAddress),
       paymentXlmAmount := e.amountXlm,
       excessUsdc := if excess.Some? then excess else m.excessUsdc)
  }

  function ClaimRow(row: Row, e: PaymentEvent, excess: Option<string>, now: int): Row {
    row.(status := Ordering, money := ClaimMoney(row.money, e, excess), updatedAt := now)
  }

  // ---------------------------------------------------------------------------
  // Refund dispatch
  // ---------------------------------------------------------------------------

  datatype Token = Usdc | Xlm

  /** One call of sendUsdc or sendXlm. */
  datatype Send = Send(token: Token, amount: string, destination: string)

  /** What scheduleRefund sends for a row it has claimed; None when it stops for manual action. */
  function RefundSend(m: Money): Option<Send> {
    if !Truthy(m.senderAddress) then
      None
    else if m.paymentAsset in {Some(XlmSoroban), Some(LegacyXlm)} then
      if !IsValidRefundAmount(m.paymentXlmAmount) then None
      else Some(Send(Xlm, m.paymentXlmAmount.value, m.senderAddress.value))
    else if m.paymentAsset in {Some(UsdcSoroban), Some(LegacyUsdc)} then
      if !IsValidRefundAmount(Some(m.amountUsdc)) then None
      else
        var refund := ComputeUsdcRefundAmount(Some(m.amountUsdc), m.excessUsdc);
        Some(Send(Usdc, if IsValidRefundAmount(Some(refund)) then refund else m.amountUsdc, m.senderAddress.value))
    else
      None
  }

  // ---------------------------------------------------------------------------
  // Results
  // ---------------------------------------------------------------------------

  function AmountField(e: PaymentEvent): Option<string> {
    if e.paymentAsset == UsdcSoroban then e.amountUsdc else e.amountXlm
  }

  function QuoteField(m: Money, e: PaymentEvent): Option<string> {
    if e.paymentAsset == UsdcSoroban then Some(m.amountUsdc) else m.expectedXlm
  }

  /**
   * An event is dispatched if and only if it is a pay_usdc or pay_xlm of a positive plain amount with a readable
   * order id, and then it carries the ledger's transaction, payer, order and printed amount, in its own token.
   */
  lemma ParsesExactly(c: ChainEvent)
    ensures ParsePaymentEvent(c).Some? <==>
            && (c.symbol == PayUsdc || c.symbol == PayXlm) && c.stroops > 0 && !c.tuple
            && 1 <= |c.orderId| <= 64 && forall i :: 0 <= i < |c.orderId| ==> ' ' <= c.orderId[i] <= '~'
    ensures ParsePaymentEvent(c).Some? && c.symbol == PayUsdc ==>
              ParsePaymentEvent(c).value
              == PaymentEvent(c.txid, UsdcSoroban, Some(StroopsToDecimal(c.stroops)), None, c.from, c.orderId)
    ensures ParsePaymentEvent(c).Some? && c.symbol == PayXlm ==>
              ParsePaymentEvent(c).value
              == PaymentEvent(c.txid, XlmSoroban, None, Some(StroopsToDecimal(c.stroops)), c.from, c.orderId)
  {
    hide StroopsToDecimal;
  }

  /** A parsed event's amount field reads back as the amount on the ledger. */
  lemma ParsedAmount(c: ChainEvent)
    requires ParsePaymentEvent(c).Some?
    ensures AmountField(ParsePaymentEvent(c).value) == Some(StroopsToDecimal(c.stroops))
    ensures ToStroops(AmountField(ParsePaymentEvent(c).value)) == Some(c.stroops)
  {
    hide ToStroops, StroopsToDecimal;
    RoundTrip(c.stroops);
  }

  /** What the intake takes for the order's quote in the event's token; None when there is no usable one. */
  function Quoted(m: Money, c: ChainEvent): Option<int> {
    if c.symbol == PayUsdc then ParseStrictPositiveStroops(Some(m.amountUsdc))
    else if Truthy(m.expectedXlm) then ToStroops(m.expectedXlm)
    else None
  }

  /** A parsed event claims an order if and only if there is a usable quote and the amount on the ledger covers it. */
  lemma ClaimedExactly(m: Money, c: ChainEvent)
    requires ParsePaymentEvent(c).Some?
    ensures JudgeAmount(m, ParsePaymentEvent(c).value).Claim? <==> Quoted(m, c).Some? && Quoted(m, c).value <= c.stroops
  {
    hide ToStroops, StroopsToDecimal, ParseStrictPositiveStroops;
    ParsedAmount(c);
    if ParseStrictPositiveStroops(Some(m.amountUsdc)).Some? {
      ParsersAgree(Some(m.amountUsdc));
    }
  }

  /** The verdict on a known order in terms of the row and the ledger's amount alone: no text is compared. */
  function Ruling(row: Row, c: ChainEvent): Verdict {
    var m, quote := row.money, Quoted(row.money, c);
    if row.status != PendingPayment then Unmatched(OrderStatus(row.status))
    else if c.symbol == PayUsdc then
      if quote.None? then Unmatched(CorruptOrder)
      else if c.stroops < quote.value then Unmatched(UnderpaidUsdc)
      else if c.stroops == quote.value then Claim(None)
      else Claim(Some(StroopsToDecimal(c.stroops - quote.value)))
    else
      if m.expectedXlm == None || m.expectedXlm == Some("") then Unmatched(XlmNotQuoted)
      else if quote.None? then Throws
      else if c.stroops < quote.value then Unmatched(UnderpaidXlm)
      else Claim(None)
  }

  /** The row a claim leaves, in the event's terms. */
  function RowClaimedBy(row: Row, c: ChainEvent, now: int): Row {
    var m, quote := row.money, Quoted(row.money, c);
    row.(status := Ordering, updatedAt := now, money :=
      if c.symbol == PayUsdc then
        m.(paymentAsset := Some(UsdcSoroban), senderAddress := Some(c.from), paymentXlmAmount := None,
           excessUsdc := if quote.Some? && c.stroops > quote.value then Some(StroopsToDecimal(c.stroops - quote.value))
                         else m.excessUsdc)
      else
        m.(paymentAsset := Some(XlmSoroban), senderAddress := Some(c.from),
           paymentXlmAmount := Some(StroopsToDecimal(c.stroops))))
  }

  /** The intake's verdict on texts is the ruling in stroops, and its claim leaves the row the event describes. */
  lemma JudgedInStroops(row: Row, c: ChainEvent, now: int)
    requires ParsePaymentEvent(c).Some?
    ensures var e := ParsePaymentEvent(c).value;
            && Judge(row, e) == Ruling(row, c)
            && (Judge(row, e).Claim? ==> ClaimRow(row, e, Judge(row, e).excessUsdc, now) == RowClaimedBy(row, c, now))
  {
    ParsesExactly(c);
    ParsedAmount(c);
    hide ToStroops, StroopsToDecimal, ParseStrictPositiveStroops, ParsePaymentEvent;
    if ParseStrictPositiveStroops(Some(row.money.amountUsdc)).Some? {
      ParsersAgree(Some(row.money.amountUsdc));
    }
  }

  /** A claimed order's payment covers its quote. */
  lemma ClaimCoversQuote(m: Money, c: ChainEvent)
    requires ParsePaymentEvent(c).Some? && JudgeAmount(m, ParsePaymentEvent(c).value).Claim?
    ensures ToStroops(QuoteField(m, ParsePaymentEvent(c).value)).Some?
    ensures ToStroops(QuoteField(m, ParsePaymentEvent(c).value)).value <= c.stroops
  {
    hide ToStroops, StroopsToDecimal, ParseStrictPositiveStroops;
    ParsedAmount(c);
  }

  /** `m` is what the claim by `c` of an order without excess leaves behind. */
  ghost predicate ClaimedBy(m: Money, c: ChainEvent) {
    && c.from != ""
    && ParsePaymentEvent(c).Some?
    && var e := ParsePaymentEvent(c).value;
       exists before: Money :: before.excessUsdc.None? && JudgeAmount(before, e).Claim?
                               && m == ClaimMoney(before, e, JudgeAmount(before, e).excessUsdc)
  }

  /** The amount that goes back is the amount that came in, as a printed string, and the fallback to the quote is dead. */
  lemma RefundIsExact(m: Money, c: ChainEvent)
    requires ClaimedBy(m, c)
    ensures RefundSend(m)
         == Some(Send(if c.symbol == PayUsdc then Usdc else Xlm, StroopsToDecimal(c.stroops), c.from))
    ensures c.symbol == PayUsdc ==>
              IsValidRefundAmount(Some(ComputeUsdcRefundAmount(Some(m.amountUsdc), m.excessUsdc)))
  {
    hide ToStroops, StroopsToDecimal, ParseStrictPositiveStroops, ToStroopsOrZero, IsValidRefundAmount;
    var e := ParsePaymentEvent(c).value;
    var before: Money :| before.excessUsdc.None? && JudgeAmount(before, e).Claim?
                         && m == ClaimMoney(before, e, JudgeAmount(before, e).excessUsdc);
    ParsedAmount(c);
    PrintedIsRefundable(c.stroops);
    if c.symbol == PayUsdc {
      UsdcSum(before, e, c.stroops);
    }
  }

  lemma UsdcSum(m: Money, e: PaymentEvent, paid: int)
    requires e.paymentAsset == UsdcSoroban && ToStroops(e.amountUsdc) == Some(paid)
    requires JudgeAmount(m, e).Claim?
    ensures ToStroopsOrZero(Some(m.amountUsdc)) + ToStroopsOrZero(JudgeAmount(m, e).excessUsdc) == paid
    ensures IsValidRefundAmount(Some(m.amountUsdc))
  {
    hide ToStroops, StroopsToDecimal, ParseStrictPositiveStroops, ToStroopsOrZero, IsValidRefundAmount;
    var quote := Some(m.amountUsdc);
    ParsersAgree(quote);
    StrictIsRefundable(m.amountUsdc);
    var quoted := ToStroops(quote).value;
    if paid > quoted {
      PrintedIsPlain(paid - quoted);
    } else {
      NullIsZero();
    }
  }

  lemma NullIsZero()
    ensures ToStroopsOrZero(None) == 0
  {
  }

  /** The intake's strict parser and the refund path's guard accept a quote together. */
  lemma StrictIsRefundable(s: string)
    requires ParseStrictPositiveStroops(Some(s)).Some?
    ensures IsValidRefundAmount(Some(s))
  {
    hide ToStroops;
    var str := Trim(s);
    ParsersAgree(Some(s));
    TrimEmpty(s);
    TrimTwice(s);
    PositiveIsRefundable(str);
  }

  lemma TrimTwice(s: string)
    requires IsPlainDecimal(Trim(s))
    ensures Trim(Trim(s)) == Trim(s)
  {
    var whole, frac := PlainParts(Trim(s));
    TrimPlain(whole, frac);
  }

  /**
   * A stale `excess_usdc` survives an exact payment, because COALESCE keeps the old column when
   * there is no new excess. The refund is then the payment plus whatever was there, so it is exact
   * if and only if the stale column counts as zero.
   */
  lemma StaleExcessIsRefunded(m: Money, c: ChainEvent)
    requires c.symbol == PayUsdc && ParsePaymentEvent(c).Some? && c.from != ""
    requires JudgeAmount(m, ParsePaymentEvent(c).value) == Claim(None)
    ensures RefundSend(ClaimMoney(m, ParsePaymentEvent(c).value, None))
            == Some(Send(Usdc, StroopsToDecimal(c.stroops), c.from))
            <==> ToStroopsOrZero(m.excessUsdc) == 0
  {
    hide ToStroops, StroopsToDecimal, ParseStrictPositiveStroops, ToStroopsOrZero, IsValidRefundAmount;
    ParsedAmount(c);
    UsdcSum(m, ParsePaymentEvent(c).value, c.stroops);
    NullIsZero();
    var stale := ToStroopsOrZero(m.excessUsdc);
    TolerantParserIsNatural(m.excessUsdc);
    PrintedIsRefundable(c.stroops + stale);
    RoundTrip(c.stroops);
    RoundTrip(c.stroops + stale);
  }

  lemma TolerantParserIsNatural(s: Option<string>)
    ensures ToStroopsOrZero(s) >= 0
  {
    if Truthy(s) && IsPlainDecimal(Trim(s.value)) {
      var whole, frac := PlainParts(Trim(s.value));
      PartsOfWritten(whole, frac, false);
    }
  }
}
