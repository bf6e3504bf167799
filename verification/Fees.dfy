/** Basis-point arithmetic of the receiver contract on 128-bit integers. */
module Fees {
  import opened Results

  const I128_MAX := 0x7fff_ffff_ffff_ffff_ffff_ffff_ffff_ffff
  const I128_MIN := -I128_MAX - 1
  const BPS := 10_000

  predicate InI128(x: int) {
    I128_MIN <= x <= I128_MAX
  }

  /** A checked operation's result; None on overflow. */
  function Checked(x: int): Option<int> {
    if InI128(x) then Some(x) else None
  }

  /** `/` and `%` of i128 truncate toward zero. */
  function Quotient(a: int, b: int): int
    requires b > 0
  {
    if a >= 0 then a / b else -(-a / b)
  }

  function Remainder(a: int, b: int): int
    requires b > 0
  {
    a - Quotient(a, b) * b
  }

  /** apply_discount; None is ArithmeticOverflow. */
  function ApplyDiscount(amount: int, bps: nat): Option<int> {
    if bps == 0 then
      Some(amount)
    else
      match (Checked(Quotient(amount, BPS) * bps), Checked(Remainder(amount, BPS) * bps))
      case (Some(whole), Some(fraction)) =>
        (match Checked(whole + Quotient(fraction, BPS))
         case Some(discount) => Checked(amount - discount)
         case None => None)
      case _ => None
  }

  /** _transfer_with_fee's split: the collector's leg and the treasury's; None is the overflow panic. */
  function FeeLegs(amount: int, bps: nat): Option<(int, int)> {
    match (Checked(Quotient(amount, BPS) * bps), Checked(Remainder(amount, BPS) * bps))
    case (Some(whole), Some(fraction)) =>
      (match Checked(whole + Quotient(fraction, BPS))
       case Some(fee) =>
         (match Checked(amount - fee)
          case Some(rest) => Some((fee, rest))
          case None => None)
       case None => None)
    case _ => None
  }

  // ---------------------------------------------------------------------------
  // Integer division
  // ---------------------------------------------------------------------------

  lemma DivAddMultiple(x: int, k: int, n: int)
    requires n > 0
    ensures (x + k * n) / n == x / n + k
  {
    var q, r := x / n, x % n;
    assert x + k * n == (q + k) * n + r;
    DivUnique(x + k * n, n, q + k, r);
  }

  /** A non-zero multiple of n lies outside (-n, n). */
  lemma MultipleIsFar(d: int, n: int)
    requires n > 0
    ensures d >= 1 ==> d * n >= n
    ensures d <= -1 ==> d * n <= -n
  {
    if d >= 1 {
      assert (d - 1) * n >= 0;
    } else if d <= -1 {
      assert (-d - 1) * n >= 0;
    }
  }

  lemma DivUnique(x: int, n: int, q: int, r: int)
    requires n > 0 && x == q * n + r && 0 <= r < n
    ensures x / n == q
  {
    var d := x / n - q;
    assert x == (x / n) * n + x % n;
    assert d * n == r - x % n;
    MultipleIsFar(d, n);
  }

  lemma DivMonotone(x: int, y: int, n: int)
    requires n > 0 && x <= y
    ensures x / n <= y / n
  {
    var q := x / n - y / n;
    assert x - y == q * n + x % n - y % n;
    MultipleIsFar(q, n);
  }

  lemma ProductSplit(a: nat, bps: nat)
    ensures a * bps == (a % BPS) * bps + (a / BPS) * bps * BPS
  {
    var q, r := a / BPS, a % BPS;
    assert a == q * BPS + r;
    assert (q * BPS + r) * bps == q * bps * BPS + r * bps;
  }

  /** The split computation is the plain floor of the product. */
  lemma SplitIsFloor(a: nat, bps: nat)
    ensures (a / BPS) * bps + ((a % BPS) * bps) / BPS == (a * bps) / BPS
  {
    ProductSplit(a, bps);
    DivAddMultiple((a % BPS) * bps, (a / BPS) * bps, BPS);
  }

  lemma ScaleBound(x: nat, bps: nat, limit: nat)
    requires bps <= BPS && x * BPS <= limit
    ensures x * bps <= limit
  {
    assert x * bps + x * (BPS - bps) == x * BPS;
  }

  lemma FloorBound(a: nat, bps: nat)
    requires bps <= BPS
    ensures 0 <= (a * bps) / BPS <= a
  {
    assert a * bps + a * (BPS - bps) == a * BPS;
    assert 0 <= a * bps <= a * BPS;
    DivMonotone(a * bps, a * BPS, BPS);
    DivMonotone(0, a * bps, BPS);
    DivAddMultiple(0, a, BPS);
  }

  // ---------------------------------------------------------------------------
  // Main results
  // ---------------------------------------------------------------------------

  /** No positive amount overflows, and the net is amount minus the floored discount. */
  lemma DiscountIsExact(amount: int, bps: nat)
    requires 0 < amount <= 0x7fff_ffff_ffff_ffff_ffff_ffff_ffff_ffff && bps <= 10_000
    ensures ApplyDiscount(amount, bps) == Some(amount - (amount * bps) / 10_000)
    ensures 0 <= amount - (amount * bps) / 10_000 <= amount
  {
    var q, r := amount / BPS, amount % BPS;
    SplitIsFloor(amount, bps);
    FloorBound(amount, bps);
    ScaleBound(q, bps, amount);
    ScaleBound(r, bps, BPS * BPS);
    assert 0 <= q * bps && 0 <= r * bps;
    assert Quotient(amount, BPS) == q && Remainder(amount, BPS) == r;
    if bps == 0 {
      assert amount * bps == 0;
    }
  }

  /** A larger payment never nets less. */
  lemma NetIsMonotone(a: int, b: int, bps: nat)
    requires 0 < a <= b <= 0x7fff_ffff_ffff_ffff_ffff_ffff_ffff_ffff && bps <= 10_000
    ensures ApplyDiscount(a, bps).Some? && ApplyDiscount(b, bps).Some?
    ensures ApplyDiscount(a, bps).value <= ApplyDiscount(b, bps).value
  {
    hide ApplyDiscount;
    DiscountIsExact(a, bps);
    DiscountIsExact(b, bps);
    var d := b - a;
    assert b * bps == a * bps + d * bps;
    ScaleBound(d, bps, d * BPS);
    DivMonotone(b * bps, a * bps + d * BPS, BPS);
    DivAddMultiple(a * bps, d, BPS);
  }

  /** A larger discount never nets more. */
  lemma NetIsAntitone(amount: int, low: nat, high: nat)
    requires 0 < amount <= 0x7fff_ffff_ffff_ffff_ffff_ffff_ffff_ffff && low <= high <= 10_000
    ensures ApplyDiscount(amount, low).Some? && ApplyDiscount(amount, high).Some?
    ensures ApplyDiscount(amount, high).value <= ApplyDiscount(amount, low).value
  {
    hide ApplyDiscount;
    DiscountIsExact(amount, low);
    DiscountIsExact(amount, high);
    assert amount * high == amount * low + amount * (high - low);
    DivMonotone(amount * low, amount * high, BPS);
  }

  /** No fee split overflows; its legs are non-negative and sum to the amount, and the fee is the floored share. */
  lemma FeeLegsSum(amount: int, bps: nat)
    requires 0 < amount <= 0x7fff_ffff_ffff_ffff_ffff_ffff_ffff_ffff && bps <= 10_000
    ensures FeeLegs(amount, bps).Some?
    ensures var (fee, rest) := FeeLegs(amount, bps).value;
            fee + rest == amount && 0 <= fee && 0 <= rest && fee == (amount * bps) / 10_000
  {
    DiscountIsExact(amount, bps);
    FeeIsDiscount(amount, bps);
    FloorBound(amount, bps);
  }

  /** The treasury's leg is what a payer with that discount would pay. */
  lemma FeeIsDiscount(amount: int, bps: nat)
    requires amount > 0 && ApplyDiscount(amount, bps).Some? && InI128(amount)
    ensures FeeLegs(amount, bps) == Some((amount - ApplyDiscount(amount, bps).value, ApplyDiscount(amount, bps).value))
  {
    if bps == 0 {
      assert Quotient(amount, BPS) * bps == 0 && Remainder(amount, BPS) * bps == 0;
    }
  }
}
