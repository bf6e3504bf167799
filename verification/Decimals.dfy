/** Stroop arithmetic on decimal strings: how the backend parses, prints, compares and sums amounts. */
module Decimals {
  import opened Results

  /** Stellar amounts carry seven decimal places. */
  const STROOPS_PER_UNIT := 10_000_000
  const PLACES := 7

  // ---------------------------------------------------------------------------
  // Characters and digit strings
  // ---------------------------------------------------------------------------

  predicate IsDigit(c: char) {
    '0' <= c <= '9'
  }

  /** The characters String.prototype.trim and the BigInt grammar treat as white space. */
  predicate IsSpace(c: char) {
    || '\t' <= c <= '\r' || c == ' ' || c == '\U{A0}' || c == '\U{1680}'
    || '\U{2000}' <= c <= '\U{200A}' || '\U{2028}' <= c <= '\U{2029}'
    || c == '\U{202F}' || c == '\U{205F}' || c == '\U{3000}' || c == '\U{FEFF}'
  }

  predicate AllDigits(s: string) {
    forall i :: 0 <= i < |s| ==> IsDigit(s[i])
  }

  function DigitValue(c: char): nat
    requires IsDigit(c)
  {
    c as int - '0' as int
  }

  function DigitsValue(s: string): nat
    requires AllDigits(s)
  {
    if s == "" then 0 else 10 * DigitsValue(s[..|s| - 1]) + DigitValue(s[|s| - 1])
  }

  function Pow10(k: nat): nat {
    if k == 0 then 1 else 10 * Pow10(k - 1)
  }

  /** `v` with `k` zeros appended to its digits. */
  function Shift(v: nat, k: nat): nat {
    if k == 0 then v else 10 * Shift(v, k - 1)
  }

  function Zeros(k: nat): (s: string)
    ensures |s| == k
  {
    if k == 0 then "" else Zeros(k - 1) + "0"
  }

  function TrimLeft(s: string): string {
    if s != "" && IsSpace(s[0]) then TrimLeft(s[1..]) else s
  }

  function TrimRight(s: string): string {
    if s != "" && IsSpace(s[|s| - 1]) then TrimRight(s[..|s| - 1]) else s
  }

  function Trim(s: string): string {
    TrimRight(TrimLeft(s))
  }

  /** Index of the first `c`, or the length of `s` when there is none. */
  function IndexOf(s: string, c: char): (i: nat)
    ensures i <= |s| && c !in s[..i] && (i < |s| ==> s[i] == c)
  {
    if s == "" then 0 else if s[0] == c then 0 else 1 + IndexOf(s[1..], c)
  }

  // ---------------------------------------------------------------------------
  // BigInt
  // ---------------------------------------------------------------------------

  function RadixDigit(c: char, base: nat): Option<nat> {
    var d :=
      if IsDigit(c) then c as int - '0' as int
      else if 'a' <= c <= 'f' then c as int - 'a' as int + 10
      else if 'A' <= c <= 'F' then c as int - 'A' as int + 10
      else base;
    if d < base then Some(d) else None
  }

  function RadixValue(s: string, base: nat): Option<nat> {
    if s == "" then
      Some(0)
    else
      match (RadixValue(s[..|s| - 1], base), RadixDigit(s[|s| - 1], base))
      case (Some(v), Some(d)) => Some(base * v + d)
      case _ => None
  }

  function Signed(s: string, sign: int): Option<int> {
    if s == "" || !AllDigits(s) then None else Some(sign * DigitsValue(s))
  }

  /** `BigInt(text)`; None is the SyntaxError it throws. */
  function BigInt(text: string): Option<int> {
    var s := Trim(text);
    if s == "" then
      Some(0)
    else if |s| >= 2 && s[0] == '0' && s[1] in {'x', 'X', 'o', 'O', 'b', 'B'} then
      if |s| == 2 then None
      else
        match RadixValue(s[2..], if s[1] in {'x', 'X'} then 16 else if s[1] in {'o', 'O'} then 8 else 2)
        case Some(v) => Some(v as int)
        case None => None
    else if s[0] == '-' then Signed(s[1..], -1)
    else if s[0] == '+' then Signed(s[1..], 1)
    else Signed(s, 1)
  }

  /** `String(n)` of a non-negative bigint. */
  function Text(n: nat): (s: string)
    ensures s != "" && AllDigits(s)
  {
    if n < 10 then [('0' as int + n) as char] else Text(n / 10) + [('0' as int + n % 10) as char]
  }

  /** `s.padStart(n, '0')` */
  function PadStart(s: string, n: nat): string {
    if |s| < n then Zeros(n - |s|) + s else s
  }

  /** `(s + '000...').slice(0, n)` with n zeros appended. */
  function PadEnd(s: string, n: nat): (r: string)
    ensures |r| == n
  {
    (s + Zeros(n))[..n]
  }

  function PadFraction(frac: string): (s: string)
    ensures |s| == PLACES
  {
    PadEnd(frac, PLACES)
  }

  /** `const [whole, frac = ''] = s.split('.')`: parts after a second dot are dropped. */
  function SplitDot(s: string): (string, string) {
    var i := IndexOf(s, '.');
    if i == |s| then (s, "")
    else
      var rest := s[i + 1..];
      (s[..i], rest[..IndexOf(rest, '.')])
  }

  // ---------------------------------------------------------------------------
  // The backend's parsers and printers
  // ---------------------------------------------------------------------------

  function OrZero(s: string): string {
    if s == "" then "0" else s
  }

  /** The split, pad and BigInt arithmetic both parsers share; None when a BigInt call throws. */
  function PartsToStroops(s: string): Option<int> {
    var (whole, frac) := SplitDot(s);
    match (BigInt(OrZero(whole)), BigInt(PadFraction(frac)))
    case (Some(w), Some(f)) => Some(w * STROOPS_PER_UNIT + f)
    case _ => None
  }

  /** `toStroops`; None when it throws. */
  function ToStroops(s: Option<string>): Option<int> {
    if s.None? || s.value == "" then
      Some(0)
    else
      var str := Trim(s.value);
      if str != "" && str[0] == '-' then
        match PartsToStroops(str[1..])
        case Some(v) => Some(-v)
        case None => None
      else
        PartsToStroops(str)
  }

  /** `compareDecimal`: the sign of a - b; None when either side does not parse. */
  function CompareDecimal(a: Option<string>, b: Option<string>): Option<int> {
    match (ToStroops(a), ToStroops(b))
    case (Some(x), Some(y)) => Some(if x > y then 1 else if x < y then -1 else 0)
    case _ => None
  }

  /** `/^\d+(\.\d+)?$/` */
  predicate IsPlainDecimal(s: string) {
    var i := IndexOf(s, '.');
    && 0 < i
    && AllDigits(s[..i])
    && (i < |s| ==> i + 1 < |s| && AllDigits(s[i + 1..]))
  }

  function ParseStrictPositiveStroops(s: Option<string>): Option<int> {
    if s.None? then
      None
    else
      var str := Trim(s.value);
      if !IsPlainDecimal(str) then None
      else
        match ToStroops(Some(str))
        case Some(v) => if v > 0 then Some(v) else None
        case None => None
  }

  function StroopsToDecimal(n: int): string {
    var magnitude := if n < 0 then -n else n;
    (if n < 0 then "-" else "")
    + Text(magnitude / STROOPS_PER_UNIT) + "." + PadStart(Text(magnitude % STROOPS_PER_UNIT), PLACES)
  }

  /** The refund path's tolerant parser: anything but a plain decimal counts as zero. */
  function ToStroopsOrZero(s: Option<string>): int {
    if s.None? || s.value == "" then
      0
    else
      var str := Trim(s.value);
      if !IsPlainDecimal(str) then 0
      else
        match PartsToStroops(str)
        case Some(v) => v
        case None => 0
  }

  function ComputeUsdcRefundAmount(amountUsdc: Option<string>, excessUsdc: Option<string>): string {
    StroopsToDecimal(ToStroopsOrZero(amountUsdc) + ToStroopsOrZero(excessUsdc))
  }

  /** `isValidRefundAmount`: a plain decimal with a non-zero digit, which is what `parseFloat(s) > 0` asks. */
  predicate IsValidRefundAmount(s: Option<string>) {
    && s.Some?
    && s.value != ""
    && var str := Trim(s.value);
       IsPlainDecimal(str) && exists i :: 0 <= i < |str| && str[i] != '.' && str[i] != '0'
  }

  // ---------------------------------------------------------------------------
  // Digit strings
  // ---------------------------------------------------------------------------

  lemma {:induction false} DigitsValueAppend(a: string, b: string)
    requires AllDigits(a) && AllDigits(b)
    ensures AllDigits(a + b)
    ensures DigitsValue(a + b) == Shift(DigitsValue(a), |b|) + DigitsValue(b)
  {
    if b == "" {
      assert a + b == a;
    } else {
      var init, last := b[..|b| - 1], b[|b| - 1];
      DigitsValueAppend(a, init);
      assert (a + b)[..|a + b| - 1] == a + init;
      assert DigitsValue(a + b) == 10 * DigitsValue(a + init) + DigitValue(last);
    }
  }

  lemma {:induction false} DigitsValueBound(s: string)
    requires AllDigits(s)
    ensures DigitsValue(s) < Pow10(|s|)
  {
    if s != "" {
      DigitsValueBound(s[..|s| - 1]);
    }
  }

  lemma {:induction false} ZerosValue(k: nat)
    ensures AllDigits(Zeros(k)) && DigitsValue(Zeros(k)) == 0
  {
    if k > 0 {
      ZerosValue(k - 1);
      assert Zeros(k)[..k - 1] == Zeros(k - 1);
    }
  }

  lemma {:induction false} TextValue(n: nat)
    ensures DigitsValue(Text(n)) == n
  {
    if n >= 10 {
      TextValue(n / 10);
      assert Text(n)[..|Text(n)| - 1] == Text(n / 10);
    }
  }

  lemma {:induction false} TextLength(n: nat, k: nat)
    requires 1 <= k && n < Pow10(k)
    ensures |Text(n)| <= k
  {
    if n >= 10 {
      assert k > 1;
      assert n / 10 < Pow10(k - 1);
      TextLength(n / 10, k - 1);
    }
  }

  lemma Pow10Places()
    ensures Pow10(PLACES) == STROOPS_PER_UNIT
  {
    assert Pow10(3) == 1000;
    assert Pow10(6) == 1000 * Pow10(3);
  }

  lemma {:induction false} ZerosPrefix(k: nat, n: nat)
    requires k <= n
    ensures Zeros(n)[..k] == Zeros(k)
  {
    if k < n {
      ZerosPrefix(k, n - 1);
    }
  }

  lemma PadStartDigits(s: string, n: nat)
    requires AllDigits(s) && |s| <= n
    ensures |PadStart(s, n)| == n
    ensures AllDigits(PadStart(s, n)) && DigitsValue(PadStart(s, n)) == DigitsValue(s)
  {
    hide DigitsValue, Shift;
    var k := n - |s|;
    ZerosValue(k);
    ShiftZero(|s|);
    DigitsValueAppend(Zeros(k), s);
  }

  lemma {:induction false} ShiftZero(k: nat)
    ensures Shift(0, k) == 0
  {
    if k > 0 {
      ShiftZero(k - 1);
    }
  }

  lemma PadEndDigits(s: string, n: nat)
    requires AllDigits(s) && |s| <= n
    ensures PadEnd(s, n) == s + Zeros(n - |s|)
    ensures AllDigits(PadEnd(s, n)) && DigitsValue(PadEnd(s, n)) == Shift(DigitsValue(s), n - |s|)
  {
    hide DigitsValue, Shift;
    var k := n - |s|;
    ZerosPrefix(k, n);
    assert PadEnd(s, n) == s + Zeros(n)[..k];
    ZerosValue(k);
    DigitsValueAppend(s, Zeros(k));
  }

  /** A fraction below one unit prints as exactly seven digits with its own value. */
  lemma PadStartValue(n: nat)
    requires n < STROOPS_PER_UNIT
    ensures |PadStart(Text(n), PLACES)| == PLACES
    ensures AllDigits(PadStart(Text(n), PLACES))
    ensures DigitsValue(PadStart(Text(n), PLACES)) == n
  {
    Pow10Places();
    TextLength(n, PLACES);
    TextValue(n);
    PadStartDigits(Text(n), PLACES);
  }

  lemma {:induction false} TrimKeeps(s: string)
    requires s != "" && !IsSpace(s[0]) && !IsSpace(s[|s| - 1])
    ensures Trim(s) == s
  {
    assert TrimLeft(s) == s;
  }

  lemma BigIntOfDigits(s: string)
    requires AllDigits(s)
    ensures BigInt(s) == Some(DigitsValue(s))
  {
    if s != "" {
      TrimKeeps(s);
      if |s| >= 2 {
        assert IsDigit(s[1]);
      }
    }
  }

  lemma {:induction false} IndexOfFirst(a: string, c: char, rest: string)
    requires c !in a
    ensures IndexOf(a, c) == |a|
    ensures IndexOf(a + [c] + rest, c) == |a|
  {
    if a == "" {
      assert (a + [c] + rest)[0] == c;
    } else {
      IndexOfFirst(a[1..], c, rest);
      assert (a + [c] + rest)[1..] == a[1..] + [c] + rest;
    }
  }

  /** The seven-place fraction of a digit string, whatever its length. */
  function Fraction(frac: string): (v: nat)
    requires AllDigits(frac)
    ensures v < STROOPS_PER_UNIT
  {
    PadFractionDigits(frac);
    DigitsValue(PadFraction(frac))
  }

  lemma PadFractionDigits(frac: string)
    requires AllDigits(frac)
    ensures AllDigits(PadFraction(frac))
    ensures DigitsValue(PadFraction(frac)) < STROOPS_PER_UNIT
    ensures |frac| == PLACES ==> PadFraction(frac) == frac
  {
    Pow10Places();
    DigitsValueBound(PadFraction(frac));
  }

  /** The text of an unsigned number: `dot` keeps the point when nothing follows it, as in "5." and ".". */
  function Written(whole: string, frac: string, dot: bool): string {
    if dot || frac != "" then whole + "." + frac else whole
  }

  /** The text of an unsigned decimal; a fraction of "" stands for no dot at all. */
  function Plain(whole: string, frac: string): string {
    Written(whole, frac, false)
  }

  lemma TrimPlain(whole: string, frac: string)
    requires whole != "" && AllDigits(whole) && AllDigits(frac)
    ensures Trim(Plain(whole, frac)) == Plain(whole, frac)
    ensures IsDigit(Plain(whole, frac)[0])
  {
    var s := Plain(whole, frac);
    assert IsDigit(s[0]) && IsDigit(s[|s| - 1]);
    TrimKeeps(s);
  }

  lemma SplitWritten(whole: string, frac: string, dot: bool)
    requires AllDigits(whole) && AllDigits(frac)
    ensures SplitDot(Written(whole, frac, dot)) == (whole, frac)
    ensures whole != "" && (dot ==> frac != "") ==> IsPlainDecimal(Written(whole, frac, dot))
  {
    var s := Written(whole, frac, dot);
    IndexOfFirst(whole, '.', frac);
    if dot || frac != "" {
      IndexOfFirst(frac, '.', "");
      assert frac[..|frac|] == frac;
      assert s == whole + ['.'] + frac;
      assert s[..|whole|] == whole && s[|whole| + 1..] == frac;
    }
  }

  lemma BigIntOfParts(whole: string, frac: string)
    requires AllDigits(whole) && AllDigits(frac)
    ensures BigInt(OrZero(whole)) == Some(DigitsValue(whole))
    ensures BigInt(PadFraction(frac)) == Some(Fraction(frac))
  {
    BigIntOfDigits(OrZero(whole));
    PadFractionDigits(frac);
    BigIntOfDigits(PadFraction(frac));
  }

  /** Every string the strict pattern accepts is the text of a whole part and a fraction. */
  lemma PlainParts(s: string) returns (whole: string, frac: string)
    requires IsPlainDecimal(s)
    ensures whole != "" && AllDigits(whole) && AllDigits(frac)
    ensures s == Plain(whole, frac)
  {
    var i := IndexOf(s, '.');
    whole := s[..i];
    frac := if i < |s| then s[i + 1..] else "";
    if i < |s| {
      assert s == s[..i] + [s[i]] + s[i + 1..];
    }
  }

  function Stroops(whole: string, frac: string): nat
    requires AllDigits(whole) && AllDigits(frac)
  {
    DigitsValue(whole) * STROOPS_PER_UNIT + Fraction(frac)
  }

  lemma PartsOfWritten(whole: string, frac: string, dot: bool)
    requires AllDigits(whole) && AllDigits(frac)
    ensures PartsToStroops(Written(whole, frac, dot)) == Some(Stroops(whole, frac))
  {
    hide BigInt, DigitsValue, PadFraction, SplitDot, Written, Fraction;
    SplitWritten(whole, frac, dot);
    BigIntOfParts(whole, frac);
  }

  /** The text of a signed number. */
  function Decimal(whole: string, frac: string, dot: bool, negative: bool): string {
    if negative then "-" + Written(whole, frac, dot) else Written(whole, frac, dot)
  }

  lemma TrimDecimal(whole: string, frac: string, dot: bool, negative: bool)
    requires AllDigits(whole) && AllDigits(frac) && Decimal(whole, frac, dot, negative) != ""
    ensures var s := Decimal(whole, frac, dot, negative);
            Trim(s) == s && (s[0] == '-') == negative
  {
    var s := Decimal(whole, frac, dot, negative);
    assert forall i :: 0 <= i < |s| ==> IsDigit(s[i]) || s[i] == '.' || s[i] == '-';
    assert !negative ==> IsDigit(s[0]) || s[0] == '.';
    TrimKeeps(s);
  }

  lemma ToStroopsUnsigned(s: string, v: int)
    requires s != "" && Trim(s) == s && s[0] != '-' && PartsToStroops(s) == Some(v)
    ensures ToStroops(Some(s)) == Some(v)
  {
  }

  lemma ToStroopsNegated(s: string, t: string, v: int)
    requires t == "-" + s && Trim(t) == t && PartsToStroops(s) == Some(v)
    ensures ToStroops(Some(t)) == Some(-v)
  {
    hide PartsToStroops, Trim;
    assert t[1..] == s;
  }

  lemma ToStroopsOfDecimal(whole: string, frac: string, dot: bool, negative: bool)
    requires AllDigits(whole) && AllDigits(frac)
    ensures ToStroops(Some(Decimal(whole, frac, dot, negative)))
         == Some(if negative then -(Stroops(whole, frac) as int) else Stroops(whole, frac) as int)
  {
    hide PartsToStroops, ToStroops, Trim, Stroops;
    if Decimal(whole, frac, dot, negative) == "" {
      NothingIsZero(whole, frac);
    } else {
      TrimDecimal(whole, frac, dot, negative);
      PartsOfWritten(whole, frac, dot);
      if negative {
        ToStroopsNegated(Written(whole, frac, dot), Decimal(whole, frac, dot, true), Stroops(whole, frac));
      } else {
        ToStroopsUnsigned(Written(whole, frac, dot), Stroops(whole, frac));
      }
    }
  }

  lemma NothingIsZero(whole: string, frac: string)
    requires whole == "" && frac == ""
    ensures Stroops(whole, frac) == 0 && ToStroops(Some("")) == Some(0)
  {
    ZeroDigits(PadFraction(frac));
  }

  // ---------------------------------------------------------------------------
  // Main results
  // ---------------------------------------------------------------------------

  /** The printer's output as a decimal with seven places. */
  lemma PrintedMagnitude(m: nat) returns (whole: string, frac: string)
    ensures whole != "" && AllDigits(whole) && AllDigits(frac) && frac != ""
    ensures whole == Text(m / STROOPS_PER_UNIT) && frac == PadStart(Text(m % STROOPS_PER_UNIT), PLACES)
    ensures Stroops(whole, frac) == m
  {
    whole, frac := Text(m / STROOPS_PER_UNIT), PadStart(Text(m % STROOPS_PER_UNIT), PLACES);
    TextValue(m / STROOPS_PER_UNIT);
    PadStartValue(m % STROOPS_PER_UNIT);
    PadFractionDigits(frac);
  }

  lemma PrintedParts(n: int) returns (whole: string, frac: string)
    ensures whole != "" && AllDigits(whole) && AllDigits(frac) && frac != ""
    ensures StroopsToDecimal(n) == Decimal(whole, frac, true, n < 0)
    ensures Stroops(whole, frac) == if n < 0 then -n else n
  {
    hide Text, DigitsValue, PadFraction;
    whole, frac := PrintedMagnitude(if n < 0 then -n else n);
    var s := whole + "." + frac;
    assert "" + whole + "." + frac == s;
    assert "-" + whole + "." + frac == "-" + s;
  }

  /** Printing then parsing gives back every integer, negative ones included. */
  lemma RoundTrip(n: int)
    ensures ToStroops(Some(StroopsToDecimal(n))) == Some(n)
  {
    var whole, frac := PrintedParts(n);
    ToStroopsOfDecimal(whole, frac, true, n < 0);
  }

  /** What the printer makes of a non-negative amount is a plain decimal the refund path reads back. */
  lemma PrintedIsPlain(n: nat)
    ensures IsPlainDecimal(StroopsToDecimal(n))
    ensures Trim(StroopsToDecimal(n)) == StroopsToDecimal(n) != ""
    ensures ToStroopsOrZero(Some(StroopsToDecimal(n))) == n
  {
    var whole, frac := PrintedParts(n);
    SplitWritten(whole, frac, false);
    TrimPlain(whole, frac);
    PartsOfWritten(whole, frac, false);
  }

  /** On every strictly positive decimal the three parsers give the same number. */
  lemma ParsersAgree(s: Option<string>)
    requires ParseStrictPositiveStroops(s).Some?
    ensures ToStroops(s) == ParseStrictPositiveStroops(s)
    ensures ToStroopsOrZero(s) == ParseStrictPositiveStroops(s).value
  {
    var str := Trim(s.value);
    TrimEmpty(s.value);
    var whole, frac := PlainParts(str);
    TrimPlain(whole, frac);
    assert IsDigit(str[0]);
  }

  lemma TrimEmpty(s: string)
    ensures s == "" ==> Trim(s) == ""
  {
  }

  /** The number a signed decimal denotes. */
  ghost function Rational(whole: string, frac: string, negative: bool): real
    requires AllDigits(whole) && AllDigits(frac)
  {
    Pow10Positive(|frac|);
    var v := DigitsValue(whole) as real + DigitsValue(frac) as real / Pow10(|frac|) as real;
    if negative then -v else v
  }

  lemma {:induction false} Pow10Positive(k: nat)
    ensures Pow10(k) > 0
  {
    if k > 0 {
      Pow10Positive(k - 1);
    }
  }

  lemma {:induction false} Pow10Sum(a: nat, b: nat)
    ensures Pow10(a + b) == Pow10(a) * Pow10(b)
  {
    if b > 0 {
      Pow10Sum(a, b - 1);
    }
  }

  lemma Reassociate(a: int, p: int, q: int, u: int)
    requires p * q == u
    ensures a * p * q == a * u
  {
  }

  lemma {:induction false} ShiftIsProduct(v: nat, k: nat)
    ensures Shift(v, k) == v * Pow10(k)
  {
    if k > 0 {
      ShiftIsProduct(v, k - 1);
      var p := Pow10(k - 1);
      assert 10 * (v * p) == v * (10 * p);
    }
  }

  lemma Pow10Split(k: nat)
    requires k <= PLACES
    ensures Pow10(PLACES - k) * Pow10(k) == STROOPS_PER_UNIT
  {
    Pow10Sum(PLACES - k, k);
    Pow10Places();
  }

  /** Up to seven fractional digits, no precision is lost. */
  lemma FractionExact(frac: string)
    requires AllDigits(frac) && |frac| <= PLACES
    ensures Fraction(frac) * Pow10(|frac|) == DigitsValue(frac) * STROOPS_PER_UNIT
  {
    PadEndDigits(frac, PLACES);
    ShiftIsProduct(DigitsValue(frac), PLACES - |frac|);
    Pow10Split(|frac|);
    Reassociate(DigitsValue(frac), Pow10(PLACES - |frac|), Pow10(|frac|), STROOPS_PER_UNIT);
  }

  lemma ScaleOut(w: int, f: int, p: int, d: int, u: int)
    requires p > 0 && f * p == d * u
    ensures (w * u + f) as real == (w as real + d as real / p as real) * u as real
  {
    var x := d as real / p as real;
    assert x * p as real == d as real;
    assert f as real * p as real == (f * p) as real == (d * u) as real == d as real * u as real;
    assert f as real * p as real == x * u as real * p as real;
    assert f as real == x * u as real;
  }

  lemma MagnitudeIsRational(whole: string, frac: string)
    requires AllDigits(whole) && AllDigits(frac) && |frac| <= 7
    ensures Stroops(whole, frac) as real == Rational(whole, frac, false) * 10_000_000.0
  {
    hide Fraction, PadFraction, DigitsValue, Pow10;
    FractionExact(frac);
    Pow10Positive(|frac|);
    ScaleOut(DigitsValue(whole), Fraction(frac), Pow10(|frac|), DigitsValue(frac), STROOPS_PER_UNIT);
  }

  lemma {:induction false} NoLeadingZero(n: nat)
    ensures Text(n)[0] == '0' ==> n == 0 && Text(n) == "0"
  {
    if n >= 10 {
      NoLeadingZero(n / 10);
    }
  }

  /** What is printed: a sign if negative, a whole part without idle zeros, a point, seven digits; the value is n / 10^7. */
  lemma PrintedExactly(n: int) returns (whole: string, frac: string)
    ensures StroopsToDecimal(n) == (if n < 0 then "-" else "") + whole + "." + frac
    ensures whole != "" && AllDigits(whole) && (whole[0] == '0' ==> whole == "0")
    ensures |frac| == 7 && AllDigits(frac)
    ensures Rational(whole, frac, n < 0) * 10_000_000.0 == n as real
  {
    hide Text, DigitsValue, PadFraction, PadStart, Rational;
    var m := if n < 0 then -n else n;
    whole, frac := PrintedMagnitude(m);
    PadStartValue(m % STROOPS_PER_UNIT);
    NoLeadingZero(m / STROOPS_PER_UNIT);
    MagnitudeIsRational(whole, frac);
    NegatedRational(whole, frac);
  }

  lemma NegatedRational(whole: string, frac: string)
    requires AllDigits(whole) && AllDigits(frac)
    ensures Rational(whole, frac, true) == -Rational(whole, frac, false)
  {
  }

  /** Up to seven fractional digits, every spelling the parser takes ("5", "5.", ".5", "-5.25") is exact. */
  lemma StroopsAreRational(whole: string, frac: string, dot: bool, negative: bool)
    requires AllDigits(whole) && AllDigits(frac) && |frac| <= 7
    ensures ToStroops(Some(Decimal(whole, frac, dot, negative))).Some?
    ensures ToStroops(Some(Decimal(whole, frac, dot, negative))).value as real
         == Rational(whole, frac, negative) * 10_000_000.0
  {
    ToStroopsOfDecimal(whole, frac, dot, negative);
    MagnitudeIsRational(whole, frac);
  }

  /** `compareDecimal` is the exact order of rationals on decimals of at most seven places. */
  lemma CompareIsRationalOrder(w1: string, f1: string, d1: bool, n1: bool, w2: string, f2: string, d2: bool, n2: bool)
    requires AllDigits(w1) && AllDigits(f1) && |f1| <= 7
    requires AllDigits(w2) && AllDigits(f2) && |f2| <= 7
    ensures CompareDecimal(Some(Decimal(w1, f1, d1, n1)), Some(Decimal(w2, f2, d2, n2)))
         == Some(if Rational(w1, f1, n1) > Rational(w2, f2, n2) then 1
                 else if Rational(w1, f1, n1) < Rational(w2, f2, n2) then -1
                 else 0)
  {
    hide ToStroops, Decimal, Rational;
    StroopsAreRational(w1, f1, d1, n1);
    StroopsAreRational(w2, f2, d2, n2);
  }

  /** Longer fractions are cut, not rounded: the comparison sees the first seven places only. */
  lemma LongFractionsAreCut(whole: string, frac: string, tail: string, dot: bool, negative: bool)
    requires AllDigits(whole) && AllDigits(frac) && |frac| == 7 && AllDigits(tail)
    ensures CompareDecimal(Some(Decimal(whole, frac + tail, dot, negative)), Some(Decimal(whole, frac, dot, negative)))
         == Some(0)
  {
    assert PadFraction(frac + tail) == frac == PadFraction(frac);
    ToStroopsOfDecimal(whole, frac + tail, dot, negative);
    ToStroopsOfDecimal(whole, frac, dot, negative);
  }

  /** A printed amount passes the refund path's validity guard exactly when it is positive. */
  lemma PrintedIsRefundable(n: int)
    ensures IsValidRefundAmount(Some(StroopsToDecimal(n))) <==> n > 0
  {
    if n > 0 {
      PrintedIsPlain(n);
      PositiveIsRefundable(StroopsToDecimal(n));
    } else if n < 0 {
      NegativeIsRefused(n);
    } else {
      ZeroIsRefused();
    }
  }

  lemma NegativeIsRefused(n: int)
    requires n < 0
    ensures !IsValidRefundAmount(Some(StroopsToDecimal(n)))
  {
    hide Trim, StroopsToDecimal, Stroops, IsPlainDecimal;
    var whole, frac := PrintedParts(n);
    TrimDecimal(whole, frac, true, true);
    SignIsNotPlain(StroopsToDecimal(n));
  }

  lemma SignIsNotPlain(s: string)
    requires s != "" && s[0] == '-'
    ensures !IsPlainDecimal(s)
  {
    var i := IndexOf(s, '.');
    if 0 < i {
      assert s[..i][0] == '-';
    }
  }

  lemma ZeroIsRefused()
    ensures !IsValidRefundAmount(Some(StroopsToDecimal(0)))
  {
    hide Trim, IsPlainDecimal, ToStroopsOrZero, DigitsValue;
    var s := StroopsToDecimal(0);
    PrintedIsPlain(0);
    assert Text(0) == "0";
    ZeroText(6);
    assert s == "0." + (Zeros(6) + "0");
  }

  lemma {:induction false} ZeroText(k: nat)
    ensures forall i :: 0 <= i < |Zeros(k)| ==> Zeros(k)[i] == '0'
  {
    if k > 0 {
      ZeroText(k - 1);
    }
  }

  lemma PositiveIsRefundable(s: string)
    requires IsPlainDecimal(s) && Trim(s) == s && ToStroopsOrZero(Some(s)) > 0
    ensures IsValidRefundAmount(Some(s))
  {
    var whole, frac := PlainParts(s);
    PartsOfWritten(whole, frac, false);
    if forall i :: 0 <= i < |s| ==> s[i] == '.' || s[i] == '0' {
      AllZeroParts(whole, frac);
    }
  }

  lemma AllZeroParts(whole: string, frac: string)
    requires AllDigits(whole) && AllDigits(frac)
    requires forall i :: 0 <= i < |Plain(whole, frac)| ==> Plain(whole, frac)[i] in {'.', '0'}
    ensures Stroops(whole, frac) == 0
  {
    forall i | 0 <= i < |whole| ensures whole[i] == '0' {
      assert whole[i] == Plain(whole, frac)[i];
    }
    forall i | 0 <= i < |frac| ensures frac[i] == '0' {
      assert frac[i] == Plain(whole, frac)[|whole| + 1 + i];
    }
    ZeroDigits(whole);
    ZeroDigits(PadFraction(frac));
  }

  lemma {:induction false} ZeroDigits(s: string)
    requires forall i :: 0 <= i < |s| ==> s[i] == '0'
    ensures AllDigits(s) && DigitsValue(s) == 0
  {
    if s != "" {
      ZeroDigits(s[..|s| - 1]);
    }
  }
}
