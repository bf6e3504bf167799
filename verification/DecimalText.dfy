/** Which texts the backend takes for an amount, and for what amount: every string is decided, whatever its length. */
module DecimalText {
  import opened Results
  import opened Decimals

  predicate AllSpace(s: string) {
    forall i :: 0 <= i < |s| ==> IsSpace(s[i])
  }

  /** `s` is digits, or digits, a point and more digits, between any white space. */
  ghost predicate Denotes(s: string, whole: string, frac: string) {
    && whole != "" && AllDigits(whole) && AllDigits(frac)
    && exists a, b :: AllSpace(a) && AllSpace(b) && s == a + (if frac == "" then whole else whole + "." + frac) + b
  }

  /** `v` is the number of whole stroops in the number written, none of them rounded up. */
  ghost predicate Floors(v: int, whole: string, frac: string)
    requires AllDigits(whole) && AllDigits(frac)
  {
    v as real <= Rational(whole, frac, false) * 10_000_000.0 < v as real + 1.0
  }

  // ---------------------------------------------------------------------------
  // White space
  // ---------------------------------------------------------------------------

  lemma {:induction false} TrimLeftOf(a: string, t: string)
    requires AllSpace(a) && t != "" && !IsSpace(t[0])
    ensures TrimLeft(a + t) == t
  {
    if a == "" {
      assert a + t == t;
    } else {
      assert (a + t)[1..] == a[1..] + t;
      TrimLeftOf(a[1..], t);
    }
  }

  lemma {:induction false} TrimRightOf(t: string, b: string)
    requires AllSpace(b) && t != "" && !IsSpace(t[|t| - 1])
    ensures TrimRight(t + b) == t
  {
    if b == "" {
      assert t + b == t;
    } else {
      var n := |b| - 1;
      assert (t + b)[..|t + b| - 1] == t + b[..n];
      TrimRightOf(t, b[..n]);
    }
  }

  lemma {:induction false} TrimLeftSplits(s: string) returns (a: string)
    ensures AllSpace(a) && s == a + TrimLeft(s)
  {
    if s != "" && IsSpace(s[0]) {
      a := TrimLeftSplits(s[1..]);
      a := [s[0]] + a;
    } else {
      a := "";
    }
  }

  lemma {:induction false} TrimRightSplits(s: string) returns (b: string)
    ensures AllSpace(b) && s == TrimRight(s) + b
  {
    if s != "" && IsSpace(s[|s| - 1]) {
      b := TrimRightSplits(s[..|s| - 1]);
      b := b + [s[|s| - 1]];
    } else {
      b := "";
    }
  }

  lemma DenotesIsTrimmed(s: string, whole: string, frac: string)
    requires whole != "" && AllDigits(whole) && AllDigits(frac)
    ensures Denotes(s, whole, frac) <==> Trim(s) == Plain(whole, frac)
  {
    hide TrimLeft, TrimRight;
    var t := Plain(whole, frac);
    assert IsDigit(t[0]) && IsDigit(t[|t| - 1]);
    if Denotes(s, whole, frac) {
      var a, b :| AllSpace(a) && AllSpace(b) && s == a + t + b;
      assert s == a + (t + b);
      TrimLeftOf(a, t + b);
      TrimRightOf(t, b);
    }
    if Trim(s) == t {
      var a := TrimLeftSplits(s);
      var b := TrimRightSplits(TrimLeft(s));
      assert s == a + t + b;
    }
  }

  // ---------------------------------------------------------------------------
  // Values
  // ---------------------------------------------------------------------------

  lemma FractionOf(frac: string)
    requires AllDigits(frac) && |frac| > 7
    ensures PadFraction(frac) == frac[..7] == PadFraction(frac[..7])
  {
    assert frac[..7] + Zeros(7) == (frac + Zeros(7))[..7] + Zeros(7);
  }

  /** The digits past the seventh are worth less than a stroop. */
  lemma MagnitudeFloors(whole: string, frac: string)
    requires AllDigits(whole) && AllDigits(frac)
    ensures Floors(Stroops(whole, frac), whole, frac)
  {
    hide DigitsValue, PadFraction, Pow10, Rational, Fraction;
    if |frac| <= 7 {
      MagnitudeIsRational(whole, frac);
    } else {
      var kept, tail := frac[..7], frac[7..];
      assert frac == kept + tail;
      MagnitudeIsRational(whole, kept);
      SameFraction(frac);
      TailIsSmall(whole, kept, tail);
    }
  }

  lemma SameFraction(frac: string)
    requires AllDigits(frac) && |frac| > 7
    ensures Fraction(frac) == Fraction(frac[..7])
  {
    hide DigitsValue;
    FractionOf(frac);
  }

  lemma TailIsSmall(whole: string, kept: string, tail: string)
    requires AllDigits(whole) && AllDigits(kept) && AllDigits(tail) && |kept| == 7
    ensures AllDigits(kept + tail)
    ensures var r := Rational(whole, kept, false) * 10_000_000.0;
            r <= Rational(whole, kept + tail, false) * 10_000_000.0 < r + 1.0
  {
    hide DigitsValue, Pow10;
    var d, t, p := DigitsValue(kept), DigitsValue(tail), Pow10(|tail|);
    Pow10Positive(|tail|);
    Pow10Positive(7 + |tail|);
    Pow10Places();
    Pow10Sum(7, |tail|);
    DigitsValueAppend(kept, tail);
    ShiftIsProduct(d, |tail|);
    DigitsValueBound(tail);
    assert DigitsValue(kept + tail) == d * p + t;
    SmallQuotient(d, t, p);
  }

  lemma SmallQuotient(d: nat, t: nat, p: nat)
    requires t < p
    ensures var q, u := (d * p + t) as real / (10_000_000 * p) as real, d as real / 10_000_000.0;
            u * 10_000_000.0 <= q * 10_000_000.0 < u * 10_000_000.0 + 1.0
  {
    var dr, tr, pr := d as real, t as real, p as real;
    assert (d * p + t) as real == dr * pr + tr && (10_000_000 * p) as real == 10_000_000.0 * pr;
    Share(tr, pr);
    var y := (dr + tr / pr) / 10_000_000.0;
    assert y * (10_000_000.0 * pr) == dr * pr + tr by {
      Scaled(dr, tr / pr, pr);
    }
    Divides(dr * pr + tr, 10_000_000.0 * pr, y);
  }

  lemma Scaled(d: real, x: real, p: real)
    ensures (d + x) / 10_000_000.0 * (10_000_000.0 * p) == d * p + x * p
  {
  }

  lemma Share(t: real, p: real)
    requires 0.0 <= t < p
    ensures 0.0 <= t / p < 1.0 && t / p * p == t
  {
  }

  lemma Divides(n: real, m: real, y: real)
    requires m > 0.0 && y * m == n
    ensures n / m == y
  {
  }

  lemma {:induction false} DigitsPositive(s: string)
    requires AllDigits(s)
    ensures DigitsValue(s) > 0 <==> exists i :: 0 <= i < |s| && s[i] != '0'
  {
    if s != "" {
      var n := |s| - 1;
      DigitsPositive(s[..n]);
      if i :| 0 <= i < n && s[..n][i] != '0' {
        assert s[i] != '0';
      }
    }
  }

  lemma PositiveRational(whole: string, frac: string)
    requires AllDigits(whole) && AllDigits(frac)
    ensures Rational(whole, frac, false) >= 0.0
    ensures Rational(whole, frac, false) > 0.0 <==> DigitsValue(whole) > 0 || DigitsValue(frac) > 0
  {
    hide DigitsValue, Pow10;
    Pow10Positive(|frac|);
  }

  lemma NonZeroDigit(whole: string, frac: string)
    requires whole != "" && AllDigits(whole) && AllDigits(frac)
    ensures var s := Plain(whole, frac);
            (exists i :: 0 <= i < |s| && s[i] != '.' && s[i] != '0') <==> DigitsValue(whole) > 0 || DigitsValue(frac) > 0
  {
    hide DigitsValue;
    var s := Plain(whole, frac);
    DigitsPositive(whole);
    DigitsPositive(frac);
    if i :| 0 <= i < |whole| && whole[i] != '0' {
      assert s[i] != '0';
    }
    if i :| 0 <= i < |frac| && frac[i] != '0' {
      assert s[|whole| + 1 + i] == frac[i];
    }
    if i :| 0 <= i < |s| && s[i] != '.' && s[i] != '0' {
      if i < |whole| {
        assert whole[i] == s[i];
      } else {
        assert frac[i - |whole| - 1] == s[i];
      }
    }
  }

  // ---------------------------------------------------------------------------
  // Main results
  // ---------------------------------------------------------------------------

  /**
   * A text that denotes a number of any length reads as its whole stroops: the tolerant parser always, the
   * strict one when they are positive; and it passes the refund guard exactly when the number is not zero.
   */
  lemma AmountsAreRead(s: string, whole: string, frac: string)
    requires Denotes(s, whole, frac)
    ensures Floors(ToStroopsOrZero(Some(s)), whole, frac)
    ensures ParseStrictPositiveStroops(Some(s)) ==
            if ToStroopsOrZero(Some(s)) > 0 then Some(ToStroopsOrZero(Some(s))) else None
    ensures ToStroops(Some(s)) == Some(ToStroopsOrZero(Some(s)))
    ensures IsValidRefundAmount(Some(s)) <==> Rational(whole, frac, false) > 0.0
  {
    hide DigitsValue, PadFraction, Trim, PartsToStroops, Rational, Stroops;
    DenotesIsTrimmed(s, whole, frac);
    var t := Plain(whole, frac);
    SplitWritten(whole, frac, false);
    PartsOfWritten(whole, frac, false);
    TrimPlain(whole, frac);
    TrimEmpty(s);
    MagnitudeFloors(whole, frac);
    PositiveRational(whole, frac);
    NonZeroDigit(whole, frac);
  }

  /** Every other text is refused by the strict parser and the refund guard, and counts as zero for the tolerant one. */
  lemma OthersAreRefused(s: string)
    requires !exists whole, frac :: Denotes(s, whole, frac)
    ensures ToStroopsOrZero(Some(s)) == 0
    ensures ParseStrictPositiveStroops(Some(s)) == None
    ensures !IsValidRefundAmount(Some(s))
  {
    hide DigitsValue, PadFraction, Trim, PartsToStroops, IsPlainDecimal;
    if IsPlainDecimal(Trim(s)) {
      var whole, frac := PlainParts(Trim(s));
      DenotesIsTrimmed(s, whole, frac);
    }
  }
}
